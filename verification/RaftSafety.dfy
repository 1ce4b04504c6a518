/** What every run of the cluster keeps, when restarts find the log they wrote. */
module RaftSafety {
  import opened RaftTypes
  import opened RaftCluster
  import opened LogShape
  import opened LogMatching
  import opened CrashMoves
  import opened LeaderCompleteness
  import opened StateMachineSafety

  /** Log Matching: in every state of every run whose restarts read back the log they wrote, two logs
      that hold the same term at the same index are identical up to that index. */
  lemma LogsMatch(ids: set<NodeId>, states: seq<Cluster>, actions: seq<Action>, k: nat, p: NodeId, q: NodeId, i: nat)
    requires IsRun(ids, states, actions) && Restoring(ids, states, actions) && k < |states|
    requires p in states[k].nodes && q in states[k].nodes
    requires var a, b := states[k].nodes[p].log, states[k].nodes[q].log; i < |a| && i < |b| && a[i].term == b[i].term
    ensures states[k].nodes[p].log[..i + 1] == states[k].nodes[q].log[..i + 1]
  {
    hide Step, Intact;
    RunKeepsLogs(ids, states, actions, k);
    var s := states[k];
    assert NodeLogOk(s, p) && NodeLogOk(s, q);
    SameTermAgree(s.tenures, s.nodes[p].log, s.nodes[q].log, i);
  }

  /** State Machine Safety: whatever two nodes apply at one index, whenever they do and however often
      they restart, is one command. */
  lemma SameCommandsApplied(ids: set<NodeId>, states: seq<Cluster>, actions: seq<Action>,
                            i: nat, p: NodeId, x: (nat, Command), j: nat, q: NodeId, y: (nat, Command))
    requires FaithfulRun(ids, states, actions) && i < |states| && j < |states|
    requires p in ids && q in ids && p in states[i].applied && q in states[j].applied
    requires x in states[i].applied[p] && y in states[j].applied[q] && x.0 == y.0
    ensures x.1 == y.1
  {
    hide Step, Intact, Careful, CoreInv, CommitOk, MatchOk, RequestCommitOk, Vouched;
    var n := if i < j then j else i;
    RunIsLater(ids, states, actions, i, n);
    RunIsLater(ids, states, actions, j, n);
    RunKeepsSafety(ids, states, actions, n);
    assert AppliedOk(ids, states[n], p) && AppliedOk(ids, states[n], q);
    assert Vouched(ids, states[n], x) && Vouched(ids, states[n], y);
    VouchedAgree(ids, states[n], x, y);
  }

  /** Leader Completeness: what a node had committed is in the log of every leader of the same or a
      later term, from then on. */
  lemma CommittedInLaterLeaders(ids: set<NodeId>, states: seq<Cluster>, actions: seq<Action>,
                                i: nat, p: NodeId, j: nat, l: NodeId)
    requires FaithfulRun(ids, states, actions) && i <= j < |states|
    requires p in ids && l in ids && p in states[i].nodes && l in states[j].nodes
    requires states[j].nodes[l].role.Leader? && states[j].nodes[l].term >= states[i].nodes[p].term
    ensures var n := states[i].nodes[p]; n.commitIndex < |n.log| && n.log[..n.commitIndex + 1] <= states[j].nodes[l].log
  {
    hide Step, SafetyInv, FaithfulRun, Later, CommitOk, NodeLogOk;
    RunIsLater(ids, states, actions, i, j);
    RunCommits(ids, states, actions, i, p);
    RunKeepsSafety(ids, states, actions, j);
    SafetyLogs(ids, states[j]);
    CommittedInLeader(ids, states[i], states[j], p, l);
  }
}
