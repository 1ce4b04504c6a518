/** Leader Completeness for leaders observed at any time, before the commit as well as after it. */
module EveryLaterLeader {
  import opened RaftTypes
  import opened RaftCluster
  import opened ElectionSafety
  import opened LogShape
  import opened LogMatching
  import opened CrashMoves
  import opened LeaderCompleteness
  import opened StateMachineSafety
  import opened RaftSafety

  /** `b` extends `a` by entries of term `u`. */
  ghost predicate OwnTail(a: seq<Entry>, b: seq<Entry>, u: nat) {
    a <= b && forall x :: |a| <= x < |b| ==> b[x].term == u
  }

  ghost predicate OwnTails(a: map<nat, Tenure>, b: map<nat, Tenure>) {
    forall u {:trigger a[u]} :: u in a ==> u in b && OwnTail(a[u].log, b[u].log, u)
  }

  /** A leader's log grows only by entries of its own term. */
  lemma StepOwnTail(ids: set<NodeId>, s: Cluster, ev: Event, p: NodeId, s': Cluster, u: nat)
    requires LogInv(ids, s) && Moved(ids, s, ev, p, s') && ElectionInv(ids, s') && u in s.tenures
    ensures u in s'.tenures && OwnTail(s.tenures[u].log, s'.tenures[u].log, u)
  {
    hide ElectionInv, TenureOk, AppendOk;
    var n, m := s.nodes[p], s'.nodes[p];
    if m.role.Leader? && m.term == u {
      assert NodeLogOk(s, p);
      LeaderAppends(ids, s, ev, p, s');
      if !n.role.Leader? { FreshTerm(ids, s, s', p); }
    }
  }

  lemma StepOwnTails(ids: set<NodeId>, s: Cluster, a: Action, s': Cluster)
    requires LogInv(ids, s) && Step(ids, s, a, s') && Intact(ids, s, a)
    ensures OwnTails(s.tenures, s'.tenures)
  {
    hide Step, Intact, Goes, Moved, Midway, OwnTail, ElectionInv;
    StepMoves(ids, s, a, s');
    var mid := Midway(ids, s, a);
    forall u | u in s.tenures ensures u in mid.tenures && OwnTail(s.tenures[u].log, mid.tenures[u].log, u) {
      StepOwnTail(ids, s, a.event, Actor(ids, s, a.event), mid, u);
    }
    assert s'.tenures == mid.tenures;
  }

  lemma OwnTailsTrans(a: map<nat, Tenure>, b: map<nat, Tenure>, c: map<nat, Tenure>)
    requires OwnTails(a, b) && OwnTails(b, c)
    ensures OwnTails(a, c)
  {
    forall u | u in a ensures u in c && OwnTail(a[u].log, c[u].log, u) {
      assert OwnTail(a[u].log, b[u].log, u) && OwnTail(b[u].log, c[u].log, u);
      forall x | |a[u].log| <= x < |c[u].log| ensures c[u].log[x].term == u {
        if x < |b[u].log| { assert c[u].log[x] == b[u].log[x]; }
      }
    }
  }

  lemma OwnTailsSelf(a: map<nat, Tenure>)
    ensures OwnTails(a, a)
  {
  }

  lemma {:induction false} RunOwnTails(ids: set<NodeId>, states: seq<Cluster>, actions: seq<Action>, i: nat, j: nat)
    requires IsRun(ids, states, actions) && Restoring(ids, states, actions) && i <= j < |states|
    ensures OwnTails(states[i].tenures, states[j].tenures)
    decreases j
  {
    hide Step, Intact, LogInv, OwnTails;
    if i == j {
      OwnTailsSelf(states[i].tenures);
    } else {
      RunOwnTails(ids, states, actions, i, j - 1);
      RunKeepsLogs(ids, states, actions, j - 1);
      StepOwnTails(ids, states[j - 1], actions[j - 1], states[j]);
      OwnTailsTrans(states[i].tenures, states[j - 1].tenures, states[j].tenures);
    }
  }

  /** An entry of an older term in the leader's final log was there at any time of its term. */
  lemma AlreadyThere(early: seq<Entry>, late: seq<Entry>, log: seq<Entry>, u: nat, c: nat)
    requires OwnTail(early, late, u) && Agree(log, late, c) && log[c].term < u
    ensures c < |early| && log[..c + 1] <= early
  {
    assert log[c] == late[c];
  }

  lemma LeaderTenure(ids: set<NodeId>, s: Cluster, l: NodeId)
    requires LogInv(ids, s) && s.nodes.Keys == ids && l in ids && s.nodes[l].role.Leader?
    ensures s.nodes[l].term in s.tenures && s.tenures[s.nodes[l].term].log == s.nodes[l].log
  {
    hide ElectionInv, TenureOk, AppendOk;
    assert NodeLogOk(s, l);
  }

  /** What a node committed is in the log of every later term's leader so far. */
  lemma CommittedInTenure(ids: set<NodeId>, s: Cluster, p: NodeId, u: nat)
    requires SafetyInv(ids, s) && s.nodes.Keys == ids && p in ids && u in s.tenures && u > s.nodes[p].term
    ensures var n := s.nodes[p]; Agree(n.log, s.tenures[u].log, n.commitIndex) && n.log[n.commitIndex].term < u
  {
    hide ElectionInv, TenureOk, AppendOk, Backed, Later, AckOk, RequestTrue, Kept, Inherited, VoteCarries;
    var n := s.nodes[p];
    assert NodeLogOk(s, p) && CommitOk(ids, s, p);
    LaterSelf(ids, s);
    BackedInLeader(ids, s, s, n.log, n.term, n.commitIndex, u);
  }

  lemma LeaderBefore(ids: set<NodeId>, early: Cluster, late: Cluster, p: NodeId, l: NodeId)
    requires LogInv(ids, early) && SafetyInv(ids, late) && OwnTails(early.tenures, late.tenures)
    requires early.nodes.Keys == ids && late.nodes.Keys == ids && p in ids && l in ids
    requires early.nodes[l].role.Leader? && early.nodes[l].term > late.nodes[p].term
    ensures var n := late.nodes[p]; n.commitIndex < |n.log| && n.log[..n.commitIndex + 1] <= early.nodes[l].log
  {
    hide LogInv, SafetyInv, OwnTail;
    var n, u := late.nodes[p], early.nodes[l].term;
    LeaderTenure(ids, early, l);
    assert OwnTail(early.tenures[u].log, late.tenures[u].log, u);
    CommittedInTenure(ids, late, p, u);
    AlreadyThere(early.tenures[u].log, late.tenures[u].log, n.log, u, n.commitIndex);
  }

  /** Leader Completeness: whatever a node has committed by some time is in the log of every leader of
      a later term, at every time of the run, even before the commit. */
  lemma CommittedInEveryLaterLeader(ids: set<NodeId>, states: seq<Cluster>, actions: seq<Action>,
                                    i: nat, p: NodeId, j: nat, l: NodeId)
    requires FaithfulRun(ids, states, actions) && i < |states| && j < |states|
    requires p in ids && l in ids && p in states[i].nodes && l in states[j].nodes
    requires states[j].nodes[l].role.Leader? && states[j].nodes[l].term > states[i].nodes[p].term
    ensures var n := states[i].nodes[p]; n.commitIndex < |n.log| && n.log[..n.commitIndex + 1] <= states[j].nodes[l].log
  {
    hide Step, Intact, Careful, SafetyInv, LogInv, OwnTails;
    if i <= j {
      CommittedInLaterLeaders(ids, states, actions, i, p, j, l);
    } else {
      RunKeepsLogs(ids, states, actions, j);
      RunKeepsSafety(ids, states, actions, i);
      RunIsLater(ids, states, actions, j, i);
      RunOwnTails(ids, states, actions, j, i);
      LeaderBefore(ids, states[j], states[i], p, l);
    }
  }
}
