/** Runs of three nodes that break State Machine Safety or Leader Completeness when a hypothesis of
    theirs is dropped. */
module NeededHypotheses {
  import opened Engine
  import opened RaftCluster
  import opened RaftStore
  import opened Replica
  import opened PersistHistory
  import opened ReplicaRuns
  import opened SampleRuns
  import StaleTailRun
  import LostEntryRun

  /** State Machine Safety and Leader Completeness do not hold of every crash-free run: here two nodes
      apply different commands at index 1, and node 1 has committed in term 2 an entry that the
      leader of term 2 does not have. */
  lemma AppliedCommandsCanDiffer() returns (states: seq<Cluster>, actions: seq<Action>)
    ensures |states| == |actions| + 1 && IsRun(IDS, states, actions) && CrashFree(actions)
    ensures var s := Last(states); Shape(IDS, s) && s.applied[1] == [(1, "A")] && s.applied[2] == [(1, "B")]
    ensures var a, b := Last(states).nodes[1], Last(states).nodes[2];
      && b.role.Leader? && b.term == a.term && a.commitIndex == 1 && |a.log| == 2 && |b.log| == 2
         && a.log[1] != b.log[1]
  {
    states, actions := StaleTailRun.OneCommits();
  }

  /** Leader Completeness fails of later terms too: the leader of term 2 commits an entry that nobody
      else holds, because a heartbeat was answered with the follower's last index, and the leader of
      term 3 does not have it. */
  lemma CommittedCanBeMissing() returns (states: seq<Cluster>, actions: seq<Action>)
    ensures |states| == |actions| + 1 && IsRun(IDS, states, actions) && CrashFree(actions) && Shape(IDS, Last(states))
    ensures var n, l := Last(states).nodes[2], Last(states).nodes[1];
      && n.commitIndex == 1 && n.term == 2 && |n.log| == 2 && Last(states).applied[2] == [(1, n.log[1].command)]
      && l.role.Leader? && l.term == 3 && |l.log| == 2 && l.log[1] != n.log[1]
  {
    states, actions := StaleTailRun.OneLeadsAgain();
  }

  /** State Machine Safety needs restarts that lose nothing: no request of this run leaves a stale
      tail, its one restart finds exactly what the engine of node 2 holds, and yet nodes 1 and 3
      apply different commands at index 1. */
  lemma EntryLostToRestart(c: Serializer, parse: Parser, db: Store)
    returns (states: seq<Cluster>, actions: seq<Action>, at: nat)
    requires Lossless(c) && ClientOnly(parse) && LogRegion(db) == {}
    ensures |states| == |actions| + 1 && IsRun(IDS, states, actions) && AllCareful(states, actions)
    ensures at < |actions| && actions[at] == LostEntryRun.DEATH
    ensures forall k :: 0 <= k < |actions| && k != at ==> actions[k].Run?
    ensures var h := History(IDS, states, actions, 2, at + 1);
      LostEntryRun.DEATH.recovered == StoredEntries(c, EffectedAll(c, parse, db, h))
    ensures var s := Last(states); Shape(IDS, s) && s.applied[1] == [(1, "A")] && s.applied[3] == [(1, "B")]
  {
    hide LogWrites, Lossless, ClientOnly, StoredEntries, EffectedAll, History, Step, Shape;
    states, actions, at := LostEntryRun.ThreeCommits();
    LostEntryRun.EngineForgets(c, parse, db, History(IDS, states, actions, 2, at + 1));
  }
}
