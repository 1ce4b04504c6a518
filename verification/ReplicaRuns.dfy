/** The engines behind the nodes of a run: what clients see of them, and what a restart reads. */
module ReplicaRuns {
  import opened Engine
  import opened RaftTypes
  import opened RaftSteps
  import opened RaftCluster
  import opened ElectionSafety
  import opened CrashMoves
  import opened CallPhases
  import opened ApplyOrder
  import opened StateMachineSafety
  import opened RaftSafety
  import opened RaftStore
  import opened Replica
  import opened PersistHistory

  // ----- Every callback a node has made -----

  /** What `p` does in one action. */
  ghost function Part(ids: set<NodeId>, s: Cluster, a: Action, p: NodeId): seq<Effect> {
    if Shape(ids, s) && Enabled(ids, s, a.event) && Actor(ids, s, a.event) == p
       && (a.CrashDuring? ==> a.done <= |Local(ids, s, a.event).effects|)
    then Done(ids, s, a) else []
  }

  /** The callbacks `p` has made by `states[k]`, over all its lives. */
  ghost function History(ids: set<NodeId>, states: seq<Cluster>, actions: seq<Action>, p: NodeId, k: nat): seq<Effect>
    requires k <= |actions| && k < |states|
  {
    if k == 0 then [] else History(ids, states, actions, p, k - 1) + Part(ids, states[k - 1], actions[k - 1], p)
  }

  /** What the records of the run hold for `p` is read off its callbacks. */
  ghost predicate Recorded(s: Cluster, p: NodeId, h: seq<Effect>)
    requires p in s.applied && p in s.disks
  {
    s.applied[p] == Applied(h) && s.disks[p] == RaftCluster.Written(Disk(0, 0), h)
  }

  lemma StepRecords(ids: set<NodeId>, s: Cluster, a: Action, s': Cluster, p: NodeId)
    requires Step(ids, s, a, s') && p in ids
    ensures p in s.applied && p in s'.applied && p in s.disks && p in s'.disks
    ensures s'.applied[p] == s.applied[p] + Applied(Part(ids, s, a, p))
    ensures s'.disks[p] == RaftCluster.Written(s.disks[p], Part(ids, s, a, p))
  {
    hide Local;
    var es := Local(ids, s, a.event).effects;
    assert es[..|es|] == es;
  }

  lemma {:induction false} HistoryRecorded(ids: set<NodeId>, states: seq<Cluster>, actions: seq<Action>, p: NodeId,
                                           k: nat)
    requires IsRun(ids, states, actions) && p in ids && k < |states|
    ensures p in states[k].applied && p in states[k].disks
    ensures Recorded(states[k], p, History(ids, states, actions, p, k))
  {
    hide Step, Part;
    if k > 0 {
      HistoryRecorded(ids, states, actions, p, k - 1);
      StepRecords(ids, states[k - 1], actions[k - 1], states[k], p);
      var h, more := History(ids, states, actions, p, k - 1), Part(ids, states[k - 1], actions[k - 1], p);
      AppliedConcat(h, more);
      WrittenConcat(Disk(0, 0), h, more);
    }
  }

  // ----- What a node has applied since it last started -----

  ghost predicate Counts(done: seq<(nat, Command)>) {
    forall k :: 0 <= k < |done| ==> done[k].0 == k + 1
  }

  /** Since its last start the node has applied 1, 2, ..., lastApplied, whatever it did in earlier lives. */
  ghost predicate ThisLife(s: Cluster, p: NodeId)
    requires p in s.nodes && p in s.applied
  {
    var m, done := s.nodes[p].lastApplied, s.applied[p];
    m <= |done| && Counts(done[|done| - m..])
  }

  lemma LifeGoesOn(before: seq<(nat, Command)>, start: nat, n: Node, done: seq<(nat, Command)>)
    requires start <= |before| && Counts(before[|before| - start..]) && InOrder(start, n, done)
    ensures var all := before + done; n.lastApplied <= |all| && Counts(all[|all| - n.lastApplied..])
  {
    var all := before + done;
    assert all[|all| - n.lastApplied..] == before[|before| - start..] + done;
  }

  lemma StepThisLife(ids: set<NodeId>, s: Cluster, a: Action, s': Cluster, p: NodeId)
    requires Step(ids, s, a, s') && p in ids && p in s.nodes && p in s.applied && ThisLife(s, p)
    ensures p in s'.nodes && p in s'.applied && ThisLife(s', p)
  {
    hide Local;
    if p == Actor(ids, s, a.event) {
      if a.Run? {
        LocalApplies(ids, s, a.event);
        LifeGoesOn(s.applied[p], s.nodes[p].lastApplied, s'.nodes[p], Applied(Local(ids, s, a.event).effects));
      } else {
        assert s'.nodes[p].lastApplied == 0;
      }
    }
  }

  lemma StartThisLife(ids: set<NodeId>, s: Cluster, p: NodeId)
    requires Init(ids, s) && p in ids
    ensures p in s.nodes && p in s.applied && ThisLife(s, p)
  {
    assert s.nodes[p].lastApplied == 0 && s.applied[p] == [];
  }

  lemma {:induction false} RunThisLife(ids: set<NodeId>, states: seq<Cluster>, actions: seq<Action>, p: NodeId, k: nat)
    requires IsRun(ids, states, actions) && p in ids && k < |states|
    ensures p in states[k].nodes && p in states[k].applied && ThisLife(states[k], p)
  {
    hide Step, Init, ThisLife;
    if k == 0 {
      StartThisLife(ids, states[0], p);
    } else {
      RunThisLife(ids, states, actions, p, k - 1);
      StepThisLife(ids, states[k - 1], actions[k - 1], states[k], p);
    }
  }

  // ----- Replicas agree -----

  /** Nothing the node applied in an earlier life is beyond what it has applied in this one. */
  ghost predicate CaughtUp(s: Cluster, p: NodeId)
    requires p in s.nodes && p in s.applied
  {
    forall k :: 0 <= k < |s.applied[p]| ==> s.applied[p][k].0 <= s.nodes[p].lastApplied
  }

  ghost function Life(s: Cluster, p: NodeId): seq<(nat, Command)>
    requires p in s.nodes && p in s.applied && s.nodes[p].lastApplied <= |s.applied[p]|
  {
    s.applied[p][|s.applied[p]| - s.nodes[p].lastApplied..]
  }

  lemma AppliedPositive(ids: set<NodeId>, states: seq<Cluster>, actions: seq<Action>, k: nat, p: NodeId,
                        x: (nat, Command))
    requires FaithfulRun(ids, states, actions) && k < |states| && p in ids
    requires p in states[k].applied && x in states[k].applied[p]
    ensures x.0 >= 1
  {
    hide Step, Intact, Careful, CommitOk, MatchOk, RequestCommitOk;
    RunKeepsSafety(ids, states, actions, k);
    assert AppliedOk(ids, states[k], p);
    assert Vouched(ids, states[k], x);
  }

  /** What a node applied in earlier lives occurs in what it has applied in this one. */
  lemma EarlierLives(ids: set<NodeId>, states: seq<Cluster>, actions: seq<Action>, k: nat, p: NodeId, i: nat)
    requires FaithfulRun(ids, states, actions) && k < |states| && p in ids
    requires p in states[k].nodes && p in states[k].applied && ThisLife(states[k], p) && CaughtUp(states[k], p)
    requires i < |states[k].applied[p]|
    ensures states[k].applied[p][i] in Life(states[k], p)
  {
    hide FaithfulRun;
    var done, m := states[k].applied[p], states[k].nodes[p].lastApplied;
    var x := done[i];
    assert x in done;
    AppliedPositive(ids, states, actions, k, p, x);
    var y := Life(states[k], p)[x.0 - 1];
    assert y == done[|done| - m + (x.0 - 1)] && y in done;
    SameCommandsApplied(ids, states, actions, k, p, x, k, p, y);
  }

  /** The store of a caught-up node shows the commands of this life, applied once. */
  lemma CaughtUpView(c: Serializer, parse: Parser, db: Store, ids: set<NodeId>, states: seq<Cluster>,
                     actions: seq<Action>, k: nat, p: NodeId)
    requires FaithfulRun(ids, states, actions) && k < |states| && k <= |actions| && p in ids && ClientOnly(parse)
    requires p in states[k].nodes && p in states[k].applied && ThisLife(states[k], p) && CaughtUp(states[k], p)
    ensures View(EffectedAll(c, parse, db, History(ids, states, actions, p, k)))
      == Fold(parse, View(db), Commands(Life(states[k], p)))
  {
    hide Step, Intact, Careful, History, EffectedAll, Fold, View, ClientOnly, CaughtUp, ThisLife;
    var done := states[k].applied[p];
    LifeFits(states[k], p);
    var cutAt := |done| - states[k].nodes[p].lastApplied;
    HistoryRecorded(ids, states, actions, p, k);
    ClientSeesFold(c, parse, db, History(ids, states, actions, p, k));
    var earlier, cmds := Commands(done[..cutAt]), Commands(Life(states[k], p));
    assert Commands(done) == earlier + cmds;
    FoldConcat(parse, View(db), earlier, cmds);
    forall i | 0 <= i < |earlier| ensures earlier[i] in cmds {
      EarlierLives(ids, states, actions, k, p, i);
      var j :| 0 <= j < |Life(states[k], p)| && Life(states[k], p)[j] == done[i];
      assert cmds[j] == earlier[i];
    }
    ReplayForgets(parse, View(db), earlier, cmds);
  }

  lemma LifeFits(s: Cluster, p: NodeId)
    requires p in s.nodes && p in s.applied && ThisLife(s, p)
    ensures s.nodes[p].lastApplied <= |s.applied[p]|
  {
  }

  lemma SameLife(ids: set<NodeId>, states: seq<Cluster>, actions: seq<Action>, i: nat, p: NodeId, j: nat, q: NodeId)
    requires FaithfulRun(ids, states, actions) && i < |states| && j < |states| && p in ids && q in ids
    requires p in states[i].nodes && p in states[i].applied && ThisLife(states[i], p)
    requires q in states[j].nodes && q in states[j].applied && ThisLife(states[j], q)
    requires states[i].nodes[p].lastApplied == states[j].nodes[q].lastApplied
    ensures Life(states[i], p) == Life(states[j], q)
  {
    hide FaithfulRun;
    var a, b := Life(states[i], p), Life(states[j], q);
    forall k | 0 <= k < |a| ensures a[k] == b[k] {
      assert a[k] in a && b[k] in b;
      SameCommandsApplied(ids, states, actions, i, p, a[k], j, q, b[k]);
    }
  }

  /** The engines of two nodes that have caught up to the same index show clients the same store,
      whenever each is looked at, however often the nodes died and wherever in a call. */
  lemma ReplicasAgree(c: Serializer, parse: Parser, db: Store, ids: set<NodeId>, states: seq<Cluster>,
                      actions: seq<Action>, i: nat, p: NodeId, j: nat, q: NodeId)
    requires FaithfulRun(ids, states, actions) && i <= |actions| && j <= |actions| && |states| == |actions| + 1
    requires ClientOnly(parse) && p in ids && q in ids
    requires p in states[i].nodes && p in states[i].applied && CaughtUp(states[i], p)
    requires q in states[j].nodes && q in states[j].applied && CaughtUp(states[j], q)
    requires states[i].nodes[p].lastApplied == states[j].nodes[q].lastApplied
    ensures View(EffectedAll(c, parse, db, History(ids, states, actions, p, i)))
      == View(EffectedAll(c, parse, db, History(ids, states, actions, q, j)))
  {
    hide Step, Intact, Careful, History, EffectedAll, Fold, View, ClientOnly, CaughtUp, ThisLife;
    RunThisLife(ids, states, actions, p, i);
    RunThisLife(ids, states, actions, q, j);
    CaughtUpView(c, parse, db, ids, states, actions, i, p);
    CaughtUpView(c, parse, db, ids, states, actions, j, q);
    LifeFits(states[i], p);
    LifeFits(states[j], q);
    SameLife(ids, states, actions, i, p, j, q);
  }

  // ----- What a restart reads -----

  lemma {:induction false} StoredConcat(log: seq<Entry>, a: seq<Effect>, b: seq<Effect>)
    ensures StoredLog(log, a + b) == StoredLog(StoredLog(log, a), b)
  {
    if b == [] {
      assert a + b == a;
    } else {
      assert (a + b)[..|a + b| - 1] == a + b[..|b| - 1];
      StoredConcat(log, a, b[..|b| - 1]);
    }
  }

  lemma StepStores(ids: set<NodeId>, s: Cluster, a: Action, s': Cluster, p: NodeId)
    requires Step(ids, s, a, s') && Intact(ids, s, a) && p in ids
    ensures p in s.nodes && p in s'.nodes && |s.nodes[p].log| >= 1 && |s'.nodes[p].log| >= 1
    ensures s'.nodes[p].log[1..] == StoredLog(s.nodes[p].log[1..], Part(ids, s, a, p))
  {
    hide Local, Interrupted, Recover, Phased;
    StepKeepsShape(ids, s, a, s');
    if p == Actor(ids, s, a.event) {
      var es := Local(ids, s, a.event).effects;
      assert es[..|es|] == es;
      LocalPhased(ids, s, a.event);
      if a.Run? {
        CallStores(s.nodes[p], Local(ids, s, a.event));
      } else {
        CrashParts(ids, s, a, s');
        RecoverReads(Left(ids, s, a).1, Left(ids, s, a).0, a.recovered);
      }
    }
  }

  /** As long as restarts read back the log written, the log in memory is the log last written. */
  lemma {:induction false} MemoryIsStored(ids: set<NodeId>, states: seq<Cluster>, actions: seq<Action>, p: NodeId,
                                          k: nat)
    requires IsRun(ids, states, actions) && p in ids && k < |states|
    requires forall j {:trigger actions[j]} :: 0 <= j < k ==> Intact(ids, states[j], actions[j])
    ensures p in states[k].nodes && |states[k].nodes[p].log| >= 1
    ensures states[k].nodes[p].log[1..] == StoredLog([], History(ids, states, actions, p, k))
  {
    hide Step, Part, Intact;
    if k == 0 {
      assert states[0].nodes[p] == Fresh(p, states[0].nodes[p].peers);
    } else {
      MemoryIsStored(ids, states, actions, p, k - 1);
      assert Intact(ids, states[k - 1], actions[k - 1]);
      StepStores(ids, states[k - 1], actions[k - 1], states[k], p);
      StoredConcat([], History(ids, states, actions, p, k - 1), Part(ids, states[k - 1], actions[k - 1], p));
    }
  }

  /** The crash model's restart against the engine: term and vote are those the engine gives, and when
      the entries are too, the restart loses nothing iff every entry last written has an odd streak. */
  lemma RestartReadsEngine(c: Serializer, parse: Parser, db: Store, ids: set<NodeId>, states: seq<Cluster>,
                           actions: seq<Action>, k: nat, p: NodeId)
    requires IsRun(ids, states, actions) && k < |actions| && actions[k].CrashDuring? && p in ids
    requires forall j {:trigger actions[j]} :: 0 <= j < k ==> Intact(ids, states[j], actions[j])
    requires Enabled(ids, states[k], actions[k].event) && p == Actor(ids, states[k], actions[k].event)
    requires Lossless(c) && ClientOnly(parse) && LogRegion(db) == {}
    requires ReadNumber(db, TERM_KEY) == Some(0) && ReadNumber(db, VOTE_KEY) == Some(0)
    requires AllStorable(LogWrites(History(ids, states, actions, p, k + 1)))
    ensures var h := History(ids, states, actions, p, k + 1); var r := Recovered(c, EffectedAll(c, parse, db, h));
      && r.Some? && p in states[k + 1].disks && states[k + 1].disks[p] == Disk(r.value.term, r.value.vote)
      && (actions[k].recovered == r.value.entries ==>
            (Intact(ids, states[k], actions[k]) <==>
               forall i :: 0 <= i < |StoredLog([], h)| ==> Streak(LogWrites(h), StoredLog([], h)[i].index) % 2 == 1))
  {
    hide Step, Local, Intact, History, Lossless, ClientOnly, EffectedAll, Recovered, Streak, LogWrites, ReadNumber,
      RaftCluster.Written, StoredLog;
    var h := History(ids, states, actions, p, k + 1);
    HistoryRecorded(ids, states, actions, p, k + 1);
    RecoverAfterHistory(c, parse, db, Disk(0, 0), h);
    IntactMeans(ids, states, actions, p, k);
  }

  lemma IntactMeans(ids: set<NodeId>, states: seq<Cluster>, actions: seq<Action>, p: NodeId, k: nat)
    requires IsRun(ids, states, actions) && k < |actions| && actions[k].CrashDuring? && p in ids
    requires forall j {:trigger actions[j]} :: 0 <= j < k ==> Intact(ids, states[j], actions[j])
    requires Enabled(ids, states[k], actions[k].event) && p == Actor(ids, states[k], actions[k].event)
    ensures Intact(ids, states[k], actions[k]) <==>
      actions[k].recovered == StoredLog([], History(ids, states, actions, p, k + 1))
  {
    hide Step, StoredLog, Local;
    MemoryIsStored(ids, states, actions, p, k);
    StepBounds(ids, states[k], actions[k], states[k + 1]);
    StoredConcat([], History(ids, states, actions, p, k), Part(ids, states[k], actions[k], p));
  }

  lemma StepBounds(ids: set<NodeId>, s: Cluster, a: Action, s': Cluster)
    requires Step(ids, s, a, s')
    ensures Shape(ids, s) && Enabled(ids, s, a.event) && (a.CrashDuring? ==> a.done <= |Local(ids, s, a.event).effects|)
  {
    hide Local;
  }
}
