/** Building concrete runs of three nodes, one call at a time. */
module SampleRuns {
  import opened RaftTypes
  import opened RaftSteps
  import opened RaftCluster
  import opened StateMachineSafety
  import opened PersistHistory
  import opened ReplicaRuns

  const IDS: set<NodeId> := {1, 2, 3}

  /** The three nodes, how many packets were sent and which arrived, what each node applied, who led
      and, while they hold, that no restart and no stale tail occurred and which logs node 2 wrote. */
  datatype Snap = Snap(
    a: Node, b: Node, c: Node,
    sent: nat, delivered: set<nat>,
    doneA: seq<(nat, Command)>, doneB: seq<(nat, Command)>, doneC: seq<(nat, Command)>,
    tenures: map<nat, Tenure>,
    crashFree: bool, careful: bool, tracked: bool, writes: seq<seq<Entry>>)

  /** What is claimed of a call beside its outcome. */
  datatype Note = Note(careful: bool, tracked: bool, writes: seq<seq<Entry>>)

  const UNNOTED := Note(false, false, [])

  function NodeOf(z: Snap, p: NodeId): Node {
    if p == 1 then z.a else if p == 2 then z.b else z.c
  }

  ghost predicate At(s: Cluster, z: Snap) {
    && Shape(IDS, s) && s.nodes[1] == z.a && s.nodes[2] == z.b && s.nodes[3] == z.c
    && |s.sent| == z.sent && s.delivered == z.delivered && s.tenures == z.tenures
    && s.applied[1] == z.doneA && s.applied[2] == z.doneB && s.applied[3] == z.doneC
  }

  ghost function Last(states: seq<Cluster>): Cluster
    requires |states| >= 1
  {
    states[|states| - 1]
  }

  /** Packet `i` has been sent. */
  ghost predicate Sees(states: seq<Cluster>, i: nat, pk: Packet) {
    |states| >= 1 && i < |Last(states).sent| && Last(states).sent[i] == pk
  }

  ghost predicate Keeps(states: seq<Cluster>, states': seq<Cluster>) {
    forall i, pk {:trigger Sees(states', i, pk)} :: Sees(states, i, pk) ==> Sees(states', i, pk)
  }

  /** The run has one more complete call. */
  ghost predicate Grew(states: seq<Cluster>, actions: seq<Action>, states': seq<Cluster>, actions': seq<Action>,
                       ev: Event) {
    |states| == |actions| + 1 && |states'| == |states| + 1 && states <= states' && actions' == actions + [Run(ev)]
  }

  ghost predicate AllCareful(states: seq<Cluster>, actions: seq<Action>)
    requires |states| >= |actions|
  {
    forall k {:trigger actions[k]} :: 0 <= k < |actions| ==> Careful(IDS, states[k], actions[k])
  }

  ghost predicate Reached(states: seq<Cluster>, actions: seq<Action>, z: Snap) {
    && |states| == |actions| + 1 && IsRun(IDS, states, actions) && At(Last(states), z)
    && (z.crashFree ==> CrashFree(actions))
    && (z.careful ==> AllCareful(states, actions))
    && (z.tracked ==> LogWrites(History(IDS, states, actions, 2, |actions|)) == z.writes)
  }

  /** The call leaves node `n`, sends `k` packets and applies `done`. */
  ghost predicate Gives(o: Outcome, n: Node, k: nat, done: seq<(nat, Command)>) {
    o.node == n && |Packets(n.id, o.effects)| == k && Applied(o.effects) == done
  }

  function Arrives(z: Snap, ev: Event): set<nat> {
    if ev.Delivery? then z.delivered + {ev.packet} else z.delivered
  }

  function Then(z: Snap, ev: Event, n: Node, k: nat, done: seq<(nat, Command)>, note: Note): Snap {
    Snap(if n.id == 1 then n else z.a, if n.id == 2 then n else z.b, if n.id == 3 then n else z.c,
         z.sent + k, Arrives(z, ev),
         if n.id == 1 then z.doneA + done else z.doneA,
         if n.id == 2 then z.doneB + done else z.doneB,
         if n.id == 3 then z.doneC + done else z.doneC,
         Chronicle(z.tenures, n),
         z.crashFree, z.careful && note.careful, z.tracked && (n.id == 2 ==> note.tracked),
         if n.id == 2 then z.writes + note.writes else z.writes)
  }

  /** One complete step whose local outcome is known. */
  lemma Go(s: Cluster, ev: Event, n: Node, k: nat, done: seq<(nat, Command)>) returns (s': Cluster)
    requires Shape(IDS, s) && Enabled(IDS, s, ev) && n.id == Actor(IDS, s, ev)
    requires Gives(Local(IDS, s, ev), n, k, done)
    ensures Step(IDS, s, Run(ev), s') && Shape(IDS, s')
    ensures s'.nodes == s.nodes[n.id := n] && |s'.sent| == |s.sent| + k && s.sent <= s'.sent
    ensures forall i :: 0 <= i < k ==> s'.sent[|s.sent| + i] == Packets(n.id, Local(IDS, s, ev).effects)[i]
    ensures s'.delivered == Arrived(s, ev) && s'.applied == s.applied[n.id := s.applied[n.id] + done]
    ensures s'.tenures == Chronicle(s.tenures, n)
  {
    hide Local, Packets, Applied, Written, Member, Chronicle, Arrived;
    var o := Local(IDS, s, ev);
    s' := After(s, ev, n.id, o.node, o.effects);
    StepKeepsShape(IDS, s, Run(ev), s');
  }

  lemma {:induction false} HistoryPrefix(states: seq<Cluster>, actions: seq<Action>, states': seq<Cluster>,
                                         actions': seq<Action>, k: nat)
    requires |states| == |actions| + 1 && k <= |actions| && states <= states' && actions <= actions'
    ensures History(IDS, states', actions', 2, k) == History(IDS, states, actions, 2, k)
  {
    hide Part;
    if k > 0 {
      HistoryPrefix(states, actions, states', actions', k - 1);
      assert states'[k - 1] == states[k - 1] && actions'[k - 1] == actions[k - 1];
    }
  }

  lemma Extend(states: seq<Cluster>, actions: seq<Action>, a: Action, s': Cluster)
    requires |states| == |actions| + 1 && IsRun(IDS, states, actions) && Step(IDS, Last(states), a, s')
    ensures IsRun(IDS, states + [s'], actions + [a])
    ensures CrashFree(actions) && a.Run? ==> CrashFree(actions + [a])
    ensures AllCareful(states, actions) && Careful(IDS, Last(states), a) ==> AllCareful(states + [s'], actions + [a])
    ensures History(IDS, states + [s'], actions + [a], 2, |actions| + 1)
      == History(IDS, states, actions, 2, |actions|) + Part(IDS, Last(states), a, 2)
  {
    hide Step, Careful, Part;
    var ss, aa := states + [s'], actions + [a];
    HistoryPrefix(states, actions, ss, aa, |actions|);
    forall k | 0 <= k < |aa|
      ensures Step(IDS, ss[k], aa[k], ss[k + 1])
      ensures AllCareful(states, actions) && Careful(IDS, Last(states), a) ==> Careful(IDS, ss[k], aa[k])
    {
      if k < |actions| {
        assert aa[k] == actions[k] && ss[k] == states[k] && ss[k + 1] == states[k + 1];
      }
    }
  }

  lemma {:induction false} WritesConcat(a: seq<Effect>, b: seq<Effect>)
    ensures LogWrites(a + b) == LogWrites(a) + LogWrites(b)
  {
    if b == [] {
      assert a + b == a;
    } else {
      assert (a + b)[..|a + b| - 1] == a + b[..|b| - 1];
      WritesConcat(a, b[..|b| - 1]);
    }
  }

  lemma RunPart(s: Cluster, ev: Event)
    requires Shape(IDS, s) && Enabled(IDS, s, ev)
    ensures Part(IDS, s, Run(ev), 2) == if Actor(IDS, s, ev) == 2 then Local(IDS, s, ev).effects else []
  {
    hide Local;
    var es := Local(IDS, s, ev).effects;
    assert es[..|es|] == es;
  }

  /** What a call leaves, in terms of snapshots. */
  lemma ThenAt(s: Cluster, z: Snap, ev: Event, n: Node, k: nat, done: seq<(nat, Command)>, note: Note, s': Cluster)
    requires At(s, z) && n.id in IDS && Shape(IDS, s')
    requires s'.nodes == s.nodes[n.id := n] && |s'.sent| == |s.sent| + k
    requires s'.delivered == Arrived(s, ev) && s'.applied == s.applied[n.id := s.applied[n.id] + done]
    requires s'.tenures == Chronicle(s.tenures, n)
    ensures At(s', Then(z, ev, n, k, done, note))
  {
    hide Shape;
  }

  /** The run grows by one call whose local outcome is known. */
  lemma Onward(states: seq<Cluster>, actions: seq<Action>, z: Snap, ev: Event, n: Node, k: nat,
               done: seq<(nat, Command)>, note: Note)
    returns (states': seq<Cluster>, actions': seq<Action>)
    requires Reached(states, actions, z) && Enabled(IDS, Last(states), ev) && n.id == Actor(IDS, Last(states), ev)
    requires Gives(Local(IDS, Last(states), ev), n, k, done)
    requires note.careful ==> Careful(IDS, Last(states), Run(ev))
    requires note.tracked && n.id == 2 ==> LogWrites(Local(IDS, Last(states), ev).effects) == note.writes
    ensures Reached(states', actions', Then(z, ev, n, k, done, note))
    ensures Keeps(states, states') && Grew(states, actions, states', actions', ev)
    ensures forall i :: 0 <= i < k ==> Sees(states', z.sent + i, Packets(n.id, Local(IDS, Last(states), ev).effects)[i])
  {
    hide Step, Local, Packets, Applied, LogWrites, History, Careful, Gives, Shape;
    var s := Last(states);
    ShapeOf(s, z);
    var s' := Go(s, ev, n, k, done);
    Extend(states, actions, Run(ev), s');
    ThenAt(s, z, ev, n, k, done, note, s');
    RunPart(s, ev);
    WritesConcat(History(IDS, states, actions, 2, |actions|), Part(IDS, s, Run(ev), 2));
    NoWritesYet();
    states', actions' := states + [s'], actions + [Run(ev)];
  }

  lemma ShapeOf(s: Cluster, z: Snap)
    requires At(s, z)
    ensures Shape(IDS, s)
  {
  }

  lemma NoWritesYet()
    ensures LogWrites([]) == []
  {
  }

  // ----- The three kinds of call -----

  /** A packet whose answer is known arrives. */
  lemma Deliver(states: seq<Cluster>, actions: seq<Action>, z: Snap, i: nat, pk: Packet,
                n: Node, k: nat, done: seq<(nat, Command)>, note: Note)
    returns (states': seq<Cluster>, actions': seq<Action>)
    requires Reached(states, actions, z) && i < z.sent && i !in z.delivered && Sees(states, i, pk) && pk.dst in IDS
    requires Valid(NodeOf(z, pk.dst)) && n.id == pk.dst && Gives(Handle(NodeOf(z, pk.dst), pk.src, pk.msg), n, k, done)
    requires note.careful && pk.msg.AppendEntries? && Accepts(NodeOf(z, pk.dst).log, pk.msg) ==>
      && pk.msg.term in z.tenures
      && Merge(NodeOf(z, pk.dst).log, pk.msg.prevIndex, pk.msg.entries) <= z.tenures[pk.msg.term].log
    requires note.tracked && n.id == 2 ==> LogWrites(Handle(NodeOf(z, pk.dst), pk.src, pk.msg).effects) == note.writes
    ensures Reached(states', actions', Then(z, Delivery(i), n, k, done, note))
    ensures Keeps(states, states') && Grew(states, actions, states', actions', Delivery(i))
    ensures forall j :: 0 <= j < k ==>
      Sees(states', z.sent + j, Packets(n.id, Handle(NodeOf(z, pk.dst), pk.src, pk.msg).effects)[j])
  {
    hide IsRun, CrashFree, AllCareful, History, LogWrites, Handle, Gives, Packets, Then, Merge;
    states', actions' := Onward(states, actions, z, Delivery(i), n, k, done, note);
  }

  lemma Ticks(states: seq<Cluster>, actions: seq<Action>, z: Snap, p: NodeId, due: bool,
              n: Node, k: nat, done: seq<(nat, Command)>, note: Note)
    returns (states': seq<Cluster>, actions': seq<Action>)
    requires Reached(states, actions, z) && p in IDS
    requires Valid(NodeOf(z, p)) && n.id == p && Gives(Tick(NodeOf(z, p), due), n, k, done)
    requires p == 2 ==> !note.tracked
    ensures Reached(states', actions', Then(z, Clock(p, due), n, k, done, note))
    ensures Keeps(states, states') && Grew(states, actions, states', actions', Clock(p, due))
    ensures forall j :: 0 <= j < k ==> Sees(states', z.sent + j, Packets(n.id, Tick(NodeOf(z, p), due).effects)[j])
  {
    hide IsRun, CrashFree, AllCareful, History, LogWrites, Tick, Gives, Packets, Then;
    states', actions' := Onward(states, actions, z, Clock(p, due), n, k, done, note);
  }

  lemma Proposes(states: seq<Cluster>, actions: seq<Action>, z: Snap, p: NodeId, c: Command,
                 n: Node, k: nat, done: seq<(nat, Command)>, note: Note)
    returns (states': seq<Cluster>, actions': seq<Action>)
    requires Reached(states, actions, z) && p in IDS
    requires Valid(NodeOf(z, p)) && n.id == p && Gives(Propose(NodeOf(z, p), c).1, n, k, done)
    requires p == 2 ==> !note.tracked
    ensures Reached(states', actions', Then(z, Proposal(p, c), n, k, done, note))
    ensures Keeps(states, states') && Grew(states, actions, states', actions', Proposal(p, c))
    ensures forall j :: 0 <= j < k ==> Sees(states', z.sent + j, Packets(n.id, Propose(NodeOf(z, p), c).1.effects)[j])
  {
    hide IsRun, CrashFree, AllCareful, History, LogWrites, Propose, Gives, Packets, Then;
    states', actions' := Onward(states, actions, z, Proposal(p, c), n, k, done, note);
  }
}
