/** A call cut short is a move too, followed by a restart: what the logs keep survives every step
    whose restart, if there is one, reads back the log written. */
module CrashMoves {
  import opened RaftTypes
  import opened RaftSteps
  import opened RaftCluster
  import opened ElectionSafety
  import opened LogShape
  import opened LogMatching
  import opened CallPhases

  // ----- A step cut short -----

  /** Where an action stands before a node that died in it restarts. */
  ghost function Midway(ids: set<NodeId>, s: Cluster, a: Action): Cluster
    requires Shape(ids, s) && Enabled(ids, s, a.event)
    requires a.CrashDuring? ==> a.done <= |Local(ids, s, a.event).effects|
  {
    var p := Actor(ids, s, a.event);
    var o := Local(ids, s, a.event);
    match a
    case Run(ev) => After(s, ev, p, o.node, o.effects)
    case CrashDuring(ev, k, log) =>
      var d := Written(s.disks[p], o.effects[..k]);
      After(s, ev, p, Interrupted(s.nodes[p], o.node, d, [SENTINEL] + log), o.effects[..k])
  }

  /** `p` restarts with the term and log it had. */
  ghost predicate Revived(ids: set<NodeId>, s: Cluster, p: NodeId, s': Cluster) {
    && p in ids && s.nodes.Keys == ids && s'.nodes.Keys == ids
    && s' == s.(nodes := s.nodes[p := s'.nodes[p]])
    && var n, m := s.nodes[p], s'.nodes[p];
       && m.role.Follower? && m.term == n.term && m.log == n.log && m.commitIndex == 0 == m.lastApplied
       && m.id == n.id && m.peers == n.peers
  }

  lemma SentinelStays(n: Node, m: Node, log: seq<Entry>, req: Message)
    requires |n.log| >= 1 && n.log[0] == SENTINEL && |m.log| >= 1 && log == m.log[1..]
    requires n.log <= m.log || Merged(n, m, req)
    ensures [SENTINEL] + log == m.log
  {
    assert m.log[0] == n.log[0];
    assert m.log == [m.log[0]] + m.log[1..];
  }

  /** How the node dies: having written the whole call down, or with the log it had. */
  ghost predicate DiesAs(n: Node, o: Node, w: Node) {
    || w == o
    || (w.log == n.log && w.id == n.id && (w == n || w == o.(votedFor := w.votedFor)
        || w == o.(votedFor := w.votedFor, log := n.log, commitIndex := n.commitIndex, lastApplied := n.lastApplied)))
  }

  lemma NodeDies(n: Node, o: Outcome, p: NodeId, k: nat, entries: seq<Entry>)
    requires |n.log| >= 1 && |o.node.log| >= 1 && k <= |o.effects| && o.node.id == n.id
    requires WroteAll(n, o, k) || WrotePart(n, o, p, k)
    requires entries == StoredLog(n.log[1..], o.effects[..k])
    requires [SENTINEL] + n.log[1..] == n.log && [SENTINEL] + o.node.log[1..] == o.node.log
    ensures var d := Written(Disk(n.term, n.votedFor), o.effects[..k]);
      var w := Interrupted(n, o.node, d, [SENTINEL] + entries);
      && DiesAs(n, o.node, w) && d == Disk(w.term, w.votedFor) && w.log == [SENTINEL] + entries
      && (w == o.node || (Packets(p, o.effects[..k]) == [] && Applied(o.effects[..k]) == []))
  {
    hide Written, StoredLog, Packets, Applied;
  }

  lemma RecoverReads(w: Node, d: Disk, entries: seq<Entry>)
    ensures var m := Recover(w, d.term, d.vote, entries);
      && m.role.Follower? && m.term == d.term && m.log == [SENTINEL] + entries && m.commitIndex == 0 == m.lastApplied
      && m.id == w.id && m.peers == w.peers
  {
  }

  lemma WholeLogs(ids: set<NodeId>, s: Cluster, ev: Event)
    requires LogInv(ids, s) && Enabled(ids, s, ev)
    ensures var n, m := s.nodes[Actor(ids, s, ev)], Local(ids, s, ev).node;
      |m.log| >= 1 && [SENTINEL] + n.log[1..] == n.log && [SENTINEL] + m.log[1..] == m.log
  {
    hide Local, TenureOk, AppendOk;
    var p := Actor(ids, s, ev);
    assert NodeLogOk(s, p);
    LocalSettles(ids, s, ev);
    LocalMoves(ids, s, ev);
    var n, m := s.nodes[p], Local(ids, s, ev).node;
    SentinelStays(n, m, m.log[1..], if ev.Delivery? then s.sent[ev.packet].msg else VoteReply(0, false));
  }

  /** What the disk of the dying node holds, and how it dies. */
  ghost function Left(ids: set<NodeId>, s: Cluster, a: Action): (Disk, Node)
    requires Shape(ids, s) && Enabled(ids, s, a.event)
    requires a.CrashDuring? && a.done <= |Local(ids, s, a.event).effects|
  {
    var p, o := Actor(ids, s, a.event), Local(ids, s, a.event);
    var d := Written(s.disks[p], o.effects[..a.done]);
    (d, Interrupted(s.nodes[p], o.node, d, [SENTINEL] + a.recovered))
  }

  lemma CrashParts(ids: set<NodeId>, s: Cluster, a: Action, s': Cluster)
    requires Step(ids, s, a, s') && a.CrashDuring?
    ensures Shape(ids, s) && Enabled(ids, s, a.event) && a.done <= |Local(ids, s, a.event).effects|
    ensures var p, es := Actor(ids, s, a.event), Local(ids, s, a.event).effects[..a.done];
      var d, w := Left(ids, s, a).0, Left(ids, s, a).1; var mid := Midway(ids, s, a);
      && s' == Restarted(mid, p, Recover(w, d.term, d.vote, a.recovered))
      && mid == After(s, a.event, p, w, es)
      && mid.nodes == s.nodes[p := w] && mid.disks[p] == d && mid.sent == s.sent + Packets(p, es)
      && mid.nodes.Keys == s'.nodes.Keys == ids
      && (Packets(p, es) == [] ==> mid.sent == s.sent) && (Applied(es) == [] ==> mid.applied == s.applied)
  {
    hide Local, Interrupted, Recover, Written, Packets, Applied;
    var p := Actor(ids, s, a.event);
    assert s.applied[p] + [] == s.applied[p] && s.applied[p := s.applied[p]] == s.applied;
  }

  lemma CrashLeaves(ids: set<NodeId>, s: Cluster, a: Action)
    requires LogInv(ids, s) && Enabled(ids, s, a.event) && a.CrashDuring? && Intact(ids, s, a)
    requires a.done <= |Local(ids, s, a.event).effects|
    ensures var p, o := Actor(ids, s, a.event), Local(ids, s, a.event); var es := o.effects[..a.done];
      var d, w := Left(ids, s, a).0, Left(ids, s, a).1;
      && DiesAs(s.nodes[p], o.node, w) && d == Disk(w.term, w.votedFor) && w.log == [SENTINEL] + a.recovered
      && (w == o.node || (Packets(p, es) == [] && Applied(es) == []))
  {
    hide Local, DiesAs, Interrupted, WroteAll, WrotePart, Phased, TenureOk, AppendOk, NodeLogOk, NetOk, Tallied;
    var p, o := Actor(ids, s, a.event), Local(ids, s, a.event);
    var n := s.nodes[p];
    WholeLogs(ids, s, a.event);
    LocalPhased(ids, s, a.event);
    LocalSettles(ids, s, a.event);
    DiesEitherWay(n, o, p, a.done);
    assert s.disks[p] == Disk(n.term, n.votedFor);
    NodeDies(n, o, p, a.done, a.recovered);
  }

  lemma CrashDies(ids: set<NodeId>, s: Cluster, a: Action, s': Cluster)
    requires LogInv(ids, s) && Step(ids, s, a, s') && a.CrashDuring? && Intact(ids, s, a)
    ensures Shape(ids, s) && Enabled(ids, s, a.event) && a.done <= |Local(ids, s, a.event).effects|
    ensures var p, o := Actor(ids, s, a.event), Local(ids, s, a.event); var mid := Midway(ids, s, a);
      && mid.nodes.Keys == ids && mid.nodes == s.nodes[p := mid.nodes[p]]
      && DiesAs(s.nodes[p], o.node, mid.nodes[p]) && Revived(ids, mid, p, s')
      && p in mid.disks && mid.disks[p] == Disk(mid.nodes[p].term, mid.nodes[p].votedFor)
      && (mid.nodes[p] == o.node || (mid.sent == s.sent && mid.applied == s.applied))
  {
    hide Step, Local, DiesAs, Interrupted, LogInv, Intact, Midway, Left, Recover;
    CrashParts(ids, s, a, s');
    CrashLeaves(ids, s, a);
    RecoverReads(Left(ids, s, a).1, Left(ids, s, a).0, a.recovered);
  }

  // ----- Keeping the invariants -----

  /** Up to the restart, dying in a call is a move like any other. */
  lemma CrashIsMove(ids: set<NodeId>, s: Cluster, a: Action, s': Cluster)
    requires LogInv(ids, s) && Step(ids, s, a, s') && a.CrashDuring? && Intact(ids, s, a)
    ensures Shape(ids, s) && Enabled(ids, s, a.event) && a.done <= |Local(ids, s, a.event).effects|
    ensures Moved(ids, s, a.event, Actor(ids, s, a.event), Midway(ids, s, a))
  {
    hide Step, Local, LogInv, Intact, Revived, Midway, LeaderMove, TermMove, CandidateMove, LogMove, DiesAs;
    CrashDies(ids, s, a, s');
    CrashParts(ids, s, a, s');
    var p, o := Actor(ids, s, a.event), Local(ids, s, a.event);
    var mid := Midway(ids, s, a);
    LocalMoves(ids, s, a.event);
    DyingMoves(ids, s, a.event, s.nodes[p], o.node, mid.nodes[p]);
    LeftIs(ids, s, a);
    if mid.nodes[p] == o.node {
      PrefixAppends(ids, s, a.event, a.done, mid);
    }
  }

  lemma LeftIs(ids: set<NodeId>, s: Cluster, a: Action)
    requires Shape(ids, s) && Enabled(ids, s, a.event)
    requires a.CrashDuring? && a.done <= |Local(ids, s, a.event).effects|
    ensures var mid, p := Midway(ids, s, a), Actor(ids, s, a.event);
      && mid.tenures == Chronicle(s.tenures, mid.nodes[p]) && mid.nodes[p].id == p
      && mid.delivered == Arrived(s, a.event)
  {
    hide Local, Packets, Applied, Written;
    LocalSettles(ids, s, a.event);
  }

  lemma DyingMoves(ids: set<NodeId>, s: Cluster, ev: Event, n: Node, o: Node, w: Node)
    requires LeaderMove(n, o) && TermMove(n, o) && CandidateMove(n, o) && LogMove(ids, s, ev, n, o) && DiesAs(n, o, w)
    ensures LeaderMove(n, w) && TermMove(n, w) && CandidateMove(n, w) && LogMove(ids, s, ev, n, w)
  {
  }

  lemma PrefixAppends(ids: set<NodeId>, s: Cluster, ev: Event, k: nat, mid: Cluster)
    requires Shape(ids, s) && Enabled(ids, s, ev) && k <= |Local(ids, s, ev).effects|
    requires Actor(ids, s, ev) in mid.nodes && mid.nodes[Actor(ids, s, ev)] == Local(ids, s, ev).node
    requires mid.sent == s.sent + Packets(Actor(ids, s, ev), Local(ids, s, ev).effects[..k])
    ensures forall i :: |s.sent| <= i < |mid.sent| ==> NewAppend(s, Actor(ids, s, ev), mid, mid.sent[i])
  {
    hide Local;
    var p, es := Actor(ids, s, ev), Local(ids, s, ev).effects;
    LocalAppends(ids, s, ev);
    PacketsMembers(p, es);
    PacketsPrefix(p, es, k);
    forall i | |s.sent| <= i < |mid.sent| ensures NewAppend(s, p, mid, mid.sent[i]) {
      var pk := Packets(p, es[..k])[i - |s.sent|];
      assert pk == Packets(p, es)[i - |s.sent|] && pk in Packets(p, es);
    }
  }

  /** The election invariant also holds just before the restart. */
  lemma MidwayElection(ids: set<NodeId>, s: Cluster, a: Action, s': Cluster)
    requires LogInv(ids, s) && Step(ids, s, a, s') && a.CrashDuring? && Intact(ids, s, a)
    ensures Shape(ids, s) && Enabled(ids, s, a.event) && a.done <= |Local(ids, s, a.event).effects|
    ensures ElectionInv(ids, Midway(ids, s, a))
  {
    hide Step, Local, Intact, Midway, NodeLogOk, TenureOk, AppendOk, DiesAs, TallyMove, Tallied, NetOk;
    StepKeepsElection(ids, s, a, s');
    CrashDies(ids, s, a, s');
    CrashParts(ids, s, a, s');
    LeftIs(ids, s, a);
    LocalTally(ids, s, a.event);
    LocalSettles(ids, s, a.event);
    var p, o, mid := Actor(ids, s, a.event), Local(ids, s, a.event), Midway(ids, s, a);
    DyingTally(s, a.event, s.nodes[p], o.node, mid.nodes[p]);
    ReviveElection(ids, s, a.event, mid, p, s');
  }

  lemma DyingTally(s: Cluster, ev: Event, n: Node, o: Node, w: Node)
    requires TallyMove(s, ev, n, o) && DiesAs(n, o, w) && o.peers == n.peers && Valid(n) && Valid(o)
    ensures TallyMove(s, ev, n, w) && w.peers == n.peers && Valid(w)
  {
  }

  lemma ReviveElection(ids: set<NodeId>, s: Cluster, ev: Event, mid: Cluster, p: NodeId, s': Cluster)
    requires ElectionInv(ids, s) && Enabled(ids, s, ev) && p == Actor(ids, s, ev) && ElectionInv(ids, s')
    requires Revived(ids, mid, p, s') && mid.nodes == s.nodes[p := mid.nodes[p]] && mid.nodes[p].id == p
    requires p in mid.disks && mid.disks[p] == Disk(mid.nodes[p].term, mid.nodes[p].votedFor)
    requires s.sent <= mid.sent && mid.delivered == Arrived(s, ev)
    requires TallyMove(s, ev, s.nodes[p], mid.nodes[p]) && mid.nodes[p].peers == s.nodes[p].peers && Valid(mid.nodes[p])
    ensures ElectionInv(ids, mid)
  {
    hide Shape, TallyMove, Tallied, NetOk, Enabled, Actor;
    MidwayShape(ids, mid, p, s');
    MidwaySynced(ids, mid, p, s');
    MidwayTallies(ids, s, ev, p, mid);
    SameNet(ids, s', mid);
  }

  lemma MidwayShape(ids: set<NodeId>, mid: Cluster, p: NodeId, s': Cluster)
    requires Shape(ids, s') && Revived(ids, mid, p, s') && mid.nodes[p].id == p && Valid(mid.nodes[p])
    ensures Shape(ids, mid)
  {
    assert mid == Restarted(s', p, mid.nodes[p]);
    RestartKeepsShape(ids, s', p, mid.nodes[p]);
  }

  lemma MidwaySynced(ids: set<NodeId>, mid: Cluster, p: NodeId, s': Cluster)
    requires Shape(ids, s') && Synced(ids, s') && Shape(ids, mid) && Revived(ids, mid, p, s')
    requires mid.disks[p] == Disk(mid.nodes[p].term, mid.nodes[p].votedFor)
    ensures Synced(ids, mid)
  {
  }

  lemma MidwayTallies(ids: set<NodeId>, s: Cluster, ev: Event, p: NodeId, mid: Cluster)
    requires ElectionInv(ids, s) && Enabled(ids, s, ev) && p == Actor(ids, s, ev) && p in ids
    requires mid.nodes.Keys == ids && mid.nodes == s.nodes[p := mid.nodes[p]]
    requires s.sent <= mid.sent && mid.delivered == Arrived(s, ev)
    requires TallyMove(s, ev, s.nodes[p], mid.nodes[p]) && mid.nodes[p].peers == s.nodes[p].peers
    ensures forall c :: c in ids ==> Tallied(ids, mid, c)
  {
    hide TallyMove, Tallied, NetOk;
    ActorTally(ids, s, ev, p, mid);
    TalliesStay(ids, s, mid, p);
  }

  lemma SameNet(ids: set<NodeId>, a: Cluster, b: Cluster)
    requires NetOk(ids, a) && a.sent == b.sent && a.delivered == b.delivered
    ensures NetOk(ids, b)
  {
    forall i | 0 <= i < |b.sent| && IsGrant(b.sent[i]) ensures Answered(b, b.sent[i]) {
      assert Answered(a, a.sent[i]);
    }
  }

  /** A restart disturbs nothing. */
  lemma ReviveKeepsLogs(ids: set<NodeId>, s: Cluster, p: NodeId, s': Cluster)
    requires LogInv(ids, s) && Revived(ids, s, p, s') && ElectionInv(ids, s')
    ensures LogInv(ids, s')
  {
    hide ElectionInv, LogOk, Elected;
    forall q | q in ids ensures NodeLogOk(s', q) { assert NodeLogOk(s, q); }
    forall t | t in s'.tenures ensures TenureOk(ids, s', t) { assert TenureOk(ids, s, t); }
    forall i | 0 <= i < |s'.sent| ensures AppendOk(s'.tenures, s'.sent[i]) { assert AppendOk(s.tenures, s.sent[i]); }
  }

  /** How many callbacks of its call an action makes. */
  ghost function Made(ids: set<NodeId>, s: Cluster, a: Action): nat
    requires Shape(ids, s) && Enabled(ids, s, a.event)
  {
    if a.Run? then |Local(ids, s, a.event).effects| else a.done
  }

  /** `mid` is where the first `k` callbacks of the call lead: all the way, or, while nobody was told
      anything, back to the old log. */
  ghost predicate Goes(ids: set<NodeId>, s: Cluster, ev: Event, k: nat, mid: Cluster) {
    && Shape(ids, s) && Enabled(ids, s, ev)
    && var p, o := Actor(ids, s, ev), Local(ids, s, ev);
       && k <= |o.effects| && mid.nodes.Keys == ids && mid.nodes == s.nodes[p := mid.nodes[p]]
       && mid.sent == s.sent + Packets(p, o.effects[..k])
       && mid.applied == s.applied[p := s.applied[p] + Applied(o.effects[..k])]
       && DiesAs(s.nodes[p], o.node, mid.nodes[p])
       && (mid.nodes[p] == o.node || (Packets(p, o.effects[..k]) == [] && Applied(o.effects[..k]) == []))
  }

  lemma RunGoes(ids: set<NodeId>, s: Cluster, ev: Event, s': Cluster)
    requires Step(ids, s, Run(ev), s')
    ensures Shape(ids, s) && Enabled(ids, s, ev) && s' == Midway(ids, s, Run(ev))
    ensures Goes(ids, s, ev, Made(ids, s, Run(ev)), s')
  {
    hide Local, Packets, Applied;
    var es := Local(ids, s, ev).effects;
    assert es[..|es|] == es;
  }

  lemma CrashGoes(ids: set<NodeId>, s: Cluster, a: Action, s': Cluster)
    requires LogInv(ids, s) && Step(ids, s, a, s') && a.CrashDuring? && Intact(ids, s, a)
    ensures Shape(ids, s) && Enabled(ids, s, a.event) && a.done <= |Local(ids, s, a.event).effects|
    ensures Goes(ids, s, a.event, a.done, Midway(ids, s, a))
  {
    hide Step, Local, DiesAs, Interrupted, LogInv, Intact, Midway, Left, Recover, Packets, Applied;
    CrashParts(ids, s, a, s');
    CrashLeaves(ids, s, a);
    SentAndApplied(ids, s, a);
  }

  lemma SentAndApplied(ids: set<NodeId>, s: Cluster, a: Action)
    requires Shape(ids, s) && Enabled(ids, s, a.event)
    requires a.CrashDuring? && a.done <= |Local(ids, s, a.event).effects|
    ensures var p := Actor(ids, s, a.event);
      Midway(ids, s, a).applied == s.applied[p := s.applied[p] + Applied(Local(ids, s, a.event).effects[..a.done])]
  {
    hide Local, Packets, Applied, Interrupted;
  }

  /** Any step whose restart, if there is one, reads back the log written: a move that keeps the
      invariant, and then perhaps a restart. */
  lemma StepMoves(ids: set<NodeId>, s: Cluster, a: Action, s': Cluster)
    requires LogInv(ids, s) && Step(ids, s, a, s') && Intact(ids, s, a)
    ensures Shape(ids, s) && Enabled(ids, s, a.event)
    ensures a.CrashDuring? ==> a.done <= |Local(ids, s, a.event).effects|
    ensures var p := Actor(ids, s, a.event); var mid := Midway(ids, s, a);
      && Goes(ids, s, a.event, Made(ids, s, a), mid) && Moved(ids, s, a.event, p, mid)
      && LogInv(ids, mid) && Grow(s.tenures, mid.tenures) && (s' == mid || Revived(ids, mid, p, s'))
  {
    hide Step, Local, ElectionInv, NodeLogOk, TenureOk, AppendOk, Moved, Midway, Intact, DiesAs, Goes, Revived;
    StepEnabled(ids, s, a, s');
    var p := Actor(ids, s, a.event);
    if a.Run? {
      StepKeepsElection(ids, s, a, s');
      RunGoes(ids, s, a.event, s');
      StepIsMove(ids, s, a.event, s');
      MoveKeepsLogs(ids, s, a.event, p, s');
    } else {
      CrashDies(ids, s, a, s');
      CrashGoes(ids, s, a, s');
      CrashIsMove(ids, s, a, s');
      MidwayElection(ids, s, a, s');
      MoveKeepsLogs(ids, s, a.event, p, Midway(ids, s, a));
    }
  }

  /** The invariant survives every step whose restart, if there is one, reads back the log written. */
  lemma StepKeepsLogs(ids: set<NodeId>, s: Cluster, a: Action, s': Cluster)
    requires LogInv(ids, s) && Step(ids, s, a, s') && Intact(ids, s, a)
    ensures LogInv(ids, s') && Grow(s.tenures, s'.tenures)
  {
    hide Step, Local, ElectionInv, NodeLogOk, TenureOk, AppendOk, Moved, Midway, Intact, Goes;
    StepMoves(ids, s, a, s');
    StepKeepsElection(ids, s, a, s');
    var p, mid := Actor(ids, s, a.event), Midway(ids, s, a);
    if s' != mid { ReviveKeepsLogs(ids, mid, p, s'); }
  }

  // ----- Runs -----

  lemma RunStepKeepsLogs(ids: set<NodeId>, states: seq<Cluster>, actions: seq<Action>, k: nat)
    requires IsRun(ids, states, actions) && Restoring(ids, states, actions) && k < |actions| && LogInv(ids, states[k])
    ensures LogInv(ids, states[k + 1]) && Grow(states[k].tenures, states[k + 1].tenures)
  {
    hide Step, Intact, LogInv;
    StepKeepsLogs(ids, states[k], actions[k], states[k + 1]);
  }

  lemma {:induction false} RunKeepsLogs(ids: set<NodeId>, states: seq<Cluster>, actions: seq<Action>, k: nat)
    requires IsRun(ids, states, actions) && Restoring(ids, states, actions) && k < |states|
    ensures LogInv(ids, states[k])
  {
    hide Step, Intact, LogInv;
    if k == 0 {
      InitLogs(ids, states[0]);
    } else {
      RunKeepsLogs(ids, states, actions, k - 1);
      RunStepKeepsLogs(ids, states, actions, k - 1);
    }
  }
}
