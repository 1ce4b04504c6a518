/** At most one leader per term, over every run, with crashes anywhere. */
module ElectionSafety {
  import opened RaftTypes
  import opened RaftSteps
  import opened RaftCluster
  import opened Sequences
  import opened VoteDiscipline

  /** Between calls the disk agrees with the node about term and vote. */
  ghost predicate Synced(ids: set<NodeId>, s: Cluster)
    requires Shape(ids, s)
  {
    forall p {:trigger s.disks[p]} {:trigger s.nodes[p]} :: p in ids ==>
      && s.disks[p] == Disk(s.nodes[p].term, s.nodes[p].votedFor)
      && (s.disks[p].term == 0 ==> s.disks[p].vote == 0)
  }

  ghost predicate Addressed(ids: set<NodeId>, pk: Packet) {
    && pk.src in ids && pk.dst in ids && pk.src != pk.dst
    && (pk.msg.RequestVote? ==> pk.msg.candidate == pk.src && pk.msg.term >= 1)
  }

  predicate SameRequest(a: Packet, b: Packet) {
    a.msg.RequestVote? && b.msg.RequestVote? && a.src == b.src && a.dst == b.dst && a.msg.term == b.msg.term
  }

  predicate IsGrant(pk: Packet) {
    pk.msg.VoteReply? && pk.msg.granted
  }

  predicate SameGrant(a: Packet, b: Packet) {
    IsGrant(a) && a == b
  }

  /** The request this grant answers has been delivered. */
  ghost predicate Answered(s: Cluster, grant: Packet)
    requires IsGrant(grant)
  {
    exists j :: j in s.delivered && j < |s.sent| && s.sent[j].msg.RequestVote?
      && s.sent[j].src == grant.dst && s.sent[j].dst == grant.src && s.sent[j].msg.term == grant.msg.term
  }

  /** One request per candidate, voter and term; at most one grant for each. */
  ghost predicate NetOk(ids: set<NodeId>, s: Cluster) {
    && (forall i {:trigger Addressed(ids, s.sent[i])} :: 0 <= i < |s.sent| ==> Addressed(ids, s.sent[i]))
    && (forall i, j {:trigger SameRequest(s.sent[i], s.sent[j])} :: 0 <= i < j < |s.sent| ==>
         !SameRequest(s.sent[i], s.sent[j]))
    && (forall i, j {:trigger SameGrant(s.sent[i], s.sent[j])} :: 0 <= i < j < |s.sent| ==>
         !SameGrant(s.sent[i], s.sent[j]))
    && (forall i {:trigger Answered(s, s.sent[i])} :: 0 <= i < |s.sent| && IsGrant(s.sent[i]) ==>
         Answered(s, s.sent[i]))
  }

  ghost predicate HeardFrom(s: Cluster, p: NodeId, c: NodeId, t: nat) {
    exists i :: i in s.delivered && i < |s.sent| && s.sent[i] == Packet(p, c, VoteReply(t, true))
  }

  /** Voters whose grant of term `t` has reached `c`. */
  ghost function Heard(ids: set<NodeId>, s: Cluster, c: NodeId, t: nat): set<NodeId> {
    set p | p in ids && HeardFrom(s, p, c, t)
  }

  /** The integer tally never exceeds the number of distinct voters. */
  ghost predicate Tallied(ids: set<NodeId>, s: Cluster, c: NodeId)
    requires c in s.nodes
  {
    var n := s.nodes[c];
    && (!n.role.Follower? ==> n.votes <= 1 + |Heard(ids, s, c, n.term)|)
    && (n.role.Candidate? ==> n.votes < Majority(n) || n.peers == [])
    && (n.role.Leader? ==> n.votes >= Majority(n) && Stood(s.sent, c, n.term))
  }

  ghost predicate ElectionInv(ids: set<NodeId>, s: Cluster) {
    && Shape(ids, s)
    && Synced(ids, s)
    && VotesOk(ids, s.disks, s.sent)
    && NetOk(ids, s)
    && (forall c {:trigger Tallied(ids, s, c)} :: c in ids ==> Tallied(ids, s, c))
  }

  // ----- What a call sends -----

  /** New packets of a call, or of any prefix of it. */
  ghost predicate NewPackets(ids: set<NodeId>, s: Cluster, ev: Event, ps: seq<Packet>)
    requires Shape(ids, s) && Enabled(ids, s, ev)
  {
    var p := Actor(ids, s, ev);
    var n := s.nodes[p];
    && (forall i :: 0 <= i < |ps| ==> ps[i].src == p && Addressed(ids, ps[i]))
    && (|| (forall i :: 0 <= i < |ps| ==> Solicits(n, ps[i], i))
        || (ev.Delivery? && |ps| <= 1 && (forall i :: 0 <= i < |ps| ==> GrantsTo(s.sent[ev.packet], ps[i])))
        || (forall i :: 0 <= i < |ps| ==> !ps[i].msg.RequestVote? && !IsGrant(ps[i])))
  }

  predicate Solicits(n: Node, pk: Packet, i: nat) {
    i < |n.peers| && pk.dst == n.peers[i] && pk.msg.RequestVote? && pk.msg.term == n.term + 1
  }

  predicate GrantsTo(req: Packet, pk: Packet) {
    req.msg.RequestVote? && IsGrant(pk) && pk.dst == req.src && pk.msg.term == req.msg.term
  }

  /** Sends that concern no vote: anything but requests and grants. */
  ghost predicate Ordinary(others: set<NodeId>, es: seq<Effect>) {
    forall e :: e in es && e.Send? ==>
      e.dst in others && !e.msg.RequestVote? && !(e.msg.VoteReply? && e.msg.granted)
  }

  lemma OrdinaryPackets(ids: set<NodeId>, s: Cluster, ev: Event, es: seq<Effect>)
    requires Shape(ids, s) && Enabled(ids, s, ev)
    requires Ordinary(ids - {Actor(ids, s, ev)}, es)
    ensures NewPackets(ids, s, ev, Packets(Actor(ids, s, ev), es))
  {
    var p := Actor(ids, s, ev);
    var ps := Packets(p, es);
    PacketsMembers(p, es);
    forall i | 0 <= i < |ps| ensures ps[i].src == p && Addressed(ids, ps[i]) && !ps[i].msg.RequestVote?
        && !IsGrant(ps[i]) {
      assert ps[i] in ps;
    }
  }

  lemma SolicitPackets(n: Node, p: NodeId)
    requires Valid(n)
    ensures |Packets(p, BecomeCandidate(n).effects)| == |n.peers|
    ensures forall i :: 0 <= i < |n.peers| ==>
      Packets(p, BecomeCandidate(n).effects)[i]
        == Packet(p, n.peers[i], RequestVote(n.term + 1, n.id, LastIndex(n.log), LastTerm(n.log)))
  {
    var m := BecomeCandidate(n).node;
    PacketsConcat(p, Persist(m), Solicit(m));
    PersistReads(p, Disk(0, 0), m);
    PacketsOfSends(p, Solicit(m));
  }

  lemma ClockPackets(ids: set<NodeId>, s: Cluster, ev: Event)
    requires Shape(ids, s) && Enabled(ids, s, ev) && ev.Clock?
    ensures NewPackets(ids, s, ev, Packets(ev.node, Local(ids, s, ev).effects))
  {
    var p, n := ev.node, s.nodes[ev.node];
    assert Member(ids, p, n);
    if !n.role.Leader? && ev.due {
      SolicitPackets(n, p);
      forall i | 0 <= i < |n.peers| ensures n.peers[i] in ids && n.peers[i] != p {
        assert n.peers[i] in n.peers;
      }
    } else {
      TickOrdinary(n, ev.due, ids - {p});
      OrdinaryPackets(ids, s, ev, Tick(n, ev.due).effects);
    }
  }

  lemma BroadcastOrdinary(n: Node, heartbeat: bool, others: set<NodeId>)
    requires forall q :: q in n.peers ==> Get(n.nextIndex, q) >= 1
    requires forall q :: q in n.peers ==> q in others
    ensures Ordinary(others, Broadcast(n, heartbeat))
  {
  }

  lemma TickOrdinary(n: Node, due: bool, others: set<NodeId>)
    requires Valid(n) && (n.role.Leader? || !due)
    requires forall q :: q in n.peers ==> q in others
    ensures Ordinary(others, Tick(n, due).effects)
  {
    if n.role.Leader? {
      ScanCommitRange(n, LastIndex(n.log));
      var a := ApplyEntries(AdvanceCommit(n)).effects;
      assert forall e :: e in a ==> !e.Send?;
      if due { BroadcastOrdinary(n, true, others); }
    }
  }

  lemma ProposeOrdinary(n: Node, c: Command, others: set<NodeId>)
    requires Valid(n)
    requires forall q :: q in n.peers ==> q in others
    ensures Ordinary(others, Propose(n, c).1.effects)
  {
    if n.role.Leader? {
      BroadcastOrdinary(Propose(n, c).1.node, false, others);
    }
  }

  lemma RepliesOrdinary(n: Node, from: NodeId, reply: Message, others: set<NodeId>)
    requires Valid(n)
    requires forall q :: q in n.peers ==> q in others
    ensures reply.VoteReply? ==> Ordinary(others, ProcessVoteReply(n, reply).effects)
    ensures reply.AppendReply? ==> Ordinary(others, ProcessAppendReply(n, from, reply).effects)
  {
  }

  lemma DeliveryPackets(ids: set<NodeId>, s: Cluster, ev: Event)
    requires Shape(ids, s) && Enabled(ids, s, ev) && ev.Delivery?
    requires Addressed(ids, s.sent[ev.packet])
    ensures NewPackets(ids, s, ev, Packets(s.sent[ev.packet].dst, Local(ids, s, ev).effects))
  {
    hide Propose, Tick, HandleRequestVote, ProcessVoteReply, HandleAppendEntries, ProcessAppendReply;
    var pk := s.sent[ev.packet];
    var p, n := pk.dst, s.nodes[pk.dst];
    var others := ids - {p};
    assert Member(ids, p, n);
    assert forall q :: q in n.peers ==> q in others;
    match pk.msg
    case RequestVote(_, _, _, _) => GrantPackets(n, p, pk.src, pk.msg);
    case VoteReply(_, _) =>
      RepliesOrdinary(n, pk.src, pk.msg, others);
      OrdinaryPackets(ids, s, ev, ProcessVoteReply(n, pk.msg).effects);
    case AppendEntries(_, _, _, _, _, _) =>
      AppendEntriesOrdinary(n, pk.src, pk.msg, others);
      OrdinaryPackets(ids, s, ev, Handle(n, pk.src, pk.msg).effects);
    case AppendReply(_, _, _) =>
      RepliesOrdinary(n, pk.src, pk.msg, others);
      OrdinaryPackets(ids, s, ev, ProcessAppendReply(n, pk.src, pk.msg).effects);
  }

  lemma GrantPackets(n: Node, p: NodeId, from: NodeId, req: Message)
    requires Valid(n) && req.RequestVote?
    ensures Packets(p, Handle(n, from, req).effects) == [Packet(p, from, HandleRequestVote(n, req).0)]
    ensures HandleRequestVote(n, req).0.VoteReply?
    ensures HandleRequestVote(n, req).0.granted ==> HandleRequestVote(n, req).0.term == req.term
  {
    var r := HandleRequestVote(n, req);
    var o := if req.term > n.term then BecomeFollower(n, req.term) else Outcome(n, []);
    if req.term > n.term { PersistReads(p, Disk(0, 0), o.node); }
    if Grants(o.node, req) {
      PersistReads(p, Disk(0, 0), r.1.node);
      PacketsConcat(p, o.effects, Persist(r.1.node));
    }
    PacketsConcat(p, r.1.effects, [Send(from, r.0)]);
    PacketsOfSends(p, [Send(from, r.0)]);
  }

  lemma AcceptOrdinary(n: Node, req: Message, e: Effect)
    requires Valid(n) && req.AppendEntries? && req.prevIndex < |n.log| && e in AcceptEntries(n, req).1.effects
    ensures !e.Send?
  {
    hide Overlap;
    assert e in Persist(Adopt(n, req)) + ApplyEntries(Adopt(n, req)).effects;
  }

  lemma AppendEntriesOrdinary(n: Node, from: NodeId, req: Message, others: set<NodeId>)
    requires Valid(n) && req.AppendEntries? && from in others
    ensures Ordinary(others, Handle(n, from, req).effects)
  {
    hide Handle, HandleAppendEntries, AcceptEntries;
    AppendEntriesEffects(n, from, req);
    AppendEntriesReplies(n, req);
    var o := if req.term > n.term then BecomeFollower(n, req.term) else Outcome(n, []);
    var m := o.node.(leaderId := req.leader);
    forall e | e in Handle(n, from, req).effects && e.Send?
      ensures e.dst in others && !e.msg.RequestVote? && !(e.msg.VoteReply? && e.msg.granted)
    {
      if req.term >= n.term && Accepts(m.log, req) && e in AcceptEntries(m, req).1.effects {
        AcceptOrdinary(m, req, e);
      }
    }
  }

  lemma LocalPackets(ids: set<NodeId>, s: Cluster, ev: Event)
    requires Shape(ids, s) && Enabled(ids, s, ev) && NetOk(ids, s)
    ensures NewPackets(ids, s, ev, Packets(Actor(ids, s, ev), Local(ids, s, ev).effects))
  {
    match ev
    case Proposal(p, c) =>
      assert Member(ids, p, s.nodes[p]);
      ProposeOrdinary(s.nodes[p], c, ids - {p});
      OrdinaryPackets(ids, s, ev, Propose(s.nodes[p], c).1.effects);
    case Clock(_, _) => ClockPackets(ids, s, ev);
    case Delivery(_) => DeliveryPackets(ids, s, ev);
  }

  // ----- One step keeps the invariant -----

  ghost function Done(ids: set<NodeId>, s: Cluster, a: Action): seq<Effect>
    requires Shape(ids, s) && Enabled(ids, s, a.event)
    requires a.CrashDuring? ==> a.done <= |Local(ids, s, a.event).effects|
  {
    var es := Local(ids, s, a.event).effects;
    if a.CrashDuring? then es[..a.done] else es[..|es|]
  }

  lemma StepParts(ids: set<NodeId>, s: Cluster, a: Action, s': Cluster)
    requires Step(ids, s, a, s')
    ensures var p := Actor(ids, s, a.event); var es := Done(ids, s, a);
      && s'.sent == s.sent + Packets(p, es) && s'.delivered == Arrived(s, a.event)
      && s'.disks == s.disks[p := Written(s.disks[p], es)]
      && s'.nodes == s.nodes[p := s'.nodes[p]]
  {
    hide Local;
    var es := Local(ids, s, a.event).effects;
    assert es[..|es|] == es;
  }

  lemma LocalGuarded(ids: set<NodeId>, s: Cluster, ev: Event)
    requires Shape(ids, s) && Enabled(ids, s, ev) && NetOk(ids, s)
    ensures var n := s.nodes[Actor(ids, s, ev)];
      Guarded(ids, n.id, Disk(n.term, n.votedFor), n.votedFor == 0, Local(ids, s, ev).effects)
  {
    hide Propose, Tick, HandleRequestVote, ProcessVoteReply, HandleAppendEntries, ProcessAppendReply;
    var n := s.nodes[Actor(ids, s, ev)];
    match ev
    case Proposal(_, c) => ProposeGuarded(ids, n, c, n.votedFor == 0);
    case Clock(_, due) => TickGuarded(ids, n, due, n.votedFor == 0);
    case Delivery(i) =>
      var pk := s.sent[i];
      assert Addressed(ids, pk);
      match pk.msg
      case RequestVote(_, _, _, _) => RequestVoteGuarded(ids, n, pk.msg);
      case VoteReply(_, _) => VoteReplyGuarded(ids, n, pk.msg, n.votedFor == 0);
      case AppendEntries(_, _, _, _, _, _) => AppendEntriesGuarded(ids, n, pk.src, pk.msg, n.votedFor == 0);
      case AppendReply(_, _, _) => AppendReplyGuarded(ids, n, pk.src, pk.msg, n.votedFor == 0);
  }

  lemma StepVotes(ids: set<NodeId>, s: Cluster, a: Action, s': Cluster)
    requires ElectionInv(ids, s) && Step(ids, s, a, s')
    ensures VotesOk(ids, s'.disks, s'.sent)
  {
    hide Local;
    var p := Actor(ids, s, a.event);
    var n := s.nodes[p];
    var es := Local(ids, s, a.event).effects;
    StepParts(ids, s, a, s');
    LocalGuarded(ids, s, a.event);
    assert n.id == p && s.disks[p] == Disk(n.term, n.votedFor);
    assert n.votedFor == 0 ==> Uncast(s.sent, p, s.disks[p].term);
    GuardedPrefix(ids, s.disks, s.sent, p, n.votedFor == 0, es, if a.CrashDuring? then a.done else |es|);
  }

  ghost predicate Agrees(d: Disk, n: Node) {
    d == Disk(n.term, n.votedFor) && (d.term == 0 ==> d.vote == 0)
  }

  lemma ActorAgrees(ids: set<NodeId>, s: Cluster, a: Action, s': Cluster, d: Disk, n: Node, es: seq<Effect>)
    requires Step(ids, s, a, s')
    requires n == s.nodes[Actor(ids, s, a.event)] && d == s.disks[n.id] && Agrees(d, n)
    requires n.id == Actor(ids, s, a.event)
    requires es == Local(ids, s, a.event).effects
    requires Guarded(ids, n.id, d, n.votedFor == 0, es)
    requires Settles(n, Local(ids, s, a.event))
    ensures Agrees(s'.disks[n.id], s'.nodes[n.id])
  {
    hide Local;
    var k := if a.CrashDuring? then a.done else |es|;
    assert es[..|es|] == es;
    GuardedDisk(ids, n.id, d, n.votedFor == 0, es, k);
  }

  lemma ActorSynced(ids: set<NodeId>, s: Cluster, a: Action, s': Cluster)
    requires ElectionInv(ids, s) && Step(ids, s, a, s')
    ensures var p := Actor(ids, s, a.event); p in s'.disks && p in s'.nodes && Agrees(s'.disks[p], s'.nodes[p])
  {
    hide Local;
    var p := Actor(ids, s, a.event);
    LocalGuarded(ids, s, a.event);
    LocalSettles(ids, s, a.event);
    ActorAgrees(ids, s, a, s', s.disks[p], s.nodes[p], Local(ids, s, a.event).effects);
  }

  lemma OthersSynced(ids: set<NodeId>, s: Cluster, p: NodeId, d: Disk, n: Node, s': Cluster)
    requires Shape(ids, s) && Synced(ids, s) && Shape(ids, s') && p in ids
    requires s'.disks == s.disks[p := d] && s'.nodes == s.nodes[p := n] && Agrees(d, n)
    ensures Synced(ids, s')
  {
  }

  lemma StepSynced(ids: set<NodeId>, s: Cluster, a: Action, s': Cluster)
    requires ElectionInv(ids, s) && Step(ids, s, a, s') && Shape(ids, s')
    ensures Synced(ids, s')
  {
    var p := Actor(ids, s, a.event);
    ActorSynced(ids, s, a, s');
    StepParts(ids, s, a, s');
    OthersSynced(ids, s, p, s'.disks[p], s'.nodes[p], s');
  }

  lemma NetExtend(ids: set<NodeId>, s: Cluster, ev: Event, ps: seq<Packet>, s': Cluster)
    requires ElectionInv(ids, s) && Enabled(ids, s, ev)
    requires NewPackets(ids, s, ev, ps)
    requires s'.sent == s.sent + ps && s'.delivered == Arrived(s, ev)
    ensures NetOk(ids, s')
  {
    hide Synced, VotesOk, Tallied, Answered, SameRequest, SameGrant;
    forall i | 0 <= i < |s'.sent| ensures Addressed(ids, s'.sent[i]) {
      assert s'.sent[i] == if i < |s.sent| then s.sent[i] else ps[i - |s.sent|];
    }
    forall i, j | 0 <= i < j < |s'.sent| ensures !SameRequest(s'.sent[i], s'.sent[j]) {
      RequestsStayDistinct(ids, s, ev, ps, i, j);
    }
    forall i, j | 0 <= i < j < |s'.sent| ensures !SameGrant(s'.sent[i], s'.sent[j]) {
      GrantsStayDistinct(ids, s, ev, ps, i, j);
    }
    forall i | 0 <= i < |s'.sent| && IsGrant(s'.sent[i]) ensures Answered(s', s'.sent[i]) {
      GrantsStayAnswered(ids, s, ev, ps, s', i);
    }
  }

  lemma GrantsStayAnswered(ids: set<NodeId>, s: Cluster, ev: Event, ps: seq<Packet>, s': Cluster, i: nat)
    requires ElectionInv(ids, s) && Enabled(ids, s, ev)
    requires NewPackets(ids, s, ev, ps)
    requires s'.sent == s.sent + ps && s'.delivered == Arrived(s, ev)
    requires i < |s'.sent| && IsGrant(s'.sent[i])
    ensures Answered(s', s'.sent[i])
  {
    hide Synced, VotesOk, Tallied;
    if i < |s.sent| {
      assert Answered(s, s.sent[i]);
      var j :| j in s.delivered && j < |s.sent| && s.sent[j].msg.RequestVote? && s.sent[j].src == s.sent[i].dst
        && s.sent[j].dst == s.sent[i].src && s.sent[j].msg.term == s.sent[i].msg.term;
      assert j in s'.delivered && s'.sent[j] == s.sent[j];
    } else {
      var pk := ps[i - |s.sent|];
      assert pk == s'.sent[i] && GrantsTo(s.sent[ev.packet], pk);
      assert ev.packet in s'.delivered && s'.sent[ev.packet] == s.sent[ev.packet];
    }
  }

  lemma RequestsStayDistinct(ids: set<NodeId>, s: Cluster, ev: Event, ps: seq<Packet>, i: nat, j: nat)
    requires ElectionInv(ids, s) && Enabled(ids, s, ev) && NewPackets(ids, s, ev, ps)
    requires i < j < |s.sent + ps|
    ensures !SameRequest((s.sent + ps)[i], (s.sent + ps)[j])
  {
    var p := Actor(ids, s, ev);
    var n := s.nodes[p];
    if j < |s.sent| {
      assert !SameRequest(s.sent[i], s.sent[j]);
    } else if ps[j - |s.sent|].msg.RequestVote? {
      assert Member(ids, p, n);
      assert Solicits(n, ps[j - |s.sent|], j - |s.sent|);
      if i >= |s.sent| {
        assert (s.sent + ps)[i] == ps[i - |s.sent|];
      } else {
        NoEarlierRequest(ids, s, p);
        assert (s.sent + ps)[i] == s.sent[i];
      }
    }
  }

  lemma NoEarlierRequest(ids: set<NodeId>, s: Cluster, p: NodeId)
    requires ElectionInv(ids, s) && p in ids
    ensures !Stood(s.sent, p, s.nodes[p].term + 1)
  {
    assert s.disks[p].term == s.nodes[p].term;
    assert !Voted(s.sent, p, p, s.nodes[p].term + 1);
  }

  lemma GrantsStayDistinct(ids: set<NodeId>, s: Cluster, ev: Event, ps: seq<Packet>, i: nat, j: nat)
    requires ElectionInv(ids, s) && Enabled(ids, s, ev) && NewPackets(ids, s, ev, ps)
    requires i < j < |s.sent + ps|
    ensures !SameGrant((s.sent + ps)[i], (s.sent + ps)[j])
  {
    var all := s.sent + ps;
    if j < |s.sent| {
      assert !SameGrant(s.sent[i], s.sent[j]);
    } else if i < |s.sent| && IsGrant(all[j]) && GrantsTo(s.sent[ev.packet], all[j]) {
      NotYetGranted(ids, s, ev.packet, all[j]);
      assert all[i] == s.sent[i];
    } else {
      assert all[j] == ps[j - |s.sent|];
    }
  }

  /** A request still on its way has not been granted. */
  lemma NotYetGranted(ids: set<NodeId>, s: Cluster, r: nat, g: Packet)
    requires NetOk(ids, s) && r < |s.sent| && r !in s.delivered
    requires GrantsTo(s.sent[r], g) && g.src == s.sent[r].dst
    ensures forall i :: 0 <= i < |s.sent| ==> s.sent[i] != g
  {
    forall i | 0 <= i < |s.sent| ensures s.sent[i] != g {
      assert IsGrant(s.sent[i]) ==> Answered(s, s.sent[i]);
      forall k | k in s.delivered && k < |s.sent| ensures !SameRequest(s.sent[k], s.sent[r]) {
        assert !SameRequest(s.sent[k], s.sent[r]) || k >= r;
        assert !SameRequest(s.sent[r], s.sent[k]) || r >= k;
      }
    }
  }

  lemma StepNet(ids: set<NodeId>, s: Cluster, a: Action, s': Cluster)
    requires ElectionInv(ids, s) && Step(ids, s, a, s')
    ensures NetOk(ids, s')
  {
    hide Local;
    var p := Actor(ids, s, a.event);
    var es := Local(ids, s, a.event).effects;
    var k := if a.CrashDuring? then a.done else |es|;
    StepParts(ids, s, a, s');
    LocalPackets(ids, s, a.event);
    PacketsPrefix(p, es, k);
    PrefixIsNew(ids, s, a.event, Packets(p, es), Packets(p, es[..k]));
    NetExtend(ids, s, a.event, Packets(p, es[..k]), s');
  }

  lemma PrefixIsNew(ids: set<NodeId>, s: Cluster, ev: Event, ps: seq<Packet>, qs: seq<Packet>)
    requires Shape(ids, s) && Enabled(ids, s, ev) && NewPackets(ids, s, ev, ps) && qs <= ps
    ensures NewPackets(ids, s, ev, qs)
  {
    assert forall i :: 0 <= i < |qs| ==> qs[i] == ps[i];
  }

  // ----- The tally -----

  /** How role, term and tally can move in one call. */
  ghost predicate RoleMove(n: Node, m: Node) {
    || m.role.Follower?
    || (m.role == n.role && m.votes == n.votes && m.term == n.term)
    || (m.role.Candidate? && m.votes == 1)
  }

  lemma HandleRoleMoves(n: Node, from: NodeId, msg: Message)
    requires Valid(n) && !msg.VoteReply?
    ensures RoleMove(n, Handle(n, from, msg).node)
  {
    match msg
    case RequestVote(_, _, _, _) =>
    case VoteReply(_, _) =>
    case AppendEntries(_, _, _, _, _, _) =>
    case AppendReply(_, _, _) =>
  }

  lemma OwnRoleMoves(n: Node, c: Command, due: bool)
    requires Valid(n)
    ensures RoleMove(n, Propose(n, c).1.node) && RoleMove(n, Tick(n, due).node)
  {
  }

  lemma HeardGrows(ids: set<NodeId>, s: Cluster, s': Cluster, c: NodeId, t: nat)
    requires s.sent <= s'.sent && s.delivered <= s'.delivered
    ensures Heard(ids, s, c, t) <= Heard(ids, s', c, t)
    ensures |Heard(ids, s, c, t)| <= |Heard(ids, s', c, t)|
  {
    forall p | p in ids && HeardFrom(s, p, c, t) ensures HeardFrom(s', p, c, t) {
      var i :| i in s.delivered && i < |s.sent| && s.sent[i] == Packet(p, c, VoteReply(t, true));
      assert s'.sent[i] == s.sent[i];
    }
    SubsetSize(Heard(ids, s, c, t), Heard(ids, s', c, t));
  }

  lemma SubsetSize<T>(a: set<T>, b: set<T>)
    requires a <= b
    ensures |a| <= |b|
  {
    assert b == a + (b - a);
  }

  /** A delivered grant comes from a voter that had not been counted. */
  lemma GrantIsNews(ids: set<NodeId>, s: Cluster, s': Cluster, i: nat)
    requires NetOk(ids, s) && i < |s.sent| && i !in s.delivered && IsGrant(s.sent[i])
    requires s.sent <= s'.sent && s'.delivered == s.delivered + {i}
    ensures var pk := s.sent[i]; |Heard(ids, s', pk.dst, pk.msg.term)| >= |Heard(ids, s, pk.dst, pk.msg.term)| + 1
    ensures Stood(s'.sent, s.sent[i].dst, s.sent[i].msg.term)
  {
    var pk := s.sent[i];
    var c, t := pk.dst, pk.msg.term;
    var before, now := Heard(ids, s, c, t), Heard(ids, s', c, t);
    HeardGrows(ids, s, s', c, t);
    assert Addressed(ids, pk) && pk == Packet(pk.src, c, VoteReply(t, true));
    assert s'.sent[i] == pk;
    assert HeardFrom(s', pk.src, c, t);
    assert pk.src in now;
    assert pk.src !in before by {
      forall j | j in s.delivered && j < |s.sent| ensures s.sent[j] != pk {
        assert !SameGrant(s.sent[i], s.sent[j]) || i >= j;
        assert !SameGrant(s.sent[j], s.sent[i]) || j >= i;
      }
    }
    assert before + {pk.src} <= now;
    SubsetSize(before + {pk.src}, now);
    assert Answered(s, pk);
    var j :| j in s.delivered && j < |s.sent| && s.sent[j].msg.RequestVote? && s.sent[j].src == pk.dst
      && s.sent[j].dst == pk.src && s.sent[j].msg.term == pk.msg.term;
    assert s'.sent[j] == s.sent[j];
  }

  lemma StoodGrows(sent: seq<Packet>, sent': seq<Packet>, c: NodeId, t: nat)
    requires sent <= sent' && Stood(sent, c, t)
    ensures Stood(sent', c, t)
  {
    var i :| 0 <= i < |sent| && sent[i].src == c && sent[i].msg.RequestVote? && sent[i].msg.term == t;
    assert sent'[i] == sent[i];
  }

  lemma MajorityExceedsOne(n: Node)
    ensures 1 < Majority(n) || n.peers == []
  {
  }

  /** A candidate counts one more grant and leads from the majority on. */
  ghost predicate CountMove(n: Node, m: Node) {
    && n.role.Candidate? && !m.role.Follower? && m.votes == n.votes + 1 && m.term == n.term && m.peers == n.peers
    && (m.role.Leader? <==> m.votes >= Majority(m))
  }

  ghost predicate TallyMove(s: Cluster, ev: Event, n: Node, m: Node) {
    || RoleMove(n, m)
    || (ev.Delivery? && ev.packet < |s.sent| && IsGrant(s.sent[ev.packet])
        && s.sent[ev.packet].msg.term == n.term && CountMove(n, m))
    || (n.role.Candidate? && n.votes >= Majority(n) && ev.Delivery?)
  }

  lemma LocalTally(ids: set<NodeId>, s: Cluster, ev: Event)
    requires Shape(ids, s) && Enabled(ids, s, ev)
    ensures TallyMove(s, ev, s.nodes[Actor(ids, s, ev)], Local(ids, s, ev).node)
  {
    var n := s.nodes[Actor(ids, s, ev)];
    match ev
    case Proposal(_, c) => OwnRoleMoves(n, c, false);
    case Clock(_, due) => OwnRoleMoves(n, "", due);
    case Delivery(i) => if !s.sent[i].msg.VoteReply? { HandleRoleMoves(n, s.sent[i].src, s.sent[i].msg); }
  }

  lemma ActorTally(ids: set<NodeId>, s: Cluster, ev: Event, p: NodeId, s': Cluster)
    requires ElectionInv(ids, s) && Enabled(ids, s, ev) && p == Actor(ids, s, ev) && p in s'.nodes
    requires TallyMove(s, ev, s.nodes[p], s'.nodes[p]) && s'.nodes[p].peers == s.nodes[p].peers
    requires s.sent <= s'.sent && s'.delivered == Arrived(s, ev)
    ensures Tallied(ids, s', p)
  {
    var n, m := s.nodes[p], s'.nodes[p];
    assert Tallied(ids, s, p);
    HeardGrows(ids, s, s', p, n.term);
    MajorityExceedsOne(m);
    if n.role.Leader? { StoodGrows(s.sent, s'.sent, p, n.term); }
    if ev.Delivery? {
      var pk := s.sent[ev.packet];
      if IsGrant(pk) { GrantIsNews(ids, s, s', ev.packet); }
      assert Addressed(ids, pk);
      assert Member(ids, p, n);
      assert pk.src in n.peers;
    }
  }

  lemma TallyStays(ids: set<NodeId>, s: Cluster, s': Cluster, c: NodeId)
    requires c in s.nodes && c in s'.nodes && s'.nodes[c] == s.nodes[c] && Tallied(ids, s, c)
    requires s.sent <= s'.sent && s.delivered <= s'.delivered
    ensures Tallied(ids, s', c)
  {
    var n := s.nodes[c];
    HeardGrows(ids, s, s', c, n.term);
    if n.role.Leader? { StoodGrows(s.sent, s'.sent, c, n.term); }
  }

  lemma TalliesStay(ids: set<NodeId>, s: Cluster, s': Cluster, p: NodeId)
    requires ElectionInv(ids, s) && p in ids
    requires s'.nodes.Keys == ids && s'.nodes == s.nodes[p := s'.nodes[p]] && Tallied(ids, s', p)
    requires s.sent <= s'.sent && s.delivered <= s'.delivered
    ensures forall c :: c in ids ==> Tallied(ids, s', c)
  {
    forall c | c in ids ensures Tallied(ids, s', c) {
      if c != p {
        assert Tallied(ids, s, c);
        TallyStays(ids, s, s', c);
      }
    }
  }

  /** The acting node's role and tally after a step; a crash leaves a follower. */
  lemma StepTally(ids: set<NodeId>, s: Cluster, a: Action, s': Cluster)
    requires Step(ids, s, a, s')
    ensures Actor(ids, s, a.event) in s'.nodes
    ensures s'.nodes[Actor(ids, s, a.event)].peers == s.nodes[Actor(ids, s, a.event)].peers
    ensures TallyMove(s, a.event, s.nodes[Actor(ids, s, a.event)], s'.nodes[Actor(ids, s, a.event)])
  {
    hide Local, Packets, Applied, Written, Member, Chronicle, Recover, Interrupted, TallyMove;
    LocalTally(ids, s, a.event);
    LocalSettles(ids, s, a.event);
    if a.CrashDuring? {
      var p, o := Actor(ids, s, a.event), Local(ids, s, a.event);
      var d := Written(s.disks[p], o.effects[..a.done]);
      var w := Interrupted(s.nodes[p], o.node, d, [SENTINEL] + a.recovered);
      RecoverFollows(w, d, a.recovered);
      InterruptedPeers(s.nodes[p], o.node, d, [SENTINEL] + a.recovered);
      FollowerTally(s, a.event, s.nodes[p], Recover(w, d.term, d.vote, a.recovered));
    }
  }

  lemma RecoverFollows(w: Node, d: Disk, log: seq<Entry>)
    ensures var m := Recover(w, d.term, d.vote, log); m.role.Follower? && m.peers == w.peers
  {
  }

  lemma InterruptedPeers(n: Node, o: Node, d: Disk, log: seq<Entry>)
    requires o.peers == n.peers
    ensures Interrupted(n, o, d, log).peers == n.peers
  {
  }

  lemma FollowerTally(s: Cluster, ev: Event, n: Node, m: Node)
    requires m.role.Follower?
    ensures TallyMove(s, ev, n, m)
  {
  }

  lemma StepTallies(ids: set<NodeId>, s: Cluster, a: Action, s': Cluster)
    requires ElectionInv(ids, s) && Step(ids, s, a, s')
    ensures s'.nodes.Keys == ids && forall c :: c in ids ==> Tallied(ids, s', c)
  {
    StepParts(ids, s, a, s');
    StepTally(ids, s, a, s');
    hide Step;
    var p := Actor(ids, s, a.event);
    ActorTally(ids, s, a.event, p, s');
    TalliesStay(ids, s, s', p);
  }

  /** The invariant survives every step, complete or cut short by a crash. */
  lemma StepKeepsElection(ids: set<NodeId>, s: Cluster, a: Action, s': Cluster)
    requires ElectionInv(ids, s) && Step(ids, s, a, s')
    ensures ElectionInv(ids, s')
  {
    hide Step;
    StepKeepsShape(ids, s, a, s');
    StepSynced(ids, s, a, s');
    StepVotes(ids, s, a, s');
    StepNet(ids, s, a, s');
    StepTallies(ids, s, a, s');
  }

  lemma InitElection(ids: set<NodeId>, s: Cluster)
    requires Init(ids, s)
    ensures ElectionInv(ids, s)
  {
    forall p, c, t: nat ensures !Voted(s.sent, p, c, t) {
    }
  }

  lemma RunStepKeepsElection(ids: set<NodeId>, states: seq<Cluster>, actions: seq<Action>, k: nat)
    requires IsRun(ids, states, actions) && k < |actions| && ElectionInv(ids, states[k])
    ensures ElectionInv(ids, states[k + 1])
  {
    hide Step, ElectionInv;
    StepKeepsElection(ids, states[k], actions[k], states[k + 1]);
  }

  lemma {:induction false} RunKeepsElection(ids: set<NodeId>, states: seq<Cluster>, actions: seq<Action>, k: nat)
    requires IsRun(ids, states, actions) && k < |states|
    ensures ElectionInv(ids, states[k])
  {
    hide Step, ElectionInv;
    if k == 0 {
      InitElection(ids, states[0]);
    } else {
      RunKeepsElection(ids, states, actions, k - 1);
      RunStepKeepsElection(ids, states, actions, k - 1);
    }
  }

  // ----- The theorem -----

  ghost function Backers(ids: set<NodeId>, sent: seq<Packet>, c: NodeId, t: nat): set<NodeId> {
    set p | p in ids && Voted(sent, p, c, t)
  }

  ghost predicate Elected(ids: set<NodeId>, sent: seq<Packet>, c: NodeId, t: nat) {
    |Backers(ids, sent, c, t)| > |ids| / 2
  }

  lemma {:induction false} DistinctSize<T>(xs: seq<T>, all: set<T>)
    requires Distinct(xs) && (forall x :: x in xs <==> x in all)
    ensures |xs| == |all|
    decreases |xs|
  {
    if xs == [] {
      assert all == {};
    } else {
      var last := xs[|xs| - 1];
      var front := xs[..|xs| - 1];
      assert xs == front + [last];
      assert last !in front;
      DistinctSize(front, all - {last});
    }
  }

  lemma PeerCount(ids: set<NodeId>, p: NodeId, n: Node)
    requires Member(ids, p, n) && p in ids
    ensures |n.peers| + 1 == |ids|
  {
    DistinctSize(n.peers, ids - {p});
  }

  lemma LeaderIsElected(ids: set<NodeId>, s: Cluster, c: NodeId)
    requires ElectionInv(ids, s) && c in ids && s.nodes[c].role.Leader?
    ensures Elected(ids, s.sent, c, s.nodes[c].term)
  {
    var n := s.nodes[c];
    var t := n.term;
    assert Tallied(ids, s, c);
    PeerCount(ids, c, n);
    var heard, backers := Heard(ids, s, c, t), Backers(ids, s.sent, c, t);
    forall p | p in heard ensures p in backers && p != c {
      var i :| i in s.delivered && i < |s.sent| && s.sent[i] == Packet(p, c, VoteReply(t, true));
      assert Addressed(ids, s.sent[i]);
      assert Voted(s.sent, p, c, t);
    }
    assert Voted(s.sent, c, c, t);
    assert heard + {c} <= backers && c !in heard;
    SubsetSize(heard + {c}, backers);
  }

  lemma QuorumsMeet(ids: set<NodeId>, a: set<NodeId>, b: set<NodeId>) returns (p: NodeId)
    requires a <= ids && b <= ids && |a| > |ids| / 2 && |b| > |ids| / 2
    ensures p in a && p in b
  {
    SubsetSize(a + b, ids);
    assert |a + b| + |a * b| == |a| + |b|;
    assert a * b != {};
    p :| p in a * b;
  }

  lemma OneWinner(ids: set<NodeId>, s: Cluster, a: NodeId, b: NodeId, t: nat)
    requires ElectionInv(ids, s) && Elected(ids, s.sent, a, t) && Elected(ids, s.sent, b, t)
    ensures a == b
  {
    var p := QuorumsMeet(ids, Backers(ids, s.sent, a, t), Backers(ids, s.sent, b, t));
    assert Voted(s.sent, p, a, t) && Voted(s.sent, p, b, t);
  }

  lemma ElectedStays(ids: set<NodeId>, sent: seq<Packet>, sent': seq<Packet>, c: NodeId, t: nat)
    requires sent <= sent' && Elected(ids, sent, c, t)
    ensures Elected(ids, sent', c, t)
  {
    var more := sent'[|sent|..];
    assert sent' == sent + more;
    forall p | p in Backers(ids, sent, c, t) ensures p in Backers(ids, sent', c, t) {
      VotedGrows(sent, more, p, c, t);
    }
    SubsetSize(Backers(ids, sent, c, t), Backers(ids, sent', c, t));
  }

  lemma {:induction false} SentGrows(ids: set<NodeId>, states: seq<Cluster>, actions: seq<Action>, i: nat, j: nat)
    requires IsRun(ids, states, actions) && i <= j < |states|
    ensures states[i].sent <= states[j].sent
    decreases j
  {
    hide Step;
    if i < j {
      SentGrows(ids, states, actions, i, j - 1);
      assert Step(ids, states[j - 1], actions[j - 1], states[j]);
      StepParts(ids, states[j - 1], actions[j - 1], states[j]);
    }
  }

  /** Election Safety: no term has two leaders, at whatever points of a run they are observed,
      although nodes may crash between any two durable writes and recover any log. */
  lemma AtMostOneLeaderPerTerm(ids: set<NodeId>, states: seq<Cluster>, actions: seq<Action>,
                               i: nat, a: NodeId, j: nat, b: NodeId)
    requires IsRun(ids, states, actions) && i < |states| && j < |states|
    requires a in states[i].nodes && states[i].nodes[a].role.Leader?
    requires b in states[j].nodes && states[j].nodes[b].role.Leader?
    requires states[i].nodes[a].term == states[j].nodes[b].term
    ensures a == b
  {
    var t := states[i].nodes[a].term;
    var k := if i < j then j else i;
    RunKeepsElection(ids, states, actions, i);
    RunKeepsElection(ids, states, actions, j);
    RunKeepsElection(ids, states, actions, k);
    LeaderIsElected(ids, states[i], a);
    LeaderIsElected(ids, states[j], b);
    SentGrows(ids, states, actions, i, k);
    SentGrows(ids, states, actions, j, k);
    ElectedStays(ids, states[i].sent, states[k].sent, a, t);
    ElectedStays(ids, states[j].sent, states[k].sent, b, t);
    OneWinner(ids, states[k], a, b, t);
  }
}
