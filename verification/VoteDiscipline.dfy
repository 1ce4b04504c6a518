/** A vote is durable before anybody hears of it: the order of durable writes and
    sends in every call, and what that order guarantees when a call is cut short. */
module VoteDiscipline {
  import opened RaftTypes
  import opened RaftSteps
  import opened RaftCluster

  // ----- Votes as the network has seen them -----

  ghost predicate Stood(sent: seq<Packet>, c: NodeId, t: nat) {
    exists i :: 0 <= i < |sent| && sent[i].src == c && sent[i].msg.RequestVote? && sent[i].msg.term == t
  }

  /** `p` has told the world that its vote of term `t` is for `c`. */
  ghost predicate Voted(sent: seq<Packet>, p: NodeId, c: NodeId, t: nat) {
    (p == c && Stood(sent, c, t)) || Packet(p, c, VoteReply(t, true)) in sent
  }

  ghost predicate Casts(pk: Packet, p: NodeId, c: NodeId, t: nat) {
    && pk.src == p
    && ((pk.dst == c && pk.msg == VoteReply(t, true)) || (p == c && pk.msg.RequestVote? && pk.msg.term == t))
  }

  lemma VotedSnoc(sent: seq<Packet>, pk: Packet, p: NodeId, c: NodeId, t: nat)
    ensures Voted(sent + [pk], p, c, t) <==> Voted(sent, p, c, t) || Casts(pk, p, c, t)
  {
    var all := sent + [pk];
    assert all[|sent|] == pk;
    if Stood(sent, c, t) {
      var i :| 0 <= i < |sent| && sent[i].src == c && sent[i].msg.RequestVote? && sent[i].msg.term == t;
      assert all[i] == sent[i];
    }
    if Stood(all, c, t) {
      var i :| 0 <= i < |all| && all[i].src == c && all[i].msg.RequestVote? && all[i].msg.term == t;
      if i < |sent| {
        assert all[i] == sent[i];
      }
    }
  }

  lemma {:induction false} VotedGrows(sent: seq<Packet>, more: seq<Packet>, p: NodeId, c: NodeId, t: nat)
    requires Voted(sent, p, c, t)
    ensures Voted(sent + more, p, c, t)
    decreases |more|
  {
    if more == [] {
      assert sent + more == sent;
    } else {
      var front := more[..|more| - 1];
      VotedGrows(sent, front, p, c, t);
      VotedSnoc(sent + front, more[|more| - 1], p, c, t);
      assert sent + more == (sent + front) + [more[|more| - 1]];
    }
  }

  /** What a voter has said is at most what its disk remembers, and it never said two things. */
  ghost predicate VotesOk(ids: set<NodeId>, disks: map<NodeId, Disk>, sent: seq<Packet>) {
    && disks.Keys == ids
    && (forall p, c, t: nat {:trigger Voted(sent, p, c, t)} :: Voted(sent, p, c, t) ==>
          p in ids && c in ids && (disks[p].term > t || (disks[p].term == t && disks[p].vote == c)))
    && (forall p, c, c', t: nat {:trigger Voted(sent, p, c, t), Voted(sent, p, c', t)} ::
          Voted(sent, p, c, t) && Voted(sent, p, c', t) ==> c == c')
  }

  /** No vote of this term has left `p` yet. */
  ghost predicate Uncast(sent: seq<Packet>, p: NodeId, term: nat) {
    forall c, t: nat {:trigger Voted(sent, p, c, t)} :: Voted(sent, p, c, t) ==> t < term
  }

  // ----- The order of durable writes and sends inside one call -----

  /** `uncast`: the disk's term is one in which this node has not voted in public. The
      term is written before the vote, and a vote is sent only when the disk holds it. */
  ghost predicate Allowed(ids: set<NodeId>, p: NodeId, d: Disk, uncast: bool, e: Effect) {
    match e
    case WriteTerm(t) => t >= d.term
    case WriteVote(v) => v == d.vote || (uncast && d.term > 0)
    case Send(dst, VoteReply(t, true)) => dst in ids && d == Disk(t, dst)
    case Send(_, RequestVote(t, c, _, _)) => c == p && d == Disk(t, p)
    case _ => true
  }

  /** Whether the node may still cast its vote once it has made callback `e`. */
  ghost predicate StillUncast(d: Disk, uncast: bool, e: Effect) {
    !e.Send? && (uncast || Write(d, e).term > d.term)
  }

  ghost predicate Guarded(ids: set<NodeId>, p: NodeId, d: Disk, uncast: bool, es: seq<Effect>)
    decreases |es|
  {
    es == [] || (
      && Allowed(ids, p, d, uncast, es[0])
      && Guarded(ids, p, Write(d, es[0]), StillUncast(d, uncast, es[0]), es[1..]))
  }

  ghost predicate Quiet(e: Effect) {
    && !e.WriteTerm? && !e.WriteVote?
    && (e.Send? ==> !e.msg.RequestVote? && !(e.msg.VoteReply? && e.msg.granted))
  }

  lemma {:induction false} QuietIsGuarded(ids: set<NodeId>, p: NodeId, d: Disk, uncast: bool, es: seq<Effect>)
    requires forall i :: 0 <= i < |es| ==> Quiet(es[i])
    ensures Guarded(ids, p, d, uncast, es)
    decreases |es|
  {
    if es != [] {
      assert Quiet(es[0]);
      forall i | 0 <= i < |es[1..]| ensures Quiet(es[1..][i]) {
        assert Quiet(es[i + 1]);
      }
      QuietIsGuarded(ids, p, Write(d, es[0]), StillUncast(d, uncast, es[0]), es[1..]);
    }
  }

  lemma {:induction false} SolicitIsGuarded(ids: set<NodeId>, p: NodeId, d: Disk, uncast: bool, es: seq<Effect>)
    requires forall i :: 0 <= i < |es| ==>
      es[i].Send? && es[i].msg.RequestVote? && es[i].msg.term == d.term && es[i].msg.candidate == p
    requires d.vote == p
    ensures Guarded(ids, p, d, uncast, es)
    decreases |es|
  {
    if es != [] {
      SolicitIsGuarded(ids, p, d, false, es[1..]);
    }
  }

  lemma PersistIsGuarded(ids: set<NodeId>, p: NodeId, d: Disk, uncast: bool, n: Node, rest: seq<Effect>)
    requires |n.log| >= 1 && n.term >= d.term
    requires n.votedFor == d.vote || ((uncast || n.term > d.term) && n.term > 0)
    requires Guarded(ids, p, Disk(n.term, n.votedFor), uncast || n.term > d.term, rest)
    ensures Guarded(ids, p, d, uncast, Persist(n) + rest)
  {
    var es := Persist(n) + rest;
    var now := uncast || n.term > d.term;
    assert es[1..] == [WriteVote(n.votedFor), WriteLog(n.log[1..])] + rest;
    assert es[1..][1..] == [WriteLog(n.log[1..])] + rest;
    assert es[1..][1..][1..] == rest;
    assert Guarded(ids, p, Disk(n.term, n.votedFor), now, es[1..][1..]);
    assert Guarded(ids, p, Disk(n.term, d.vote), now, es[1..]);
  }

  // ----- Every call respects that order -----

  lemma ProposeGuarded(ids: set<NodeId>, n: Node, c: Command, uncast: bool)
    requires Valid(n)
    ensures Guarded(ids, n.id, Disk(n.term, n.votedFor), uncast, Propose(n, c).1.effects)
  {
    if n.role.Leader? {
      var m := Propose(n, c).1.node;
      QuietIsGuarded(ids, n.id, Disk(n.term, n.votedFor), uncast, Broadcast(m, false));
      PersistIsGuarded(ids, n.id, Disk(n.term, n.votedFor), uncast, m, Broadcast(m, false));
    }
  }

  lemma TickGuarded(ids: set<NodeId>, n: Node, due: bool, uncast: bool)
    requires Valid(n)
    ensures Guarded(ids, n.id, Disk(n.term, n.votedFor), uncast, Tick(n, due).effects)
  {
    var d := Disk(n.term, n.votedFor);
    if n.role.Leader? {
      ScanCommitRange(n, LastIndex(n.log));
      QuietIsGuarded(ids, n.id, d, uncast, Tick(n, due).effects);
    } else if due {
      var m := BecomeCandidate(n).node;
      SolicitIsGuarded(ids, n.id, Disk(m.term, m.votedFor), true, Solicit(m));
      PersistIsGuarded(ids, n.id, d, uncast, m, Solicit(m));
    }
  }

  lemma FollowerGuarded(ids: set<NodeId>, n: Node, t: nat, uncast: bool, rest: seq<Effect>)
    requires |n.log| >= 1 && t > n.term
    requires Guarded(ids, n.id, Disk(t, 0), true, rest)
    ensures Guarded(ids, n.id, Disk(n.term, n.votedFor), uncast, BecomeFollower(n, t).effects + rest)
  {
    PersistIsGuarded(ids, n.id, Disk(n.term, n.votedFor), uncast, BecomeFollower(n, t).node, rest);
  }

  lemma RequestVoteGuarded(ids: set<NodeId>, n: Node, req: Message)
    requires Valid(n) && req.RequestVote? && req.candidate in ids && req.term > 0
    ensures Guarded(ids, n.id, Disk(n.term, n.votedFor), n.votedFor == 0, Handle(n, req.candidate, req).effects)
  {
    var r := HandleRequestVote(n, req);
    var o := if req.term > n.term then BecomeFollower(n, req.term) else Outcome(n, []);
    var reply := [Send(req.candidate, r.0)];
    var uncast := n.votedFor == 0 || req.term > n.term;
    var d := Disk(o.node.term, o.node.votedFor);
    var tail := (if Grants(o.node, req) then Persist(r.1.node) else []) + reply;
    assert Guarded(ids, n.id, d, uncast, tail) by {
      if Grants(o.node, req) {
        assert Allowed(ids, n.id, Disk(r.1.node.term, r.1.node.votedFor), uncast, reply[0]);
        assert reply[1..] == [];
        PersistIsGuarded(ids, n.id, d, uncast, r.1.node, reply);
      } else {
        assert tail == reply;
        QuietIsGuarded(ids, n.id, d, uncast, reply);
      }
    }
    if req.term > n.term {
      FollowerGuarded(ids, n, req.term, n.votedFor == 0, tail);
    } else {
      assert o.effects + tail == tail;
    }
    assert Handle(n, req.candidate, req).effects == o.effects + tail;
  }

  lemma VoteReplyGuarded(ids: set<NodeId>, n: Node, reply: Message, uncast: bool)
    requires Valid(n) && reply.VoteReply?
    ensures Guarded(ids, n.id, Disk(n.term, n.votedFor), uncast, ProcessVoteReply(n, reply).effects)
  {
    var es := ProcessVoteReply(n, reply).effects;
    if reply.term > n.term {
      FollowerGuarded(ids, n, reply.term, uncast, []);
      assert es + [] == es;
    } else {
      QuietIsGuarded(ids, n.id, Disk(n.term, n.votedFor), uncast, es);
    }
  }

  lemma AcceptGuarded(ids: set<NodeId>, n: Node, req: Message, uncast: bool, reply: seq<Effect>)
    requires Valid(n) && req.AppendEntries? && req.prevIndex < |n.log|
    requires forall i :: 0 <= i < |reply| ==> Quiet(reply[i])
    ensures Guarded(ids, n.id, Disk(n.term, n.votedFor), uncast, AcceptEntries(n, req).1.effects + reply)
  {
    var m := Adopt(n, req);
    var applies := ApplyEntries(m).effects;
    var rest := applies + reply;
    assert forall i :: 0 <= i < |applies| ==> Quiet(applies[i]);
    QuietIsGuarded(ids, n.id, Disk(n.term, n.votedFor), uncast, rest);
    PersistIsGuarded(ids, n.id, Disk(n.term, n.votedFor), uncast, m, rest);
    assert Persist(m) + rest == AcceptEntries(n, req).1.effects + reply;
  }

  lemma AppendEntriesGuarded(ids: set<NodeId>, n: Node, from: NodeId, req: Message, uncast: bool)
    requires Valid(n) && req.AppendEntries?
    ensures Guarded(ids, n.id, Disk(n.term, n.votedFor), uncast, Handle(n, from, req).effects)
  {
    hide Handle, HandleAppendEntries, AcceptEntries, Guarded;
    AppendEntriesReplies(n, req);
    var r := HandleAppendEntries(n, req);
    var reply := [Send(from, r.0)];
    var o := if req.term > n.term then BecomeFollower(n, req.term) else Outcome(n, []);
    var d := Disk(o.node.term, o.node.votedFor);
    var m := o.node.(leaderId := req.leader);
    var tail := if req.term >= n.term && Accepts(m.log, req) then AcceptEntries(m, req).1.effects + reply else reply;
    assert Guarded(ids, n.id, d, uncast || req.term > n.term, tail) by {
      if req.term >= n.term && Accepts(m.log, req) {
        AcceptGuarded(ids, m, req, uncast || req.term > n.term, reply);
      } else {
        QuietIsGuarded(ids, n.id, d, uncast || req.term > n.term, reply);
      }
    }
    if req.term > n.term {
      FollowerGuarded(ids, n, req.term, uncast, tail);
    } else {
      assert o.effects + tail == tail;
    }
    AppendEntriesEffects(n, from, req);
  }

  lemma AppendEntriesReplies(n: Node, req: Message)
    requires Valid(n) && req.AppendEntries?
    ensures HandleAppendEntries(n, req).0.AppendReply?
  {
  }

  lemma AppendEntriesEffects(n: Node, from: NodeId, req: Message)
    requires Valid(n) && req.AppendEntries?
    ensures var o := if req.term > n.term then BecomeFollower(n, req.term) else Outcome(n, []);
      var m := o.node.(leaderId := req.leader);
      var reply := [Send(from, HandleAppendEntries(n, req).0)];
      Handle(n, from, req).effects == o.effects +
        if req.term >= n.term && Accepts(m.log, req) then AcceptEntries(m, req).1.effects + reply else reply
  {
    hide AcceptEntries, Persist;
  }

  lemma AppendReplyGuarded(ids: set<NodeId>, n: Node, from: NodeId, reply: Message, uncast: bool)
    requires Valid(n) && reply.AppendReply?
    ensures Guarded(ids, n.id, Disk(n.term, n.votedFor), uncast, ProcessAppendReply(n, from, reply).effects)
  {
    QuietIsGuarded(ids, n.id, Disk(n.term, n.votedFor), uncast, ProcessAppendReply(n, from, reply).effects);
  }

  // ----- What the order buys: any prefix of a call keeps the votes straight -----

  lemma OneEffect(ids: set<NodeId>, disks: map<NodeId, Disk>, sent: seq<Packet>, p: NodeId, uncast: bool, e: Effect)
    requires VotesOk(ids, disks, sent) && p in ids
    requires Allowed(ids, p, disks[p], uncast, e)
    requires uncast ==> Uncast(sent, p, disks[p].term)
    ensures VotesOk(ids, disks[p := Write(disks[p], e)], sent + Packets(p, [e]))
    ensures !e.Send? && (uncast || Write(disks[p], e).term > disks[p].term) ==>
      Uncast(sent + Packets(p, [e]), p, Write(disks[p], e).term)
  {
    if e.Send? {
      var pk := Packet(p, e.dst, e.msg);
      assert Packets(p, [e]) == [pk];
      forall q, c, t: nat ensures Voted(sent + [pk], q, c, t) <==> Voted(sent, q, c, t) || Casts(pk, q, c, t) {
        VotedSnoc(sent, pk, q, c, t);
      }
      assert disks[p := Write(disks[p], e)] == disks;
    } else {
      assert Packets(p, [e]) == [];
      assert sent + [] == sent;
    }
  }

  lemma {:induction false} GuardedPrefix(ids: set<NodeId>, disks: map<NodeId, Disk>, sent: seq<Packet>, p: NodeId,
                                         uncast: bool, es: seq<Effect>, k: nat)
    requires VotesOk(ids, disks, sent) && p in ids && k <= |es|
    requires Guarded(ids, p, disks[p], uncast, es)
    requires uncast ==> Uncast(sent, p, disks[p].term)
    ensures VotesOk(ids, disks[p := Written(disks[p], es[..k])], sent + Packets(p, es[..k]))
    decreases k
  {
    if k == 0 {
      assert disks[p := disks[p]] == disks && sent + [] == sent;
    } else {
      var e, rest := es[0], es[1..];
      OneEffect(ids, disks, sent, p, uncast, e);
      var disks', sent' := disks[p := Write(disks[p], e)], sent + Packets(p, [e]);
      GuardedPrefix(ids, disks', sent', p, StillUncast(disks[p], uncast, e), rest, k - 1);
      assert es[..k] == [e] + rest[..k - 1];
      PacketsConcat(p, [e], rest[..k - 1]);
      WrittenConcat(disks[p], [e], rest[..k - 1]);
      assert sent + Packets(p, es[..k]) == sent' + Packets(p, rest[..k - 1]);
      assert disks'[p := Written(disks'[p], rest[..k - 1])] == disks[p := Written(disks[p], es[..k])];
    }
  }

  /** A disk cut short never goes back in term, and holds no vote before the first term. */
  lemma {:induction false} GuardedDisk(ids: set<NodeId>, p: NodeId, d: Disk, uncast: bool, es: seq<Effect>, k: nat)
    requires Guarded(ids, p, d, uncast, es) && k <= |es|
    requires d.term == 0 ==> d.vote == 0
    ensures var w := Written(d, es[..k]); w.term >= d.term && (w.term == 0 ==> w.vote == 0)
    decreases k
  {
    if k > 0 {
      var e, rest := es[0], es[1..];
      GuardedDisk(ids, p, Write(d, e), StillUncast(d, uncast, e), rest, k - 1);
      assert es[..k] == [e] + rest[..k - 1];
      WrittenConcat(d, [e], rest[..k - 1]);
      assert Written(d, [e]) == Write(d, e) by {
        assert [e][..0] == [];
      }
    }
  }
}
