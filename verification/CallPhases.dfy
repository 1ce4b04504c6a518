/** Every call makes its durable writes before anything else, so a node that dies in a call has either
    told nobody about it or finished writing it down. */
module CallPhases {
  import opened RaftTypes
  import opened RaftSteps
  import opened RaftCluster

  predicate IsWrite(e: Effect) {
    e.WriteTerm? || e.WriteVote? || e.WriteLog?
  }

  ghost predicate NoWrites(es: seq<Effect>) {
    forall i :: 0 <= i < |es| ==> !IsWrite(es[i])
  }

  ghost predicate SameStored(n: Node, m: Node) {
    n.term == m.term && n.votedFor == m.votedFor && n.log == m.log
  }

  /** The writes are none, one persist of the final state, or one of its term and the old log and then
      one of the final state. */
  ghost predicate Writes(n: Node, m: Node, ws: seq<Effect>)
    requires |n.log| >= 1 && |m.log| >= 1
  {
    || (ws == [] && SameStored(n, m))
    || ws == Persist(m)
    || exists v: NodeId {:trigger WriteVote(v)} ::
      ws == [WriteTerm(m.term), WriteVote(v), WriteLog(n.log[1..])] + Persist(m)
  }

  ghost predicate Phased(n: Node, o: Outcome)
    requires |n.log| >= 1 && |o.node.log| >= 1
  {
    exists j {:trigger o.effects[..j]} ::
      0 <= j <= |o.effects| && Writes(n, o.node, o.effects[..j]) && NoWrites(o.effects[j..])
  }

  lemma PhasedAt(n: Node, o: Outcome, ws: seq<Effect>, rest: seq<Effect>)
    requires |n.log| >= 1 && |o.node.log| >= 1
    requires o.effects == ws + rest && Writes(n, o.node, ws) && NoWrites(rest)
    ensures Phased(n, o)
  {
    assert o.effects[..|ws|] == ws && o.effects[|ws|..] == rest;
  }

  lemma ProposePhased(n: Node, c: Command)
    requires Valid(n)
    ensures Phased(n, Propose(n, c).1)
  {
    var o := Propose(n, c).1;
    if n.role.Leader? {
      PhasedAt(n, o, Persist(o.node), Broadcast(o.node, false));
    } else {
      PhasedAt(n, o, [], []);
    }
  }

  lemma TickPhased(n: Node, due: bool)
    requires Valid(n)
    ensures Phased(n, Tick(n, due))
  {
    var o := Tick(n, due);
    if n.role.Leader? {
      ScanCommitRange(n, LastIndex(n.log));
      var beats := if due then Broadcast(n, true) else [];
      var a := ApplyEntries(AdvanceCommit(n)).effects;
      assert NoWrites(a);
      PhasedAt(n, o, [], beats + a);
    } else if due {
      PhasedAt(n, o, Persist(o.node), Solicit(o.node));
    } else {
      PhasedAt(n, o, [], []);
    }
  }

  lemma RequestVotePhased(n: Node, from: NodeId, req: Message)
    requires Valid(n) && req.RequestVote?
    ensures Phased(n, Handle(n, from, req))
  {
    var r := HandleRequestVote(n, req);
    var o := Handle(n, from, req);
    var f := if req.term > n.term then BecomeFollower(n, req.term) else Outcome(n, []);
    var reply := [Send(from, r.0)];
    if Grants(f.node, req) {
      var v := f.node.votedFor;
      assert req.term > n.term ==> f.effects == [WriteTerm(req.term), WriteVote(v), WriteLog(n.log[1..])];
      PhasedAt(n, o, f.effects + Persist(o.node), reply);
    } else {
      PhasedAt(n, o, f.effects, reply);
    }
  }

  lemma RepliesPhased(n: Node, from: NodeId, reply: Message)
    requires Valid(n) && (reply.VoteReply? || reply.AppendReply?)
    ensures Phased(n, Handle(n, from, reply))
  {
    var o := Handle(n, from, reply);
    if reply.VoteReply? && reply.term > n.term {
      PhasedAt(n, o, Persist(o.node), []);
    } else {
      assert NoWrites(o.effects);
      PhasedAt(n, o, [], o.effects);
    }
  }

  lemma AppendEntriesPhased(n: Node, from: NodeId, req: Message)
    requires Valid(n) && req.AppendEntries?
    ensures Phased(n, Handle(n, from, req))
  {
    var r := HandleAppendEntries(n, req);
    var o := Handle(n, from, req);
    var f := if req.term > n.term then BecomeFollower(n, req.term) else Outcome(n, []);
    var k := f.node.(leaderId := req.leader);
    var reply := [Send(from, r.0)];
    if req.term >= n.term && Accepts(k.log, req) {
      AcceptPhased(n, k, from, req, f.effects);
    } else {
      PhasedAt(n, o, if req.term < n.term then [] else f.effects, reply);
    }
  }

  lemma AcceptWrites(k: Node, req: Message)
    requires Valid(k) && req.AppendEntries? && req.prevIndex < |k.log|
    ensures var r := AcceptEntries(k, req).1;
      && |r.node.log| >= 1 && r.node.term == k.term && r.node.votedFor == k.votedFor
      && 3 <= |r.effects| && r.effects[..3] == Persist(r.node) && NoWrites(r.effects[3..])
  {
    hide Overlap;
    var m := Adopt(k, req);
    var a := ApplyEntries(m);
    var es := AcceptEntries(k, req).1.effects;
    assert es[..3] == Persist(m) && es[3..] == a.effects;
  }

  lemma AcceptPhased(n: Node, k: Node, from: NodeId, req: Message, first: seq<Effect>)
    requires Valid(n) && req.AppendEntries? && req.term >= n.term && Accepts(n.log, req)
    requires k == (if req.term > n.term then BecomeFollower(n, req.term).node else n).(leaderId := req.leader)
    requires first == if req.term > n.term then BecomeFollower(n, req.term).effects else []
    ensures Phased(n, Handle(n, from, req))
  {
    hide AcceptEntries;
    var o := Handle(n, from, req);
    AcceptWrites(k, req);
    var r := AcceptEntries(k, req);
    var ws, rest := first + r.1.effects[..3], r.1.effects[3..] + [Send(from, r.0)];
    assert r.1.effects == r.1.effects[..3] + r.1.effects[3..];
    assert o.node == r.1.node && o.effects == ws + rest;
    if req.term > n.term {
      assert first == [WriteTerm(k.term), WriteVote(0), WriteLog(n.log[1..])];
    } else {
      assert ws == Persist(o.node);
    }
    PhasedAt(n, o, ws, rest);
  }

  lemma LocalPhased(ids: set<NodeId>, s: Cluster, ev: Event)
    requires Shape(ids, s) && Enabled(ids, s, ev)
    ensures |Local(ids, s, ev).node.log| >= 1 && Phased(s.nodes[Actor(ids, s, ev)], Local(ids, s, ev))
  {
    hide Propose, Tick, HandleRequestVote, ProcessVoteReply, HandleAppendEntries, ProcessAppendReply, Phased;
    LocalSettles(ids, s, ev);
    var n := s.nodes[Actor(ids, s, ev)];
    match ev
    case Proposal(_, c) => ProposePhased(n, c);
    case Clock(_, due) => TickPhased(n, due);
    case Delivery(i) =>
      var pk := s.sent[i];
      match pk.msg
      case RequestVote(_, _, _, _) => RequestVotePhased(n, pk.src, pk.msg);
      case VoteReply(_, _) => RepliesPhased(n, pk.src, pk.msg);
      case AppendEntries(_, _, _, _, _, _) => AppendEntriesPhased(n, pk.src, pk.msg);
      case AppendReply(_, _, _) => RepliesPhased(n, pk.src, pk.msg);
  }

  // ----- Dying in a call -----

  /** Everything the call writes is on disk. */
  ghost predicate WroteAll(n: Node, o: Outcome, k: nat)
    requires |n.log| >= 1 && |o.node.log| >= 1 && k <= |o.effects|
  {
    && Written(Disk(n.term, n.votedFor), o.effects[..k]) == Disk(o.node.term, o.node.votedFor)
    && StoredLog(n.log[1..], o.effects[..k]) == o.node.log[1..]
  }

  /** The log on disk is the old one and the call has had no effect but on the disk. */
  ghost predicate WrotePart(n: Node, o: Outcome, p: NodeId, k: nat)
    requires |n.log| >= 1 && |o.node.log| >= 1 && k <= |o.effects|
  {
    var d := Written(Disk(n.term, n.votedFor), o.effects[..k]);
    && Packets(p, o.effects[..k]) == [] && Applied(o.effects[..k]) == []
    && StoredLog(n.log[1..], o.effects[..k]) == n.log[1..]
    && (d.term == o.node.term || d == Disk(n.term, n.votedFor))
  }

  lemma {:induction false} WritesRead(p: NodeId, d: Disk, log: seq<Entry>, ws: seq<Effect>, rest: seq<Effect>)
    requires NoWrites(rest)
    ensures Written(d, ws + rest) == Written(d, ws) && StoredLog(log, ws + rest) == StoredLog(log, ws)
  {
    if rest == [] {
      assert ws + rest == ws;
    } else {
      var front := rest[..|rest| - 1];
      assert (ws + rest)[..|ws + rest| - 1] == ws + front;
      WritesRead(p, d, log, ws, front);
    }
  }

  lemma {:induction false} WritesTell(p: NodeId, ws: seq<Effect>)
    requires forall i :: 0 <= i < |ws| ==> IsWrite(ws[i])
    ensures Packets(p, ws) == [] && Applied(ws) == []
  {
    if ws != [] { WritesTell(p, ws[..|ws| - 1]); }
  }

  lemma WriteOne(d: Disk, log: seq<Entry>, es: seq<Effect>, e: Effect)
    ensures Written(d, es + [e]) == Write(Written(d, es), e)
    ensures StoredLog(log, es + [e]) == if e.WriteLog? then e.entries else StoredLog(log, es)
  {
    assert (es + [e])[..|es|] == es;
  }

  /** One persist after `es`, cut after `k` of its three writes. */
  lemma PersistPart(d: Disk, log: seq<Entry>, es: seq<Effect>, t: nat, v: NodeId, entries: seq<Entry>, k: nat)
    requires k <= 3
    ensures var ws := es + [WriteTerm(t), WriteVote(v), WriteLog(entries)][..k];
      && Written(d, ws) == Disk(if k >= 1 then t else Written(d, es).term, if k >= 2 then v else Written(d, es).vote)
      && StoredLog(log, ws) == if k == 3 then entries else StoredLog(log, es)
  {
    var all := [WriteTerm(t), WriteVote(v), WriteLog(entries)];
    assert all[..0] == [] && es + [] == es;
    if k > 0 {
      PersistPart(d, log, es, t, v, entries, k - 1);
      assert all[..k] == all[..k - 1] + [all[k - 1]];
      assert es + all[..k] == (es + all[..k - 1]) + [all[k - 1]];
      WriteOne(d, log, es + all[..k - 1], all[k - 1]);
    }
  }

  /** What the disk holds after `ws`, when the call that writes them leads from `n` to `m`. */
  ghost predicate Holds(n: Node, m: Node, ws: seq<Effect>, all: bool)
    requires |n.log| >= 1 && |m.log| >= 1
  {
    var d := Written(Disk(n.term, n.votedFor), ws);
    var log := StoredLog(n.log[1..], ws);
    if all then d == Disk(m.term, m.votedFor) && log == m.log[1..]
    else log == n.log[1..] && (d.term == m.term || d == Disk(n.term, n.votedFor))
  }

  lemma OncePart(n: Node, m: Node, k: nat)
    requires |n.log| >= 1 && |m.log| >= 1 && k <= 3
    ensures Holds(n, m, Persist(m)[..k], k == 3)
  {
    hide Written, StoredLog;
    PersistPart(Disk(n.term, n.votedFor), n.log[1..], [], m.term, m.votedFor, m.log[1..], k);
    assert [] + Persist(m)[..k] == Persist(m)[..k];
    NothingWritten(Disk(n.term, n.votedFor), n.log[1..]);
  }

  lemma NothingWritten(d: Disk, log: seq<Entry>)
    ensures Written(d, []) == d && StoredLog(log, []) == log
  {
  }

  lemma TwicePart(n: Node, m: Node, v: NodeId, k: nat)
    requires |n.log| >= 1 && |m.log| >= 1 && k <= 6
    ensures Holds(n, m, ([WriteTerm(m.term), WriteVote(v), WriteLog(n.log[1..])] + Persist(m))[..k], k == 6)
  {
    hide Written, StoredLog;
    var d, log := Disk(n.term, n.votedFor), n.log[1..];
    var first := [WriteTerm(m.term), WriteVote(v), WriteLog(n.log[1..])];
    NothingWritten(d, log);
    if k <= 3 {
      PersistPart(d, log, [], m.term, v, n.log[1..], k);
      assert [] + first[..k] == (first + Persist(m))[..k];
    } else {
      PersistPart(d, log, [], m.term, v, n.log[1..], 3);
      assert [] + first[..3] == first;
      PersistPart(d, log, first, m.term, m.votedFor, m.log[1..], k - 3);
      assert first + Persist(m)[..k - 3] == (first + Persist(m))[..k];
    }
  }

  lemma WritesPart(n: Node, m: Node, ws: seq<Effect>, k: nat)
    requires |n.log| >= 1 && |m.log| >= 1 && Writes(n, m, ws) && k <= |ws|
    ensures forall i :: 0 <= i < |ws| ==> IsWrite(ws[i])
    ensures Holds(n, m, ws[..k], k == |ws|)
  {
    hide Holds;
    if ws == Persist(m) {
      OncePart(n, m, k);
    } else if ws == [] {
      NoneHolds(n, m);
    } else {
      var v: NodeId :| ws == [WriteTerm(m.term), WriteVote(v), WriteLog(n.log[1..])] + Persist(m);
      TwicePart(n, m, v, k);
    }
  }

  lemma NoneHolds(n: Node, m: Node)
    requires |n.log| >= 1 && |m.log| >= 1 && SameStored(n, m)
    ensures Holds(n, m, [], true)
  {
  }

  /** A node that dies in a call finished writing it down, or told nobody about it. */
  lemma DiesEitherWay(n: Node, o: Outcome, p: NodeId, k: nat)
    requires |n.log| >= 1 && |o.node.log| >= 1 && Phased(n, o) && k <= |o.effects|
    ensures WroteAll(n, o, k) || WrotePart(n, o, p, k)
  {
    hide Writes;
    var es := o.effects;
    var j :| 0 <= j <= |es| && Writes(n, o.node, es[..j]) && NoWrites(es[j..]);
    var ws := es[..j];
    if k >= j {
      var rest := es[j..k];
      assert es[..k] == ws + rest;
      forall i | 0 <= i < |rest| ensures !IsWrite(rest[i]) { assert rest[i] == es[j..][i]; }
      WritesRead(p, Disk(n.term, n.votedFor), n.log[1..], ws, rest);
      WritesPart(n, o.node, ws, j);
      assert ws[..j] == ws;
    } else {
      assert es[..k] == ws[..k];
      WritesPart(n, o.node, ws, k);
      WritesTell(p, ws[..k]);
    }
  }

  /** Between calls the log on disk is the log in memory. */
  lemma CallStores(n: Node, o: Outcome)
    requires |n.log| >= 1 && |o.node.log| >= 1 && Phased(n, o)
    ensures StoredLog(n.log[1..], o.effects) == o.node.log[1..]
  {
    hide Writes;
    var es := o.effects;
    var j :| 0 <= j <= |es| && Writes(n, o.node, es[..j]) && NoWrites(es[j..]);
    assert es == es[..j] + es[j..];
    WritesRead(0, Disk(n.term, n.votedFor), n.log[1..], es[..j], es[j..]);
    WritesPart(n, o.node, es[..j], j);
    assert es[..j][..j] == es[..j];
  }
}
