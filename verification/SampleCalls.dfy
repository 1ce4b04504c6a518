/** The calls the sample runs are made of, for a node with two peers. */
module SampleCalls {
  import opened RaftTypes
  import opened RaftSteps
  import opened RaftCluster
  import opened ElectionSafety
  import opened ApplyOrder
  import opened PersistHistory
  import opened SampleRuns

  /** An election timeout. */
  lemma StandCall(n: Node)
    requires Valid(n) && !n.role.Leader? && |n.peers| == 2
    ensures Gives(Tick(n, true), BecomeCandidate(n).node, 2, [])
    ensures forall i :: 0 <= i < 2 ==>
      Packets(n.id, Tick(n, true).effects)[i]
        == Packet(n.id, n.peers[i], RequestVote(n.term + 1, n.id, LastIndex(n.log), LastTerm(n.log)))
  {
    SolicitPackets(n, n.id);
    TickApplies(n, true);
  }

  /** A vote request. */
  lemma VoteCall(n: Node, from: NodeId, req: Message)
    requires Valid(n) && req.RequestVote?
    ensures Gives(Handle(n, from, req), HandleRequestVote(n, req).1.node, 1, [])
    ensures Packets(n.id, Handle(n, from, req).effects)[0] == Packet(n.id, from, HandleRequestVote(n, req).0)
  {
    hide Packets, Applied, HandleRequestVote;
    GrantPackets(n, n.id, from, req);
    VoteSilent(n, from, req);
    RequestVoteSettles(n, from, req);
  }

  lemma VoteSilent(n: Node, from: NodeId, req: Message)
    requires Valid(n) && req.RequestVote?
    ensures Applied(Handle(n, from, req).effects) == []
  {
    NoApplications(Handle(n, from, req).effects);
  }

  /** The reply that makes a candidate the leader. */
  lemma WinCall(n: Node, from: NodeId)
    requires Valid(n) && n.role.Candidate? && n.votes + 1 >= Majority(n) && |n.peers| == 2
    ensures var m := BecomeLeader(n.(votes := n.votes + 1)).node;
      && (forall i :: 0 <= i < 2 ==> Get(m.nextIndex, n.peers[i]) >= 1)
      && Gives(Handle(n, from, VoteReply(n.term, true)), m, 2, [])
      && (forall i :: 0 <= i < 2 ==>
            Packets(n.id, Handle(n, from, VoteReply(n.term, true)).effects)[i]
              == Packet(n.id, n.peers[i], AppendFor(m, n.peers[i], true)))
  {
    var m := BecomeLeader(n.(votes := n.votes + 1)).node;
    ResetAll(n.nextIndex, n.peers, LastIndex(n.log) + 1);
    BroadcastReads(n.id, m, true);
  }

  lemma ResetTwo(m: map<NodeId, nat>, a: NodeId, b: NodeId, v: nat)
    ensures Reset(m, [a, b], v) == m[a := v][b := v]
  {
    assert [a, b][..1] == [a] && [a][..0] == [];
    assert Reset(m, [a], v) == m[a := v];
  }

  /** A leader takes a command. */
  lemma ProposeCall(n: Node, c: Command)
    requires Valid(n) && n.role.Leader? && n.id !in n.peers && |n.peers| == 2
    ensures var m := Propose(n, c).1.node;
      && (forall i :: 0 <= i < 2 ==> Get(m.nextIndex, n.peers[i]) >= 1)
      && Gives(Propose(n, c).1, m, 2, [])
      && (forall i :: 0 <= i < 2 ==>
           Packets(n.id, Propose(n, c).1.effects)[i] == Packet(n.id, n.peers[i], AppendFor(m, n.peers[i], false)))
  {
    var m := Propose(n, c).1.node;
    PacketsConcat(n.id, Persist(m), Broadcast(m, false));
    PersistReads(n.id, Disk(0, 0), m);
    BroadcastReads(n.id, m, false);
    AppliedConcat(Persist(m), Broadcast(m, false));
  }

  lemma SilentMerge(n: Node, p: NodeId, req: Message)
    requires Valid(n) && req.AppendEntries? && req.prevIndex < |n.log|
    ensures Packets(p, AcceptEntries(n, req).1.effects) == []
  {
    var m := Adopt(n, req);
    PersistReads(p, Disk(0, 0), m);
    ApplySettles(m, Disk(0, 0));
    PacketsConcat(p, Persist(m), ApplyEntries(m).effects);
  }

  lemma SilentAccept(n: Node, p: NodeId, req: Message)
    requires Valid(n) && req.AppendEntries?
    ensures Packets(p, HandleAppendEntries(n, req).1.effects) == []
  {
    if req.term >= n.term {
      var o := if req.term > n.term then BecomeFollower(n, req.term) else Outcome(n, []);
      if req.term > n.term { PersistReads(p, Disk(0, 0), o.node); }
      var k := o.node.(leaderId := req.leader);
      if Accepts(k.log, req) {
        SilentMerge(k, p, req);
        PacketsConcat(p, o.effects, AcceptEntries(k, req).1.effects);
      }
    }
  }

  /** An append request: one reply, and what it applied. */
  lemma AppendCall(n: Node, from: NodeId, req: Message)
    requires Valid(n) && req.AppendEntries?
    ensures var r := HandleAppendEntries(n, req); var o := Handle(n, from, req);
      && o.node == r.1.node && Packets(n.id, o.effects) == [Packet(n.id, from, r.0)]
      && InOrder(n.lastApplied, o.node, Applied(o.effects))
  {
    hide HandleAppendEntries;
    var r := HandleAppendEntries(n, req);
    PacketsConcat(n.id, r.1.effects, [Send(from, r.0)]);
    PacketsOfSends(n.id, [Send(from, r.0)]);
    SilentAccept(n, n.id, req);
    AppendEntriesApplies(n, from, req);
  }

  /** A success reply only moves the leader's indices. */
  lemma AckCall(n: Node, from: NodeId, reply: Message)
    requires Valid(n) && reply.AppendReply? && reply.success
    ensures Gives(Handle(n, from, reply), ProcessAppendReply(n, from, reply).node, 0, [])
  {
  }

  /** A leader's tick between heartbeats. */
  lemma CommitCall(n: Node)
    requires Valid(n) && n.role.Leader? && AdvanceCommit(n).commitIndex < |n.log|
    ensures var a := AdvanceCommit(n); var o := Tick(n, false);
      && o.node == a.(lastApplied := if a.lastApplied < a.commitIndex then a.commitIndex else a.lastApplied)
      && Packets(n.id, o.effects) == [] && InOrder(n.lastApplied, o.node, Applied(o.effects))
  {
    hide AdvanceCommit;
    ScanKeeps(n);
    TickApplies(n, false);
    var a := AdvanceCommit(n);
    ApplySettles(a, Disk(0, 0));
    assert Tick(n, false).effects == [] + ApplyEntries(a).effects == ApplyEntries(a).effects;
  }

  /** A leader that has applied nothing commits and applies its first entry. */
  lemma FirstCommitCall(n: Node)
    requires Valid(n) && n.role.Leader? && n.commitIndex == n.lastApplied == 0 && |n.log| == 2
    requires AdvanceCommit(n) == n.(commitIndex := 1)
    ensures Gives(Tick(n, false), n.(commitIndex := 1, lastApplied := 1), 0, [(1, n.log[1].command)])
  {
    hide Tick, AdvanceCommit, Packets, Applied;
    CommitCall(n);
  }

  lemma ScanKeeps(n: Node)
    ensures var a := AdvanceCommit(n); a == n.(commitIndex := a.commitIndex) && a.role == n.role
  {
  }

  lemma GrantWrites(n: Node, from: NodeId, req: Message)
    requires Valid(n) && req.RequestVote? && req.term > n.term && HandleRequestVote(n, req).0.granted
    ensures LogWrites(Handle(n, from, req).effects) == [n.log[1..], n.log[1..]]
  {
    var r := HandleRequestVote(n, req);
    var f := BecomeFollower(n, req.term);
    var es := f.effects + Persist(r.1.node);
    assert Handle(n, from, req).effects == es + [Send(from, r.0)];
    WritesSplit(es, Send(from, r.0));
    PersistWrites(f.effects, r.1.node);
    PersistWrites([], f.node);
    assert [] + Persist(f.node) == f.effects;
    NoWritesYet();
  }

  lemma AcceptWritesOnce(n: Node, from: NodeId, req: Message)
    requires Valid(n) && req.AppendEntries? && req.term == n.term && Accepts(n.log, req) && req.commit <= n.commitIndex
    ensures LogWrites(Handle(n, from, req).effects) == [Merge(n.log, req.prevIndex, req.entries)[1..]]
  {
    hide LogWrites, Overlap;
    var k := n.(leaderId := req.leader);
    var m := Adopt(k, req);
    var reply := Send(from, AppendReply(m.term, true, LastIndex(m.log)));
    assert Handle(n, from, req).effects == ([] + Persist(m)) + [reply];
    WritesSplit([] + Persist(m), reply);
    PersistWrites([], m);
    NoWritesYet();
  }
}
