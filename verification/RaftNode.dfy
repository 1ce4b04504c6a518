/** The node as the object it is: fields updated in place by loops, each public
    method proved to do exactly what the step function of the same name says. */
module RaftNodeClass {
  import opened RaftTypes
  import opened RaftSteps

  lemma Assoc(a: seq<Effect>, b: seq<Effect>, c: seq<Effect>)
    ensures (a + b) + c == a + (b + c)
  {
  }

  lemma BroadcastSize(n: Node, heartbeat: bool)
    requires forall p :: p in n.peers ==> Get(n.nextIndex, p) >= 1
    ensures var b := Broadcast(n, heartbeat); |b| == |n.peers| && b[..0] == [] && b[..|n.peers|] == b
  {
  }

  lemma NextSend(n: Node, heartbeat: bool, i: nat, req: Message)
    requires (forall p :: p in n.peers ==> Get(n.nextIndex, p) >= 1) && i < |n.peers|
    requires req == AppendFor(n, n.peers[i], heartbeat)
    ensures var b := Broadcast(n, heartbeat); |b| == |n.peers| && b[..i + 1] == b[..i] + [Send(n.peers[i], req)]
  {
  }

  class RaftNode {
    const id: NodeId
    const peers: seq<NodeId>
    var currentTerm: nat
    var votedFor: NodeId
    var log: seq<Entry>
    var role: Role
    var commitIndex: nat
    var lastApplied: nat
    var leaderId: NodeId
    var nextIndex: map<NodeId, nat>
    var matchIndex: map<NodeId, nat>
    var votesReceived: nat
    /** Callback invocations made so far, oldest first. */
    var calls: seq<Effect>

    function State(): Node
      reads this
    {
      Node(id, peers, currentTerm, votedFor, log, role, commitIndex, lastApplied, leaderId,
           nextIndex, matchIndex, votesReceived)
    }

    constructor (id: NodeId, peers: seq<NodeId>)
      ensures State() == Fresh(id, peers) && calls == []
    {
      this.id, this.peers := id, peers;
      currentTerm, votedFor, log, role := 0, 0, [SENTINEL], Follower;
      commitIndex, lastApplied, leaderId := 0, 0, 0;
      nextIndex, matchIndex, votesReceived, calls := map[], map[], 0, [];
    }

    method Propose(command: Command) returns (ok: bool)
      requires Valid(State())
      modifies this
      ensures Valid(State())
      ensures var r := RaftSteps.Propose(old(State()), command);
        ok == r.0 && State() == r.1.node && calls == old(calls) + r.1.effects
    {
      hide Persist, Broadcast;
      if role != Leader {
        return false;
      }
      var entry := Entry(currentTerm, LastIndex(log) + 1, command);
      log := log + [entry];
      matchIndex := matchIndex[id := entry.index];
      nextIndex := nextIndex[id := entry.index + 1];
      PersistState();
      SendAppendEntries(false);
      Assoc(old(calls), Persist(State()), Broadcast(State(), false));
      ok := true;
    }

    method HandleRequestVote(req: Message) returns (reply: Message)
      requires Valid(State()) && req.RequestVote?
      modifies this
      ensures Valid(State())
      ensures var r := RaftSteps.HandleRequestVote(old(State()), req);
        reply == r.0 && State() == r.1.node && calls == old(calls) + r.1.effects
    {
      if req.term > currentTerm {
        BecomeFollower(req.term);
      }
      var grant := false;
      var term := currentTerm;
      if req.term >= currentTerm && (votedFor == 0 || votedFor == req.candidate)
         && (req.lastTerm > LastTerm(log) || (req.lastTerm == LastTerm(log) && req.lastIndex >= LastIndex(log))) {
        grant := true;
        votedFor := req.candidate;
        PersistState();
      }
      reply := VoteReply(term, grant);
    }

    method ProcessVoteReply(reply: Message)
      requires Valid(State()) && reply.VoteReply?
      modifies this
      ensures Valid(State())
      ensures var o := RaftSteps.ProcessVoteReply(old(State()), reply);
        State() == o.node && calls == old(calls) + o.effects
    {
      if reply.term > currentTerm {
        BecomeFollower(reply.term);
        return;
      }
      if reply.term != currentTerm || role != Candidate {
        return;
      }
      if reply.granted {
        votesReceived := votesReceived + 1;
      }
      var majority := (|peers| + 1) / 2 + 1;
      if votesReceived >= majority {
        BecomeLeader();
      }
    }

    method ProcessAppendReply(from: NodeId, reply: Message)
      requires Valid(State()) && reply.AppendReply?
      modifies this
      ensures Valid(State())
      ensures var o := RaftSteps.ProcessAppendReply(old(State()), from, reply);
        State() == o.node && calls == old(calls) + o.effects
    {
      if role != Leader || reply.term != currentTerm {
        return;
      }
      if reply.success {
        if reply.matchIndex > Get(matchIndex, from) {
          matchIndex := matchIndex[from := reply.matchIndex];
          nextIndex := nextIndex[from := reply.matchIndex + 1];
        }
      } else {
        if Get(nextIndex, from) > 1 {
          nextIndex := nextIndex[from := nextIndex[from] - 1];
        }
        SendAppendEntries(false);
      }
    }

    method HandleAppendEntries(req: Message) returns (reply: Message)
      requires Valid(State()) && req.AppendEntries?
      modifies this
      ensures Valid(State())
      ensures var r := RaftSteps.HandleAppendEntries(old(State()), req);
        reply == r.0 && State() == r.1.node && calls == old(calls) + r.1.effects
    {
      hide RaftSteps.AcceptEntries, Persist;
      if req.term < currentTerm {
        return AppendReply(currentTerm, false, 0);
      }
      if req.term > currentTerm {
        BecomeFollower(req.term);
      }
      leaderId := req.leader;
      if req.prevIndex > LastIndex(log) {
        return AppendReply(currentTerm, false, LastIndex(log));
      }
      if req.prevIndex > 0 && log[req.prevIndex].term != req.prevTerm {
        return AppendReply(currentTerm, false, req.prevIndex - 1);
      }
      reply := AcceptEntries(req);
    }

    method AcceptEntries(req: Message) returns (reply: Message)
      requires Valid(State()) && req.AppendEntries? && req.prevIndex < |log|
      modifies this
      ensures Valid(State())
      ensures var r := RaftSteps.AcceptEntries(old(State()), req);
        reply == r.0 && State() == r.1.node && calls == old(calls) + r.1.effects
    {
      hide Overlap, Applications;
      MergeEntries(req.prevIndex, req.entries);
      if req.commit > commitIndex {
        commitIndex := if req.commit < LastIndex(log) then req.commit else LastIndex(log);
      }
      PersistState();
      ApplyCommitted();
      reply := AppendReply(currentTerm, true, LastIndex(log));
      ghost var m := Adopt(old(State()), req);
      Assoc(old(calls), Persist(m), ApplyEntries(m).effects);
    }

    method Tick(due: bool)
      requires Valid(State())
      modifies this
      ensures Valid(State())
      ensures var o := RaftSteps.Tick(old(State()), due); State() == o.node && calls == old(calls) + o.effects
    {
      if role == Follower || role == Candidate {
        if due {
          BecomeCandidate();
        }
      }
      if role == Leader {
        if due {
          SendAppendEntries(true);
        }
        AdvanceCommitIndex();
        ApplyCommitted();
      }
    }

    method LoadPersistedState(term: nat, vote: NodeId, entries: seq<Entry>)
      modifies this
      ensures State() == old(State()).(term := term, votedFor := vote, log := [SENTINEL] + entries)
      ensures calls == old(calls)
    {
      currentTerm, votedFor := term, vote;
      log := [SENTINEL];
      for i := 0 to |entries|
        invariant log == [SENTINEL] + entries[..i]
        invariant State() == old(State()).(term := term, votedFor := vote, log := log)
        invariant calls == old(calls)
      {
        log := log + [entries[i]];
      }
      assert entries[..|entries|] == entries;
    }

    method BecomeFollower(term: nat)
      requires |log| >= 1
      modifies this
      ensures var o := RaftSteps.BecomeFollower(old(State()), term);
        State() == o.node && calls == old(calls) + o.effects
    {
      role, currentTerm, votedFor := Follower, term, 0;
      PersistState();
    }

    method BecomeCandidate()
      requires |log| >= 1
      modifies this
      ensures var o := RaftSteps.BecomeCandidate(old(State())); State() == o.node && calls == old(calls) + o.effects
    {
      role, currentTerm, votedFor := Candidate, currentTerm + 1, id;
      leaderId, votesReceived := 0, 1;
      PersistState();
      StartElection();
      Assoc(old(calls), Persist(State()), Solicit(State()));
    }

    method StartElection()
      modifies `votesReceived, `calls
      ensures State() == old(State()).(votes := 1) && calls == old(calls) + Solicit(State())
    {
      votesReceived := 1;
      for i := 0 to |peers|
        invariant votesReceived == 1 && calls == old(calls) + Solicit(State())[..i]
      {
        var vote := Send(peers[i], RequestVote(currentTerm, id, LastIndex(log), LastTerm(log)));
        assert Solicit(State())[..i + 1] == Solicit(State())[..i] + [vote];
        calls := calls + [vote];
      }
    }

    method BecomeLeader()
      requires |log| >= 1
      modifies this
      ensures var o := RaftSteps.BecomeLeader(old(State())); State() == o.node && calls == old(calls) + o.effects
      ensures forall p :: p in peers ==> Get(nextIndex, p) >= 1
    {
      role, leaderId := Leader, id;
      var last := LastIndex(log);
      for i := 0 to |peers|
        invariant nextIndex == Reset(old(nextIndex), peers[..i], last + 1)
        invariant matchIndex == Reset(old(matchIndex), peers[..i], 0)
        invariant State() == old(State()).(role := Leader, leaderId := id, nextIndex := nextIndex,
            matchIndex := matchIndex)
        invariant calls == old(calls)
      {
        assert peers[..i + 1][..i] == peers[..i];
        nextIndex := nextIndex[peers[i] := last + 1];
        matchIndex := matchIndex[peers[i] := 0];
      }
      assert peers[..|peers|] == peers;
      nextIndex := nextIndex[id := last + 1];
      matchIndex := matchIndex[id := last];
      ResetAll(old(nextIndex), peers, last + 1);
      SendAppendEntries(true);
    }

    method SendAppendEntries(heartbeat: bool)
      requires forall p :: p in peers ==> Get(nextIndex, p) >= 1
      modifies `calls
      ensures State() == old(State())
      ensures calls == old(calls) + Broadcast(State(), heartbeat)
    {
      hide Broadcast;
      BroadcastSize(State(), heartbeat);
      for i := 0 to |peers|
        invariant calls == old(calls) + Broadcast(State(), heartbeat)[..i]
      {
        var next := Get(nextIndex, peers[i]);
        var entries := [];
        if !heartbeat && next <= LastIndex(log) {
          entries := EntriesFrom(next);
        }
        var req := AppendEntries(currentTerm, id, next - 1, TermAt(log, next - 1), commitIndex, entries);
        NextSend(State(), heartbeat, i, req);
        calls := calls + [Send(peers[i], req)];
      }
    }

    method EntriesFrom(next: nat) returns (entries: seq<Entry>)
      requires 1 <= next < |log|
      ensures entries == log[next..]
    {
      entries := [];
      var j := next;
      while j <= LastIndex(log)
        invariant next <= j <= |log|
        invariant entries == log[next..j]
      {
        entries := entries + [log[j]];
        j := j + 1;
      }
    }

    method MergeEntries(prev: nat, entries: seq<Entry>)
      requires prev < |log|
      modifies `log
      ensures log == Merge(old(log), prev, entries)
    {
      ghost var k := Overlap(log, prev, entries);
      for i := 0 to |entries|
        invariant log == if i <= k then old(log) else old(log)[..prev + 1 + k] + entries[k..i]
      {
        var idx := prev + 1 + i;
        if idx <= LastIndex(log) && log[idx].term != entries[i].term {
          log := log[..idx];
        }
        if idx > LastIndex(log) {
          log := log + [entries[i]];
        }
      }
      assert entries[k..|entries|] == entries[k..];
    }

    method AdvanceCommitIndex()
      requires role == Leader && |log| >= 1
      modifies `commitIndex
      ensures State() == AdvanceCommit(old(State()))
      ensures old(commitIndex) <= commitIndex
      ensures commitIndex != old(commitIndex) ==> Replicated(old(State()), commitIndex)
      ensures forall i :: commitIndex < i < |log| ==> !Replicated(old(State()), i)
    {
      var n := LastIndex(log);
      ScanCommitRange(State(), n);
      while n > commitIndex
        invariant State() == old(State())
        invariant n <= LastIndex(log)
        invariant n >= commitIndex ==> ScanCommit(State(), LastIndex(log)) == ScanCommit(State(), n)
        invariant n < commitIndex ==> ScanCommit(State(), LastIndex(log)) == commitIndex
      {
        if log[n].term == currentTerm {
          var count := 1;
          for i := 0 to |peers|
            invariant count == 1 + Acks(peers[..i], matchIndex, n)
          {
            assert peers[..i + 1][..i] == peers[..i];
            if Get(matchIndex, peers[i]) >= n {
              count := count + 1;
            }
          }
          assert peers[..|peers|] == peers;
          if count > (|peers| + 1) / 2 {
            commitIndex := n;
            ScanCommitRange(old(State()), LastIndex(log));
            return;
          }
        }
        n := n - 1;
      }
    }

    method ApplyCommitted()
      requires lastApplied < commitIndex ==> commitIndex < |log|
      modifies `lastApplied, `calls
      ensures var o := ApplyEntries(old(State())); State() == o.node && calls == old(calls) + o.effects
    {
      while lastApplied < commitIndex
        invariant old(lastApplied) <= lastApplied
        invariant lastApplied <= commitIndex || lastApplied == old(lastApplied)
        invariant old(lastApplied) < commitIndex ==>
          calls == old(calls) + Applications(log, old(lastApplied), commitIndex)[..lastApplied - old(lastApplied)]
        invariant old(lastApplied) >= commitIndex ==> calls == old(calls)
      {
        lastApplied := lastApplied + 1;
        calls := calls + [Apply(lastApplied, log[lastApplied].command)];
      }
    }

    method PersistState()
      requires |log| >= 1
      modifies `calls
      ensures calls == old(calls) + Persist(State())
    {
      calls := calls + [WriteTerm(currentTerm), WriteVote(votedFor), WriteLog(log[1..])];
    }
  }
}
