/** Every public call of a Raft node as a function from its fields to an outcome. */
module RaftSteps {
  import opened RaftTypes

  function Persist(n: Node): seq<Effect>
    requires |n.log| >= 1
  {
    [WriteTerm(n.term), WriteVote(n.votedFor), WriteLog(n.log[1..])]
  }

  function BecomeFollower(n: Node, term: nat): Outcome
    requires |n.log| >= 1
  {
    var m := n.(role := Follower, term := term, votedFor := 0);
    Outcome(m, Persist(m))
  }

  function BecomeCandidate(n: Node): Outcome
    requires |n.log| >= 1
  {
    var m := n.(role := Candidate, term := n.term + 1, votedFor := n.id, leaderId := 0, votes := 1);
    Outcome(m, Persist(m) + Solicit(m))
  }

  function Solicit(n: Node): seq<Effect> {
    seq(|n.peers|, i requires 0 <= i < |n.peers| =>
      Send(n.peers[i], RequestVote(n.term, n.id, LastIndex(n.log), LastTerm(n.log))))
  }

  function BecomeLeader(n: Node): Outcome
    requires |n.log| >= 1
  {
    var last := LastIndex(n.log);
    var m := n.(role := Leader, leaderId := n.id,
                nextIndex := Reset(n.nextIndex, n.peers, last + 1)[n.id := last + 1],
                matchIndex := Reset(n.matchIndex, n.peers, 0)[n.id := last]);
    ResetAll(n.nextIndex, n.peers, last + 1);
    Outcome(m, Broadcast(m, true))
  }

  function Reset(m: map<NodeId, nat>, keys: seq<NodeId>, v: nat): map<NodeId, nat> {
    if keys == [] then m else Reset(m, keys[..|keys| - 1], v)[keys[|keys| - 1] := v]
  }

  lemma {:induction false} ResetAll(m: map<NodeId, nat>, keys: seq<NodeId>, v: nat)
    ensures forall k :: Get(Reset(m, keys, v), k) == if k in keys then v else Get(m, k)
  {
    if keys != [] {
      var front := keys[..|keys| - 1];
      ResetAll(m, front, v);
      assert keys == front + [keys[|keys| - 1]];
    }
  }

  function AppendFor(n: Node, peer: NodeId, heartbeat: bool): Message
    requires Get(n.nextIndex, peer) >= 1
  {
    var next := Get(n.nextIndex, peer);
    AppendEntries(n.term, n.id, next - 1, TermAt(n.log, next - 1), n.commitIndex,
                  if !heartbeat && next <= LastIndex(n.log) then n.log[next..] else [])
  }

  function Broadcast(n: Node, heartbeat: bool): seq<Effect>
    requires forall p :: p in n.peers ==> Get(n.nextIndex, p) >= 1
  {
    seq(|n.peers|, i requires 0 <= i < |n.peers| => Send(n.peers[i], AppendFor(n, n.peers[i], heartbeat)))
  }

  /** Peers whose acknowledged index reaches `i`. */
  function Acks(peers: seq<NodeId>, matchIndex: map<NodeId, nat>, i: nat): nat {
    if peers == [] then 0
    else Acks(peers[..|peers| - 1], matchIndex, i) + (if Get(matchIndex, peers[|peers| - 1]) >= i then 1 else 0)
  }

  predicate Replicated(n: Node, i: nat) {
    i < |n.log| && n.log[i].term == n.term && 1 + Acks(n.peers, n.matchIndex, i) > (|n.peers| + 1) / 2
  }

  /** The highest index in (commitIndex, i] that a majority holds and this term created. */
  function ScanCommit(n: Node, i: nat): nat {
    if i <= n.commitIndex then n.commitIndex
    else if Replicated(n, i) then i
    else ScanCommit(n, i - 1)
  }

  function AdvanceCommit(n: Node): Node {
    if n.role.Leader? then n.(commitIndex := ScanCommit(n, LastIndex(n.log))) else n
  }

  function ApplyEntries(n: Node): Outcome
    requires n.lastApplied < n.commitIndex ==> n.commitIndex < |n.log|
  {
    if n.lastApplied < n.commitIndex then
      Outcome(n.(lastApplied := n.commitIndex), Applications(n.log, n.lastApplied, n.commitIndex))
    else Outcome(n, [])
  }

  function Applications(log: seq<Entry>, lo: nat, hi: nat): seq<Effect>
    requires lo <= hi < |log|
  {
    seq(hi - lo, k requires 0 <= k < hi - lo => Apply(lo + 1 + k, log[lo + 1 + k].command))
  }

  /** How many leading entries the log already holds, judged by term, after `prev`. */
  function Overlap(log: seq<Entry>, prev: nat, entries: seq<Entry>): (k: nat)
    ensures k <= |entries|
    ensures k == 0 || prev + k < |log|
    ensures forall i :: 0 <= i < k ==> log[prev + 1 + i].term == entries[i].term
    ensures k < |entries| && prev + 1 + k < |log| ==> log[prev + 1 + k].term != entries[k].term
    decreases |entries|
  {
    if entries == [] || prev + 1 >= |log| || log[prev + 1].term != entries[0].term then 0
    else
      var k := Overlap(log, prev + 1, entries[1..]);
      assert forall i :: 1 <= i < k + 1 ==> entries[i] == entries[1..][i - 1] && prev + 1 + i == prev + 1 + 1 + (i - 1);
      k + 1
  }

  /** Keep everything when the entries are already there; otherwise cut at the first difference and append. */
  function Merge(log: seq<Entry>, prev: nat, entries: seq<Entry>): seq<Entry>
    requires prev < |log|
  {
    var k := Overlap(log, prev, entries);
    if k == |entries| then log else log[..prev + 1 + k] + entries[k..]
  }

  function Propose(n: Node, command: Command): (bool, Outcome)
    requires Valid(n)
  {
    if !n.role.Leader? then (false, Outcome(n, []))
    else
      var index := LastIndex(n.log) + 1;
      var m := n.(log := n.log + [Entry(n.term, index, command)],
                  matchIndex := n.matchIndex[n.id := index],
                  nextIndex := n.nextIndex[n.id := index + 1]);
      (true, Outcome(m, Persist(m) + Broadcast(m, false)))
  }

  predicate Grants(n: Node, req: Message)
    requires req.RequestVote?
  {
    && req.term >= n.term
    && (n.votedFor == 0 || n.votedFor == req.candidate)
    && UpToDate(req.lastTerm, req.lastIndex, n.log)
  }

  function HandleRequestVote(n: Node, req: Message): (Message, Outcome)
    requires Valid(n) && req.RequestVote?
  {
    var o := if req.term > n.term then BecomeFollower(n, req.term) else Outcome(n, []);
    if Grants(o.node, req) then
      var m := o.node.(votedFor := req.candidate);
      (VoteReply(o.node.term, true), Outcome(m, o.effects + Persist(m)))
    else (VoteReply(o.node.term, false), o)
  }

  function Majority(n: Node): nat {
    (|n.peers| + 1) / 2 + 1
  }

  function ProcessVoteReply(n: Node, reply: Message): Outcome
    requires Valid(n) && reply.VoteReply?
  {
    if reply.term > n.term then BecomeFollower(n, reply.term)
    else if reply.term != n.term || !n.role.Candidate? then Outcome(n, [])
    else
      var m := if reply.granted then n.(votes := n.votes + 1) else n;
      if m.votes >= Majority(m) then BecomeLeader(m) else Outcome(m, [])
  }

  function ProcessAppendReply(n: Node, from: NodeId, reply: Message): Outcome
    requires Valid(n) && reply.AppendReply?
  {
    if !n.role.Leader? || reply.term != n.term then Outcome(n, [])
    else if reply.success then
      if reply.matchIndex > Get(n.matchIndex, from) then
        Outcome(n.(matchIndex := n.matchIndex[from := reply.matchIndex],
                   nextIndex := n.nextIndex[from := reply.matchIndex + 1]), [])
      else Outcome(n, [])
    else
      var m := if Get(n.nextIndex, from) > 1
               then n.(nextIndex := n.nextIndex[from := n.nextIndex[from] - 1]) else n;
      Outcome(m, Broadcast(m, false))
  }

  predicate Accepts(log: seq<Entry>, req: Message)
    requires req.AppendEntries?
  {
    req.prevIndex < |log| && (req.prevIndex > 0 ==> log[req.prevIndex].term == req.prevTerm)
  }

  /** The merged log, and the commit index raised towards the leader's. */
  function Adopt(n: Node, req: Message): (m: Node)
    requires Valid(n) && req.AppendEntries? && req.prevIndex < |n.log|
    ensures m.lastApplied < m.commitIndex ==> m.commitIndex < |m.log|
  {
    var merged := Merge(n.log, req.prevIndex, req.entries);
    var last := LastIndex(merged);
    n.(log := merged,
       commitIndex := if req.commit <= n.commitIndex then n.commitIndex
                      else if req.commit < last then req.commit else last)
  }

  /** The part of the call after the consistency check has passed. */
  function AcceptEntries(n: Node, req: Message): (Message, Outcome)
    requires Valid(n) && req.AppendEntries? && req.prevIndex < |n.log|
  {
    var m := Adopt(n, req);
    var a := ApplyEntries(m);
    (AppendReply(m.term, true, LastIndex(m.log)), Outcome(a.node, Persist(m) + a.effects))
  }

  function HandleAppendEntries(n: Node, req: Message): (Message, Outcome)
    requires Valid(n) && req.AppendEntries?
  {
    if req.term < n.term then (AppendReply(n.term, false, 0), Outcome(n, []))
    else
      var o := if req.term > n.term then BecomeFollower(n, req.term) else Outcome(n, []);
      var m := o.node.(leaderId := req.leader);
      if req.prevIndex > LastIndex(m.log) then
        (AppendReply(m.term, false, LastIndex(m.log)), Outcome(m, o.effects))
      else if req.prevIndex > 0 && TermAt(m.log, req.prevIndex) != req.prevTerm then
        (AppendReply(m.term, false, req.prevIndex - 1), Outcome(m, o.effects))
      else
        var r := AcceptEntries(m, req);
        (r.0, Outcome(r.1.node, o.effects + r.1.effects))
  }

  /** `due`: the clock has passed the election timeout, or the heartbeat interval on a leader. */
  function Tick(n: Node, due: bool): Outcome
    requires Valid(n)
  {
    if !n.role.Leader? then
      if due then BecomeCandidate(n) else Outcome(n, [])
    else
      var beats := if due then Broadcast(n, true) else [];
      var m := AdvanceCommit(n);
      ScanCommitRange(n, LastIndex(n.log));
      var a := ApplyEntries(m);
      Outcome(a.node, beats + a.effects)
  }

  lemma {:induction false} ScanCommitRange(n: Node, i: nat)
    ensures var c := ScanCommit(n, i); c == n.commitIndex || (n.commitIndex < c <= i && Replicated(n, c))
    ensures forall j :: ScanCommit(n, i) < j <= i ==> !Replicated(n, j)
  {
    if i > n.commitIndex && !Replicated(n, i) {
      ScanCommitRange(n, i - 1);
    }
  }

  function Recover(n: Node, term: nat, vote: NodeId, entries: seq<Entry>): (m: Node)
    ensures Valid(m)
  {
    var f := Fresh(n.id, n.peers);
    if term > 0 || entries != [] then f.(term := term, votedFor := vote, log := [SENTINEL] + entries) else f
  }

  /** Dispatch of one message that arrived from `from`; a reply goes back to the sender. */
  function Handle(n: Node, from: NodeId, msg: Message): Outcome
    requires Valid(n)
  {
    match msg
    case RequestVote(_, _, _, _) =>
      var r := HandleRequestVote(n, msg);
      Outcome(r.1.node, r.1.effects + [Send(from, r.0)])
    case VoteReply(_, _) => ProcessVoteReply(n, msg)
    case AppendEntries(_, _, _, _, _, _) =>
      var r := HandleAppendEntries(n, msg);
      Outcome(r.1.node, r.1.effects + [Send(from, r.0)])
    case AppendReply(_, _, _) => ProcessAppendReply(n, from, msg)
  }
}
