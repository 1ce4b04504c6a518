/** What each call does and answers, in terms of the message, the node's fields and the callbacks made. */
module CallLaws {
  import opened RaftTypes
  import opened RaftSteps
  import opened RaftCluster
  import opened Sequences
  import opened ElectionSafety
  import opened StateMachineSafety

  /** The last callback of a call that answers a message. */
  function Answer(es: seq<Effect>): Effect
    requires es != []
  {
    es[|es| - 1]
  }

  /** Nothing but the fields named here has changed. */
  ghost predicate SameProgress(n: Node, m: Node) {
    && m.id == n.id && m.peers == n.peers
    && m.log == n.log && m.commitIndex == n.commitIndex && m.lastApplied == n.lastApplied
  }

  // ----- Votes -----

  /** How far a log goes: its last term, and its last index. */
  function Reach(log: seq<Entry>): (nat, nat)
    requires |log| >= 1
  {
    (log[|log| - 1].term, |log| - 1)
  }

  predicate Behind(a: (nat, nat), b: (nat, nat)) {
    a.0 < b.0 || (a.0 == b.0 && a.1 < b.1)
  }

  /** A vote is granted exactly when the request is not from an older term, the vote of its term is free or
      already the candidate's, and the candidate's log does not end behind the voter's. */
  lemma GrantedExactlyWhen(n: Node, from: NodeId, req: Message)
    requires Valid(n) && req.RequestVote?
    ensures var o := Handle(n, from, req); var m := o.node;
      var free := req.term > n.term || n.votedFor == 0 || n.votedFor == req.candidate;
      var granted := req.term >= n.term && free && !Behind((req.lastTerm, req.lastIndex), Reach(n.log));
      && o.effects != [] && Answer(o.effects) == Send(from, VoteReply(m.term, granted))
      && SameProgress(n, m) && m.term == (if req.term > n.term then req.term else n.term)
      && m.votedFor == (if granted then req.candidate else if req.term > n.term then 0 else n.votedFor)
      && m.role == (if req.term > n.term then Follower else n.role)
      && (granted ==> WriteVote(req.candidate) in o.effects)
  {
    var r := HandleRequestVote(n, req);
    var o := Handle(n, from, req);
    if r.0.granted {
      var k := |o.effects| - 4;
      assert o.effects[k..] == Persist(r.1.node) + [Send(from, r.0)];
      assert o.effects[k + 1] == WriteVote(req.candidate);
    }
  }

  /** A node whose log no other's ends beyond. */
  lemma {:induction false} SomeFurthest(nodes: map<NodeId, Node>, ps: set<NodeId>) returns (c: NodeId)
    requires ps != {} && ps <= nodes.Keys && forall p :: p in nodes ==> |nodes[p].log| >= 1
    ensures c in ps && forall p :: p in ps ==> !Behind(Reach(nodes[c].log), Reach(nodes[p].log))
    decreases |ps|
  {
    var a :| a in ps;
    if ps == {a} {
      c := a;
    } else {
      c := SomeFurthest(nodes, ps - {a});
      if Behind(Reach(nodes[c].log), Reach(nodes[a].log)) {
        c := a;
      }
    }
  }

  /** In a term above all of theirs, of any nodes one gets the vote of every other. */
  lemma SomebodyElectable(nodes: map<NodeId, Node>, t: nat) returns (c: NodeId)
    requires nodes != map[] && forall p {:trigger nodes[p]} :: p in nodes ==> Valid(nodes[p]) && nodes[p].term < t
    ensures c in nodes && Valid(nodes[c])
    ensures var log := nodes[c].log; var req := RequestVote(t, c, |log| - 1, log[|log| - 1].term);
      forall p :: p in nodes ==>
        var es := Handle(nodes[p], c, req).effects; es != [] && Answer(es) == Send(c, VoteReply(t, true))
  {
    hide Handle;
    c := SomeFurthest(nodes, nodes.Keys);
    var log := nodes[c].log;
    var req := RequestVote(t, c, |log| - 1, log[|log| - 1].term);
    forall p | p in nodes
      ensures var es := Handle(nodes[p], c, req).effects; es != [] && Answer(es) == Send(c, VoteReply(t, true))
    {
      GrantedExactlyWhen(nodes[p], c, req);
    }
  }

  /** Standing for election: the next term, the own vote, and each peer asked once, by what the log ends with. */
  lemma StandsForElection(n: Node)
    requires Valid(n) && !n.role.Leader?
    ensures var o := Tick(n, true); var m := o.node;
      && SameProgress(n, m) && m.role.Candidate? && m.term == n.term + 1
      && m.votedFor == n.id && m.votes == 1 && m.leaderId == 0
      && Packets(n.id, o.effects) == seq(|n.peers|, i requires 0 <= i < |n.peers| =>
           Packet(n.id, n.peers[i], RequestVote(n.term + 1, n.id, |n.log| - 1, n.log[|n.log| - 1].term)))
    ensures Tick(n, false) == Outcome(n, [])
  {
    SolicitPackets(n, n.id);
  }

  /** A candidate leads exactly from a strict majority of the cluster on; then it expects every peer to miss
      nothing and to hold nothing, and says so to each. */
  lemma WinsExactlyWhen(n: Node, from: NodeId, reply: Message)
    requires Valid(n) && reply.VoteReply? && reply.term == n.term && n.role.Candidate? && n.id !in n.peers
    ensures var o := Handle(n, from, reply); var m := o.node;
      var votes := n.votes + if reply.granted then 1 else 0;
      && SameProgress(n, m) && m.term == n.term && m.votedFor == n.votedFor && m.votes == votes
      && m.role == (if 2 * votes > |n.peers| + 1 then Leader else Candidate)
      && (m.role.Candidate? ==> o.effects == [])
      && (m.role.Leader? ==> m.leaderId == n.id && forall p :: p in n.peers ==>
            && Get(m.nextIndex, p) == |n.log| && Get(m.matchIndex, p) == 0
            && Send(p, AppendEntries(n.term, n.id, |n.log| - 1, n.log[|n.log| - 1].term, n.commitIndex, []))
                 in o.effects)
  {
    var k := n.(votes := n.votes + if reply.granted then 1 else 0);
    if k.votes >= Majority(k) {
      ResetAll(n.nextIndex, n.peers, LastIndex(n.log) + 1);
      ResetAll(n.matchIndex, n.peers, 0);
      var m := BecomeLeader(k).node;
      forall p | p in n.peers
        ensures Send(p, AppendEntries(n.term, n.id, |n.log| - 1, n.log[|n.log| - 1].term, n.commitIndex, []))
          in Handle(n, from, reply).effects
      {
        Told(m, true, p);
      }
    }
  }

  /** A broadcast tells every peer. */
  lemma Told(n: Node, heartbeat: bool, p: NodeId)
    requires (forall q :: q in n.peers ==> Get(n.nextIndex, q) >= 1) && p in n.peers
    ensures Send(p, AppendFor(n, p, heartbeat)) in Broadcast(n, heartbeat)
  {
    var i :| 0 <= i < |n.peers| && n.peers[i] == p;
    assert Broadcast(n, heartbeat)[i] == Send(p, AppendFor(n, p, heartbeat));
  }

  // ----- Terms -----

  /** Messages of other terms: an older one changes nothing; a newer one, except an append reply, makes the
      node a follower of that term, which is written down with no vote but a granted one. */
  lemma TermHeeded(n: Node, from: NodeId, msg: Message)
    requires Valid(n)
    ensures var o := Handle(n, from, msg); var m := o.node;
      && (msg.term < n.term || (msg.AppendReply? && msg.term > n.term) ==> m == n)
      && (msg.term > n.term && !msg.AppendReply? ==>
            && m.term == msg.term && m.role.Follower? && WriteTerm(msg.term) in o.effects
            && (m.votedFor == 0 || (msg.RequestVote? && m.votedFor == msg.candidate))
            && m.votedFor == Written(Disk(n.term, n.votedFor), o.effects).vote
            && (!msg.AppendEntries? ==> SameProgress(n, m)))
  {
    if msg.term > n.term && !msg.AppendReply? {
      NewerTerm(n, from, msg);
      HandleSettles(n, from, msg);
    } else {
      OlderTerm(n, from, msg);
    }
  }

  lemma OlderTerm(n: Node, from: NodeId, msg: Message)
    requires Valid(n)
    ensures msg.term < n.term || (msg.AppendReply? && msg.term > n.term) ==> Handle(n, from, msg).node == n
  {
  }

  lemma NewerTerm(n: Node, from: NodeId, msg: Message)
    requires Valid(n) && msg.term > n.term && !msg.AppendReply?
    ensures var o := Handle(n, from, msg); var m := o.node;
      && m.term == msg.term && m.role.Follower? && WriteTerm(msg.term) in o.effects
      && (m.votedFor == 0 || (msg.RequestVote? && m.votedFor == msg.candidate))
      && (!msg.AppendEntries? ==> SameProgress(n, m))
  {
    hide Merge, Applications;
    var o := Handle(n, from, msg);
    assert o.effects[0] == WriteTerm(msg.term);
  }

  lemma HandleSettles(n: Node, from: NodeId, msg: Message)
    requires Valid(n)
    ensures Settles(n, Handle(n, from, msg))
  {
    hide HandleRequestVote, ProcessVoteReply, HandleAppendEntries, ProcessAppendReply, Settles;
    match msg
    case RequestVote(_, _, _, _) => RequestVoteSettles(n, from, msg);
    case VoteReply(_, _) => VoteReplySettles(n, msg);
    case AppendEntries(_, _, _, _, _, _) => AppendEntriesSettles(n, from, msg);
    case AppendReply(_, _, _) => AppendReplySettles(n, from, msg);
  }

  /** An answer that is not, or no longer, waited for changes nothing and calls nobody. */
  lemma UnawaitedIgnored(n: Node, from: NodeId, reply: Message)
    requires Valid(n) && (reply.VoteReply? || reply.AppendReply?) && reply.term <= n.term
    requires reply.term < n.term || !(if reply.VoteReply? then n.role.Candidate? else n.role.Leader?)
    ensures Handle(n, from, reply) == Outcome(n, [])
  {
  }

  /** Over every run: whoever receives a request or a vote reply is in that term or a later one, with the term
      on disk, and a follower if that is new. */
  lemma DeliveryRaisesTerm(ids: set<NodeId>, states: seq<Cluster>, actions: seq<Action>, k: nat)
    requires IsRun(ids, states, actions) && k < |actions| && actions[k].Run? && actions[k].event.Delivery?
    requires actions[k].event.packet < |states[k].sent| && !states[k].sent[actions[k].event.packet].msg.AppendReply?
    ensures var s, s' := states[k], states[k + 1]; var pk := s.sent[actions[k].event.packet];
      && pk.dst in s.nodes && pk.dst in s'.nodes && pk.dst in s'.disks
      && var n, m := s.nodes[pk.dst], s'.nodes[pk.dst];
         && m.term == (if pk.msg.term > n.term then pk.msg.term else n.term)
         && s'.disks[pk.dst] == Disk(m.term, m.votedFor)
         && (m.term > n.term ==> m.role.Follower?)
         && (m.term > n.term && !pk.msg.AppendEntries? ==> SameProgress(n, m))
  {
    hide Step, Handle;
    var i := actions[k].event.packet;
    var s, s' := states[k], states[k + 1];
    var pk := s.sent[i];
    assert Step(ids, s, actions[k], s');
    DeliveredNode(ids, s, i, s');
    RunKeepsElection(ids, states, actions, k + 1);
    TermHeeded(s.nodes[pk.dst], pk.src, pk.msg);
    if pk.msg.term == s.nodes[pk.dst].term { SameTermKept(s.nodes[pk.dst], pk.src, pk.msg); }
  }

  lemma SameTermKept(n: Node, from: NodeId, msg: Message)
    requires Valid(n) && msg.term == n.term
    ensures Handle(n, from, msg).node.term == n.term
  {
    hide Merge, Applications;
  }

  // ----- Append requests -----

  /** The log holds entry `i` of the request, going by terms. */
  ghost predicate Has(log: seq<Entry>, req: Message, i: nat)
    requires req.AppendEntries? && i < |req.entries|
  {
    req.prevIndex + 1 + i < |log| && log[req.prevIndex + 1 + i].term == req.entries[i].term
  }

  /** Entry `j` of the request is the first that the log does not hold. */
  ghost predicate FirstMissing(log: seq<Entry>, req: Message, j: nat)
    requires req.AppendEntries?
  {
    && j < |req.entries| && req.prevIndex + 1 + j <= |log|
    && (forall i {:trigger Has(log, req, i)} :: 0 <= i < j ==> Has(log, req, i))
    && !Has(log, req, j)
  }

  /** A request that is refused: why, and with what answer. */
  lemma AppendRefused(n: Node, from: NodeId, req: Message)
    requires Valid(n) && req.AppendEntries?
    requires req.term < n.term || req.prevIndex >= |n.log|
      || (req.prevIndex > 0 && n.log[req.prevIndex].term != req.prevTerm)
    ensures var o := Handle(n, from, req); var m := o.node;
      && o.effects != [] && SameProgress(n, m)
      && Answer(o.effects) == Send(from, AppendReply(m.term, false,
           if req.term < n.term then 0 else if req.prevIndex >= |n.log| then |n.log| - 1 else req.prevIndex - 1))
      && (req.term >= n.term ==> m.leaderId == req.leader && m.term == req.term)
      && (req.term == n.term ==> m.role == n.role && m.votedFor == n.votedFor)
  {
  }

  /** A request that is accepted: what the log becomes, how far it commits and applies, and the answer. */
  lemma AppendAccepted(n: Node, from: NodeId, req: Message)
    requires Valid(n) && req.AppendEntries? && req.term >= n.term && req.prevIndex < |n.log|
    requires req.prevIndex > 0 ==> n.log[req.prevIndex].term == req.prevTerm
    ensures var o := Handle(n, from, req); var m := o.node;
      && o.effects != [] && Answer(o.effects) == Send(from, AppendReply(req.term, true, |m.log| - 1))
      && m.term == req.term && m.leaderId == req.leader
      && ((forall j: nat :: !FirstMissing(n.log, req, j)) ==> m.log == n.log)
      && (forall j: nat :: FirstMissing(n.log, req, j) ==> m.log == n.log[..req.prevIndex + 1 + j] + req.entries[j..])
      && m.commitIndex == (if req.commit <= n.commitIndex then n.commitIndex
                           else if req.commit < |m.log| - 1 then req.commit else |m.log| - 1)
      && m.lastApplied == (if n.lastApplied < m.commitIndex then m.commitIndex else n.lastApplied)
  {
    hide Overlap;
    AcceptedFields(n, from, req);
    MergeIs(n.log, req);
  }

  lemma AcceptedFields(n: Node, from: NodeId, req: Message)
    requires Valid(n) && req.AppendEntries? && req.term >= n.term && Accepts(n.log, req)
    ensures var o := Handle(n, from, req); var m := o.node;
      && o.effects != [] && Answer(o.effects) == Send(from, AppendReply(req.term, true, |m.log| - 1))
      && m.term == req.term && m.leaderId == req.leader && m.log == Merge(n.log, req.prevIndex, req.entries)
      && m.commitIndex == (if req.commit <= n.commitIndex then n.commitIndex
                           else if req.commit < |m.log| - 1 then req.commit else |m.log| - 1)
      && m.lastApplied == (if n.lastApplied < m.commitIndex then m.commitIndex else n.lastApplied)
  {
    hide Overlap, Applications, Persist, Merge;
    MergeKeepsSome(n.log, req);
  }

  lemma MergeKeepsSome(log: seq<Entry>, req: Message)
    requires req.AppendEntries? && req.prevIndex < |log|
    ensures |Merge(log, req.prevIndex, req.entries)| >= 1
  {
  }

  lemma MergeIs(log: seq<Entry>, req: Message)
    requires req.AppendEntries? && req.prevIndex < |log|
    ensures var r := Merge(log, req.prevIndex, req.entries);
      && ((forall j: nat :: !FirstMissing(log, req, j)) ==> r == log)
      && (forall j: nat :: FirstMissing(log, req, j) ==> r == log[..req.prevIndex + 1 + j] + req.entries[j..])
  {
    var k := Overlap(log, req.prevIndex, req.entries);
    forall i | 0 <= i < k ensures Has(log, req, i) {
      assert log[req.prevIndex + 1 + i].term == req.entries[i].term;
    }
    if k < |req.entries| { assert FirstMissing(log, req, k); }
  }

  // ----- Leading -----

  /** The request that brings a peer everything from the index the leader believes it needs next. */
  function BringsUp(n: Node, p: NodeId): Message
    requires 1 <= Get(n.nextIndex, p) && |n.log| >= 1
  {
    var next := Get(n.nextIndex, p);
    AppendEntries(n.term, n.id, next - 1, if next <= |n.log| then n.log[next - 1].term else 0, n.commitIndex,
                  if next <= |n.log| then n.log[next..] else [])
  }

  /** The same without entries. */
  function Beat(n: Node, p: NodeId): Message
    requires 1 <= Get(n.nextIndex, p) && |n.log| >= 1
  {
    var next := Get(n.nextIndex, p);
    AppendEntries(n.term, n.id, next - 1, if next <= |n.log| then n.log[next - 1].term else 0, n.commitIndex, [])
  }

  lemma BringsUpIs(n: Node, p: NodeId)
    requires 1 <= Get(n.nextIndex, p) && |n.log| >= 1
    ensures AppendFor(n, p, false) == BringsUp(n, p)
  {
    var next := Get(n.nextIndex, p);
    if next == |n.log| { assert n.log[next..] == []; }
  }

  /** Taking a command: one entry of the term at the next index, and every peer brought up; only a leader does. */
  lemma TakesCommand(n: Node, c: Command)
    requires Valid(n) && n.id !in n.peers
    ensures var r := Propose(n, c); var m := r.1.node;
      && r.0 == n.role.Leader? && (!r.0 ==> r.1 == Outcome(n, []))
      && (r.0 ==>
            && m == n.(log := m.log, nextIndex := m.nextIndex, matchIndex := m.matchIndex)
            && m.log == n.log + [Entry(n.term, |n.log|, c)] && WriteLog(m.log[1..]) in r.1.effects
            && (forall p :: p in n.peers ==>
                  && Get(m.nextIndex, p) == Get(n.nextIndex, p) && Get(m.matchIndex, p) == Get(n.matchIndex, p)
                  && Send(p, BringsUp(m, p)) in r.1.effects))
  {
    if n.role.Leader? {
      var m := Propose(n, c).1.node;
      forall p | p in n.peers ensures Send(p, BringsUp(m, p)) in Propose(n, c).1.effects {
        Told(m, false, p);
        BringsUpIs(m, p);
      }
      assert Propose(n, c).1.effects[2] == WriteLog(m.log[1..]);
    }
  }

  /** An answer to the leader's own term: a success never lowers what it knows of the peer; a refusal steps
      back by one, not below one, and brings every peer up again. */
  lemma HearsAnswer(n: Node, from: NodeId, reply: Message)
    requires Valid(n) && reply.AppendReply? && n.role.Leader? && reply.term == n.term && from in n.peers
    ensures var o := Handle(n, from, reply); var m := o.node;
      && m == n.(nextIndex := m.nextIndex, matchIndex := m.matchIndex)
      && (forall p :: p != from ==>
            Get(m.nextIndex, p) == Get(n.nextIndex, p) && Get(m.matchIndex, p) == Get(n.matchIndex, p))
      && (reply.success && reply.matchIndex > Get(n.matchIndex, from) ==>
            Get(m.matchIndex, from) == reply.matchIndex && Get(m.nextIndex, from) == reply.matchIndex + 1)
      && (reply.success && reply.matchIndex <= Get(n.matchIndex, from) ==> m == n)
      && (reply.success ==> o.effects == [])
      && (!reply.success ==>
            && Get(m.matchIndex, from) == Get(n.matchIndex, from)
            && Get(m.nextIndex, from) == (if Get(n.nextIndex, from) > 1 then Get(n.nextIndex, from) - 1 else 1)
            && (forall p :: p in n.peers ==> Get(m.nextIndex, p) >= 1 && Send(p, BringsUp(m, p)) in o.effects))
  {
    if !reply.success {
      var o := ProcessAppendReply(n, from, reply);
      var m := o.node;
      forall p | p in n.peers ensures Send(p, BringsUp(m, p)) in o.effects {
        Told(m, false, p);
        BringsUpIs(m, p);
      }
    }
  }

  /** The peers known to hold the entry. */
  ghost function Holders(n: Node, i: nat): set<NodeId> {
    set p | p in n.peers && Get(n.matchIndex, p) >= i
  }

  /** With the leader itself, a strict majority of the cluster holds the entry, which is of the current term. */
  ghost predicate HeldByMost(n: Node, i: nat) {
    i < |n.log| && n.log[i].term == n.term && 2 * (1 + |Holders(n, i)|) > |n.peers| + 1
  }

  lemma HeldIsReplicated(n: Node, i: nat)
    requires Distinct(n.peers)
    ensures HeldByMost(n, i) <==> Replicated(n, i)
  {
    AcksCount(n.peers, n.matchIndex, i);
    assert Holders(n, i) == Ackers(n.peers, n.matchIndex, i);
  }

  /** A leader's tick: it commits the highest entry of its term that a strict majority holds, if that is
      news, applies what is committed, and sends heartbeats exactly when they are due. */
  lemma CommitsExactlyWhen(n: Node, due: bool)
    requires Valid(n) && n.role.Leader? && Distinct(n.peers)
    ensures var o := Tick(n, due); var m := o.node;
      && m == n.(commitIndex := m.commitIndex, lastApplied := m.lastApplied)
      && m.commitIndex >= n.commitIndex && (m.commitIndex > n.commitIndex ==> HeldByMost(n, m.commitIndex))
      && (forall i :: m.commitIndex < i < |n.log| ==> !HeldByMost(n, i))
      && m.lastApplied == (if n.lastApplied < m.commitIndex then m.commitIndex else n.lastApplied)
      && (due ==> forall p :: p in n.peers ==> Get(n.nextIndex, p) >= 1 && Send(p, Beat(n, p)) in o.effects)
      && (!due ==> forall e :: e in o.effects ==> e.Apply?)
  {
    var last := LastIndex(n.log);
    ScanCommitRange(n, last);
    forall i | 0 <= i < |n.log| ensures HeldByMost(n, i) <==> Replicated(n, i) {
      HeldIsReplicated(n, i);
    }
    if due {
      forall p | p in n.peers ensures Send(p, Beat(n, p)) in Tick(n, due).effects {
        Told(n, true, p);
      }
    }
  }
}
