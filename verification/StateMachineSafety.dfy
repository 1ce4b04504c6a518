/** No two nodes apply different commands at the same index, and committed entries are
    in the log of every later leader, for every run in which each restart reads back the
    log it wrote and each accepting follower ends with a prefix of the sender's log. */
module StateMachineSafety {
  import opened RaftTypes
  import opened RaftSteps
  import opened RaftCluster
  import opened Sequences
  import opened ElectionSafety
  import opened LogShape
  import opened LogMatching
  import opened CrashMoves
  import opened LeaderCompleteness
  import opened ApplyOrder

  // ----- What each call sends, in the terms of the leader-completeness proof -----

  /** Neither a success reply, nor a vote request, nor a grant. */
  ghost predicate Plain(e: Effect) {
    e.Send? ==> !(e.msg.AppendReply? && e.msg.success) && !e.msg.RequestVote? && !(e.msg.VoteReply? && e.msg.granted)
  }

  lemma OwnTraffic(n: Node, c: Command, e: Effect)
    requires Valid(n) && e in Propose(n, c).1.effects
    ensures Plain(e)
  {
  }

  lemma TickTraffic(n: Node, due: bool, e: Effect)
    requires Valid(n) && e in Tick(n, due).effects && e.Send?
    ensures Plain(e) || (var m := Tick(n, due).node;
      && m.role.Candidate? && m.term == n.term + 1 && m.log == n.log
      && e.msg == RequestVote(m.term, n.id, LastIndex(m.log), LastTerm(m.log)))
  {
    if n.role.Leader? {
      ScanCommitRange(n, LastIndex(n.log));
      var a := ApplyEntries(AdvanceCommit(n)).effects;
      assert forall x :: x in a ==> !x.Send?;
    }
  }

  lemma ReplyTraffic(n: Node, from: NodeId, reply: Message, e: Effect)
    requires Valid(n) && (reply.VoteReply? || reply.AppendReply?) && e in Handle(n, from, reply).effects
    ensures Plain(e)
  {
  }

  lemma RequestVoteTraffic(n: Node, from: NodeId, req: Message, e: Effect)
    requires Valid(n) && req.RequestVote? && e in Handle(n, from, req).effects && e.Send?
    ensures Plain(e) || (var m := Handle(n, from, req).node;
      && e == Send(from, VoteReply(req.term, true)) && m.term == req.term && m.log == n.log
      && UpToDate(req.lastTerm, req.lastIndex, n.log))
  {
  }

  lemma AppendEntriesSilent(n: Node, req: Message, e: Effect)
    requires Valid(n) && req.AppendEntries? && e in HandleAppendEntries(n, req).1.effects
    ensures !e.Send?
  {
    if req.term >= n.term {
      var o := if req.term > n.term then BecomeFollower(n, req.term) else Outcome(n, []);
      var m := o.node.(leaderId := req.leader);
      if Accepts(m.log, req) {
        assert e in o.effects + AcceptEntries(m, req).1.effects;
      }
    }
  }

  lemma AppendEntriesTraffic(n: Node, from: NodeId, req: Message, e: Effect)
    requires Valid(n) && req.AppendEntries? && e in Handle(n, from, req).effects && e.Send?
    ensures Plain(e) || (var m := Handle(n, from, req).node;
      Merged(n, m, req) && e == Send(from, AppendReply(m.term, true, LastIndex(m.log))))
  {
    var r := HandleAppendEntries(n, req);
    if e in r.1.effects {
      AppendEntriesSilent(n, req, e);
    }
  }

  lemma LocalTraffic(ids: set<NodeId>, s: Cluster, ev: Event, mid: Cluster, e: Effect)
    requires Shape(ids, s) && Enabled(ids, s, ev) && e in Local(ids, s, ev).effects && e.Send?
    requires Actor(ids, s, ev) in mid.nodes && mid.nodes[Actor(ids, s, ev)] == Local(ids, s, ev).node
    ensures var p := Actor(ids, s, ev); NewTraffic(s, ev, p, mid, Packet(p, e.dst, e.msg))
  {
    hide Propose, Tick, HandleRequestVote, ProcessVoteReply, HandleAppendEntries, ProcessAppendReply;
    var n := s.nodes[Actor(ids, s, ev)];
    match ev
    case Proposal(_, c) => OwnTraffic(n, c, e);
    case Clock(_, due) => TickTraffic(n, due, e);
    case Delivery(i) =>
      var pk := s.sent[i];
      match pk.msg
      case RequestVote(_, _, _, _) => RequestVoteTraffic(n, pk.src, pk.msg, e);
      case VoteReply(_, _) => ReplyTraffic(n, pk.src, pk.msg, e);
      case AppendEntries(_, _, _, _, _, _) => AppendEntriesTraffic(n, pk.src, pk.msg, e);
      case AppendReply(_, _, _) => ReplyTraffic(n, pk.src, pk.msg, e);
  }

  lemma SentBy(p: NodeId, es: seq<Effect>, k: nat) returns (e: Effect)
    requires k < |Packets(p, es)|
    ensures e in es && e.Send? && Packets(p, es)[k] == Packet(p, e.dst, e.msg)
  {
    PacketsMembers(p, es);
    var pk := Packets(p, es)[k];
    assert pk in Packets(p, es);
    e := Send(pk.dst, pk.msg);
  }

  lemma NewPacketsTraffic(ids: set<NodeId>, s: Cluster, ev: Event, k: nat, mid: Cluster, i: nat)
    requires Goes(ids, s, ev, k, mid) && |s.sent| <= i < |mid.sent|
    ensures var p := Actor(ids, s, ev); NewTraffic(s, ev, p, mid, mid.sent[i])
  {
    hide Local, DiesAs, Packets, Applied, NewTraffic;
    var p, es := Actor(ids, s, ev), Local(ids, s, ev).effects;
    var e := SentBy(p, es[..k], i - |s.sent|);
    LocalTraffic(ids, s, ev, mid, e);
  }

  lemma GoesIsProgress(ids: set<NodeId>, s: Cluster, ev: Event, k: nat, mid: Cluster)
    requires LogInv(ids, s) && Enabled(ids, s, ev) && Goes(ids, s, ev, k, mid)
    requires Moved(ids, s, ev, Actor(ids, s, ev), mid)
    requires LogInv(ids, mid) && Faithful(s, ev, Actor(ids, s, ev), mid)
    ensures Progress(ids, s, ev, Actor(ids, s, ev), mid)
  {
    hide Goes, Faithful, NewTraffic, ElectionInv, NodeLogOk, TenureOk, AppendOk, NewAppend, LogMove, TermMove,
      LeaderMove, CandidateMove;
    var p := Actor(ids, s, ev);
    TenuresGrow(ids, s, ev, p, mid);
    forall i | |s.sent| <= i < |mid.sent| ensures NewTraffic(s, ev, p, mid, mid.sent[i]) {
      NewPacketsTraffic(ids, s, ev, k, mid, i);
    }
  }

  // ----- Commit indices -----

  /** Some chosen entry of a term no later than `bound` covers index `c`, and `log` agrees with it up to there. */
  ghost predicate Backed(ids: set<NodeId>, s: Cluster, log: seq<Entry>, bound: nat, c: nat)
    requires s.nodes.Keys == ids
  {
    c == 0 || exists t: nat, i: nat {:trigger Chosen(ids, s, t, i)} ::
      Chosen(ids, s, t, i) && c <= i && t <= bound && Agree(log, s.tenures[t].log, c)
  }

  ghost predicate CommitOk(ids: set<NodeId>, s: Cluster, p: NodeId)
    requires s.nodes.Keys == ids && p in ids
  {
    var n := s.nodes[p];
    n.lastApplied == n.commitIndex && Backed(ids, s, n.log, n.term, n.commitIndex)
  }

  /** A chosen entry covers the index, and the leader's log has the command there. */
  ghost predicate Vouched(ids: set<NodeId>, s: Cluster, x: (nat, Command))
    requires s.nodes.Keys == ids
  {
    exists t: nat, i: nat {:trigger Chosen(ids, s, t, i)} ::
      Chosen(ids, s, t, i) && 1 <= x.0 <= i && s.tenures[t].log[x.0].command == x.1
  }

  ghost predicate AppliedOk(ids: set<NodeId>, s: Cluster, p: NodeId)
    requires s.nodes.Keys == ids && p in s.applied
  {
    forall x {:trigger Vouched(ids, s, x)} :: x in s.applied[p] ==> Vouched(ids, s, x)
  }

  /** A leader's matchIndex was acknowledged by the peer it stands for. */
  ghost predicate MatchOk(s: Cluster, p: NodeId)
    requires p in s.nodes
  {
    var n := s.nodes[p];
    n.role.Leader? ==> forall q {:trigger Get(n.matchIndex, q)} :: q in n.peers ==>
      Get(n.matchIndex, q) == 0 || AckSent(s.sent, q, n.term, Get(n.matchIndex, q))
  }

  ghost predicate RequestCommitOk(ids: set<NodeId>, s: Cluster, k: nat)
    requires s.nodes.Keys == ids && k < |s.sent|
  {
    var m := s.sent[k].msg;
    m.AppendEntries? ==> m.term in s.tenures && Backed(ids, s, s.tenures[m.term].log, m.term, m.commit)
  }

  ghost predicate SafetyInv(ids: set<NodeId>, s: Cluster) {
    && CoreInv(ids, s)
    && (forall p {:trigger CommitOk(ids, s, p)} :: p in ids ==> CommitOk(ids, s, p))
    && s.applied.Keys == ids
    && (forall p {:trigger AppliedOk(ids, s, p)} :: p in ids ==> AppliedOk(ids, s, p))
    && (forall p {:trigger MatchOk(s, p)} :: p in ids ==> MatchOk(s, p))
    && (forall k {:trigger RequestCommitOk(ids, s, k)} :: 0 <= k < |s.sent| ==> RequestCommitOk(ids, s, k))
  }

  lemma ChosenIsPossible(ids: set<NodeId>, s: Cluster, t: nat, i: nat)
    requires s.nodes.Keys == ids && Chosen(ids, s, t, i)
    ensures Possible(ids, s, t, i)
  {
    SubsetSize(set p | p in ids && Acked(s, p, t, i), set p | p in ids && May(s, p, t, i));
  }

  lemma ChosenStays(ids: set<NodeId>, s: Cluster, s': Cluster, t: nat, i: nat)
    requires s.nodes.Keys == ids && s'.nodes.Keys == ids && Chosen(ids, s, t, i)
    requires s.sent <= s'.sent && Grow(s.tenures, s'.tenures)
    ensures Chosen(ids, s', t, i)
  {
    var a, b := set p | p in ids && Acked(s, p, t, i), set p | p in ids && Acked(s', p, t, i);
    forall p | p in a ensures p in b {
      if AckSent(s.sent, p, t, i) { AckStays(s.sent, s'.sent, p, t, i); }
    }
    SubsetSize(a, b);
  }

  lemma BackedStays(ids: set<NodeId>, s: Cluster, s': Cluster, log: seq<Entry>, log': seq<Entry>, bound: nat,
                    bound': nat, c: nat)
    requires s.nodes.Keys == ids && s'.nodes.Keys == ids && Backed(ids, s, log, bound, c)
    requires s.sent <= s'.sent && Grow(s.tenures, s'.tenures) && log <= log' && bound <= bound'
    ensures Backed(ids, s', log', bound', c)
  {
    if c > 0 {
      var t: nat, i: nat :| Chosen(ids, s, t, i) && c <= i && t <= bound && Agree(log, s.tenures[t].log, c);
      ChosenStays(ids, s, s', t, i);
      AgreeGrow(log, log', s.tenures[t].log, s'.tenures[t].log, c);
    }
  }

  lemma BackedLess(ids: set<NodeId>, s: Cluster, log: seq<Entry>, log': seq<Entry>, bound: nat, c: nat, d: nat)
    requires s.nodes.Keys == ids && Backed(ids, s, log, bound, c) && d <= c && log' <= log && d < |log'|
    ensures Backed(ids, s, log', bound, d)
  {
    if d > 0 {
      var t: nat, i: nat :| Chosen(ids, s, t, i) && c <= i && t <= bound && Agree(log, s.tenures[t].log, c);
      AgreeLess(log, s.tenures[t].log, c, d);
    }
  }

  function Smaller(a: nat, b: nat): nat { if a < b then a else b }

  /** What a call does to commitIndex and lastApplied of a node that had applied all it had committed. */
  ghost predicate CommitMove(s: Cluster, ev: Event, n: Node, m: Node) {
    n.lastApplied == n.commitIndex ==>
      || (m.commitIndex == n.commitIndex == m.lastApplied)
      || (&& ev.Delivery? && ev.packet < |s.sent| && Merged(n, m, s.sent[ev.packet].msg)
          && s.sent[ev.packet].msg.commit > n.commitIndex
          && m.commitIndex == Smaller(s.sent[ev.packet].msg.commit, LastIndex(m.log))
          && m.lastApplied == (if n.lastApplied < m.commitIndex then m.commitIndex else n.lastApplied))
      || (&& n.role.Leader? && m.role.Leader? && m.term == n.term && m.log == n.log
          && n.commitIndex < m.commitIndex == m.lastApplied && Replicated(n, m.commitIndex))
  }

  lemma TickCommits(n: Node, due: bool)
    requires Valid(n) && n.lastApplied == n.commitIndex
    ensures var m := Tick(n, due).node;
      || (m.commitIndex == n.commitIndex == m.lastApplied)
      || (&& n.role.Leader? && m.role.Leader? && m.term == n.term && m.log == n.log
          && n.commitIndex < m.commitIndex == m.lastApplied && Replicated(n, m.commitIndex))
  {
    ScanCommitRange(n, LastIndex(n.log));
  }

  lemma OthersCommit(n: Node, c: Command, from: NodeId, msg: Message)
    requires Valid(n) && n.lastApplied == n.commitIndex && !msg.AppendEntries?
    ensures var m := Propose(n, c).1.node; m.commitIndex == n.commitIndex == m.lastApplied
    ensures var m := Handle(n, from, msg).node; m.commitIndex == n.commitIndex == m.lastApplied
  {
  }

  lemma AppendEntriesCommits(n: Node, from: NodeId, req: Message)
    requires Valid(n) && n.lastApplied == n.commitIndex && req.AppendEntries?
    ensures var m := Handle(n, from, req).node;
      || (m.commitIndex == n.commitIndex == m.lastApplied)
      || (&& Merged(n, m, req) && req.commit > n.commitIndex
          && m.commitIndex == Smaller(req.commit, LastIndex(m.log))
          && m.lastApplied == (if n.lastApplied < m.commitIndex then m.commitIndex else n.lastApplied))
  {
  }

  lemma LocalCommits(ids: set<NodeId>, s: Cluster, ev: Event)
    requires Shape(ids, s) && Enabled(ids, s, ev)
    ensures CommitMove(s, ev, s.nodes[Actor(ids, s, ev)], Local(ids, s, ev).node)
  {
    hide Propose, Tick, Handle;
    var n := s.nodes[Actor(ids, s, ev)];
    if n.lastApplied == n.commitIndex {
      match ev
      case Proposal(_, c) => OthersCommit(n, c, 0, VoteReply(0, false));
      case Clock(_, due) => TickCommits(n, due);
      case Delivery(i) =>
        if s.sent[i].msg.AppendEntries? {
          AppendEntriesCommits(n, s.sent[i].src, s.sent[i].msg);
        } else {
          OthersCommit(n, "", s.sent[i].src, s.sent[i].msg);
        }
    }
  }

  ghost predicate MatchMove(s: Cluster, ev: Event, n: Node, m: Node, q: NodeId) {
    m.role.Leader? && q in n.peers ==>
      || Get(m.matchIndex, q) == 0
      || (n.role.Leader? && m.term == n.term && Get(m.matchIndex, q) == Get(n.matchIndex, q))
      || (ev.Delivery? && ev.packet < |s.sent| && IsAck(s.sent[ev.packet], q, m.term)
          && s.sent[ev.packet].msg.matchIndex == Get(m.matchIndex, q))
  }

  lemma OwnMatches(n: Node, c: Command, due: bool, q: NodeId)
    requires Valid(n) && n.id !in n.peers && q in n.peers
    ensures var m := Propose(n, c).1.node;
      m.role.Leader? ==> n.role.Leader? && m.term == n.term && Get(m.matchIndex, q) == Get(n.matchIndex, q)
    ensures var m := Tick(n, due).node;
      m.role.Leader? ==> n.role.Leader? && m.term == n.term && m.matchIndex == n.matchIndex
  {
  }

  lemma HandleMatches(n: Node, from: NodeId, msg: Message, q: NodeId)
    requires Valid(n) && n.id !in n.peers && q in n.peers && Handle(n, from, msg).node.role.Leader?
    ensures var m := Handle(n, from, msg).node;
      || Get(m.matchIndex, q) == 0
      || (n.role.Leader? && m.term == n.term && Get(m.matchIndex, q) == Get(n.matchIndex, q))
      || (msg.AppendReply? && msg.success && msg.term == m.term && from == q && msg.matchIndex == Get(m.matchIndex, q))
  {
    ResetAll(n.matchIndex, n.peers, 0);
  }

  lemma LocalMatches(ids: set<NodeId>, s: Cluster, ev: Event, q: NodeId)
    requires Shape(ids, s) && Enabled(ids, s, ev)
    ensures MatchMove(s, ev, s.nodes[Actor(ids, s, ev)], Local(ids, s, ev).node, q)
  {
    hide Propose, Tick, Handle;
    var p := Actor(ids, s, ev);
    var n := s.nodes[p];
    assert Member(ids, p, n);
    if q in n.peers && Local(ids, s, ev).node.role.Leader? {
      match ev
      case Proposal(_, c) => OwnMatches(n, c, false, q);
      case Clock(_, due) => OwnMatches(n, "", due, q);
      case Delivery(i) => HandleMatches(n, s.sent[i].src, s.sent[i].msg, q);
    }
  }

  // ----- One step of a faithful run -----

  /** What was applied, beyond index `start`, was read from the log of `n`. */
  ghost predicate Sourced(start: nat, n: Node, done: seq<(nat, Command)>) {
    forall x :: x in done ==> start < x.0 <= n.lastApplied && x.0 < |n.log| && x.1 == n.log[x.0].command
  }

  ghost predicate Advance(ids: set<NodeId>, s: Cluster, ev: Event, p: NodeId, s': Cluster) {
    && Progress(ids, s, ev, p, s')
    && s.applied.Keys == ids && s'.applied.Keys == ids
    && CommitMove(s, ev, s.nodes[p], s'.nodes[p])
    && (forall q {:trigger MatchMove(s, ev, s.nodes[p], s'.nodes[p], q)} ::
         MatchMove(s, ev, s.nodes[p], s'.nodes[p], q))
    && s'.nodes[p].peers == s.nodes[p].peers
    && s.applied[p] <= s'.applied[p]
    && Sourced(s.nodes[p].lastApplied, s'.nodes[p], s'.applied[p][|s.applied[p]|..])
    && (forall q :: q in ids && q != p ==> s'.applied[q] == s.applied[q])
  }

  lemma DyingCommits(s: Cluster, ev: Event, n: Node, o: Node, w: Node)
    requires CommitMove(s, ev, n, o) && DiesAs(n, o, w)
    ensures CommitMove(s, ev, n, w)
  {
    hide Merge, Replicated;
  }

  lemma DyingMatches(s: Cluster, ev: Event, n: Node, o: Node, w: Node, q: NodeId)
    requires MatchMove(s, ev, n, o, q) && DiesAs(n, o, w)
    ensures MatchMove(s, ev, n, w, q)
  {
  }

  lemma PrefixSourced(start: nat, o: Outcome, k: nat)
    requires AppliesFrom(start, o) && k <= |o.effects|
    ensures Sourced(start, o.node, Applied(o.effects[..k]))
  {
    var all, some := Applied(o.effects), Applied(o.effects[..k]);
    AppliedPrefix(o.effects, k);
    forall x | x in some
      ensures start < x.0 <= o.node.lastApplied && x.0 < |o.node.log| && x.1 == o.node.log[x.0].command
    {
      var i :| 0 <= i < |some| && some[i] == x;
      assert all[i] == x;
    }
  }

  lemma AppliedPrefix(es: seq<Effect>, k: nat)
    requires k <= |es|
    ensures Applied(es[..k]) <= Applied(es)
  {
    assert es == es[..k] + es[k..];
    AppliedConcat(es[..k], es[k..]);
  }

  lemma GoesApplies(ids: set<NodeId>, s: Cluster, ev: Event, k: nat, mid: Cluster)
    requires Goes(ids, s, ev, k, mid)
    ensures var p := Actor(ids, s, ev);
      && mid.applied.Keys == ids && s.applied[p] <= mid.applied[p]
      && Sourced(s.nodes[p].lastApplied, mid.nodes[p], mid.applied[p][|s.applied[p]|..])
      && (forall q :: q in ids && q != p ==> mid.applied[q] == s.applied[q])
  {
    hide Local, DiesAs, Packets, Applied, Sourced;
    var p, o := Actor(ids, s, ev), Local(ids, s, ev);
    LocalApplies(ids, s, ev);
    PrefixSourced(s.nodes[p].lastApplied, o, k);
    assert mid.applied[p][|s.applied[p]|..] == Applied(o.effects[..k]);
    NoneSourced(s.nodes[p].lastApplied, mid.nodes[p]);
  }

  lemma NoneSourced(start: nat, n: Node)
    ensures Sourced(start, n, [])
  {
  }

  lemma GoesIsAdvance(ids: set<NodeId>, s: Cluster, ev: Event, k: nat, mid: Cluster)
    requires Goes(ids, s, ev, k, mid) && Progress(ids, s, ev, Actor(ids, s, ev), mid)
    ensures Advance(ids, s, ev, Actor(ids, s, ev), mid)
  {
    hide Local, Progress, CommitMove, MatchMove, Sourced, Packets, Applied, DiesAs;
    var p, o := Actor(ids, s, ev), Local(ids, s, ev);
    LocalCommits(ids, s, ev);
    DyingCommits(s, ev, s.nodes[p], o.node, mid.nodes[p]);
    forall q ensures MatchMove(s, ev, s.nodes[p], mid.nodes[p], q) {
      LocalMatches(ids, s, ev, q);
      DyingMatches(s, ev, s.nodes[p], o.node, mid.nodes[p], q);
    }
    GoesApplies(ids, s, ev, k, mid);
    LocalSettles(ids, s, ev);
    SamePeers(s.nodes[p], o.node, mid.nodes[p]);
  }

  lemma SamePeers(n: Node, o: Node, w: Node)
    requires DiesAs(n, o, w) && o.peers == n.peers
    ensures w.peers == n.peers
  {
  }

  ghost function Ackers(peers: seq<NodeId>, matchIndex: map<NodeId, nat>, i: nat): set<NodeId> {
    set q | q in peers && Get(matchIndex, q) >= i
  }

  lemma AckersSnoc(front: seq<NodeId>, last: NodeId, matchIndex: map<NodeId, nat>, i: nat)
    requires last !in front
    ensures Ackers(front + [last], matchIndex, i)
      == Ackers(front, matchIndex, i) + (if Get(matchIndex, last) >= i then {last} else {})
    ensures last !in Ackers(front, matchIndex, i)
  {
  }

  lemma {:induction false} AcksCount(peers: seq<NodeId>, matchIndex: map<NodeId, nat>, i: nat)
    requires Distinct(peers)
    ensures Acks(peers, matchIndex, i) == |Ackers(peers, matchIndex, i)|
  {
    if peers == [] {
      assert Ackers(peers, matchIndex, i) == {};
    } else {
      var front, last := peers[..|peers| - 1], peers[|peers| - 1];
      assert peers == front + [last];
      AcksCount(front, matchIndex, i);
      AckersSnoc(front, last, matchIndex, i);
    }
  }

  /** Whoever a leader counts has acknowledged the entry. */
  lemma AckersAcked(ids: set<NodeId>, s: Cluster, p: NodeId, i: nat, q: NodeId)
    requires s.nodes.Keys == ids && p in ids && s.nodes[p].role.Leader? && i >= 1 && MatchOk(s, p)
    requires q in Ackers(s.nodes[p].peers, s.nodes[p].matchIndex, i)
    ensures AckSent(s.sent, q, s.nodes[p].term, i)
  {
    var n := s.nodes[p];
    var k :| 0 <= k < |s.sent| && IsAck(s.sent[k], q, n.term) && s.sent[k].msg.matchIndex >= Get(n.matchIndex, q);
  }

  lemma CountedIsChosen(ids: set<NodeId>, s: Cluster, p: NodeId, i: nat)
    requires s.nodes.Keys == ids && p in ids && Member(ids, p, s.nodes[p]) && NodeLogOk(s, p) && MatchOk(s, p)
    requires s.nodes[p].role.Leader? && i >= 1 && Replicated(s.nodes[p], i)
    ensures Chosen(ids, s, s.nodes[p].term, i)
  {
    hide MatchOk, LogOk, Acks, AckSent;
    var n := s.nodes[p];
    PeerCount(ids, p, n);
    AcksCount(n.peers, n.matchIndex, i);
    var acks := Ackers(n.peers, n.matchIndex, i);
    var all := set q | q in ids && Acked(s, q, n.term, i);
    forall q | q in acks ensures q in all && q != p { AckersAcked(ids, s, p, i, q); }
    assert p in all;
    SubsetSize(acks + {p}, all);
  }

  lemma ReplicatedIsChosen(ids: set<NodeId>, s: Cluster, p: NodeId, i: nat)
    requires SafetyInv(ids, s) && p in ids && s.nodes[p].role.Leader? && i >= 1 && Replicated(s.nodes[p], i)
    ensures Chosen(ids, s, s.nodes[p].term, i)
  {
    hide TenureOk, AppendOk, AckOk, RequestTrue, Kept, Inherited, VoteCarries, Chosen, Replicated;
    assert NodeLogOk(s, p) && MatchOk(s, p) && Member(ids, p, s.nodes[p]);
    CountedIsChosen(ids, s, p, i);
  }

  lemma SurvivesWith(ids: set<NodeId>, s: Cluster, ev: Event, p: NodeId, s': Cluster, c: nat, t: nat, i: nat)
    requires CoreInv(ids, s) && Progress(ids, s, ev, p, s')
    requires Chosen(ids, s, t, i) && c <= i && t <= s.nodes[p].term && Agree(s.nodes[p].log, s.tenures[t].log, c)
    ensures Chosen(ids, s', t, i) && Agree(s'.nodes[p].log, s'.tenures[t].log, c)
    ensures Agree(s.nodes[p].log, s'.nodes[p].log, c)
  {
    var n, m := s.nodes[p], s'.nodes[p];
    ChosenIsPossible(ids, s, t, i);
    MoveKeepsPossible(ids, s, ev, p, s', t, i, c);
    AgreeLess(m.log, s.tenures[t].log, c, c);
    AgreeTrans(n.log, s.tenures[t].log, m.log, c, c);
    ChosenStays(ids, s, s', t, i);
    AgreeGrow(m.log, m.log, s.tenures[t].log, s'.tenures[t].log, c);
  }

  /** The committed prefix of the acting node survives the step and stays backed. */
  lemma CommittedSurvives(ids: set<NodeId>, s: Cluster, ev: Event, p: NodeId, s': Cluster)
    requires CoreInv(ids, s) && Progress(ids, s, ev, p, s') && CommitOk(ids, s, p)
    ensures Backed(ids, s', s'.nodes[p].log, s'.nodes[p].term, s.nodes[p].commitIndex)
    ensures Agree(s.nodes[p].log, s'.nodes[p].log, s.nodes[p].commitIndex)
  {
    hide ElectionInv, TenureOk, AppendOk;
    var n := s.nodes[p];
    var c := n.commitIndex;
    if c > 0 {
      var t: nat, i: nat :| Chosen(ids, s, t, i) && c <= i && t <= n.term && Agree(n.log, s.tenures[t].log, c);
      SurvivesWith(ids, s, ev, p, s', c, t, i);
    } else {
      assert NodeLogOk(s, p) && NodeLogOk(s', p);
    }
  }

  /** A follower's new commit index is backed by what the request's commit index is backed by. */
  lemma FollowerCommits(ids: set<NodeId>, s: Cluster, ev: Event, p: NodeId, s': Cluster)
    requires SafetyInv(ids, s) && Progress(ids, s, ev, p, s')
    requires ev.Delivery? && Merged(s.nodes[p], s'.nodes[p], s.sent[ev.packet].msg)
    requires s'.nodes[p].commitIndex <= s.sent[ev.packet].msg.commit && s'.nodes[p].commitIndex < |s'.nodes[p].log|
    ensures Backed(ids, s', s'.nodes[p].log, s'.nodes[p].term, s'.nodes[p].commitIndex)
  {
    var m, req := s'.nodes[p], s.sent[ev.packet].msg;
    assert RequestCommitOk(ids, s, ev.packet);
    BackedLess(ids, s, s.tenures[req.term].log, m.log, req.term, req.commit, m.commitIndex);
    BackedStays(ids, s, s', m.log, m.log, req.term, m.term, m.commitIndex);
  }

  lemma LeaderCommits(ids: set<NodeId>, s: Cluster, ev: Event, p: NodeId, s': Cluster)
    requires SafetyInv(ids, s) && Progress(ids, s, ev, p, s')
    requires s.nodes[p].role.Leader? && s'.nodes[p].log == s.nodes[p].log && s'.nodes[p].commitIndex >= 1
    requires Replicated(s.nodes[p], s'.nodes[p].commitIndex)
    ensures Backed(ids, s', s'.nodes[p].log, s'.nodes[p].term, s'.nodes[p].commitIndex)
  {
    var n, m := s.nodes[p], s'.nodes[p];
    assert NodeLogOk(s, p);
    ReplicatedIsChosen(ids, s, p, m.commitIndex);
    assert Backed(ids, s, n.log, n.term, m.commitIndex);
    BackedStays(ids, s, s', n.log, m.log, n.term, m.term, m.commitIndex);
  }

  lemma CommitStays(ids: set<NodeId>, s: Cluster, ev: Event, p: NodeId, s': Cluster)
    requires SafetyInv(ids, s) && Progress(ids, s, ev, p, s') && CommitMove(s, ev, s.nodes[p], s'.nodes[p])
    ensures CommitOk(ids, s', p)
  {
    hide Backed, Replicated, AckOk, RequestTrue, Kept, Inherited, VoteCarries, RequestCommitOk, MatchOk, AppliedOk;
    var n, m := s.nodes[p], s'.nodes[p];
    assert CommitOk(ids, s, p);
    CommittedSurvives(ids, s, ev, p, s');
    if m.commitIndex == n.commitIndex == m.lastApplied {
      assert CommitOk(ids, s', p);
    } else if n.role.Leader? && m.log == n.log && n.commitIndex < m.commitIndex == m.lastApplied
        && Replicated(n, m.commitIndex) {
      LeaderCommits(ids, s, ev, p, s');
    } else {
      FollowerCommits(ids, s, ev, p, s');
    }
  }

  lemma VouchedStays(ids: set<NodeId>, s: Cluster, s': Cluster, x: (nat, Command))
    requires s.nodes.Keys == ids && s'.nodes.Keys == ids && Vouched(ids, s, x)
    requires s.sent <= s'.sent && Grow(s.tenures, s'.tenures)
    ensures Vouched(ids, s', x)
  {
    var t: nat, i: nat :| Chosen(ids, s, t, i) && 1 <= x.0 <= i && s.tenures[t].log[x.0].command == x.1;
    ChosenStays(ids, s, s', t, i);
    assert s'.tenures[t].log[x.0] == s.tenures[t].log[x.0];
  }

  lemma BackedVouches(ids: set<NodeId>, s: Cluster, log: seq<Entry>, bound: nat, c: nat, x: (nat, Command))
    requires s.nodes.Keys == ids && Backed(ids, s, log, bound, c)
    requires 1 <= x.0 <= c && x.0 < |log| && log[x.0].command == x.1
    ensures Vouched(ids, s, x)
  {
    var t: nat, i: nat :| Chosen(ids, s, t, i) && c <= i && t <= bound && Agree(log, s.tenures[t].log, c);
    assert s.tenures[t].log[x.0] == log[x.0];
  }

  lemma AppliedStays(ids: set<NodeId>, s: Cluster, ev: Event, p: NodeId, s': Cluster, q: NodeId)
    requires SafetyInv(ids, s) && Advance(ids, s, ev, p, s') && CommitOk(ids, s', p) && q in ids
    ensures AppliedOk(ids, s', q)
  {
    hide CoreInv, LogInv, Backed, Vouched, CommitMove, MatchMove, RequestCommitOk, MatchOk;
    assert AppliedOk(ids, s, q);
    forall x | x in s'.applied[q] ensures Vouched(ids, s', x) {
      if x in s.applied[q] {
        assert Vouched(ids, s, x);
        VouchedStays(ids, s, s', x);
      } else {
        NewlyApplied(s.applied[p], s'.applied[p], x);
        BackedVouches(ids, s', s'.nodes[p].log, s'.nodes[p].term, s'.nodes[p].commitIndex, x);
      }
    }
  }

  lemma NewlyApplied<T>(before: seq<T>, now: seq<T>, x: T)
    requires before <= now && x in now && x !in before
    ensures x in now[|before|..]
  {
    var i :| 0 <= i < |now| && now[i] == x;
    assert i >= |before|;
    assert now[|before|..][i - |before|] == x;
  }

  lemma MatchStays(ids: set<NodeId>, s: Cluster, ev: Event, p: NodeId, s': Cluster)
    requires s.nodes.Keys == ids && s'.nodes.Keys == ids && p in ids && s.sent <= s'.sent && MatchOk(s, p)
    requires s'.nodes[p].peers == s.nodes[p].peers
    requires forall q {:trigger MatchMove(s, ev, s.nodes[p], s'.nodes[p], q)} ::
      MatchMove(s, ev, s.nodes[p], s'.nodes[p], q)
    ensures MatchOk(s', p)
  {
    var n, m := s.nodes[p], s'.nodes[p];
    if m.role.Leader? {
      forall q | q in m.peers ensures Get(m.matchIndex, q) == 0 || AckSent(s'.sent, q, m.term, Get(m.matchIndex, q)) {
        assert MatchMove(s, ev, n, m, q);
        if AckSent(s.sent, q, m.term, Get(m.matchIndex, q)) {
          AckStays(s.sent, s'.sent, q, m.term, Get(m.matchIndex, q));
        }
      }
    }
  }

  lemma NewRequestCommit(ids: set<NodeId>, s: Cluster, ev: Event, p: NodeId, s': Cluster, k: nat)
    requires CoreInv(ids, s) && Progress(ids, s, ev, p, s') && CommitOk(ids, s, p) && |s.sent| <= k < |s'.sent|
    ensures RequestCommitOk(ids, s', k)
  {
    hide ElectionInv, TenureOk, AppendOk, Chosen;
    assert NewAppend(s, p, s', s'.sent[k]);
    assert NodeLogOk(s', p);
    CommittedSurvives(ids, s, ev, p, s');
  }

  lemma RequestCommitStays(ids: set<NodeId>, s: Cluster, ev: Event, p: NodeId, s': Cluster, k: nat)
    requires SafetyInv(ids, s) && Advance(ids, s, ev, p, s') && k < |s'.sent|
    ensures RequestCommitOk(ids, s', k)
  {
    var pk := s'.sent[k];
    if pk.msg.AppendEntries? {
      var t := pk.msg.term;
      if k < |s.sent| {
        assert s.sent[k] == pk && RequestCommitOk(ids, s, k);
        BackedStays(ids, s, s', s.tenures[t].log, s'.tenures[t].log, t, t, pk.msg.commit);
      } else {
        NewRequestCommit(ids, s, ev, p, s', k);
      }
    }
  }

  lemma OthersStay(ids: set<NodeId>, s: Cluster, ev: Event, p: NodeId, s': Cluster, q: NodeId)
    requires SafetyInv(ids, s) && Advance(ids, s, ev, p, s') && q in ids && q != p
    ensures CommitOk(ids, s', q) && MatchOk(s', q)
  {
    var n := s.nodes[q];
    assert CommitOk(ids, s, q) && MatchOk(s, q);
    BackedStays(ids, s, s', n.log, n.log, n.term, n.term, n.commitIndex);
    if n.role.Leader? {
      forall r | r in n.peers ensures Get(n.matchIndex, r) == 0 || AckSent(s'.sent, r, n.term, Get(n.matchIndex, r)) {
        if AckSent(s.sent, r, n.term, Get(n.matchIndex, r)) {
          AckStays(s.sent, s'.sent, r, n.term, Get(n.matchIndex, r));
        }
      }
    }
  }

  lemma AdvanceKeepsSafety(ids: set<NodeId>, s: Cluster, ev: Event, p: NodeId, s': Cluster)
    requires SafetyInv(ids, s) && Advance(ids, s, ev, p, s')
    ensures SafetyInv(ids, s')
  {
    hide CommitMove, MatchMove, Sourced, CommitOk, AppliedOk, RequestCommitOk, LogInv;
    ProgressKeepsCore(ids, s, ev, p, s');
    CommitStays(ids, s, ev, p, s');
    assert MatchOk(s, p);
    MatchStays(ids, s, ev, p, s');
    forall q | q in ids ensures CommitOk(ids, s', q) && AppliedOk(ids, s', q) && MatchOk(s', q) {
      if q != p { OthersStay(ids, s, ev, p, s', q); }
      AppliedStays(ids, s, ev, p, s', q);
    }
    forall k | 0 <= k < |s'.sent| ensures RequestCommitOk(ids, s', k) {
      RequestCommitStays(ids, s, ev, p, s', k);
    }
  }

  // ----- A restart -----

  lemma ReviveKeepsBacked(ids: set<NodeId>, s: Cluster, p: NodeId, s': Cluster, log: seq<Entry>, bound: nat, c: nat)
    requires Revived(ids, s, p, s') && Backed(ids, s, log, bound, c)
    ensures Backed(ids, s', log, bound, c)
  {
    if c > 0 {
      var t: nat, i: nat :| Chosen(ids, s, t, i) && c <= i && t <= bound && Agree(log, s.tenures[t].log, c);
      SameMajorities(ids, s, p, s', t, i);
    }
  }

  lemma ReviveKeepsVouched(ids: set<NodeId>, s: Cluster, p: NodeId, s': Cluster, x: (nat, Command))
    requires Revived(ids, s, p, s') && Vouched(ids, s, x)
    ensures Vouched(ids, s', x)
  {
    var t: nat, i: nat :| Chosen(ids, s, t, i) && 1 <= x.0 <= i && s.tenures[t].log[x.0].command == x.1;
    SameMajorities(ids, s, p, s', t, i);
  }

  lemma ReviveKeepsSafety(ids: set<NodeId>, s: Cluster, p: NodeId, s': Cluster)
    requires SafetyInv(ids, s) && Revived(ids, s, p, s') && LogInv(ids, s')
    ensures SafetyInv(ids, s')
  {
    hide LogInv, CoreInv, Backed, Vouched;
    ReviveKeepsCore(ids, s, p, s');
    NothingBacked(ids, s', s'.nodes[p].log, s'.nodes[p].term);
    forall q | q in ids ensures CommitOk(ids, s', q) && AppliedOk(ids, s', q) && MatchOk(s', q) {
      assert CommitOk(ids, s, q) && AppliedOk(ids, s, q) && MatchOk(s, q);
      if q != p { ReviveKeepsBacked(ids, s, p, s', s.nodes[q].log, s.nodes[q].term, s.nodes[q].commitIndex); }
      forall x | x in s'.applied[q] ensures Vouched(ids, s', x) {
        assert Vouched(ids, s, x);
        ReviveKeepsVouched(ids, s, p, s', x);
      }
    }
    forall k | 0 <= k < |s'.sent| ensures RequestCommitOk(ids, s', k) {
      assert RequestCommitOk(ids, s, k);
      var m := s.sent[k].msg;
      if m.AppendEntries? { ReviveKeepsBacked(ids, s, p, s', s.tenures[m.term].log, m.term, m.commit); }
    }
  }

  lemma NothingBacked(ids: set<NodeId>, s: Cluster, log: seq<Entry>, bound: nat)
    requires s.nodes.Keys == ids
    ensures Backed(ids, s, log, bound, 0)
  {
  }

  // ----- Runs -----

  /** Whoever is about to accept packet `i` will end with a prefix of its sender's log. This can be
      checked before the call; RaftTail.TailCheck reduces it to comparing one term. */
  ghost predicate NoStaleTail(ids: set<NodeId>, s: Cluster, i: nat)
    requires s.nodes.Keys == ids && i < |s.sent| && s.sent[i].dst in ids
  {
    var n, req := s.nodes[s.sent[i].dst], s.sent[i].msg;
    req.AppendEntries? && req.term >= n.term && Accepts(n.log, req) ==>
      req.term in s.tenures && Merge(n.log, req.prevIndex, req.entries) <= s.tenures[req.term].log
  }

  /** Every restart reads back the log it wrote, and no accepted request leaves a stale tail. */
  ghost predicate FaithfulRun(ids: set<NodeId>, states: seq<Cluster>, actions: seq<Action>) {
    && IsRun(ids, states, actions) && Restoring(ids, states, actions)
    && (forall k {:trigger actions[k]} :: 0 <= k < |actions| ==> Careful(ids, states[k], actions[k]))
  }

  ghost predicate Careful(ids: set<NodeId>, s: Cluster, a: Action) {
    a.event.Delivery? && s.nodes.Keys == ids && a.event.packet < |s.sent| && s.sent[a.event.packet].dst in ids ==>
      NoStaleTail(ids, s, a.event.packet)
  }

  ghost predicate Later(ids: set<NodeId>, s: Cluster, s': Cluster) {
    && s.nodes.Keys == s.applied.Keys == s'.nodes.Keys == s'.applied.Keys == ids
    && s.sent <= s'.sent && Grow(s.tenures, s'.tenures)
    && (forall p :: p in ids ==> s.applied[p] <= s'.applied[p])
  }

  lemma StepKeepsSafety(ids: set<NodeId>, s: Cluster, a: Action, s': Cluster)
    requires SafetyInv(ids, s) && Step(ids, s, a, s') && Intact(ids, s, a) && Careful(ids, s, a)
    ensures SafetyInv(ids, s') && Later(ids, s, s')
  {
    hide Step, Intact, Careful, Goes, Moved, LogInv, CoreInv, Advance, Progress, Faithful, Revived, Midway,
      CommitOk, AppliedOk, MatchOk, RequestCommitOk;
    SafetyLogs(ids, s);
    StepMoves(ids, s, a, s');
    StepKeepsLogs(ids, s, a, s');
    var p, mid := Actor(ids, s, a.event), Midway(ids, s, a);
    MoveIsFaithful(ids, s, a, p, mid);
    GoesIsProgress(ids, s, a.event, Made(ids, s, a), mid);
    GoesIsAdvance(ids, s, a.event, Made(ids, s, a), mid);
    AdvanceKeepsSafety(ids, s, a.event, p, mid);
    AdvanceGrows(ids, s, a.event, p, mid);
    if s' != mid {
      ReviveKeepsSafety(ids, mid, p, s');
      ReviveIsLater(ids, s, mid, p, s');
    }
  }

  lemma SafetyLogs(ids: set<NodeId>, s: Cluster)
    requires SafetyInv(ids, s)
    ensures LogInv(ids, s) && CoreInv(ids, s)
  {
  }

  lemma AdvanceGrows(ids: set<NodeId>, s: Cluster, ev: Event, p: NodeId, s': Cluster)
    requires Advance(ids, s, ev, p, s')
    ensures Later(ids, s, s')
  {
  }

  lemma ReviveIsLater(ids: set<NodeId>, s: Cluster, mid: Cluster, p: NodeId, s': Cluster)
    requires Later(ids, s, mid) && Revived(ids, mid, p, s')
    ensures Later(ids, s, s')
  {
  }

  lemma MoveIsFaithful(ids: set<NodeId>, s: Cluster, a: Action, p: NodeId, mid: Cluster)
    requires Moved(ids, s, a.event, p, mid) && Careful(ids, s, a)
    ensures Faithful(s, a.event, p, mid)
  {
    hide LeaderMove, TermMove, CandidateMove, LogMove, NewAppend;
  }

  lemma InitSafety(ids: set<NodeId>, s: Cluster)
    requires Init(ids, s)
    ensures SafetyInv(ids, s)
  {
    InitLogs(ids, s);
    forall t: nat, i: nat ensures !Slot(s.tenures, t, i) {
    }
    forall p | p in ids ensures CommitOk(ids, s, p) && AppliedOk(ids, s, p) && MatchOk(s, p) {
      assert s.nodes[p] == Fresh(p, s.nodes[p].peers);
    }
  }

  lemma RunStep(ids: set<NodeId>, states: seq<Cluster>, actions: seq<Action>, k: nat)
    requires FaithfulRun(ids, states, actions) && k < |actions| && SafetyInv(ids, states[k])
    ensures SafetyInv(ids, states[k + 1]) && Later(ids, states[k], states[k + 1])
  {
    hide Step, Intact, Careful, SafetyInv, Later;
    StepKeepsSafety(ids, states[k], actions[k], states[k + 1]);
  }

  lemma {:induction false} RunKeepsSafety(ids: set<NodeId>, states: seq<Cluster>, actions: seq<Action>, k: nat)
    requires FaithfulRun(ids, states, actions) && k < |states|
    ensures SafetyInv(ids, states[k])
  {
    hide Step, Intact, Careful, SafetyInv;
    if k == 0 {
      InitSafety(ids, states[0]);
    } else {
      RunKeepsSafety(ids, states, actions, k - 1);
      RunStep(ids, states, actions, k - 1);
    }
  }

  lemma LaterSelf(ids: set<NodeId>, s: Cluster)
    requires SafetyInv(ids, s)
    ensures Later(ids, s, s)
  {
  }

  lemma LaterTrans(ids: set<NodeId>, a: Cluster, b: Cluster, c: Cluster)
    requires Later(ids, a, b) && Later(ids, b, c)
    ensures Later(ids, a, c)
  {
  }

  lemma {:induction false} RunIsLater(ids: set<NodeId>, states: seq<Cluster>, actions: seq<Action>, i: nat, j: nat)
    requires FaithfulRun(ids, states, actions) && i <= j < |states|
    ensures Later(ids, states[i], states[j])
    decreases j
  {
    hide Step, Intact, Careful, SafetyInv, Later;
    if i == j {
      RunKeepsSafety(ids, states, actions, j);
      LaterSelf(ids, states[j]);
    } else {
      RunIsLater(ids, states, actions, i, j - 1);
      RunKeepsSafety(ids, states, actions, j - 1);
      RunStep(ids, states, actions, j - 1);
      LaterTrans(ids, states[i], states[j - 1], states[j]);
    }
  }

  /** Of two chosen entries, the leader log of the later term holds the earlier one. */
  lemma ChosenInherited(ids: set<NodeId>, s: Cluster, t: nat, i: nat, u: nat)
    requires CoreInv(ids, s) && Chosen(ids, s, t, i) && t <= u && u in s.tenures
    ensures Agree(s.tenures[u].log, s.tenures[t].log, i)
  {
    ChosenIsPossible(ids, s, t, i);
    assert Inherited(ids, s, t, i, u);
  }

  lemma VouchedAgree(ids: set<NodeId>, s: Cluster, x: (nat, Command), y: (nat, Command))
    requires CoreInv(ids, s) && s.nodes.Keys == ids && Vouched(ids, s, x) && Vouched(ids, s, y) && x.0 == y.0
    ensures x.1 == y.1
  {
    hide CoreInv;
    var t: nat, i: nat :| Chosen(ids, s, t, i) && 1 <= x.0 <= i && s.tenures[t].log[x.0].command == x.1;
    var u: nat, j: nat :| Chosen(ids, s, u, j) && 1 <= y.0 <= j && s.tenures[u].log[y.0].command == y.1;
    if t <= u {
      ChosenInherited(ids, s, t, i, u);
    } else {
      ChosenInherited(ids, s, u, j, t);
    }
  }

  lemma RunCommits(ids: set<NodeId>, states: seq<Cluster>, actions: seq<Action>, k: nat, p: NodeId)
    requires FaithfulRun(ids, states, actions) && k < |states| && p in ids
    ensures states[k].nodes.Keys == ids && CommitOk(ids, states[k], p) && NodeLogOk(states[k], p)
  {
    hide Step;
    RunKeepsSafety(ids, states, actions, k);
    assert CommitOk(ids, states[k], p) && NodeLogOk(states[k], p);
  }

  lemma CommittedInLeader(ids: set<NodeId>, s: Cluster, s': Cluster, p: NodeId, l: NodeId)
    requires Later(ids, s, s') && p in ids && l in ids && CommitOk(ids, s, p) && NodeLogOk(s, p) && CoreInv(ids, s')
    requires s'.nodes[l].role.Leader? && s'.nodes[l].term >= s.nodes[p].term
    ensures var n := s.nodes[p]; n.commitIndex < |n.log| && n.log[..n.commitIndex + 1] <= s'.nodes[l].log
  {
    var n, m := s.nodes[p], s'.nodes[l];
    assert NodeLogOk(s', l);
    BackedInLeader(ids, s, s', n.log, n.term, n.commitIndex, m.term);
    AgreeIsPrefix(n.log, m.log, n.commitIndex);
  }

  lemma AgreeIsPrefix(a: seq<Entry>, b: seq<Entry>, i: nat)
    requires Agree(a, b, i)
    ensures a[..i + 1] <= b
  {
  }

  lemma BackedInLeader(ids: set<NodeId>, s: Cluster, s': Cluster, log: seq<Entry>, bound: nat, c: nat, u: nat)
    requires CoreInv(ids, s') && Later(ids, s, s') && Backed(ids, s, log, bound, c)
    requires u in s'.tenures && u >= bound && |log| >= 1 && log[0] == SENTINEL
    ensures Agree(log, s'.tenures[u].log, c)
  {
    assert TenureOk(ids, s', u);
    if c > 0 {
      var t: nat, i: nat :| Chosen(ids, s, t, i) && c <= i && t <= bound && Agree(log, s.tenures[t].log, c);
      ChosenStays(ids, s, s', t, i);
      ChosenInherited(ids, s', t, i, u);
      AgreeGrow(log, log, s.tenures[t].log, s'.tenures[t].log, c);
      AgreeLess(s'.tenures[u].log, s'.tenures[t].log, i, c);
      AgreeTrans(log, s'.tenures[t].log, s'.tenures[u].log, c, c);
    }
  }
}
