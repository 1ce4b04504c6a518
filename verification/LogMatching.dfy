/** What Log Matching rests on: each entry was appended by the one leader of its term, after a
    log that everybody who holds the entry also holds. Every move of a node keeps this. */
module LogMatching {
  import opened RaftTypes
  import opened RaftSteps
  import opened RaftCluster
  import opened ElectionSafety
  import opened LogShape

  ghost predicate NodeLogOk(s: Cluster, p: NodeId)
    requires p in s.nodes
  {
    var n := s.nodes[p];
    && LogOk(s.tenures, n.log, n.term)
    && (n.role.Leader? ==> n.term >= 1 && n.term in s.tenures && s.tenures[n.term] == Tenure(p, n.log))
  }

  ghost predicate TenureOk(ids: set<NodeId>, s: Cluster, t: nat)
    requires t in s.tenures && s.nodes.Keys == ids
  {
    var l := s.tenures[t].leader;
    && t >= 1 && l in ids
    && LogOk(s.tenures, s.tenures[t].log, t)
    && Elected(ids, s.sent, l, t)
    && s.nodes[l].term >= t
    && (s.nodes[l].term == t ==> !s.nodes[l].role.Candidate?)
  }

  ghost predicate AppendOk(tenures: map<nat, Tenure>, pk: Packet) {
    pk.msg.AppendEntries? ==>
      && pk.msg.term in tenures && tenures[pk.msg.term].leader == pk.src == pk.msg.leader
      && Carries(tenures[pk.msg.term].log, pk.msg)
  }

  ghost predicate LogInv(ids: set<NodeId>, s: Cluster) {
    && ElectionInv(ids, s)
    && (forall p {:trigger NodeLogOk(s, p)} :: p in ids ==> NodeLogOk(s, p))
    && (forall t {:trigger TenureOk(ids, s, t)} :: t in s.tenures ==> TenureOk(ids, s, t))
    && (forall i {:trigger AppendOk(s.tenures, s.sent[i])} :: 0 <= i < |s.sent| ==> AppendOk(s.tenures, s.sent[i]))
  }

  // ----- How a call moves role and log -----

  ghost predicate LeaderMove(n: Node, m: Node) {
    m.role.Leader? ==> m.term == n.term && (n.role.Leader? || (n.role.Candidate? && m.log == n.log))
  }

  ghost predicate TermMove(n: Node, m: Node) {
    m.term >= n.term && (m.term == n.term && n.role.Leader? ==> m.role.Leader?)
  }

  ghost predicate CandidateMove(n: Node, m: Node) {
    m.role.Candidate? ==> (n.role.Candidate? && m.term == n.term) || (m.term == n.term + 1 && m.log == n.log)
  }

  ghost predicate Merged(n: Node, m: Node, req: Message) {
    && req.AppendEntries? && req.term >= n.term && m.term == req.term
    && Accepts(n.log, req) && m.log == Merge(n.log, req.prevIndex, req.entries)
    && (m.role.Leader? ==> req.term == n.term && n.role.Leader?)
  }

  ghost predicate LogMove(ids: set<NodeId>, s: Cluster, ev: Event, n: Node, m: Node) {
    || m.log == n.log
    || (n.role.Leader? && m.role.Leader? && exists c :: m.log == n.log + [Entry(n.term, |n.log|, c)])
    || (ev.Delivery? && ev.packet < |s.sent| && Merged(n, m, s.sent[ev.packet].msg))
  }

  lemma ProposeMoves(n: Node, c: Command)
    requires Valid(n)
    ensures var m := Propose(n, c).1.node;
      && LeaderMove(n, m) && TermMove(n, m) && CandidateMove(n, m)
      && (m.log == n.log || (n.role.Leader? && m.role.Leader? && m.log == n.log + [Entry(n.term, |n.log|, c)]))
  {
  }

  lemma TickMoves(n: Node, due: bool)
    requires Valid(n)
    ensures var m := Tick(n, due).node; LeaderMove(n, m) && TermMove(n, m) && CandidateMove(n, m) && m.log == n.log
  {
  }

  lemma HandleMoves(n: Node, from: NodeId, msg: Message)
    requires Valid(n)
    ensures var m := Handle(n, from, msg).node;
      LeaderMove(n, m) && TermMove(n, m) && CandidateMove(n, m) && (m.log == n.log || Merged(n, m, msg))
  {
    hide Overlap, Broadcast;
    match msg
    case RequestVote(_, _, _, _) =>
    case VoteReply(_, _) =>
    case AppendEntries(_, _, _, _, _, _) => AppendEntriesMoves(n, from, msg);
    case AppendReply(_, _, _) =>
  }

  lemma AppendEntriesMoves(n: Node, from: NodeId, req: Message)
    requires Valid(n) && req.AppendEntries?
    ensures var m := Handle(n, from, req).node;
      LeaderMove(n, m) && TermMove(n, m) && CandidateMove(n, m) && (m.log == n.log || Merged(n, m, req))
  {
    hide Merge, Applications;
  }

  lemma LocalMoves(ids: set<NodeId>, s: Cluster, ev: Event)
    requires Shape(ids, s) && Enabled(ids, s, ev)
    ensures var n := s.nodes[Actor(ids, s, ev)]; var m := Local(ids, s, ev).node;
      LeaderMove(n, m) && TermMove(n, m) && CandidateMove(n, m) && LogMove(ids, s, ev, n, m)
  {
    hide Propose, Tick, HandleRequestVote, ProcessVoteReply, HandleAppendEntries, ProcessAppendReply;
    var n := s.nodes[Actor(ids, s, ev)];
    match ev
    case Proposal(_, c) => ProposeMoves(n, c);
    case Clock(_, due) => TickMoves(n, due);
    case Delivery(i) => HandleMoves(n, s.sent[i].src, s.sent[i].msg);
  }

  /** A complete step, reduced to what the logs care about. */
  ghost predicate Moved(ids: set<NodeId>, s: Cluster, ev: Event, p: NodeId, s': Cluster) {
    && p in ids && s.nodes.Keys == ids && s'.nodes.Keys == ids
    && (ev.Delivery? ==> ev.packet < |s.sent| && s.sent[ev.packet].dst == p)
    && (forall q :: q in ids && q != p ==> s'.nodes[q] == s.nodes[q])
    && s.sent <= s'.sent
    && s'.tenures == Chronicle(s.tenures, s'.nodes[p]) && s'.nodes[p].id == p
    && LeaderMove(s.nodes[p], s'.nodes[p]) && TermMove(s.nodes[p], s'.nodes[p])
    && CandidateMove(s.nodes[p], s'.nodes[p])
    && LogMove(ids, s, ev, s.nodes[p], s'.nodes[p])
    && (forall i :: |s.sent| <= i < |s'.sent| ==> NewAppend(s, p, s', s'.sent[i]))
  }

  ghost predicate NewAppend(s: Cluster, p: NodeId, s': Cluster, pk: Packet)
    requires p in s'.nodes && p in s.nodes
  {
    pk.src == p && FromLeader(s.nodes[p], s'.nodes[p], Send(pk.dst, pk.msg))
  }

  lemma StepIsMove(ids: set<NodeId>, s: Cluster, ev: Event, s': Cluster)
    requires Step(ids, s, Run(ev), s')
    ensures Moved(ids, s, ev, Actor(ids, s, ev), s')
  {
    hide Local;
    var p := Actor(ids, s, ev);
    var o := Local(ids, s, ev);
    LocalMoves(ids, s, ev);
    LocalSettles(ids, s, ev);
    LocalAppends(ids, s, ev);
    PacketsMembers(p, o.effects);
    forall i | |s.sent| <= i < |s'.sent| ensures NewAppend(s, p, s', s'.sent[i]) {
      var pk := Packets(p, o.effects)[i - |s.sent|];
      assert pk == s'.sent[i] && pk in Packets(p, o.effects);
    }
  }

  // ----- One complete step -----

  /** A leader never handles a request of its own term. */
  lemma NoRivalRequest(ids: set<NodeId>, s: Cluster, i: nat)
    requires LogInv(ids, s) && i < |s.sent| && s.sent[i].msg.AppendEntries? && s.sent[i].dst in ids
    ensures !(s.nodes[s.sent[i].dst].role.Leader? && s.nodes[s.sent[i].dst].term == s.sent[i].msg.term)
  {
    assert AppendOk(s.tenures, s.sent[i]);
    assert Addressed(ids, s.sent[i]);
    assert NodeLogOk(s, s.sent[i].dst);
  }

  /** A candidate that wins has no predecessor in its term. */
  lemma FreshTerm(ids: set<NodeId>, s: Cluster, s': Cluster, p: NodeId)
    requires LogInv(ids, s) && ElectionInv(ids, s') && s.sent <= s'.sent
    requires p in ids && s.nodes[p].role.Candidate? && s'.nodes[p].role.Leader? && s'.nodes[p].term == s.nodes[p].term
    ensures s.nodes[p].term !in s.tenures
  {
    var t := s.nodes[p].term;
    if t in s.tenures {
      assert TenureOk(ids, s, t);
      LeaderIsElected(ids, s', p);
      ElectedStays(ids, s.sent, s'.sent, s.tenures[t].leader, t);
      OneWinner(ids, s', s.tenures[t].leader, p, t);
      assert false;
    }
  }

  lemma LeaderAppends(ids: set<NodeId>, s: Cluster, ev: Event, p: NodeId, s': Cluster)
    requires LogInv(ids, s) && Moved(ids, s, ev, p, s')
    requires s'.nodes[p].role.Leader?
    ensures s.nodes[p].log <= s'.nodes[p].log
    ensures var n, m := s.nodes[p], s'.nodes[p];
      m.log == n.log || (n.role.Leader? && exists c :: m.log == n.log + [Entry(n.term, |n.log|, c)])
  {
    if ev.Delivery? && s.sent[ev.packet].msg.AppendEntries? { NoRivalRequest(ids, s, ev.packet); }
  }

  lemma ChronicleGrows(tenures: map<nat, Tenure>, m: Node)
    requires m.role.Leader? && m.term in tenures ==> tenures[m.term].leader == m.id && tenures[m.term].log <= m.log
    ensures Grow(tenures, Chronicle(tenures, m))
    ensures forall t :: t in Chronicle(tenures, m) && t !in tenures ==> m.role.Leader? && t == m.term
  {
  }

  lemma TenuresGrow(ids: set<NodeId>, s: Cluster, ev: Event, p: NodeId, s': Cluster)
    requires LogInv(ids, s) && Moved(ids, s, ev, p, s') && ElectionInv(ids, s')
    ensures Grow(s.tenures, s'.tenures)
    ensures forall t :: t in s'.tenures && t !in s.tenures ==> s'.nodes[p].role.Leader? && t == s'.nodes[p].term
  {
    var m := s'.nodes[p];
    assert m.role.Leader? && m.term in s.tenures ==>
      s.tenures[m.term].leader == m.id && s.tenures[m.term].log <= m.log by {
      if m.role.Leader? {
        assert NodeLogOk(s, p);
        LeaderAppends(ids, s, ev, p, s');
        if !s.nodes[p].role.Leader? {
          FreshTerm(ids, s, s', p);
        }
      }
    }
    ChronicleGrows(s.tenures, m);
  }

  lemma LogOkGrows(a: map<nat, Tenure>, b: map<nat, Tenure>, log: seq<Entry>, low: nat, high: nat)
    requires Grow(a, b) && LogOk(a, log, low) && low <= high
    ensures LogOk(b, log, high)
  {
    DerivedGrows(a, b, log);
  }

  lemma ActorLogOk(ids: set<NodeId>, s: Cluster, ev: Event, p: NodeId, s': Cluster)
    requires LogInv(ids, s) && Moved(ids, s, ev, p, s') && Grow(s.tenures, s'.tenures) && ElectionInv(ids, s')
    ensures NodeLogOk(s', p)
  {
    var n, m := s.nodes[p], s'.nodes[p];
    assert NodeLogOk(s, p);
    if m.log == n.log {
      LogOkGrows(s.tenures, s'.tenures, n.log, n.term, m.term);
    } else if ev.Delivery? && Merged(n, m, s.sent[ev.packet].msg) {
      MergedLogOk(ids, s, ev.packet, p, s'.tenures, m);
    } else {
      var c :| m.log == n.log + [Entry(n.term, |n.log|, c)];
      LogOkGrows(s.tenures, s'.tenures, n.log, n.term, m.term);
      SnocOk(s'.tenures, n.log, n.term, Entry(n.term, |n.log|, c));
    }
    if m.role.Leader? && !n.role.Leader? { LeaderTermPositive(ids, s', p); }
  }

  lemma LeaderTermPositive(ids: set<NodeId>, s: Cluster, p: NodeId)
    requires ElectionInv(ids, s) && p in ids && s.nodes[p].role.Leader?
    ensures s.nodes[p].term >= 1
  {
    assert Tallied(ids, s, p);
    var i :| 0 <= i < |s.sent| && s.sent[i].src == p && s.sent[i].msg.RequestVote?
        && s.sent[i].msg.term == s.nodes[p].term;
    assert Addressed(ids, s.sent[i]);
  }

  lemma MergeOk(a: map<nat, Tenure>, b: map<nat, Tenure>, log: seq<Entry>, low: nat, leader: seq<Entry>, m: Message)
    requires Grow(a, b) && m.AppendEntries? && low <= m.term
    requires LogOk(a, log, low) && LogOk(a, leader, m.term)
    requires Carries(leader, m) && Accepts(log, m)
    ensures LogOk(b, Merge(log, m.prevIndex, m.entries), m.term)
  {
    MergeResult(a, log, leader, m);
    if Merge(log, m.prevIndex, m.entries) == log {
      LogOkGrows(a, b, log, low, m.term);
    } else {
      PrefixOk(a, leader, m.term, m.prevIndex + |m.entries| + 1);
      LogOkGrows(a, b, leader[..m.prevIndex + |m.entries| + 1], m.term, m.term);
    }
  }

  lemma MergedLogOk(ids: set<NodeId>, s: Cluster, i: nat, p: NodeId, tenures: map<nat, Tenure>, m: Node)
    requires LogInv(ids, s) && p in ids && i < |s.sent| && s.sent[i].dst == p
    requires Merged(s.nodes[p], m, s.sent[i].msg) && Grow(s.tenures, tenures)
    ensures LogOk(tenures, m.log, m.term)
  {
    var n, req := s.nodes[p], s.sent[i].msg;
    assert NodeLogOk(s, p);
    assert AppendOk(s.tenures, s.sent[i]);
    assert TenureOk(ids, s, req.term);
    MergeOk(s.tenures, tenures, n.log, n.term, s.tenures[req.term].log, req);
  }

  lemma TenureStays(ids: set<NodeId>, s: Cluster, ev: Event, p: NodeId, s': Cluster, t: nat)
    requires LogInv(ids, s) && Moved(ids, s, ev, p, s') && Grow(s.tenures, s'.tenures) && ElectionInv(ids, s')
    requires NodeLogOk(s', p) && t in s'.tenures
    ensures TenureOk(ids, s', t)
  {
    var m := s'.nodes[p];
    if m.role.Leader? && t == m.term {
      LeaderIsElected(ids, s', p);
    } else {
      assert s'.tenures[t] == s.tenures[t];
      assert TenureOk(ids, s, t);
      LogOkGrows(s.tenures, s'.tenures, s.tenures[t].log, t, t);
      ElectedStays(ids, s.sent, s'.sent, s.tenures[t].leader, t);
    }
  }

  lemma PacketStays(ids: set<NodeId>, s: Cluster, ev: Event, p: NodeId, s': Cluster, i: nat)
    requires LogInv(ids, s) && Moved(ids, s, ev, p, s') && Grow(s.tenures, s'.tenures)
    requires i < |s'.sent|
    ensures AppendOk(s'.tenures, s'.sent[i])
  {
    var pk := s'.sent[i];
    if pk.msg.AppendEntries? {
      if i < |s.sent| {
        assert pk == s.sent[i] && AppendOk(s.tenures, pk);
        CarriesGrows(s.tenures[pk.msg.term].log, s'.tenures[pk.msg.term].log, pk.msg);
      } else {
        assert NewAppend(s, p, s', pk);
      }
    }
  }

  lemma OtherLogOk(ids: set<NodeId>, s: Cluster, s': Cluster, q: NodeId, ev: Event, p: NodeId)
    requires LogInv(ids, s) && Moved(ids, s, ev, p, s') && Grow(s.tenures, s'.tenures) && ElectionInv(ids, s')
    requires q in ids && q != p
    ensures NodeLogOk(s', q)
  {
    assert NodeLogOk(s, q);
    var n := s.nodes[q];
    LogOkGrows(s.tenures, s'.tenures, n.log, n.term, n.term);
    if n.role.Leader? && s'.nodes[p].role.Leader? && s'.nodes[p].term == n.term {
      LeaderIsElected(ids, s', p);
      LeaderIsElected(ids, s', q);
      OneWinner(ids, s', p, q, n.term);
      assert false;
    }
  }

  lemma MoveKeepsLogs(ids: set<NodeId>, s: Cluster, ev: Event, p: NodeId, s': Cluster)
    requires LogInv(ids, s) && Moved(ids, s, ev, p, s') && ElectionInv(ids, s')
    ensures LogInv(ids, s') && Grow(s.tenures, s'.tenures)
  {
    hide ElectionInv, LogOk, Elected, LeaderMove, TermMove, LogMove, NewAppend, Carries;
    TenuresGrow(ids, s, ev, p, s');
    ActorLogOk(ids, s, ev, p, s');
    forall q | q in ids ensures NodeLogOk(s', q) {
      if q != p { OtherLogOk(ids, s, s', q, ev, p); }
    }
    forall t | t in s'.tenures ensures TenureOk(ids, s', t) {
      TenureStays(ids, s, ev, p, s', t);
    }
    forall i | 0 <= i < |s'.sent| ensures AppendOk(s'.tenures, s'.sent[i]) {
      PacketStays(ids, s, ev, p, s', i);
    }
  }

  lemma InitLogs(ids: set<NodeId>, s: Cluster)
    requires Init(ids, s)
    ensures LogInv(ids, s)
  {
    InitElection(ids, s);
    forall p | p in ids ensures NodeLogOk(s, p) {
      assert s.nodes[p] == Fresh(p, s.nodes[p].peers);
    }
  }
}
