/** Leader Completeness for runs in which restarts find the log they wrote and every
    accepting follower ends with a prefix of the sender's log. An entry is `Possible` in a term
    while a majority might still acknowledge it; whatever is possible is in the log of every later
    leader. */
module LeaderCompleteness {
  import opened RaftTypes
  import opened RaftSteps
  import opened RaftCluster
  import opened VoteDiscipline
  import opened ElectionSafety
  import opened LogShape
  import opened LogMatching
  import opened CrashMoves

  ghost predicate IsAck(pk: Packet, p: NodeId, t: nat) {
    pk.src == p && pk.msg.AppendReply? && pk.msg.success && pk.msg.term == t
  }

  ghost predicate AckSent(sent: seq<Packet>, p: NodeId, t: nat, i: nat) {
    exists k :: 0 <= k < |sent| && IsAck(sent[k], p, t) && sent[k].msg.matchIndex >= i
  }

  /** An entry that the leader of term `t` created itself. */
  ghost predicate Slot(tenures: map<nat, Tenure>, t: nat, i: nat) {
    t in tenures && 1 <= i < |tenures[t].log| && tenures[t].log[i].term == t
  }

  ghost predicate Acked(s: Cluster, p: NodeId, t: nat, i: nat)
    requires t in s.tenures
  {
    (p == s.tenures[t].leader && i < |s.tenures[t].log|) || AckSent(s.sent, p, t, i)
  }

  /** `p` has acknowledged the entry, or has not left term `t` and so still could. */
  ghost predicate May(s: Cluster, p: NodeId, t: nat, i: nat)
    requires t in s.tenures && p in s.nodes
  {
    Acked(s, p, t, i) || s.nodes[p].term <= t
  }

  ghost predicate Possible(ids: set<NodeId>, s: Cluster, t: nat, i: nat)
    requires s.nodes.Keys == ids
  {
    Slot(s.tenures, t, i) && |set p | p in ids && May(s, p, t, i)| > |ids| / 2
  }

  ghost predicate Chosen(ids: set<NodeId>, s: Cluster, t: nat, i: nat)
    requires s.nodes.Keys == ids
  {
    Slot(s.tenures, t, i) && |set p | p in ids && Acked(s, p, t, i)| > |ids| / 2
  }

  ghost predicate AckOk(ids: set<NodeId>, s: Cluster, k: nat)
    requires k < |s.sent| && s.nodes.Keys == ids
  {
    var pk := s.sent[k];
    pk.msg.AppendReply? && pk.msg.success ==>
      && pk.src in ids && pk.msg.term in s.tenures && pk.dst == s.tenures[pk.msg.term].leader
      && pk.msg.matchIndex < |s.tenures[pk.msg.term].log|
      && s.nodes[pk.src].term >= pk.msg.term
  }

  /** Whoever acknowledged a possible entry still holds it. */
  ghost predicate Kept(ids: set<NodeId>, s: Cluster, p: NodeId, t: nat, i: nat)
    requires s.nodes.Keys == ids && p in ids
  {
    Possible(ids, s, t, i) && Acked(s, p, t, i) ==> Agree(s.nodes[p].log, s.tenures[t].log, i)
  }

  /** Every later leader holds a possible entry. */
  ghost predicate Inherited(ids: set<NodeId>, s: Cluster, t: nat, i: nat, u: nat)
    requires s.nodes.Keys == ids
  {
    Possible(ids, s, t, i) && t < u && u in s.tenures ==> Agree(s.tenures[u].log, s.tenures[t].log, i)
  }

  /** The term of an election that `c` is still running. */
  ghost predicate Running(s: Cluster, c: NodeId, u: nat) {
    c in s.nodes && s.nodes[c].role.Candidate? && s.nodes[c].term == u && u !in s.tenures
  }

  /** A candidate's log is still the one its vote requests describe. */
  ghost predicate RequestTrue(s: Cluster, k: nat)
    requires k < |s.sent|
  {
    var pk := s.sent[k];
    pk.msg.RequestVote? && Running(s, pk.src, pk.msg.term) ==>
      pk.msg.lastIndex == LastIndex(s.nodes[pk.src].log) && pk.msg.lastTerm == LastTerm(s.nodes[pk.src].log)
  }

  /** A vote is given only to a log that holds every possible entry the voter acknowledged. */
  ghost predicate VoteCarries(ids: set<NodeId>, s: Cluster, q: NodeId, c: NodeId, u: nat, t: nat, i: nat)
    requires s.nodes.Keys == ids
  {
    Running(s, c, u) && Voted(s.sent, q, c, u) && t < u && Possible(ids, s, t, i) && Acked(s, q, t, i) ==>
      Agree(s.nodes[c].log, s.tenures[t].log, i)
  }

  ghost predicate CoreInv(ids: set<NodeId>, s: Cluster) {
    && LogInv(ids, s)
    && (forall k {:trigger AckOk(ids, s, k)} :: 0 <= k < |s.sent| ==> AckOk(ids, s, k))
    && (forall k {:trigger RequestTrue(s, k)} :: 0 <= k < |s.sent| ==> RequestTrue(s, k))
    && (forall p, t: nat, i: nat {:trigger Kept(ids, s, p, t, i)} :: p in ids ==> Kept(ids, s, p, t, i))
    && (forall t: nat, i: nat, u: nat {:trigger Inherited(ids, s, t, i, u)} :: Inherited(ids, s, t, i, u))
    && (forall q, c, u: nat, t: nat, i: nat {:trigger VoteCarries(ids, s, q, c, u, t, i)} ::
         VoteCarries(ids, s, q, c, u, t, i))
  }

  // ----- What a complete step can add -----

  ghost predicate NewTraffic(s: Cluster, ev: Event, p: NodeId, s': Cluster, pk: Packet)
    requires p in s.nodes && p in s'.nodes
  {
    var n, m := s.nodes[p], s'.nodes[p];
    && pk.src == p
    && (pk.msg.AppendReply? && pk.msg.success ==>
          && ev.Delivery? && ev.packet < |s.sent| && Merged(n, m, s.sent[ev.packet].msg)
          && pk == Packet(p, s.sent[ev.packet].src, AppendReply(m.term, true, LastIndex(m.log))))
    && (pk.msg.RequestVote? ==>
          && m.role.Candidate? && m.term == n.term + 1 == pk.msg.term && m.log == n.log
          && pk.msg.lastIndex == LastIndex(m.log) && pk.msg.lastTerm == LastTerm(m.log))
    && (IsGrant(pk) ==>
          && ev.Delivery? && ev.packet < |s.sent| && s.sent[ev.packet].msg.RequestVote?
             && s.sent[ev.packet].src == pk.dst
          && s.sent[ev.packet].msg.term == pk.msg.term == m.term && m.log == n.log
          && UpToDate(s.sent[ev.packet].msg.lastTerm, s.sent[ev.packet].msg.lastIndex, n.log))
  }

  /** The run's hypothesis at one step: a follower that accepts a request ends with a prefix of the
      log of the leader that sent it. */
  ghost predicate Faithful(s: Cluster, ev: Event, p: NodeId, s': Cluster)
    requires p in s.nodes && p in s'.nodes
  {
    ev.Delivery? && ev.packet < |s.sent| && Merged(s.nodes[p], s'.nodes[p], s.sent[ev.packet].msg) ==>
      s.sent[ev.packet].msg.term in s.tenures && s'.nodes[p].log <= s.tenures[s.sent[ev.packet].msg.term].log
  }

  ghost predicate Progress(ids: set<NodeId>, s: Cluster, ev: Event, p: NodeId, s': Cluster) {
    && Moved(ids, s, ev, p, s')
    && (forall k :: |s.sent| <= k < |s'.sent| ==> NewTraffic(s, ev, p, s', s'.sent[k]))
    && Faithful(s, ev, p, s')
    && LogInv(ids, s') && Grow(s.tenures, s'.tenures)
    && (forall t :: t in s'.tenures && t !in s.tenures ==> s'.nodes[p].role.Leader? && t == s'.nodes[p].term)
  }

  // ----- Small facts -----

  lemma VoterTerm(ids: set<NodeId>, s: Cluster, q: NodeId, c: NodeId, u: nat)
    requires ElectionInv(ids, s) && Voted(s.sent, q, c, u)
    ensures q in ids && c in ids && s.nodes[q].term >= u
  {
    assert s.disks[q] == Disk(s.nodes[q].term, s.nodes[q].votedFor);
  }

  /** A log that is at least as up to date as one holding a possible entry holds it too. */
  lemma UpToDateHolds(tenures: map<nat, Tenure>, mine: seq<Entry>, yours: seq<Entry>, bound: nat, bound': nat,
                      t: nat, i: nat)
    requires LogOk(tenures, mine, bound) && LogOk(tenures, yours, bound')
    requires Slot(tenures, t, i) && Agree(mine, tenures[t].log, i)
    requires UpToDate(LastTerm(yours), LastIndex(yours), mine)
    requires LastTerm(yours) in tenures ==> Sound(tenures[LastTerm(yours)].log, LastTerm(yours))
    requires LastTerm(yours) > t && LastTerm(yours) in tenures ==>
      Agree(tenures[LastTerm(yours)].log, tenures[t].log, i)
    ensures Agree(yours, tenures[t].log, i)
  {
    var v, k := LastTerm(yours), LastIndex(yours);
    assert mine[i].term == t;
    assert LastTerm(mine) >= t;
    assert k >= 1 by {
      assert v >= t >= 1 && yours[0].term == 0;
    }
    assert yours[k].term == v;
    assert Agree(yours, tenures[v].log, k);
    if v == t {
      AgreeLess(yours, tenures[t].log, k, i);
    } else {
      var l := tenures[v].log;
      assert l[i].term == t && l[k].term == v;
      assert k > i;
      AgreeTrans(yours, l, tenures[t].log, k, i);
    }
  }

  // ----- Old and new slots, acknowledgements and possibilities -----

  ghost predicate NewAckBy(s: Cluster, ev: Event, p: NodeId, s': Cluster, q: NodeId, t: nat, i: nat)
    requires p in s.nodes && p in s'.nodes
  {
    && q == p && ev.Delivery? && ev.packet < |s.sent| && Merged(s.nodes[p], s'.nodes[p], s.sent[ev.packet].msg)
    && t == s'.nodes[p].term && i <= LastIndex(s'.nodes[p].log)
  }

  lemma AckWas(ids: set<NodeId>, s: Cluster, ev: Event, p: NodeId, s': Cluster, q: NodeId, t: nat, i: nat)
    requires Progress(ids, s, ev, p, s') && AckSent(s'.sent, q, t, i)
    ensures AckSent(s.sent, q, t, i) || NewAckBy(s, ev, p, s', q, t, i)
  {
    var k :| 0 <= k < |s'.sent| && IsAck(s'.sent[k], q, t) && s'.sent[k].msg.matchIndex >= i;
    if k < |s.sent| {
      assert s.sent[k] == s'.sent[k];
    } else {
      assert NewTraffic(s, ev, p, s', s'.sent[k]);
    }
  }

  lemma AckStays(sent: seq<Packet>, sent': seq<Packet>, q: NodeId, t: nat, i: nat)
    requires sent <= sent' && AckSent(sent, q, t, i)
    ensures AckSent(sent', q, t, i)
  {
    var k :| 0 <= k < |sent| && IsAck(sent[k], q, t) && sent[k].msg.matchIndex >= i;
    assert sent'[k] == sent[k];
  }

  /** The leader of the term has just appended this entry. */
  ghost predicate NewSlot(s: Cluster, p: NodeId, s': Cluster, t: nat, i: nat)
    requires p in s.nodes && p in s'.nodes
  {
    && t in s.tenures && s.nodes[p].role.Leader? && s'.nodes[p].role.Leader?
    && t == s.nodes[p].term == s'.nodes[p].term && t in s'.tenures
    && s.tenures[t] == Tenure(p, s.nodes[p].log) && s'.tenures[t] == Tenure(p, s'.nodes[p].log) && i == |s.nodes[p].log|
  }

  lemma SlotWas(ids: set<NodeId>, s: Cluster, ev: Event, p: NodeId, s': Cluster, t: nat, i: nat)
    requires CoreInv(ids, s) && Progress(ids, s, ev, p, s') && Slot(s'.tenures, t, i)
    ensures Slot(s.tenures, t, i) || NewSlot(s, p, s', t, i)
  {
    hide ElectionInv, TenureOk, AppendOk, Kept, VoteCarries, RequestTrue, AckOk, Inherited, NewTraffic;
    var n, m := s.nodes[p], s'.nodes[p];
    assert NodeLogOk(s, p);
    if !Slot(s.tenures, t, i) {
      if t !in s.tenures {
        NoOwnEntries(s.tenures, n.log, n.term, t);
        assert false;
      }
      assert m.role.Leader? && t == m.term;
      LeaderAppends(ids, s, ev, p, s');
      if !n.role.Leader? { FreshTerm(ids, s, s', p); }
      assert s.tenures[t] == Tenure(p, n.log);
      assert forall k :: 0 <= k < |n.log| ==> m.log[k] == n.log[k];
    }
  }

  lemma NoOwnEntries(tenures: map<nat, Tenure>, log: seq<Entry>, bound: nat, t: nat)
    requires LogOk(tenures, log, bound) && t !in tenures
    ensures forall i :: 1 <= i < |log| ==> log[i].term != t
  {
  }

  lemma AckBound(ids: set<NodeId>, s: Cluster, q: NodeId, t: nat, i: nat)
    requires CoreInv(ids, s) && AckSent(s.sent, q, t, i)
    ensures q in ids && t in s.tenures && i < |s.tenures[t].log| && s.nodes[q].term >= t
  {
    var k :| 0 <= k < |s.sent| && IsAck(s.sent[k], q, t) && s.sent[k].msg.matchIndex >= i;
    assert AckOk(ids, s, k);
  }

  lemma NewSlotUnacked(ids: set<NodeId>, s: Cluster, ev: Event, p: NodeId, s': Cluster, t: nat, i: nat, q: NodeId)
    requires CoreInv(ids, s) && Progress(ids, s, ev, p, s') && NewSlot(s, p, s', t, i) && t in s'.tenures
    requires Acked(s', q, t, i)
    ensures q == p
  {
    if q != p {
      AckWas(ids, s, ev, p, s', q, t, i);
      AckBound(ids, s, q, t, i);
    }
  }

  lemma AckedWas(ids: set<NodeId>, s: Cluster, ev: Event, p: NodeId, s': Cluster, t: nat, i: nat, q: NodeId)
    requires Progress(ids, s, ev, p, s') && Slot(s.tenures, t, i) && t in s'.tenures && Acked(s', q, t, i)
    ensures Acked(s, q, t, i) || NewAckBy(s, ev, p, s', q, t, i)
  {
    if AckSent(s'.sent, q, t, i) { AckWas(ids, s, ev, p, s', q, t, i); }
  }

  lemma MayWas(ids: set<NodeId>, s: Cluster, ev: Event, p: NodeId, s': Cluster, t: nat, i: nat, q: NodeId)
    requires Progress(ids, s, ev, p, s') && Slot(s.tenures, t, i) && t in s'.tenures && q in ids && May(s', q, t, i)
    ensures May(s, q, t, i)
  {
    if Acked(s', q, t, i) { AckedWas(ids, s, ev, p, s', t, i, q); }
  }

  lemma PossibleWas(ids: set<NodeId>, s: Cluster, ev: Event, p: NodeId, s': Cluster, t: nat, i: nat)
    requires CoreInv(ids, s) && Progress(ids, s, ev, p, s')
    requires Slot(s.tenures, t, i) && Possible(ids, s', t, i)
    ensures Possible(ids, s, t, i)
  {
    var now, before := set q | q in ids && May(s', q, t, i), set q | q in ids && May(s, q, t, i);
    forall q | q in now ensures q in before {
      MayWas(ids, s, ev, p, s', t, i, q);
    }
    SubsetSize(now, before);
  }

  lemma AckerTerm(ids: set<NodeId>, s: Cluster, q: NodeId, t: nat, i: nat)
    requires CoreInv(ids, s) && Slot(s.tenures, t, i) && Acked(s, q, t, i)
    ensures q in ids && s.nodes[q].term >= t
  {
    assert TenureOk(ids, s, t);
    if AckSent(s.sent, q, t, i) { AckBound(ids, s, q, t, i); }
  }

  /** An entry a later majority election leaves possible was acknowledged by one of the voters. */
  lemma ElectionWitness(ids: set<NodeId>, s: Cluster, c: NodeId, u: nat, t: nat, i: nat) returns (q: NodeId)
    requires ElectionInv(ids, s) && Elected(ids, s.sent, c, u) && t < u && Possible(ids, s, t, i)
    ensures q in ids && Voted(s.sent, q, c, u) && Acked(s, q, t, i) && s.nodes[q].term >= u
  {
    q := QuorumsMeet(ids, Backers(ids, s.sent, c, u), set q | q in ids && May(s, q, t, i));
    VoterTerm(ids, s, q, c, u);
  }

  // ----- Kept -----

  lemma MergeChain(tenures: map<nat, Tenure>, log: seq<Entry>, leader: seq<Entry>, base: seq<Entry>, req: Message,
                   j: nat)
    requires Derived(tenures, log) && Derived(tenures, leader)
    requires |log| >= 1 && |leader| >= 1 && log[0] == leader[0]
    requires forall i :: 1 <= i < |log| ==> log[i].term >= 1
    requires req.AppendEntries? && Carries(leader, req) && Accepts(log, req)
    requires Agree(log, base, j) && Agree(leader, base, j)
    ensures Agree(Merge(log, req.prevIndex, req.entries), base, j)
  {
    hide Derived, Carries, Merge;
    MergeResult(tenures, log, leader, req);
    AgreeLess(leader, base, j, j);
    AgreeTrans(log, base, leader, j, j);
    MergeKeeps(log, leader, req.prevIndex, req.entries, j);
    AgreeTrans(Merge(log, req.prevIndex, req.entries), leader, base, j, j);
  }

  /** Accepting a request of the same or a later term keeps a possible entry. */
  lemma MergeKeepsPossible(ids: set<NodeId>, s: Cluster, k: nat, p: NodeId, m: Node, t: nat, i: nat, j: nat)
    requires CoreInv(ids, s) && k < |s.sent| && s.sent[k].dst == p && p in ids
    requires Merged(s.nodes[p], m, s.sent[k].msg)
    requires Possible(ids, s, t, i) && t <= s.nodes[p].term && j <= i && Agree(s.nodes[p].log, s.tenures[t].log, j)
    ensures Agree(m.log, s.tenures[t].log, j)
  {
    hide Elected, Kept, VoteCarries, RequestTrue, AckOk, NetOk, Tallied;
    var n, req := s.nodes[p], s.sent[k].msg;
    assert AppendOk(s.tenures, s.sent[k]);
    assert NodeLogOk(s, p);
    assert TenureOk(ids, s, req.term);
    var l := s.tenures[req.term].log;
    assert Inherited(ids, s, t, i, req.term);
    AgreeLess(l, s.tenures[t].log, i, j);
    MergeChain(s.tenures, n.log, l, s.tenures[t].log, req, j);
  }

  /** Whatever a call does to its node's log, it keeps a possible entry of an earlier or equal term. */
  lemma MoveKeepsPossible(ids: set<NodeId>, s: Cluster, ev: Event, p: NodeId, s': Cluster, t: nat, i: nat, j: nat)
    requires CoreInv(ids, s) && Progress(ids, s, ev, p, s')
    requires Possible(ids, s, t, i) && t <= s.nodes[p].term && j <= i && Agree(s.nodes[p].log, s.tenures[t].log, j)
    ensures Agree(s'.nodes[p].log, s.tenures[t].log, j)
  {
    var n, m := s.nodes[p], s'.nodes[p];
    if ev.Delivery? && Merged(n, m, s.sent[ev.packet].msg) {
      MergeKeepsPossible(ids, s, ev.packet, p, m, t, i, j);
    } else {
      assert n.log <= m.log;
      AgreeGrow(n.log, m.log, s.tenures[t].log, s.tenures[t].log, j);
    }
  }

  lemma KeptStays(ids: set<NodeId>, s: Cluster, ev: Event, p: NodeId, s': Cluster, q: NodeId, t: nat, i: nat)
    requires CoreInv(ids, s) && Progress(ids, s, ev, p, s') && q in ids
    ensures Kept(ids, s', q, t, i)
  {
    if Possible(ids, s', t, i) && Acked(s', q, t, i) {
      SlotWas(ids, s, ev, p, s', t, i);
      if Slot(s.tenures, t, i) {
        PossibleWas(ids, s, ev, p, s', t, i);
        AckedWas(ids, s, ev, p, s', t, i, q);
        KeptOldSlot(ids, s, ev, p, s', q, t, i);
        AgreeGrow(s'.nodes[q].log, s'.nodes[q].log, s.tenures[t].log, s'.tenures[t].log, i);
      } else {
        NewSlotUnacked(ids, s, ev, p, s', t, i, q);
      }
    }
  }

  lemma KeptOldSlot(ids: set<NodeId>, s: Cluster, ev: Event, p: NodeId, s': Cluster, q: NodeId, t: nat, i: nat)
    requires CoreInv(ids, s) && Progress(ids, s, ev, p, s') && q in ids
    requires Possible(ids, s, t, i) && (Acked(s, q, t, i) || NewAckBy(s, ev, p, s', q, t, i))
    ensures Agree(s'.nodes[q].log, s.tenures[t].log, i)
  {
    if Acked(s, q, t, i) {
      assert Kept(ids, s, q, t, i);
      AckerTerm(ids, s, q, t, i);
      if q == p { MoveKeepsPossible(ids, s, ev, p, s', t, i, i); }
    } else {
      PrefixAgrees(s'.nodes[p].log, s.tenures[t].log, i);
    }
  }

  // ----- Inherited -----

  /** An entry appended after a later election is not possible any more. */
  lemma NewSlotImpossible(ids: set<NodeId>, s: Cluster, ev: Event, p: NodeId, s': Cluster, t: nat, i: nat, u: nat)
    requires CoreInv(ids, s) && Progress(ids, s, ev, p, s')
    requires NewSlot(s, p, s', t, i) && t < u && u in s'.tenures
    ensures !Possible(ids, s', t, i)
  {
    if Possible(ids, s', t, i) {
      assert TenureOk(ids, s', u);
      var q := ElectionWitness(ids, s', s'.tenures[u].leader, u, t, i);
      NewSlotUnacked(ids, s, ev, p, s', t, i, q);
    }
  }

  lemma InheritedStays(ids: set<NodeId>, s: Cluster, ev: Event, p: NodeId, s': Cluster, t: nat, i: nat, u: nat)
    requires CoreInv(ids, s) && Progress(ids, s, ev, p, s')
    ensures Inherited(ids, s', t, i, u)
  {
    if Possible(ids, s', t, i) && t < u && u in s'.tenures {
      SlotWas(ids, s, ev, p, s', t, i);
      if NewSlot(s, p, s', t, i) {
        NewSlotImpossible(ids, s, ev, p, s', t, i, u);
      } else {
        PossibleWas(ids, s, ev, p, s', t, i);
        if u in s.tenures {
          assert Inherited(ids, s, t, i, u);
        } else {
          NewLeaderInherits(ids, s, ev, p, s', t, i, u);
        }
        AgreeGrow(if u in s.tenures then s.tenures[u].log else s'.tenures[u].log, s'.tenures[u].log,
                  s.tenures[t].log, s'.tenures[t].log, i);
      }
    }
  }

  lemma NewLeaderInherits(ids: set<NodeId>, s: Cluster, ev: Event, p: NodeId, s': Cluster, t: nat, i: nat, u: nat)
    requires CoreInv(ids, s) && Progress(ids, s, ev, p, s')
    requires Possible(ids, s', t, i) && Possible(ids, s, t, i) && t < u && u in s'.tenures && u !in s.tenures
    ensures Agree(s'.tenures[u].log, s.tenures[t].log, i)
  {
    var n := s.nodes[p];
    assert NodeLogOk(s, p);
    assert n.role.Candidate? && n.term == u && s'.tenures[u] == Tenure(p, n.log);
    assert TenureOk(ids, s', u);
    var q := ElectionWitness(ids, s', p, u, t, i);
    AckedWas(ids, s, ev, p, s', t, i, q);
    NoNewVote(ids, s, ev, p, s', q, u);
    assert Running(s, p, u);
    assert VoteCarries(ids, s, q, p, u, t, i);
  }

  lemma NoNewVote(ids: set<NodeId>, s: Cluster, ev: Event, p: NodeId, s': Cluster, q: NodeId, u: nat)
    requires CoreInv(ids, s) && Progress(ids, s, ev, p, s') && s'.nodes[p].role.Leader?
    requires Voted(s'.sent, q, p, u)
    ensures Voted(s.sent, q, p, u)
  {
    VotedWas(ids, s, ev, p, s', q, p, u);
  }

  // ----- Requests, votes and acknowledgements -----

  lemma AckOkStays(ids: set<NodeId>, s: Cluster, ev: Event, p: NodeId, s': Cluster, k: nat)
    requires CoreInv(ids, s) && Progress(ids, s, ev, p, s') && k < |s'.sent|
    ensures AckOk(ids, s', k)
  {
    if k < |s.sent| {
      assert s'.sent[k] == s.sent[k] && AckOk(ids, s, k);
    } else {
      assert NewTraffic(s, ev, p, s', s'.sent[k]);
      if s'.sent[k].msg.AppendReply? && s'.sent[k].msg.success {
        assert AppendOk(s.tenures, s.sent[ev.packet]);
        assert NodeLogOk(s', p);
      }
    }
  }

  /** While an election is open its candidate's log does not move. */
  lemma RunningWas(ids: set<NodeId>, s: Cluster, ev: Event, p: NodeId, s': Cluster, c: NodeId, u: nat)
    requires CoreInv(ids, s) && Progress(ids, s, ev, p, s') && Running(s', c, u)
    ensures u !in s.tenures && s'.nodes[c].log == s.nodes[c].log
    ensures Running(s, c, u) || (c == p && u == s.nodes[p].term + 1)
  {
  }

  lemma GrantMeansStood(ids: set<NodeId>, s: Cluster, q: NodeId, c: NodeId, u: nat)
    requires NetOk(ids, s) && Packet(q, c, VoteReply(u, true)) in s.sent
    ensures Stood(s.sent, c, u)
  {
    var k :| 0 <= k < |s.sent| && s.sent[k] == Packet(q, c, VoteReply(u, true));
    assert IsGrant(s.sent[k]) && Answered(s, s.sent[k]);
    var j :| j in s.delivered && j < |s.sent| && s.sent[j].msg.RequestVote?
      && s.sent[j].src == c && s.sent[j].dst == q && s.sent[j].msg.term == u;
  }

  lemma UnheardBefore(ids: set<NodeId>, s: Cluster, q: NodeId, c: NodeId, u: nat)
    requires ElectionInv(ids, s) && c in ids && s.nodes[c].term < u
    ensures !Stood(s.sent, c, u) && !Voted(s.sent, q, c, u)
  {
    if Voted(s.sent, q, c, u) && q != c { GrantMeansStood(ids, s, q, c, u); }
    if Voted(s.sent, c, c, u) { VoterTerm(ids, s, c, c, u); }
  }

  lemma RequestTrueStays(ids: set<NodeId>, s: Cluster, ev: Event, p: NodeId, s': Cluster, k: nat)
    requires CoreInv(ids, s) && Progress(ids, s, ev, p, s') && k < |s'.sent|
    ensures RequestTrue(s', k)
  {
    var pk := s'.sent[k];
    if pk.msg.RequestVote? && Running(s', pk.src, pk.msg.term) {
      RunningWas(ids, s, ev, p, s', pk.src, pk.msg.term);
      if k < |s.sent| {
        assert s.sent[k] == pk && RequestTrue(s, k);
        if !Running(s, pk.src, pk.msg.term) {
          UnheardBefore(ids, s, p, p, pk.msg.term);
        }
      } else {
        assert NewTraffic(s, ev, p, s', pk);
      }
    }
  }

  /** A vote that was not there before is for the node's own new candidacy, or answers the request just delivered. */
  lemma VotedWas(ids: set<NodeId>, s: Cluster, ev: Event, p: NodeId, s': Cluster, q: NodeId, c: NodeId, u: nat)
    requires Progress(ids, s, ev, p, s') && Voted(s'.sent, q, c, u)
    ensures
      || Voted(s.sent, q, c, u)
      || (q == c == p && s'.nodes[p].role.Candidate? && s'.nodes[p].log == s.nodes[p].log)
      || (q == p && c != p && ev.Delivery? && ev.packet < |s.sent| && s.sent[ev.packet].msg.RequestVote?
          && s.sent[ev.packet].src == c && s.sent[ev.packet].msg.term == u && s'.nodes[p].log == s.nodes[p].log
          && UpToDate(s.sent[ev.packet].msg.lastTerm, s.sent[ev.packet].msg.lastIndex, s.nodes[p].log))
  {
    hide Shape, Synced, VotesOk, NodeLogOk, TenureOk, AppendOk, LogMove, Faithful;
    if Packet(q, c, VoteReply(u, true)) in s'.sent {
      var k :| 0 <= k < |s'.sent| && s'.sent[k] == Packet(q, c, VoteReply(u, true));
      if k < |s.sent| {
        assert s.sent[k] == s'.sent[k];
      } else {
        assert NewTraffic(s, ev, p, s', s'.sent[k]);
        assert Addressed(ids, s'.sent[k]);
      }
    } else {
      var k :| 0 <= k < |s'.sent| && s'.sent[k].src == c && s'.sent[k].msg.RequestVote? && s'.sent[k].msg.term == u;
      if k < |s.sent| {
        assert s.sent[k] == s'.sent[k];
      } else {
        assert NewTraffic(s, ev, p, s', s'.sent[k]);
      }
    }
  }

  lemma VoteCarriesStays(ids: set<NodeId>, s: Cluster, ev: Event, p: NodeId, s': Cluster,
                         q: NodeId, c: NodeId, u: nat, t: nat, i: nat)
    requires CoreInv(ids, s) && Progress(ids, s, ev, p, s')
    ensures VoteCarries(ids, s', q, c, u, t, i)
  {
    if Running(s', c, u) && Voted(s'.sent, q, c, u) && t < u && Possible(ids, s', t, i) && Acked(s', q, t, i) {
      VoterTerm(ids, s', q, c, u);
      SlotWas(ids, s, ev, p, s', t, i);
      if NewSlot(s, p, s', t, i) {
        NewSlotUnacked(ids, s, ev, p, s', t, i, q);
      } else {
        PossibleWas(ids, s, ev, p, s', t, i);
        AckedWas(ids, s, ev, p, s', t, i, q);
        RunningWas(ids, s, ev, p, s', c, u);
        VoteOldSlot(ids, s, ev, p, s', q, c, u, t, i);
        AgreeGrow(s'.nodes[c].log, s'.nodes[c].log, s.tenures[t].log, s'.tenures[t].log, i);
      }
    }
  }

  lemma VoteOldSlot(ids: set<NodeId>, s: Cluster, ev: Event, p: NodeId, s': Cluster,
                    q: NodeId, c: NodeId, u: nat, t: nat, i: nat)
    requires CoreInv(ids, s) && Progress(ids, s, ev, p, s')
    requires Running(s', c, u) && Voted(s'.sent, q, c, u) && t < u && Possible(ids, s, t, i) && Acked(s, q, t, i)
    requires q in ids && c in ids && s'.nodes[c].log == s.nodes[c].log
    requires Running(s, c, u) || (c == p && u == s.nodes[p].term + 1)
    ensures Agree(s'.nodes[c].log, s.tenures[t].log, i)
  {
    VotedWas(ids, s, ev, p, s', q, c, u);
    assert Kept(ids, s, q, t, i);
    if Voted(s.sent, q, c, u) {
      if !Running(s, c, u) { UnheardBefore(ids, s, q, c, u); }
      assert VoteCarries(ids, s, q, c, u, t, i);
    } else if c != p {
      GrantCarries(ids, s, ev.packet, q, c, u, t, i);
    }
  }

  lemma GrantCarries(ids: set<NodeId>, s: Cluster, k: nat, q: NodeId, c: NodeId, u: nat, t: nat, i: nat)
    requires CoreInv(ids, s) && Running(s, c, u) && q in ids && c in ids
    requires k < |s.sent| && s.sent[k].msg.RequestVote? && s.sent[k].src == c && s.sent[k].msg.term == u
    requires UpToDate(s.sent[k].msg.lastTerm, s.sent[k].msg.lastIndex, s.nodes[q].log)
    requires Possible(ids, s, t, i) && Agree(s.nodes[q].log, s.tenures[t].log, i)
    ensures Agree(s.nodes[c].log, s.tenures[t].log, i)
  {
    assert RequestTrue(s, k);
    assert NodeLogOk(s, q) && NodeLogOk(s, c);
    var v := LastTerm(s.nodes[c].log);
    if v in s.tenures { assert TenureOk(ids, s, v); }
    assert Inherited(ids, s, t, i, v);
    UpToDateHolds(s.tenures, s.nodes[q].log, s.nodes[c].log, s.nodes[q].term, s.nodes[c].term, t, i);
  }

  // ----- The invariant over a step and over a run -----

  lemma ProgressKeepsCore(ids: set<NodeId>, s: Cluster, ev: Event, p: NodeId, s': Cluster)
    requires CoreInv(ids, s) && Progress(ids, s, ev, p, s')
    ensures CoreInv(ids, s')
  {
    forall k | 0 <= k < |s'.sent| ensures AckOk(ids, s', k) && RequestTrue(s', k) {
      AckOkStays(ids, s, ev, p, s', k);
      RequestTrueStays(ids, s, ev, p, s', k);
    }
    forall q, t: nat, i: nat | q in ids ensures Kept(ids, s', q, t, i) {
      KeptStays(ids, s, ev, p, s', q, t, i);
    }
    forall t: nat, i: nat, u: nat ensures Inherited(ids, s', t, i, u) {
      InheritedStays(ids, s, ev, p, s', t, i, u);
    }
    forall q, c, u: nat, t: nat, i: nat ensures VoteCarries(ids, s', q, c, u, t, i) {
      VoteCarriesStays(ids, s, ev, p, s', q, c, u, t, i);
    }
  }

  // ----- A restart -----

  lemma SameMajorities(ids: set<NodeId>, s: Cluster, p: NodeId, s': Cluster, t: nat, i: nat)
    requires Revived(ids, s, p, s')
    ensures Possible(ids, s', t, i) <==> Possible(ids, s, t, i)
    ensures Chosen(ids, s', t, i) <==> Chosen(ids, s, t, i)
  {
    if Slot(s.tenures, t, i) {
      forall q | q in ids ensures (May(s', q, t, i) <==> May(s, q, t, i))
          && (Acked(s', q, t, i) <==> Acked(s, q, t, i)) {
      }
      assert (set q | q in ids && May(s', q, t, i)) == (set q | q in ids && May(s, q, t, i));
      assert (set q | q in ids && Acked(s', q, t, i)) == (set q | q in ids && Acked(s, q, t, i));
    }
  }

  lemma ReviveKeepsCore(ids: set<NodeId>, s: Cluster, p: NodeId, s': Cluster)
    requires CoreInv(ids, s) && Revived(ids, s, p, s') && LogInv(ids, s')
    ensures CoreInv(ids, s')
  {
    hide LogInv, Possible, Chosen, Voted;
    forall t: nat, i: nat ensures Possible(ids, s', t, i) <==> Possible(ids, s, t, i) {
      SameMajorities(ids, s, p, s', t, i);
    }
    forall k | 0 <= k < |s'.sent| ensures AckOk(ids, s', k) && RequestTrue(s', k) {
      assert AckOk(ids, s, k) && RequestTrue(s, k);
    }
    forall q, t: nat, i: nat | q in ids ensures Kept(ids, s', q, t, i) {
      assert Kept(ids, s, q, t, i);
    }
    forall t: nat, i: nat, u: nat ensures Inherited(ids, s', t, i, u) {
      assert Inherited(ids, s, t, i, u);
    }
    forall q, c, u: nat, t: nat, i: nat ensures VoteCarries(ids, s', q, c, u, t, i) {
      assert VoteCarries(ids, s, q, c, u, t, i);
    }
  }
}
