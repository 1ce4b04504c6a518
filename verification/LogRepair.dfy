/** How a follower's log is brought to agree with its leader's, and why it stays so. */
module LogRepair {
  import opened RaftTypes
  import opened RaftSteps
  import opened RaftCluster
  import opened ElectionSafety
  import opened LogShape
  import opened LogMatching
  import opened CrashMoves

  // ----- The reject / decrement / resend exchange -----

  /** What Log Matching says of two logs, with the sentinel and positive terms. */
  ghost predicate Matching(a: seq<Entry>, b: seq<Entry>) {
    && |a| >= 1 && |b| >= 1 && a[0] == b[0] == SENTINEL
    && (forall i :: 1 <= i < |a| ==> a[i].term >= 1) && (forall i :: 1 <= i < |b| ==> b[i].term >= 1)
    && (forall i :: 0 <= i < |a| && i < |b| && a[i].term == b[i].term ==> Agree(a, b, i))
  }

  /** A leader and a follower that is not ahead of it in term. */
  ghost predicate Pair(l: Node, f: Node) {
    && Valid(l) && Valid(f) && l.role.Leader? && !f.role.Leader?
    && f.id in l.peers && f.term <= l.term
    && Matching(l.log, f.log)
  }

  function Offer(l: Node, f: Node): (req: Message)
    requires Get(l.nextIndex, f.id) >= 1
    ensures req.AppendEntries?
  {
    AppendFor(l, f.id, false)
  }

  /** A rejected request moves the leader's next index down by one, changes neither log, and is followed
      at once by the next offer. */
  lemma RejectMoves(l: Node, f: Node)
    requires Pair(l, f) && !HandleAppendEntries(f, Offer(l, f)).0.success
    ensures var r := HandleAppendEntries(f, Offer(l, f)); var l' := ProcessAppendReply(l, f.id, r.0).node;
      && Get(l.nextIndex, f.id) > 1 && Get(l'.nextIndex, f.id) == Get(l.nextIndex, f.id) - 1
      && l'.log == l.log && r.1.node.log == f.log && Pair(l', r.1.node)
      && l'.matchIndex == l.matchIndex && l'.term == l.term && r.1.node.id == f.id
      && Send(f.id, Offer(l', r.1.node)) in ProcessAppendReply(l, f.id, r.0).effects
  {
    var req := Offer(l, f);
    var r := HandleAppendEntries(f, req);
    assert req.prevIndex > 0;
    assert r.0.term == l.term;
    var l' := ProcessAppendReply(l, f.id, r.0).node;
    var i :| 0 <= i < |l.peers| && l.peers[i] == f.id;
    assert Broadcast(l', false)[i] == Send(f.id, Offer(l', r.1.node));
  }

  /** Rounds of the exchange until the follower accepts; the nodes it ends with. */
  ghost function Repair(l: Node, f: Node): (Node, Node, nat)
    requires Pair(l, f)
    decreases Get(l.nextIndex, f.id)
  {
    var r := HandleAppendEntries(f, Offer(l, f));
    var l' := ProcessAppendReply(l, f.id, r.0).node;
    if r.0.success then (l', r.1.node, 1)
    else
      RejectMoves(l, f);
      var rest := Repair(l', r.1.node);
      (rest.0, rest.1, rest.2 + 1)
  }

  lemma AcceptShape(l: Node, f: Node)
    requires Pair(l, f) && HandleAppendEntries(f, Offer(l, f)).0.success
    ensures var req := Offer(l, f); var r := HandleAppendEntries(f, req);
      var l' := ProcessAppendReply(l, f.id, r.0).node;
      && Accepts(f.log, req) && r.1.node.log == Merge(f.log, req.prevIndex, req.entries)
      && r.1.node.term == l.term && l'.log == l.log
  {
  }

  lemma OfferReachesEnd(l: Node, f: Node)
    requires Pair(l, f) && Accepts(f.log, Offer(l, f))
    ensures var req := Offer(l, f);
      && req.prevIndex + |req.entries| == LastIndex(l.log)
      && req.prevTerm == l.log[req.prevIndex].term
      && (forall k :: 0 <= k < |req.entries| ==> req.entries[k] == l.log[req.prevIndex + 1 + k])
  {
  }

  lemma MatchedMerge(leader: seq<Entry>, log: seq<Entry>, req: Message)
    requires Matching(leader, log) && req.AppendEntries? && Accepts(log, req)
    requires req.prevIndex + |req.entries| < |leader| && req.prevTerm == leader[req.prevIndex].term
    requires forall k :: 0 <= k < |req.entries| ==> req.entries[k] == leader[req.prevIndex + 1 + k]
    ensures Agree(Merge(log, req.prevIndex, req.entries), leader, req.prevIndex + |req.entries|)
  {
    var k := Overlap(log, req.prevIndex, req.entries);
    assert leader[req.prevIndex].term == log[req.prevIndex].term;
    if k > 0 {
      assert log[req.prevIndex + 1 + (k - 1)].term == req.entries[k - 1].term;
    }
    assert Agree(leader, log, req.prevIndex + k);
    MergePieces(log, leader, req.prevIndex, req.entries);
  }

  lemma AcceptRepairs(l: Node, f: Node)
    requires Pair(l, f) && HandleAppendEntries(f, Offer(l, f)).0.success
    ensures var r := HandleAppendEntries(f, Offer(l, f)); var l' := ProcessAppendReply(l, f.id, r.0).node;
      l'.log == l.log && r.1.node.term == l.term && Agree(r.1.node.log, l.log, LastIndex(l.log))
  {
    hide ProcessAppendReply, Merge;
    AcceptShape(l, f);
    OfferReachesEnd(l, f);
    MatchedMerge(l.log, f.log, Offer(l, f));
  }

  /** What the leader knows when the follower has accepted: all it holds, and where to go on. */
  ghost predicate Knows(l: Node, l': Node, f': Node) {
    && Get(l'.matchIndex, f'.id) >= |l.log| - 1
    && (Get(l.matchIndex, f'.id) < |l.log| - 1 ==>
          Get(l'.matchIndex, f'.id) == |f'.log| - 1 && Get(l'.nextIndex, f'.id) == Get(l'.matchIndex, f'.id) + 1)
  }

  lemma AcceptKnown(l: Node, f: Node)
    requires Pair(l, f) && HandleAppendEntries(f, Offer(l, f)).0.success
    ensures var r := HandleAppendEntries(f, Offer(l, f)); var l' := ProcessAppendReply(l, f.id, r.0).node;
      r.1.node.id == f.id && Knows(l, l', r.1.node)
  {
    hide Merge;
    AcceptRepairs(l, f);
    AcceptReply(l, f);
  }

  lemma AcceptReply(l: Node, f: Node)
    requires Pair(l, f) && HandleAppendEntries(f, Offer(l, f)).0.success
    ensures var r := HandleAppendEntries(f, Offer(l, f));
      r.0 == AppendReply(l.term, true, |r.1.node.log| - 1) && r.1.node.id == f.id
  {
    hide Overlap;
  }

  /** For any two logs that satisfy Log Matching, the exchange ends within nextIndex rounds, never
      takes nextIndex below one, and leaves the follower agreeing with the leader through the
      leader's last index and the leader knowing it. */
  lemma {:induction false} RepairConverges(l: Node, f: Node)
    requires Pair(l, f)
    ensures var done := Repair(l, f);
      && done.2 <= Get(l.nextIndex, f.id)
      && Valid(done.0) && done.0.log == l.log
      && done.1.term == l.term && Agree(done.1.log, l.log, |l.log| - 1)
      && done.1.id == f.id && Knows(l, done.0, done.1)
    decreases Get(l.nextIndex, f.id)
  {
    hide HandleAppendEntries, ProcessAppendReply, Offer, Agree, Matching, Knows;
    var r := HandleAppendEntries(f, Offer(l, f));
    IsReply(f, Offer(l, f));
    if r.0.success {
      AcceptRepairs(l, f);
      AcceptKnown(l, f);
      AppendReplySettles(l, f.id, r.0);
    } else {
      RejectMoves(l, f);
      var l' := ProcessAppendReply(l, f.id, r.0).node;
      var rest := Repair(l', r.1.node);
      assert Repair(l, f) == (rest.0, rest.1, rest.2 + 1);
      RepairConverges(l', r.1.node);
      KnowsSame(l, l', rest.0, rest.1);
    }
  }

  lemma KnowsSame(l: Node, m: Node, l': Node, f': Node)
    requires Knows(m, l', f') && m.matchIndex == l.matchIndex && m.log == l.log
    ensures Knows(l, l', f')
  {
  }

  lemma IsReply(f: Node, req: Message)
    requires Valid(f) && req.AppendEntries?
    ensures HandleAppendEntries(f, req).0.AppendReply?
  {
  }

  // ----- Agreement within a term -----

  ghost predicate Holding(s: Cluster, p: NodeId, t: nat, c: nat)
    requires p in s.nodes
  {
    s.nodes[p].term == t && t in s.tenures && Agree(s.nodes[p].log, s.tenures[t].log, c)
  }

  lemma MergeHoldsLog(tenures: map<nat, Tenure>, log: seq<Entry>, low: nat, leader: seq<Entry>, req: Message, c: nat)
    requires req.AppendEntries? && LogOk(tenures, log, low) && LogOk(tenures, leader, req.term)
    requires Carries(leader, req) && Accepts(log, req)
    requires Agree(log, leader, c) || c == req.prevIndex + |req.entries|
    ensures Agree(Merge(log, req.prevIndex, req.entries), leader, c)
    ensures Agree(log, leader, c) ==> Agree(log, Merge(log, req.prevIndex, req.entries), c)
  {
    hide Merge;
    MergeResult(tenures, log, leader, req);
    if Agree(log, leader, c) {
      MergeKeeps(log, leader, req.prevIndex, req.entries, c);
      AgreeLess(Merge(log, req.prevIndex, req.entries), leader, c, c);
      AgreeTrans(log, leader, Merge(log, req.prevIndex, req.entries), c, c);
    }
  }

  lemma MergeHolds(ids: set<NodeId>, s: Cluster, i: nat, p: NodeId, m: Node, c: nat)
    requires LogInv(ids, s) && p in ids && i < |s.sent| && s.sent[i].dst == p
    requires Merged(s.nodes[p], m, s.sent[i].msg)
    requires Holding(s, p, m.term, c) || c == s.sent[i].msg.prevIndex + |s.sent[i].msg.entries|
    ensures m.term in s.tenures && Agree(m.log, s.tenures[m.term].log, c)
    ensures Holding(s, p, m.term, c) ==> Agree(s.nodes[p].log, m.log, c)
  {
    var n, req := s.nodes[p], s.sent[i].msg;
    assert NodeLogOk(s, p);
    assert AppendOk(s.tenures, s.sent[i]);
    assert TenureOk(ids, s, req.term);
    MergeHoldsLog(s.tenures, n.log, n.term, s.tenures[req.term].log, req, c);
  }

  /** One complete step by anybody: what `p` holds of its term's leader it keeps while its term lasts. */
  lemma MoveHolds(ids: set<NodeId>, s: Cluster, ev: Event, actor: NodeId, s': Cluster, p: NodeId, t: nat, c: nat)
    requires LogInv(ids, s) && Moved(ids, s, ev, actor, s') && Grow(s.tenures, s'.tenures)
    requires p in ids && Holding(s, p, t, c) && s'.nodes[p].term == t
    ensures Holding(s', p, t, c) && Agree(s.nodes[p].log, s'.nodes[p].log, c)
  {
    var n, m := s.nodes[p], s'.nodes[p];
    if p == actor && ev.Delivery? && Merged(n, m, s.sent[ev.packet].msg) {
      MergeHolds(ids, s, ev.packet, p, m, c);
    } else {
      assert n.log <= m.log;
      PrefixAgrees(n.log, m.log, c);
      AgreeGrow(n.log, m.log, s.tenures[t].log, s.tenures[t].log, c);
    }
    AgreeGrow(m.log, m.log, s.tenures[t].log, s'.tenures[t].log, c);
  }

  ghost predicate AcceptedAt(ids: set<NodeId>, s: Cluster, a: Action, p: NodeId, t: nat, c: nat) {
    && a.Run? && a.event.Delivery? && a.event.packet < |s.sent| && p in s.nodes
    && var pk := s.sent[a.event.packet];
       && pk.dst == p && pk.msg.AppendEntries? && pk.msg.term == t && t >= s.nodes[p].term
       && Accepts(s.nodes[p].log, pk.msg) && c == pk.msg.prevIndex + |pk.msg.entries|
  }

  lemma AcceptHolds(ids: set<NodeId>, s: Cluster, a: Action, s': Cluster, p: NodeId, t: nat, c: nat)
    requires LogInv(ids, s) && Step(ids, s, a, s') && AcceptedAt(ids, s, a, p, t, c)
    ensures LogInv(ids, s') && p in ids && Holding(s', p, t, c)
  {
    hide Step, ElectionInv, Handle;
    var i := a.event.packet;
    StepKeepsLogs(ids, s, a, s');
    DeliveredNode(ids, s, i, s');
    HandleAccepts(s.nodes[p], s.sent[i].src, s.sent[i].msg);
    MergeHolds(ids, s, i, p, s'.nodes[p], c);
    AgreeGrow(s'.nodes[p].log, s'.nodes[p].log, s.tenures[t].log, s'.tenures[t].log, c);
  }

  lemma HandleAccepts(n: Node, from: NodeId, req: Message)
    requires Valid(n) && req.AppendEntries? && req.term >= n.term && Accepts(n.log, req)
    ensures Merged(n, Handle(n, from, req).node, req)
  {
  }

  lemma StepHolds(ids: set<NodeId>, s: Cluster, a: Action, s': Cluster, p: NodeId, t: nat, c: nat)
    requires LogInv(ids, s) && Step(ids, s, a, s') && Intact(ids, s, a) && p in ids
    ensures s.nodes.Keys == ids && s'.nodes.Keys == ids && s.nodes[p].term <= s'.nodes[p].term
    ensures Holding(s, p, t, c) && s'.nodes[p].term == t ==>
      Holding(s', p, t, c) && Agree(s.nodes[p].log, s'.nodes[p].log, c)
  {
    hide Step, Intact, Goes, Midway, ElectionInv, NodeLogOk, TenureOk, AppendOk, LeaderMove, CandidateMove, LogMove,
      NewAppend;
    StepMoves(ids, s, a, s');
    var mid := Midway(ids, s, a);
    assert s'.nodes[p].term == mid.nodes[p].term && s'.nodes[p].log == mid.nodes[p].log && s'.tenures == mid.tenures;
    if Holding(s, p, t, c) && s'.nodes[p].term == t {
      MoveHolds(ids, s, a.event, Actor(ids, s, a.event), mid, p, t, c);
    }
  }

  lemma HeldStep(ids: set<NodeId>, states: seq<Cluster>, actions: seq<Action>, k: nat, p: NodeId, t: nat, c: nat)
    requires IsRun(ids, states, actions) && Restoring(ids, states, actions) && k < |actions| && p in ids
    ensures states[k].nodes.Keys == ids && states[k + 1].nodes.Keys == ids
    ensures states[k].nodes[p].term <= states[k + 1].nodes[p].term
    ensures Holding(states[k], p, t, c) && states[k + 1].nodes[p].term == t ==>
      Holding(states[k + 1], p, t, c) && Agree(states[k].nodes[p].log, states[k + 1].nodes[p].log, c)
  {
    hide Step, Intact, LogInv;
    RunKeepsLogs(ids, states, actions, k);
    StepHolds(ids, states[k], actions[k], states[k + 1], p, t, c);
  }

  lemma {:induction false} HeldOn(ids: set<NodeId>, states: seq<Cluster>, actions: seq<Action>, k: nat, j: nat,
                                  p: NodeId, t: nat, c: nat)
    requires IsRun(ids, states, actions) && Restoring(ids, states, actions) && k <= j < |states| && p in ids
    requires states[k].nodes.Keys == ids && Holding(states[k], p, t, c)
    ensures states[j].nodes.Keys == ids && states[j].nodes[p].term >= t
    ensures states[j].nodes[p].term == t ==>
      Holding(states[j], p, t, c) && Agree(states[k].nodes[p].log, states[j].nodes[p].log, c)
    decreases j
  {
    hide Step, Intact;
    if k == j {
      PrefixAgrees(states[k].nodes[p].log, states[k].nodes[p].log, c);
    } else {
      HeldOn(ids, states, actions, k, j - 1, p, t, c);
      HeldStep(ids, states, actions, j - 1, p, t, c);
      if states[j].nodes[p].term == t {
        AgreeTrans(states[k].nodes[p].log, states[j - 1].nodes[p].log, states[j].nodes[p].log, c, c);
      }
    }
  }

  lemma LeaderHasTenure(ids: set<NodeId>, s: Cluster, l: NodeId)
    requires LogInv(ids, s) && l in ids && l in s.nodes && s.nodes[l].role.Leader?
    ensures s.nodes[l].term in s.tenures && s.tenures[s.nodes[l].term].log == s.nodes[l].log
  {
    hide ElectionInv, TenureOk, AppendOk;
    assert NodeLogOk(s, l);
  }

  /** Once a follower accepts a request covering index `c`, its log through `c` does not change while
      its term lasts, whatever older or reordered requests arrive, and is the log of the leader of
      that term. */
  lemma AgreementIsStable(ids: set<NodeId>, states: seq<Cluster>, actions: seq<Action>,
                          k: nat, j: nat, p: NodeId, t: nat, c: nat, l: NodeId)
    requires IsRun(ids, states, actions) && Restoring(ids, states, actions) && k < |actions| && k < j < |states|
    requires p in ids && AcceptedAt(ids, states[k], actions[k], p, t, c)
    requires p in states[j].nodes && states[j].nodes[p].term == t && p in states[k + 1].nodes
    ensures Agree(states[k + 1].nodes[p].log, states[j].nodes[p].log, c)
    ensures l in ids && l in states[j].nodes && states[j].nodes[l].role.Leader? && states[j].nodes[l].term == t ==>
      Agree(states[j].nodes[p].log, states[j].nodes[l].log, c)
  {
    hide Step, Intact, NodeLogOk, TenureOk, AppendOk, NetOk, Tallied;
    RunKeepsLogs(ids, states, actions, k);
    AcceptHolds(ids, states[k], actions[k], states[k + 1], p, t, c);
    HeldOn(ids, states, actions, k + 1, j, p, t, c);
    if l in ids && states[j].nodes[l].role.Leader? && states[j].nodes[l].term == t {
      RunKeepsLogs(ids, states, actions, j);
      LeaderHasTenure(ids, states[j], l);
    }
  }
}
