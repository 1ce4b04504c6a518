/** Where the code departs from the paper: the success reply and the follower's commit
    index are computed from the last log index, not from the last index the request
    verified. Exactly when that is harmless. */
module RaftTail {
  import opened RaftTypes
  import opened RaftSteps
  import opened RaftCluster
  import opened LogShape
  import opened LogMatching
  import opened StateMachineSafety

  /** The request replaces the tail, leaves none, or leaves one whose last term is the leader's. */
  predicate TailFits(log: seq<Entry>, leader: seq<Entry>, req: Message)
    requires req.AppendEntries?
  {
    || Overlap(log, req.prevIndex, req.entries) < |req.entries|
    || LastIndex(log) <= req.prevIndex + |req.entries|
    || (LastIndex(log) < |leader| && LastTerm(log) == leader[LastIndex(log)].term)
  }

  lemma PrefixIffLastAgrees(tenures: map<nat, Tenure>, log: seq<Entry>, leader: seq<Entry>)
    requires Derived(tenures, log) && Derived(tenures, leader)
    requires |log| >= 1 && |leader| >= 1 && log[0] == leader[0]
    ensures log <= leader <==> (LastIndex(log) < |leader| && LastTerm(log) == leader[LastIndex(log)].term)
  {
    if LastIndex(log) < |leader| && LastTerm(log) == leader[LastIndex(log)].term {
      SameTermAgree(tenures, log, leader, LastIndex(log));
    }
  }

  lemma MergeFits(tenures: map<nat, Tenure>, log: seq<Entry>, leader: seq<Entry>, req: Message)
    requires Derived(tenures, log) && Derived(tenures, leader)
    requires |log| >= 1 && |leader| >= 1 && log[0] == leader[0]
    requires forall i :: 1 <= i < |log| ==> log[i].term >= 1
    requires req.AppendEntries? && Carries(leader, req) && Accepts(log, req)
    ensures Merge(log, req.prevIndex, req.entries) <= leader <==> TailFits(log, leader, req)
  {
    hide Derived, Carries;
    MergeResult(tenures, log, leader, req);
    PrefixIffLastAgrees(tenures, log, leader);
  }

  /** The reply's match index is true of the leader's log (the follower agrees with it through that
      index) exactly when the tail fits: one comparison of terms before the call decides it. */
  lemma TailCheck(ids: set<NodeId>, s: Cluster, i: nat)
    requires LogInv(ids, s) && i < |s.sent| && s.sent[i].msg.AppendEntries? && s.sent[i].dst in ids
    requires s.sent[i].msg.term >= s.nodes[s.sent[i].dst].term && Accepts(s.nodes[s.sent[i].dst].log, s.sent[i].msg)
    ensures s.sent[i].msg.term in s.tenures
    ensures var n, req, l := s.nodes[s.sent[i].dst], s.sent[i].msg, s.tenures[s.sent[i].msg.term].log;
      var r := HandleAppendEntries(n, req);
      && (NoStaleTail(ids, s, i) <==> TailFits(n.log, l, req))
      && (Agree(r.1.node.log, l, r.0.matchIndex) <==> TailFits(n.log, l, req))
  {
    var n, req := s.nodes[s.sent[i].dst], s.sent[i].msg;
    assert AppendOk(s.tenures, s.sent[i]);
    assert NodeLogOk(s, s.sent[i].dst);
    assert TenureOk(ids, s, req.term);
    var l := s.tenures[req.term].log;
    MergeFits(s.tenures, n.log, l, req);
    MatchReport(n, req);
    AgreeThroughLast(Merge(n.log, req.prevIndex, req.entries), l);
  }

  lemma MatchReport(n: Node, req: Message)
    requires Valid(n) && req.AppendEntries? && req.term >= n.term && Accepts(n.log, req)
    ensures var r := HandleAppendEntries(n, req); var merged := Merge(n.log, req.prevIndex, req.entries);
      && r.0 == AppendReply(req.term, true, LastIndex(merged)) && r.1.node.log == merged
      && r.1.node.commitIndex == (if req.commit <= n.commitIndex then n.commitIndex
                                  else if req.commit < LastIndex(merged) then req.commit else LastIndex(merged))
  {
  }

  lemma AgreeThroughLast(a: seq<Entry>, b: seq<Entry>)
    requires |a| >= 1
    ensures Agree(a, b, LastIndex(a)) <==> a <= b
  {
  }

  /** The same for the commit index a follower moves to. */
  predicate CommitFits(log: seq<Entry>, leader: seq<Entry>, req: Message)
    requires req.AppendEntries?
  {
    var c := if req.commit < LastIndex(log) then req.commit else LastIndex(log);
    || Overlap(log, req.prevIndex, req.entries) < |req.entries|
    || c <= req.prevIndex + |req.entries|
    || (c < |leader| && TermAt(log, c) == leader[c].term)
  }

  /** When a request raises the commit index, every entry up to the new index is the leader's exactly
      when the term found there is the leader's. */
  lemma CommitCheck(ids: set<NodeId>, s: Cluster, i: nat)
    requires LogInv(ids, s) && i < |s.sent| && s.sent[i].msg.AppendEntries? && s.sent[i].dst in ids
    requires s.sent[i].msg.term >= s.nodes[s.sent[i].dst].term && Accepts(s.nodes[s.sent[i].dst].log, s.sent[i].msg)
    requires s.sent[i].msg.commit > s.nodes[s.sent[i].dst].commitIndex
    ensures s.sent[i].msg.term in s.tenures
    ensures var n, req, l := s.nodes[s.sent[i].dst], s.sent[i].msg, s.tenures[s.sent[i].msg.term].log;
      var m := HandleAppendEntries(n, req).1.node;
      Agree(m.log, l, m.commitIndex) <==> CommitFits(n.log, l, req)
  {
    var n, req := s.nodes[s.sent[i].dst], s.sent[i].msg;
    assert AppendOk(s.tenures, s.sent[i]);
    assert NodeLogOk(s, s.sent[i].dst);
    assert TenureOk(ids, s, req.term);
    var l := s.tenures[req.term].log;
    MatchReport(n, req);
    MergeResult(s.tenures, n.log, l, req);
    var c := if req.commit < LastIndex(n.log) then req.commit else LastIndex(n.log);
    if c < |l| && n.log[c].term == l[c].term {
      SameTermAgree(s.tenures, n.log, l, c);
    }
    CommitPieces(n.log, l, req, c);
  }

  lemma CommitPieces(log: seq<Entry>, leader: seq<Entry>, req: Message, c: nat)
    requires |log| >= 1 && req.AppendEntries? && req.prevIndex < |log|
    requires var r := Merge(log, req.prevIndex, req.entries);
      && Agree(r, leader, req.prevIndex + |req.entries|)
      && (r == log || r == leader[..req.prevIndex + |req.entries| + 1])
    requires c == if req.commit < LastIndex(log) then req.commit else LastIndex(log)
    requires c < |leader| && log[c].term == leader[c].term ==> Agree(log, leader, c)
    ensures var r := Merge(log, req.prevIndex, req.entries);
      var d := if req.commit < LastIndex(r) then req.commit else LastIndex(r);
      Agree(r, leader, d) <==> CommitFits(log, leader, req)
  {
    var r := Merge(log, req.prevIndex, req.entries);
    var d := if req.commit < LastIndex(r) then req.commit else LastIndex(r);
    if Overlap(log, req.prevIndex, req.entries) < |req.entries| {
      AgreeLess(r, leader, req.prevIndex + |req.entries|, req.prevIndex + |req.entries|);
      assert |r| <= req.prevIndex + |req.entries| + 1;
    } else {
      assert r == log && d == c;
    }
  }
}
