/** Logs compared with the logs of term leaders: what a merge can produce, and
    what a leader may put into an AppendEntries request. */
module LogShape {
  import opened RaftTypes
  import opened RaftSteps
  import opened RaftCluster

  /** The two logs are the same through index `i`. */
  ghost predicate Agree(a: seq<Entry>, b: seq<Entry>, i: int) {
    i < |a| && i < |b| && forall k {:trigger a[k]} {:trigger b[k]} :: 0 <= k <= i ==> a[k] == b[k]
  }

  /** Sentinel first, indices equal to positions, terms positive, ascending and at most `bound`. */
  ghost predicate Sound(log: seq<Entry>, bound: nat) {
    && |log| >= 1 && log[0] == SENTINEL
    && (forall i :: 1 <= i < |log| ==> log[i].index == i && 1 <= log[i].term <= bound)
    && (forall i, j :: 0 <= i <= j < |log| ==> log[i].term <= log[j].term)
  }

  /** Every entry came from the leader of its term, together with all that precedes it. */
  ghost predicate Derived(tenures: map<nat, Tenure>, log: seq<Entry>) {
    forall i {:trigger log[i]} :: 1 <= i < |log| ==>
      log[i].term in tenures && Agree(log, tenures[log[i].term].log, i)
  }

  ghost predicate LogOk(tenures: map<nat, Tenure>, log: seq<Entry>, bound: nat) {
    Sound(log, bound) && Derived(tenures, log)
  }

  ghost predicate Grow(a: map<nat, Tenure>, b: map<nat, Tenure>) {
    forall t :: t in a ==> t in b && a[t].leader == b[t].leader && a[t].log <= b[t].log
  }

  /** The request's entries and its check are cut out of `log`; or the check points past the
      end of a shorter log, with a term no entry has. */
  ghost predicate Carries(log: seq<Entry>, m: Message)
    requires m.AppendEntries?
  {
    || (&& m.prevIndex + |m.entries| < |log|
        && m.prevTerm == log[m.prevIndex].term
        && (forall k :: 0 <= k < |m.entries| ==> m.entries[k] == log[m.prevIndex + 1 + k]))
    || (m.prevIndex > 0 && m.prevTerm == 0 && m.entries == [])
  }

  // ----- Agreement -----

  lemma AgreeTrans(a: seq<Entry>, b: seq<Entry>, c: seq<Entry>, i: nat, j: nat)
    requires Agree(a, b, i) && Agree(b, c, j) && j <= i
    ensures Agree(a, c, j)
  {
    assert forall k {:trigger a[k]} {:trigger c[k]} :: 0 <= k <= j ==> a[k] == b[k] && b[k] == c[k];
  }

  lemma AgreeLess(a: seq<Entry>, b: seq<Entry>, i: nat, j: nat)
    requires Agree(a, b, i) && j <= i
    ensures Agree(a, b, j) && Agree(b, a, j)
  {
  }

  lemma AgreeGrow(a: seq<Entry>, a': seq<Entry>, b: seq<Entry>, b': seq<Entry>, i: nat)
    requires Agree(a, b, i) && a <= a' && b <= b'
    ensures Agree(a', b', i)
  {
    assert forall k {:trigger a'[k]} {:trigger b'[k]} :: 0 <= k <= i ==> a'[k] == a[k] && b'[k] == b[k];
  }

  lemma PrefixAgrees(a: seq<Entry>, b: seq<Entry>, i: nat)
    requires a <= b && i < |a|
    ensures Agree(a, b, i)
  {
  }

  // ----- Logs and tenures -----

  lemma DerivedGrows(a: map<nat, Tenure>, b: map<nat, Tenure>, log: seq<Entry>)
    requires Grow(a, b) && Derived(a, log)
    ensures Derived(b, log)
  {
    forall i | 1 <= i < |log| ensures log[i].term in b && Agree(log, b[log[i].term].log, i) {
      var t := log[i].term;
      assert Agree(log, a[t].log, i) && a[t].log <= b[t].log;
      assert forall k {:trigger a[t].log[k]} {:trigger b[t].log[k]} :: 0 <= k <= i ==> a[t].log[k] == b[t].log[k];
    }
  }

  lemma CarriesGrows(a: seq<Entry>, b: seq<Entry>, m: Message)
    requires m.AppendEntries? && Carries(a, m) && a <= b
    ensures Carries(b, m)
  {
    assert forall k {:trigger a[k]} {:trigger b[k]} :: 0 <= k < |a| ==> a[k] == b[k];
  }

  /** Log Matching for any two logs built from the same tenures. */
  lemma SameTermAgree(tenures: map<nat, Tenure>, a: seq<Entry>, b: seq<Entry>, i: nat)
    requires Derived(tenures, a) && Derived(tenures, b)
    requires |a| >= 1 && |b| >= 1 && a[0] == b[0]
    requires i < |a| && i < |b| && a[i].term == b[i].term
    ensures Agree(a, b, i)
  {
    if i > 0 {
      var l := tenures[a[i].term].log;
      assert Agree(a, l, i) && Agree(b, l, i);
      forall k | 0 <= k <= i ensures a[k] == b[k] {
        assert a[k] == l[k];
      }
    }
  }

  lemma OverlapAgrees(tenures: map<nat, Tenure>, log: seq<Entry>, leader: seq<Entry>, m: Message)
    requires Derived(tenures, log) && Derived(tenures, leader)
    requires |log| >= 1 && |leader| >= 1 && log[0] == leader[0]
    requires forall i :: 1 <= i < |log| ==> log[i].term >= 1
    requires m.AppendEntries? && Carries(leader, m) && Accepts(log, m)
    ensures m.prevIndex + |m.entries| < |leader|
    ensures forall k :: 0 <= k < |m.entries| ==> m.entries[k] == leader[m.prevIndex + 1 + k]
    ensures Agree(log, leader, m.prevIndex + Overlap(log, m.prevIndex, m.entries))
  {
    SameTermAgree(tenures, log, leader, m.prevIndex);
    var k := Overlap(log, m.prevIndex, m.entries);
    if k > 0 {
      assert log[m.prevIndex + 1 + (k - 1)].term == m.entries[k - 1].term;
      SameTermAgree(tenures, log, leader, m.prevIndex + k);
    }
  }

  lemma MergePieces(log: seq<Entry>, leader: seq<Entry>, prev: nat, entries: seq<Entry>)
    requires prev < |log| && prev + |entries| < |leader|
    requires forall k :: 0 <= k < |entries| ==> entries[k] == leader[prev + 1 + k]
    requires Agree(log, leader, prev + Overlap(log, prev, entries))
    ensures var r := Merge(log, prev, entries); r == log || r == leader[..prev + |entries| + 1]
    ensures Agree(Merge(log, prev, entries), leader, prev + |entries|)
  {
    var k := Overlap(log, prev, entries);
    var r := Merge(log, prev, entries);
    if k < |entries| {
      forall i | 0 <= i < |r| ensures r[i] == leader[i] {
        if i > prev + k {
          assert r[i] == entries[i - prev - 1];
        }
      }
    }
  }

  /** Merging the leader's entries never loses an index on which the logs already agree. */
  lemma MergeKeeps(log: seq<Entry>, leader: seq<Entry>, prev: nat, entries: seq<Entry>, i: nat)
    requires prev < |log| && prev + |entries| < |leader|
    requires forall k :: 0 <= k < |entries| ==> entries[k] == leader[prev + 1 + k]
    requires Agree(Merge(log, prev, entries), leader, prev + |entries|)
    requires Agree(log, leader, i)
    ensures Agree(Merge(log, prev, entries), leader, i)
  {
    var k := Overlap(log, prev, entries);
    if k < |entries| && prev + 1 + k < |log| && i > prev + k {
      assert false;
    }
  }

  /** What an accepted request leaves: the old log, already agreeing with the leader through the
      last entry sent, or exactly the leader's log up to there. */
  lemma MergeResult(tenures: map<nat, Tenure>, log: seq<Entry>, leader: seq<Entry>, m: Message)
    requires Derived(tenures, log) && Derived(tenures, leader)
    requires |log| >= 1 && |leader| >= 1 && log[0] == leader[0]
    requires forall i :: 1 <= i < |log| ==> log[i].term >= 1
    requires m.AppendEntries? && Carries(leader, m) && Accepts(log, m)
    ensures m.prevIndex + |m.entries| < |leader|
    ensures var r := Merge(log, m.prevIndex, m.entries);
      && Agree(r, leader, m.prevIndex + |m.entries|)
      && (r == log || r == leader[..m.prevIndex + |m.entries| + 1])
    ensures forall k :: 0 <= k < |m.entries| ==> m.entries[k] == leader[m.prevIndex + 1 + k]
  {
    hide Merge, Overlap, Derived, Accepts;
    OverlapAgrees(tenures, log, leader, m);
    MergePieces(log, leader, m.prevIndex, m.entries);
  }

  lemma PrefixOk(tenures: map<nat, Tenure>, log: seq<Entry>, bound: nat, n: nat)
    requires LogOk(tenures, log, bound) && 1 <= n <= |log|
    ensures LogOk(tenures, log[..n], bound)
  {
    forall i | 1 <= i < n ensures log[..n][i].term in tenures && Agree(log[..n], tenures[log[..n][i].term].log, i) {
      assert Agree(log, tenures[log[i].term].log, i);
    }
  }

  lemma SnocOk(tenures: map<nat, Tenure>, log: seq<Entry>, t: nat, e: Entry)
    requires LogOk(tenures, log, t) && t >= 1 && e.term == t && e.index == |log|
    requires t in tenures && tenures[t].log == log + [e]
    ensures LogOk(tenures, log + [e], t)
  {
    var l := log + [e];
    forall i | 1 <= i < |l| ensures l[i].term in tenures && Agree(l, tenures[l[i].term].log, i) {
      if i < |log| {
        assert Agree(log, tenures[log[i].term].log, i);
      }
    }
  }

  // ----- What each call may send as AppendEntries -----

  ghost predicate FromLeader(n: Node, m: Node, e: Effect) {
    e.Send? && e.msg.AppendEntries? ==>
      && m.role.Leader? && e.msg.term == m.term && e.msg.leader == m.id
      && Carries(m.log, e.msg) && e.msg.commit == n.commitIndex && e.dst in n.peers
  }

  ghost predicate Appends(n: Node, o: Outcome) {
    forall e :: e in o.effects ==> FromLeader(n, o.node, e)
  }

  lemma AppendForCarries(n: Node, peer: NodeId, heartbeat: bool)
    requires Get(n.nextIndex, peer) >= 1 && |n.log| >= 1
    ensures Carries(n.log, AppendFor(n, peer, heartbeat))
  {
  }

  lemma BroadcastAppends(n: Node, m: Node, heartbeat: bool)
    requires forall q :: q in n.peers ==> Get(n.nextIndex, q) >= 1
    requires |n.log| >= 1 && n.role.Leader?
    requires m.role.Leader? && m.term == n.term && m.id == n.id && m.log == n.log && m.peers == n.peers
    ensures forall e :: e in Broadcast(n, heartbeat) ==> FromLeader(n, m, e)
  {
    var b := Broadcast(n, heartbeat);
    forall e | e in b ensures FromLeader(n, m, e) {
      var i :| 0 <= i < |b| && b[i] == e;
      AppendForCarries(n, n.peers[i], heartbeat);
    }
  }

  lemma ProposeAppends(n: Node, c: Command)
    requires Valid(n)
    ensures Appends(n, Propose(n, c).1)
  {
    if n.role.Leader? {
      var m := Propose(n, c).1.node;
      BroadcastAppends(m, m, false);
    }
  }

  lemma TickAppends(n: Node, due: bool)
    requires Valid(n)
    ensures Appends(n, Tick(n, due))
  {
    if n.role.Leader? {
      ScanCommitRange(n, LastIndex(n.log));
      var a := ApplyEntries(AdvanceCommit(n)).effects;
      assert forall e :: e in a ==> !e.Send?;
      if due { BroadcastAppends(n, Tick(n, due).node, true); }
    }
  }

  lemma VoteReplyAppends(n: Node, reply: Message)
    requires Valid(n) && reply.VoteReply?
    ensures Appends(n, ProcessVoteReply(n, reply))
  {
    var o := ProcessVoteReply(n, reply);
    if o.node.role.Leader? && n.role.Candidate? {
      ResetAll(n.nextIndex, n.peers, LastIndex(n.log) + 1);
      BroadcastAppends(o.node, o.node, true);
    }
  }

  lemma AppendReplyAppends(n: Node, from: NodeId, reply: Message)
    requires Valid(n) && reply.AppendReply?
    ensures Appends(n, ProcessAppendReply(n, from, reply))
  {
    var o := ProcessAppendReply(n, from, reply);
    if n.role.Leader? && reply.term == n.term && !reply.success {
      BroadcastAppends(o.node, o.node, false);
    }
  }

  lemma RequestVoteAppends(n: Node, from: NodeId, req: Message)
    requires Valid(n) && req.RequestVote?
    ensures Appends(n, Handle(n, from, req))
  {
  }

  lemma AppendEntriesAppends(n: Node, from: NodeId, req: Message)
    requires Valid(n) && req.AppendEntries?
    ensures Appends(n, Handle(n, from, req))
  {
    var r := HandleAppendEntries(n, req);
    if req.term >= n.term {
      var o := if req.term > n.term then BecomeFollower(n, req.term) else Outcome(n, []);
      var m := o.node.(leaderId := req.leader);
      if Accepts(m.log, req) {
        var a := ApplyEntries(Adopt(m, req)).effects;
        assert forall e :: e in a ==> !e.Send?;
        assert forall e :: e in r.1.effects ==> !e.Send?;
      }
    }
  }

  lemma LocalAppends(ids: set<NodeId>, s: Cluster, ev: Event)
    requires Shape(ids, s) && Enabled(ids, s, ev)
    ensures Appends(s.nodes[Actor(ids, s, ev)], Local(ids, s, ev))
  {
    hide Propose, Tick, HandleRequestVote, ProcessVoteReply, HandleAppendEntries, ProcessAppendReply;
    var n := s.nodes[Actor(ids, s, ev)];
    match ev
    case Proposal(_, c) => ProposeAppends(n, c);
    case Clock(_, due) => TickAppends(n, due);
    case Delivery(i) =>
      var pk := s.sent[i];
      match pk.msg
      case RequestVote(_, _, _, _) => RequestVoteAppends(n, pk.src, pk.msg);
      case VoteReply(_, _) => VoteReplyAppends(n, pk.msg);
      case AppendEntries(_, _, _, _, _, _) => AppendEntriesAppends(n, pk.src, pk.msg);
      case AppendReply(_, _, _) => AppendReplyAppends(n, pk.src, pk.msg);
  }
}
