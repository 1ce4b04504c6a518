/** The state machine is fed indices 1, 2, 3, ... without gap or repeat, whatever
    happens to the log underneath. */
module ApplyOrder {
  import opened RaftTypes
  import opened RaftSteps
  import opened RaftCluster

  /** A call that began with `start` entries applied went on with start + 1, start + 2, ... up to
      the new lastApplied, reading each from the log it leaves. */
  ghost predicate AppliesFrom(start: nat, o: Outcome) {
    InOrder(start, o.node, Applied(o.effects))
  }

  ghost predicate InOrder(start: nat, n: Node, done: seq<(nat, Command)>) {
    && start <= n.lastApplied
    && |done| == n.lastApplied - start
    && (forall k :: 0 <= k < |done| ==>
          start + 1 + k < |n.log| && done[k] == (start + 1 + k, n.log[start + 1 + k].command))
  }

  lemma SilentApplies(start: nat, o: Outcome)
    requires o.node.lastApplied == start && forall e :: e in o.effects ==> !e.Apply?
    ensures AppliesFrom(start, o)
  {
    NoApplications(o.effects);
  }

  lemma {:induction false} NoApplications(es: seq<Effect>)
    requires forall e :: e in es ==> !e.Apply?
    ensures Applied(es) == []
  {
    if es != [] {
      var front := es[..|es| - 1];
      assert es == front + [es[|es| - 1]];
      NoApplications(front);
    }
  }

  lemma ApplyEntriesApplies(n: Node)
    requires n.lastApplied < n.commitIndex ==> n.commitIndex < |n.log|
    ensures AppliesFrom(n.lastApplied, ApplyEntries(n))
  {
    if n.lastApplied < n.commitIndex {
      var lo, hi := n.lastApplied, n.commitIndex;
      ApplicationsRead(n.id, Disk(0, 0), n.log, lo, hi);
      forall k | 0 <= k < hi - lo ensures Entries(n.log, lo, hi)[k] == (lo + 1 + k, n.log[lo + 1 + k].command) {
        EntriesAt(n.log, lo, hi, k);
      }
    }
  }

  /** Callbacks that apply nothing may surround those that do. */
  lemma Surround(start: nat, before: seq<Effect>, o: Outcome, after: seq<Effect>)
    requires AppliesFrom(start, o)
    requires (forall e :: e in before ==> !e.Apply?) && (forall e :: e in after ==> !e.Apply?)
    ensures AppliesFrom(start, Outcome(o.node, before + o.effects + after))
  {
    NoApplications(before);
    NoApplications(after);
    AppliedConcat(before, o.effects);
    AppliedConcat(before + o.effects, after);
    assert Applied(before + o.effects + after) == Applied(o.effects);
  }

  lemma TickApplies(n: Node, due: bool)
    requires Valid(n)
    ensures AppliesFrom(n.lastApplied, Tick(n, due))
  {
    if n.role.Leader? {
      ScanCommitRange(n, LastIndex(n.log));
      var a := ApplyEntries(AdvanceCommit(n));
      var beats := if due then Broadcast(n, true) else [];
      ApplyEntriesApplies(AdvanceCommit(n));
      Surround(n.lastApplied, beats, a, []);
      assert beats + a.effects + [] == beats + a.effects;
    } else {
      SilentApplies(n.lastApplied, Tick(n, due));
    }
  }

  lemma AcceptApplies(n: Node, req: Message, before: seq<Effect>, after: seq<Effect>)
    requires Valid(n) && req.AppendEntries? && req.prevIndex < |n.log|
    requires (forall e :: e in before ==> !e.Apply?) && (forall e :: e in after ==> !e.Apply?)
    ensures var o := AcceptEntries(n, req).1; AppliesFrom(n.lastApplied, Outcome(o.node, before + o.effects + after))
  {
    var m := Adopt(n, req);
    var a := ApplyEntries(m);
    ApplyEntriesApplies(m);
    Surround(n.lastApplied, before + Persist(m), a, after);
    assert before + Persist(m) + a.effects == before + AcceptEntries(n, req).1.effects;
  }

  lemma AppendEntriesApplies(n: Node, from: NodeId, req: Message)
    requires Valid(n) && req.AppendEntries?
    ensures AppliesFrom(n.lastApplied, Handle(n, from, req))
  {
    var r := HandleAppendEntries(n, req);
    var o := if req.term > n.term then BecomeFollower(n, req.term) else Outcome(n, []);
    var m := o.node.(leaderId := req.leader);
    if req.term >= n.term && Accepts(m.log, req) {
      AcceptApplies(m, req, o.effects, [Send(from, r.0)]);
    } else {
      SilentApplies(n.lastApplied, Handle(n, from, req));
    }
  }

  lemma LocalApplies(ids: set<NodeId>, s: Cluster, ev: Event)
    requires Shape(ids, s) && Enabled(ids, s, ev)
    ensures AppliesFrom(s.nodes[Actor(ids, s, ev)].lastApplied, Local(ids, s, ev))
  {
    hide Tick, HandleAppendEntries;
    var n := s.nodes[Actor(ids, s, ev)];
    match ev
    case Proposal(_, c) => SilentApplies(n.lastApplied, Propose(n, c).1);
    case Clock(_, due) => TickApplies(n, due);
    case Delivery(i) =>
      var pk := s.sent[i];
      match pk.msg
      case RequestVote(_, _, _, _) => SilentApplies(n.lastApplied, Handle(n, pk.src, pk.msg));
      case VoteReply(_, _) => SilentApplies(n.lastApplied, ProcessVoteReply(n, pk.msg));
      case AppendEntries(_, _, _, _, _, _) => AppendEntriesApplies(n, pk.src, pk.msg);
      case AppendReply(_, _, _) => SilentApplies(n.lastApplied, ProcessAppendReply(n, pk.src, pk.msg));
  }

  /** Exactly the indices 1 .. lastApplied have been applied, in that order. */
  ghost predicate Numbered(s: Cluster, p: NodeId)
    requires p in s.nodes && p in s.applied
  {
    |s.applied[p]| == s.nodes[p].lastApplied && forall k :: 0 <= k < |s.applied[p]| ==> s.applied[p][k].0 == k + 1
  }

  lemma StepKeepsNumbered(ids: set<NodeId>, s: Cluster, ev: Event, s': Cluster)
    requires Step(ids, s, Run(ev), s')
    requires forall p :: p in ids ==> Numbered(s, p)
    ensures Shape(ids, s') && forall p :: p in ids ==> Numbered(s', p)
  {
    hide Local;
    StepKeepsShape(ids, s, Run(ev), s');
    LocalApplies(ids, s, ev);
    var p := Actor(ids, s, ev);
    assert Numbered(s, p) && Numbered(s', p);
    forall q | q in ids && q != p ensures Numbered(s', q) {
      assert Numbered(s, q);
    }
  }

  /** Over every crash-free run the apply callback of each node has seen 1, 2, ..., lastApplied,
      and nothing committed is waiting when a call returns. */
  lemma {:induction false} AppliedOnceInOrder(ids: set<NodeId>, states: seq<Cluster>, actions: seq<Action>, k: nat)
    requires IsRun(ids, states, actions) && CrashFree(actions) && k < |states|
    ensures Shape(ids, states[k])
    ensures forall p :: p in ids ==>
      Numbered(states[k], p) && states[k].nodes[p].commitIndex <= states[k].nodes[p].lastApplied
  {
    hide Step;
    if k > 0 {
      AppliedOnceInOrder(ids, states, actions, k - 1);
      assert actions[k - 1].Run?;
      StepKeepsNumbered(ids, states[k - 1], actions[k - 1].event, states[k]);
    }
    forall p | p in ids ensures Numbered(states[k], p)
        && states[k].nodes[p].commitIndex <= states[k].nodes[p].lastApplied {
      assert Member(ids, p, states[k].nodes[p]);
    }
  }
}
