/** A fixed set of nodes, their disks and a network that may drop, delay and
    reorder packets but delivers each one at most once. */
module RaftCluster {
  import opened RaftTypes
  import opened RaftSteps
  import opened Sequences

  datatype Disk = Disk(term: nat, vote: NodeId)

  datatype Packet = Packet(src: NodeId, dst: NodeId, msg: Message)

  /** Who led a term, and the log it held when it was last seen leading. */
  datatype Tenure = Tenure(leader: NodeId, log: seq<Entry>)

  /** `sent` keeps every packet ever sent; `delivered` holds the positions that have arrived.
      `applied` and `tenures` only record what happened and never enable or disable a step. */
  datatype Cluster = Cluster(
    nodes: map<NodeId, Node>,
    disks: map<NodeId, Disk>,
    sent: seq<Packet>,
    delivered: set<nat>,
    applied: map<NodeId, seq<(nat, Command)>>,
    tenures: map<nat, Tenure>)

  datatype Event =
    | Proposal(node: NodeId, command: Command)
    | Clock(node: NodeId, due: bool)
    | Delivery(packet: nat)

  /** A call either runs to its end, or the process dies after `done` of its callbacks and
      restarts from its disk. Which log entries the disk gives back is left open; `Intact` asks for
      those written. */
  datatype Action =
    | Run(event: Event)
    | CrashDuring(event: Event, done: nat, recovered: seq<Entry>)

  function Write(d: Disk, e: Effect): Disk {
    match e
    case WriteTerm(t) => d.(term := t)
    case WriteVote(v) => d.(vote := v)
    case _ => d
  }

  function Written(d: Disk, es: seq<Effect>): Disk {
    if es == [] then d else Write(Written(d, es[..|es| - 1]), es[|es| - 1])
  }

  /** The entries last written, if any were. */
  function StoredLog(entries: seq<Entry>, es: seq<Effect>): seq<Entry> {
    if es == [] then entries
    else
      var e := es[|es| - 1];
      if e.WriteLog? then e.entries else StoredLog(entries, es[..|es| - 1])
  }

  function Packets(p: NodeId, es: seq<Effect>): seq<Packet> {
    if es == [] then []
    else
      var e := es[|es| - 1];
      Packets(p, es[..|es| - 1]) + if e.Send? then [Packet(p, e.dst, e.msg)] else []
  }

  function Applied(es: seq<Effect>): seq<(nat, Command)> {
    if es == [] then []
    else
      var e := es[|es| - 1];
      Applied(es[..|es| - 1]) + if e.Apply? then [(e.index, e.command)] else []
  }

  /** `peers` lists the cluster without the node itself; 0 is no node's id. */
  ghost predicate Member(ids: set<NodeId>, p: NodeId, n: Node) {
    && Distinct(n.peers)
    && (forall q {:trigger q in n.peers} :: q in n.peers <==> q in ids && q != p)
  }

  ghost predicate Shape(ids: set<NodeId>, s: Cluster) {
    && 0 !in ids
    && s.nodes.Keys == ids && s.disks.Keys == ids && s.applied.Keys == ids
    && (forall p {:trigger s.nodes[p]} :: p in ids ==> s.nodes[p].id == p && Valid(s.nodes[p]))
    && (forall p {:trigger Member(ids, p, s.nodes[p])} :: p in ids ==> Member(ids, p, s.nodes[p]))
  }

  ghost predicate Init(ids: set<NodeId>, s: Cluster) {
    && Shape(ids, s)
    && (forall p :: p in ids ==> s.nodes[p] == Fresh(p, s.nodes[p].peers))
    && (forall p :: p in ids ==> s.disks[p] == Disk(0, 0) && s.applied[p] == [])
    && s.sent == [] && s.delivered == {} && s.tenures == map[]
  }

  predicate Enabled(ids: set<NodeId>, s: Cluster, ev: Event) {
    match ev
    case Proposal(p, _) => p in ids
    case Clock(p, _) => p in ids
    case Delivery(i) => i < |s.sent| && i !in s.delivered && s.sent[i].dst in ids
  }

  function Actor(ids: set<NodeId>, s: Cluster, ev: Event): (p: NodeId)
    requires Enabled(ids, s, ev)
    ensures p in ids
  {
    match ev
    case Proposal(p, _) => p
    case Clock(p, _) => p
    case Delivery(i) => s.sent[i].dst
  }

  ghost function Local(ids: set<NodeId>, s: Cluster, ev: Event): Outcome
    requires Shape(ids, s) && Enabled(ids, s, ev)
  {
    var n := s.nodes[Actor(ids, s, ev)];
    match ev
    case Proposal(_, c) => Propose(n, c).1
    case Clock(_, due) => Tick(n, due)
    case Delivery(i) => Handle(n, s.sent[i].src, s.sent[i].msg)
  }

  function Arrived(s: Cluster, ev: Event): set<nat> {
    if ev.Delivery? then s.delivered + {ev.packet} else s.delivered
  }

  function Chronicle(tenures: map<nat, Tenure>, n: Node): map<nat, Tenure> {
    if n.role.Leader? then tenures[n.term := Tenure(n.id, n.log)] else tenures
  }

  /** The cluster after node `p` became `n` having made the callbacks `es`. */
  function After(s: Cluster, ev: Event, p: NodeId, n: Node, es: seq<Effect>): Cluster
    requires p in s.disks && p in s.applied
  {
    Cluster(s.nodes[p := n],
            s.disks[p := Written(s.disks[p], es)],
            s.sent + Packets(p, es),
            Arrived(s, ev),
            s.applied[p := s.applied[p] + Applied(es)],
            Chronicle(s.tenures, n))
  }

  /** The node `n` as it dies on the way to `o`, going by what its disk holds; only the records of a
      run look at it. */
  function Interrupted(n: Node, o: Node, d: Disk, log: seq<Entry>): Node {
    if d.term != o.term then n.(votedFor := d.vote, log := log)
    else if log == o.log then o.(votedFor := d.vote)
    else o.(votedFor := d.vote, log := log, commitIndex := n.commitIndex, lastApplied := n.lastApplied)
  }

  function Restarted(s: Cluster, p: NodeId, n: Node): Cluster {
    s.(nodes := s.nodes[p := n])
  }

  ghost predicate Step(ids: set<NodeId>, s: Cluster, a: Action, s': Cluster)
  {
    && Shape(ids, s) && Enabled(ids, s, a.event)
    && var p := Actor(ids, s, a.event);
       var o := Local(ids, s, a.event);
       match a
       case Run(ev) => s' == After(s, ev, p, o.node, o.effects)
       case CrashDuring(ev, k, log) =>
         && k <= |o.effects|
         && var d := Written(s.disks[p], o.effects[..k]);
            var w := Interrupted(s.nodes[p], o.node, d, [SENTINEL] + log);
            s' == Restarted(After(s, ev, p, w, o.effects[..k]), p, Recover(w, d.term, d.vote, log))
  }

  /** `states[k]` becomes `states[k + 1]` by `actions[k]`. */
  ghost predicate IsRun(ids: set<NodeId>, states: seq<Cluster>, actions: seq<Action>) {
    && |states| == |actions| + 1
    && Init(ids, states[0])
    && (forall k {:trigger actions[k]} :: 0 <= k < |actions| ==> Step(ids, states[k], actions[k], states[k + 1]))
  }

  ghost predicate CrashFree(actions: seq<Action>) {
    forall k :: 0 <= k < |actions| ==> actions[k].Run?
  }

  /** A node that dies in this action reads back the log it had made durable. */
  ghost predicate Intact(ids: set<NodeId>, s: Cluster, a: Action) {
    a.CrashDuring? && Shape(ids, s) && Enabled(ids, s, a.event) && a.done <= |Local(ids, s, a.event).effects| ==>
      a.recovered == StoredLog(s.nodes[Actor(ids, s, a.event)].log[1..], Local(ids, s, a.event).effects[..a.done])
  }

  /** No restart of the run loses log entries. */
  ghost predicate Restoring(ids: set<NodeId>, states: seq<Cluster>, actions: seq<Action>)
    requires |states| == |actions| + 1
  {
    forall k {:trigger actions[k]} :: 0 <= k < |actions| ==> Intact(ids, states[k], actions[k])
  }

  // ----- Reading off the effects of a call -----

  lemma {:induction false} PacketsConcat(p: NodeId, a: seq<Effect>, b: seq<Effect>)
    ensures Packets(p, a + b) == Packets(p, a) + Packets(p, b)
  {
    if b == [] {
      assert a + b == a;
    } else {
      var front := b[..|b| - 1];
      assert (a + b)[..|a + b| - 1] == a + front;
      PacketsConcat(p, a, front);
    }
  }

  lemma {:induction false} AppliedConcat(a: seq<Effect>, b: seq<Effect>)
    ensures Applied(a + b) == Applied(a) + Applied(b)
  {
    if b == [] {
      assert a + b == a;
    } else {
      var front := b[..|b| - 1];
      assert (a + b)[..|a + b| - 1] == a + front;
      AppliedConcat(a, front);
    }
  }

  lemma {:induction false} WrittenConcat(d: Disk, a: seq<Effect>, b: seq<Effect>)
    ensures Written(d, a + b) == Written(Written(d, a), b)
  {
    if b == [] {
      assert a + b == a;
    } else {
      var front := b[..|b| - 1];
      assert (a + b)[..|a + b| - 1] == a + front;
      WrittenConcat(d, a, front);
    }
  }

  /** The packets are exactly the sends. */
  lemma {:induction false} PacketsMembers(p: NodeId, es: seq<Effect>)
    ensures forall pk :: pk in Packets(p, es) <==> pk.src == p && Send(pk.dst, pk.msg) in es
  {
    if es != [] {
      var front := es[..|es| - 1];
      PacketsMembers(p, front);
      assert es == front + [es[|es| - 1]];
    }
  }

  lemma {:induction false} PacketsOfSends(p: NodeId, es: seq<Effect>)
    requires forall i :: 0 <= i < |es| ==> es[i].Send?
    ensures |Packets(p, es)| == |es|
    ensures forall i :: 0 <= i < |es| ==> Packets(p, es)[i] == Packet(p, es[i].dst, es[i].msg)
    ensures Applied(es) == []
    ensures forall d :: Written(d, es) == d
  {
    if es != [] {
      PacketsOfSends(p, es[..|es| - 1]);
    }
  }

  lemma ReadsNothing(p: NodeId, d: Disk)
    ensures Packets(p, []) == [] && Applied([]) == [] && Written(d, []) == d
  {
  }

  /** What one more durable write adds. */
  lemma ReadsWrite(p: NodeId, d: Disk, es: seq<Effect>, e: Effect)
    requires e.WriteTerm? || e.WriteVote? || e.WriteLog?
    ensures Packets(p, es + [e]) == Packets(p, es) && Applied(es + [e]) == Applied(es)
    ensures Written(d, es + [e]) == Write(Written(d, es), e)
  {
    assert (es + [e])[..|es + [e]| - 1] == es;
  }

  lemma PersistReads(p: NodeId, d: Disk, n: Node)
    requires |n.log| >= 1
    ensures Packets(p, Persist(n)) == [] && Applied(Persist(n)) == []
    ensures Written(d, Persist(n)) == Disk(n.term, n.votedFor)
  {
    hide Packets, Applied, Written;
    var a, b, c := WriteTerm(n.term), WriteVote(n.votedFor), WriteLog(n.log[1..]);
    ReadsNothing(p, d);
    ReadsWrite(p, d, [], a);
    ReadsWrite(p, d, [] + [a], b);
    ReadsWrite(p, d, [] + [a] + [b], c);
    assert Persist(n) == [] + [a] + [b] + [c];
  }

  /** Indices and commands of the entries after `lo` up to `hi`. */
  function Entries(log: seq<Entry>, lo: nat, hi: nat): (es: seq<(nat, Command)>)
    requires lo <= hi < |log|
    ensures |es| == hi - lo
  {
    if lo == hi then [] else Entries(log, lo, hi - 1) + [(hi, log[hi].command)]
  }

  lemma {:induction false} EntriesAt(log: seq<Entry>, lo: nat, hi: nat, k: nat)
    requires lo <= hi < |log| && k < hi - lo
    ensures Entries(log, lo, hi)[k] == (lo + 1 + k, log[lo + 1 + k].command)
  {
    if k < hi - 1 - lo { EntriesAt(log, lo, hi - 1, k); }
  }

  lemma EntriesSnoc(log: seq<Entry>, lo: nat, hi: nat)
    requires lo < hi < |log|
    ensures Entries(log, lo, hi) == Entries(log, lo, hi - 1) + [(hi, log[hi].command)]
  {
  }

  lemma {:induction false} ApplicationsRead(p: NodeId, d: Disk, log: seq<Entry>, lo: nat, hi: nat)
    requires lo <= hi < |log|
    ensures Packets(p, Applications(log, lo, hi)) == []
    ensures Written(d, Applications(log, lo, hi)) == d
    ensures Applied(Applications(log, lo, hi)) == Entries(log, lo, hi)
    decreases hi
  {
    hide Packets, Written, Applied, Applications, Entries;
    if lo < hi {
      ApplicationsRead(p, d, log, lo, hi - 1);
      ApplicationsSnoc(log, lo, hi);
      EntriesSnoc(log, lo, hi);
      ApplyReads(p, d, Applications(log, lo, hi - 1), Apply(hi, log[hi].command));
    } else {
      NoneRead(p, d, log, lo);
    }
  }

  lemma ApplicationsSnoc(log: seq<Entry>, lo: nat, hi: nat)
    requires lo < hi < |log|
    ensures Applications(log, lo, hi) == Applications(log, lo, hi - 1) + [Apply(hi, log[hi].command)]
  {
    var a, b := Applications(log, lo, hi), Applications(log, lo, hi - 1) + [Apply(hi, log[hi].command)];
    forall k | 0 <= k < |a| ensures a[k] == b[k] {
    }
  }

  lemma NoneRead(p: NodeId, d: Disk, log: seq<Entry>, lo: nat)
    requires lo < |log|
    ensures var es := Applications(log, lo, lo);
      Packets(p, es) == [] && Written(d, es) == d && Applied(es) == Entries(log, lo, lo)
  {
    assert Applications(log, lo, lo) == [] && Entries(log, lo, lo) == [];
  }

  lemma ApplyReads(p: NodeId, d: Disk, front: seq<Effect>, e: Effect)
    requires e.Apply?
    ensures Packets(p, front + [e]) == Packets(p, front) && Written(d, front + [e]) == Written(d, front)
    ensures Applied(front + [e]) == Applied(front) + [(e.index, e.command)]
  {
    assert (front + [e])[..|front|] == front;
  }

  /** Stopping a call early sends a prefix of what the whole call would send. */
  lemma PacketsPrefix(p: NodeId, es: seq<Effect>, k: nat)
    requires k <= |es|
    ensures Packets(p, es[..k]) <= Packets(p, es)
  {
    assert es == es[..k] + es[k..];
    PacketsConcat(p, es[..k], es[k..]);
  }

  // ----- What one call does to its own node -----

  /** Term and vote are durable again when the call returns, and the node is fit for the next call. */
  ghost predicate Settles(n: Node, o: Outcome) {
    && Valid(o.node) && o.node.id == n.id && o.node.peers == n.peers
    && Written(Disk(n.term, n.votedFor), o.effects) == Disk(o.node.term, o.node.votedFor)
    && o.node.term >= n.term
  }

  lemma BroadcastReads(p: NodeId, n: Node, heartbeat: bool)
    requires forall q :: q in n.peers ==> Get(n.nextIndex, q) >= 1
    ensures Applied(Broadcast(n, heartbeat)) == []
    ensures forall d :: Written(d, Broadcast(n, heartbeat)) == d
    ensures |Packets(p, Broadcast(n, heartbeat))| == |n.peers|
    ensures forall i :: 0 <= i < |n.peers| ==>
      Packets(p, Broadcast(n, heartbeat))[i] == Packet(p, n.peers[i], AppendFor(n, n.peers[i], heartbeat))
  {
    PacketsOfSends(p, Broadcast(n, heartbeat));
  }

  lemma ProposeSettles(n: Node, c: Command)
    requires Valid(n)
    ensures Settles(n, Propose(n, c).1)
  {
    var o := Propose(n, c).1;
    if n.role.Leader? {
      WrittenConcat(Disk(n.term, n.votedFor), Persist(o.node), Broadcast(o.node, false));
      PersistReads(n.id, Disk(n.term, n.votedFor), o.node);
      BroadcastReads(n.id, o.node, false);
    }
  }

  lemma ApplySettles(n: Node, d: Disk)
    requires n.lastApplied < n.commitIndex ==> n.commitIndex < |n.log|
    ensures Written(d, ApplyEntries(n).effects) == d
    ensures forall p :: Packets(p, ApplyEntries(n).effects) == []
    ensures ApplyEntries(n).node == n.(lastApplied := ApplyEntries(n).node.lastApplied)
    ensures n.commitIndex <= ApplyEntries(n).node.lastApplied
  {
    if n.lastApplied < n.commitIndex {
      forall p ensures Packets(p, ApplyEntries(n).effects) == [] {
        ApplicationsRead(p, d, n.log, n.lastApplied, n.commitIndex);
      }
      ApplicationsRead(0, d, n.log, n.lastApplied, n.commitIndex);
    }
  }

  lemma TickSettles(n: Node, due: bool)
    requires Valid(n)
    ensures Settles(n, Tick(n, due))
  {
    var d := Disk(n.term, n.votedFor);
    if n.role.Leader? {
      var beats := if due then Broadcast(n, true) else [];
      var m := AdvanceCommit(n);
      ScanCommitRange(n, LastIndex(n.log));
      if due { BroadcastReads(n.id, n, true); }
      ApplySettles(m, d);
      WrittenConcat(d, beats, ApplyEntries(m).effects);
    } else if due {
      var o := BecomeCandidate(n);
      WrittenConcat(d, Persist(o.node), Solicit(o.node));
      PersistReads(n.id, d, o.node);
      PacketsOfSends(n.id, Solicit(o.node));
    }
  }

  lemma RequestVoteSettles(n: Node, from: NodeId, req: Message)
    requires Valid(n) && req.RequestVote?
    ensures Settles(n, Handle(n, from, req))
  {
    hide Packets, Written;
    var d := Disk(n.term, n.votedFor);
    var r := HandleRequestVote(n, req);
    var o := if req.term > n.term then BecomeFollower(n, req.term) else Outcome(n, []);
    if req.term > n.term { PersistReads(n.id, d, o.node); }
    if Grants(o.node, req) {
      var d1 := Written(d, o.effects);
      PersistReads(n.id, d1, r.1.node);
      WrittenConcat(d, o.effects, Persist(r.1.node));
    }
    WrittenConcat(d, r.1.effects, [Send(from, r.0)]);
    SendsWriteNothing(Written(d, r.1.effects), Send(from, r.0));
    SendsWriteNothing(d, Send(from, r.0));
  }

  lemma SendsWriteNothing(d: Disk, e: Effect)
    requires e.Send?
    ensures Written(d, [e]) == d && Written(d, []) == d
  {
    assert [e][..0] == [];
  }

  lemma VoteReplySettles(n: Node, reply: Message)
    requires Valid(n) && reply.VoteReply?
    ensures Settles(n, ProcessVoteReply(n, reply))
  {
    var d := Disk(n.term, n.votedFor);
    var o := ProcessVoteReply(n, reply);
    if reply.term > n.term {
      PersistReads(n.id, d, o.node);
    } else if reply.term == n.term && n.role.Candidate? {
      if o.node.role.Leader? {
        ResetAll(n.nextIndex, n.peers, LastIndex(n.log) + 1);
        BroadcastReads(n.id, o.node, true);
      }
    }
  }

  lemma AcceptSettles(n: Node, req: Message)
    requires Valid(n) && req.AppendEntries? && req.prevIndex < |n.log|
    ensures Settles(n, AcceptEntries(n, req).1)
    ensures AcceptEntries(n, req).1.node.log == Merge(n.log, req.prevIndex, req.entries)
  {
    var d := Disk(n.term, n.votedFor);
    var m := Adopt(n, req);
    var a := ApplyEntries(m);
    PersistReads(n.id, d, m);
    WrittenConcat(d, Persist(m), a.effects);
    ApplySettles(m, d);
  }

  lemma AppendEntriesSettles(n: Node, from: NodeId, req: Message)
    requires Valid(n) && req.AppendEntries?
    ensures Settles(n, Handle(n, from, req))
  {
    var d := Disk(n.term, n.votedFor);
    var r := HandleAppendEntries(n, req);
    WrittenConcat(d, r.1.effects, [Send(from, r.0)]);
    PacketsOfSends(n.id, [Send(from, r.0)]);
    if req.term >= n.term {
      var o := if req.term > n.term then BecomeFollower(n, req.term) else Outcome(n, []);
      if req.term > n.term { PersistReads(n.id, d, o.node); }
      var m := o.node.(leaderId := req.leader);
      if Accepts(m.log, req) {
        AcceptSettles(m, req);
        WrittenConcat(d, o.effects, AcceptEntries(m, req).1.effects);
      }
    }
  }

  lemma AppendReplySettles(n: Node, from: NodeId, reply: Message)
    requires Valid(n) && reply.AppendReply?
    ensures Settles(n, ProcessAppendReply(n, from, reply))
  {
    var o := ProcessAppendReply(n, from, reply);
    if n.role.Leader? && reply.term == n.term && !reply.success {
      BroadcastReads(n.id, o.node, false);
    }
  }

  lemma LocalSettles(ids: set<NodeId>, s: Cluster, ev: Event)
    requires Shape(ids, s) && Enabled(ids, s, ev)
    ensures Settles(s.nodes[Actor(ids, s, ev)], Local(ids, s, ev))
  {
    hide Propose, Tick, HandleRequestVote, ProcessVoteReply, HandleAppendEntries, ProcessAppendReply;
    var n := s.nodes[Actor(ids, s, ev)];
    match ev
    case Proposal(_, c) => ProposeSettles(n, c);
    case Clock(_, due) => TickSettles(n, due);
    case Delivery(i) =>
      var pk := s.sent[i];
      match pk.msg
      case RequestVote(_, _, _, _) => RequestVoteSettles(n, pk.src, pk.msg);
      case VoteReply(_, _) => VoteReplySettles(n, pk.msg);
      case AppendEntries(_, _, _, _, _, _) => AppendEntriesSettles(n, pk.src, pk.msg);
      case AppendReply(_, _, _) => AppendReplySettles(n, pk.src, pk.msg);
  }

  lemma AfterKeepsShape(ids: set<NodeId>, s: Cluster, ev: Event, p: NodeId, n: Node, es: seq<Effect>)
    requires Shape(ids, s) && p in ids
    requires Valid(n) && n.id == p && n.peers == s.nodes[p].peers
    ensures Shape(ids, After(s, ev, p, n, es))
  {
    hide Packets, Applied, Written, Member, Chronicle, Arrived;
    var s' := After(s, ev, p, n, es);
    assert s'.nodes.Keys == ids && s'.disks.Keys == ids && s'.applied.Keys == ids;
    forall q | q in ids ensures Member(ids, q, s'.nodes[q]) {
      assert Member(ids, q, s.nodes[q]);
      if q == p { SameMember(ids, p, s.nodes[p], n); }
    }
  }

  lemma SameMember(ids: set<NodeId>, p: NodeId, n: Node, m: Node)
    requires Member(ids, p, n) && m.peers == n.peers
    ensures Member(ids, p, m)
  {
  }

  lemma RestartKeepsShape(ids: set<NodeId>, s: Cluster, p: NodeId, n: Node)
    requires Shape(ids, s) && p in ids
    requires Valid(n) && n.id == p && n.peers == s.nodes[p].peers
    ensures Shape(ids, Restarted(s, p, n))
  {
    hide Member;
    var s' := Restarted(s, p, n);
    assert s'.nodes.Keys == ids;
    forall q | q in ids ensures Member(ids, q, s'.nodes[q]) {
      assert Member(ids, q, s.nodes[q]);
      if q == p { SameMember(ids, p, s.nodes[p], n); }
    }
  }

  lemma RecoverFits(w: Node, d: Disk, log: seq<Entry>)
    ensures var m := Recover(w, d.term, d.vote, log); Valid(m) && m.id == w.id && m.peers == w.peers
  {
  }

  /** No step, crash or not, changes the membership or leaves a node unfit for its next call. */
  lemma StepKeepsShape(ids: set<NodeId>, s: Cluster, a: Action, s': Cluster)
    requires Step(ids, s, a, s')
    ensures Shape(ids, s')
  {
    hide Local, Packets, Applied, Written, Member, Recover;
    var p := Actor(ids, s, a.event);
    LocalSettles(ids, s, a.event);
    var o := Local(ids, s, a.event);
    match a
    case Run(ev) => AfterKeepsShape(ids, s, ev, p, o.node, o.effects);
    case CrashDuring(ev, k, log) =>
      var d := Written(s.disks[p], o.effects[..k]);
      var w := Interrupted(s.nodes[p], o.node, d, [SENTINEL] + log);
      AfterKeepsShape(ids, s, ev, p, w, o.effects[..k]);
      RecoverFits(w, d, log);
      RestartKeepsShape(ids, After(s, ev, p, w, o.effects[..k]), p, Recover(w, d.term, d.vote, log));
  }

  lemma StepEnabled(ids: set<NodeId>, s: Cluster, a: Action, s': Cluster)
    requires Step(ids, s, a, s')
    ensures Shape(ids, s) && Enabled(ids, s, a.event)
  {
    hide Local;
  }

  lemma DeliveredNode(ids: set<NodeId>, s: Cluster, i: nat, s': Cluster)
    requires Step(ids, s, Run(Delivery(i)), s')
    ensures i < |s.sent| && s.sent[i].dst in ids && Shape(ids, s) && s.sent[i].dst in s'.nodes
    ensures s'.nodes[s.sent[i].dst] == Handle(s.nodes[s.sent[i].dst], s.sent[i].src, s.sent[i].msg).node
  {
    hide HandleRequestVote, ProcessVoteReply, HandleAppendEntries, ProcessAppendReply;
  }
}
