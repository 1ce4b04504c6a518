/** The data of one Raft node: log entries, the four RPC messages, the calls a
    node makes to its three injected callbacks, and the node's own fields. */
module RaftTypes {

  type NodeId = nat
  type Command = string

  datatype Entry = Entry(term: nat, index: nat, command: Command)

  /** Slot 0 of every log; it makes positions coincide with Raft indices. */
  const SENTINEL := Entry(0, 0, "")

  datatype Role = Follower | Candidate | Leader

  datatype Message =
    | RequestVote(term: nat, candidate: NodeId, lastIndex: nat, lastTerm: nat)
    | VoteReply(term: nat, granted: bool)
    | AppendEntries(term: nat, leader: NodeId, prevIndex: nat, prevTerm: nat, commit: nat, entries: seq<Entry>)
    | AppendReply(term: nat, success: bool, matchIndex: nat)

  /** One callback invocation. `persist` makes three durable writes, in this order. */
  datatype Effect =
    | WriteTerm(term: nat)
    | WriteVote(vote: NodeId)
    | WriteLog(entries: seq<Entry>)
    | Send(dst: NodeId, msg: Message)
    | Apply(index: nat, command: Command)

  datatype Node = Node(
    id: NodeId,
    peers: seq<NodeId>,
    term: nat,
    votedFor: NodeId,
    log: seq<Entry>,
    role: Role,
    commitIndex: nat,
    lastApplied: nat,
    leaderId: NodeId,
    nextIndex: map<NodeId, nat>,
    matchIndex: map<NodeId, nat>,
    votes: nat)

  /** What a call leaves behind: the new fields and the callbacks it made, in order. */
  datatype Outcome = Outcome(node: Node, effects: seq<Effect>)

  /** Looking up a missing key of a C++ map inserts and yields zero. */
  function Get(m: map<NodeId, nat>, k: NodeId): nat {
    if k in m then m[k] else 0
  }

  function TermAt(log: seq<Entry>, i: nat): nat {
    if i < |log| then log[i].term else 0
  }

  function LastIndex(log: seq<Entry>): nat {
    if |log| == 0 then 0 else |log| - 1
  }

  function LastTerm(log: seq<Entry>): nat {
    if |log| == 0 then 0 else log[|log| - 1].term
  }

  predicate UpToDate(lastTerm: nat, lastIndex: nat, log: seq<Entry>) {
    lastTerm > LastTerm(log) || (lastTerm == LastTerm(log) && lastIndex >= LastIndex(log))
  }

  /** What holds of a node between two calls. */
  predicate Valid(n: Node) {
    && |n.log| >= 1
    && n.commitIndex <= n.lastApplied
    && (n.role.Leader? ==> forall p :: p in n.peers ==> Get(n.nextIndex, p) >= 1)
  }

  function Fresh(id: NodeId, peers: seq<NodeId>): (n: Node)
    ensures Valid(n)
  {
    Node(id, peers, 0, 0, [SENTINEL], Follower, 0, 0, 0, map[], map[], 0)
  }
}
