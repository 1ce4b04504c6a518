/** The database connection pool as interleaved steps of borrowers, the producer, returning
    deleters and the reaper. */
module ConnectSteps {

  /** A connection and when it was last returned, in clock ticks; a new one has the clock's origin. */
  datatype Conn = Conn(id: nat, last: nat)

  const SECOND: nat := 1000000000
  const IDLE_LIMIT: nat := 10

  datatype Pool = Pool(
    init: int, max: int,
    queue: seq<Conn>, free: int, total: int,
    borrowed: map<nat, Conn>, made: nat, clock: nat)

  datatype Step = Produce | Borrow | GiveBack(id: nat) | Reap | Tick(d: nat)

  /** Whole seconds since the connection was returned. */
  function Idle(clock: nat, c: Conn): nat {
    if clock < c.last then 0 else (clock - c.last) / SECOND
  }

  /** Not used for eleven full seconds of nanoseconds, that is for more than ten whole ones. */
  predicate LongIdle(clock: nat, c: Conn) {
    clock - c.last >= 11_000_000_000
  }

  function Larger(a: int, b: int): int { if a < b then b else a }

  function FreshOnes(n: nat): seq<Conn> {
    seq(n, i requires 0 <= i < n => Conn(i, 0))
  }

  function Constructed(init: int, max: int, clock: nat): Pool {
    var n := Larger(init, 0);
    Pool(init, max, FreshOnes(n), n, n, map[], n, clock)
  }

  predicate Enabled(s: Pool, step: Step) {
    match step
    case Produce => s.free == 0 && s.total < s.max
    case Borrow => s.free > 0
    case GiveBack(id) => id in s.borrowed
    case Reap => s.queue != [] && s.total > s.init && Idle(s.clock, s.queue[0]) > IDLE_LIMIT
    case Tick(_) => true
  }

  /** Borrowing takes the queue's front without looking whether there is one. */
  predicate Safe(s: Pool, step: Step) {
    step.Borrow? ==> s.queue != []
  }

  function Next(s: Pool, step: Step): Pool
    requires Enabled(s, step) && Safe(s, step)
  {
    match step
    case Produce => s.(queue := s.queue + [Conn(s.made, 0)], free := s.free + 1, total := s.total + 1,
        made := s.made + 1)
    case Borrow => s.(queue := s.queue[1..], free := s.free - 1, borrowed := s.borrowed[s.queue[0].id := s.queue[0]])
    case GiveBack(id) => s.(queue := s.queue + [Conn(id, s.clock)], free := s.free + 1, borrowed := s.borrowed - {id})
    case Reap => s.(queue := s.queue[1..], free := s.free - 1, total := s.total - 1)
    case Tick(d) => s.(clock := s.clock + d)
  }

  /** A run whose every pop finds a connection. */
  ghost predicate IsRun(states: seq<Pool>, steps: seq<Step>) {
    && |states| == |steps| + 1
    && states[0] == Constructed(states[0].init, states[0].max, states[0].clock)
    && forall k {:trigger steps[k]} :: 0 <= k < |steps| ==>
         Enabled(states[k], steps[k]) && Safe(states[k], steps[k]) && states[k + 1] == Next(states[k], steps[k])
  }

  ghost predicate Sorted(s: Pool) {
    && (forall i, j :: 0 <= i < j < |s.queue| ==> s.queue[i].last <= s.queue[j].last)
    && (forall i :: 0 <= i < |s.queue| ==> s.queue[i].last <= s.clock)
  }

  ghost predicate Balanced(s: Pool) {
    && s.free == |s.queue| && s.total == |s.queue| + |s.borrowed.Keys|
    && s.init <= s.total <= Larger(Larger(s.init, 0), s.max)
  }

  /** Each connection is in one place. */
  ghost predicate Apart(s: Pool) {
    && (forall i, j :: 0 <= i < j < |s.queue| ==> s.queue[i].id != s.queue[j].id)
    && (forall i :: 0 <= i < |s.queue| ==> s.queue[i].id !in s.borrowed && s.queue[i].id < s.made)
    && (forall id :: id in s.borrowed ==> s.borrowed[id].id == id < s.made)
  }

  ghost predicate Inv(s: Pool) {
    Sorted(s) && Balanced(s) && Apart(s)
  }

  lemma BorrowKeeps(s: Pool)
    requires Inv(s) && Enabled(s, Borrow)
    ensures s.queue != [] && Inv(Next(s, Borrow))
  {
    var s' := Next(s, Borrow);
    var c := s.queue[0];
    assert s'.borrowed.Keys == s.borrowed.Keys + {c.id};
    assert forall i :: 0 <= i < |s'.queue| ==> s'.queue[i] == s.queue[i + 1];
  }

  lemma GiveBackKeeps(s: Pool, id: nat)
    requires Inv(s) && Enabled(s, GiveBack(id))
    ensures Inv(Next(s, GiveBack(id)))
  {
    var s' := Next(s, GiveBack(id));
    assert s'.borrowed.Keys == s.borrowed.Keys - {id};
    assert forall i :: 0 <= i < |s.queue| ==> s'.queue[i] == s.queue[i];
  }

  lemma ReapKeeps(s: Pool)
    requires Inv(s) && Enabled(s, Reap)
    ensures Inv(Next(s, Reap))
  {
    var s' := Next(s, Reap);
    assert forall i :: 0 <= i < |s'.queue| ==> s'.queue[i] == s.queue[i + 1];
  }

  lemma StepKeeps(s: Pool, step: Step)
    requires Inv(s) && Enabled(s, step)
    ensures Safe(s, step) && Inv(Next(s, step))
  {
    match step
    case Borrow => BorrowKeeps(s);
    case GiveBack(id) => GiveBackKeeps(s, id);
    case Reap => ReapKeeps(s);
    case _ =>
  }

  lemma {:induction false} RunKeeps(states: seq<Pool>, steps: seq<Step>, k: nat)
    requires IsRun(states, steps) && k < |states|
    ensures Inv(states[k]) && states[k].init == states[0].init && states[k].max == states[0].max
  {
    hide Inv;
    if k == 0 {
      ConstructedInv(states[0].init, states[0].max, states[0].clock);
    } else {
      RunKeeps(states, steps, k - 1);
      StepKeeps(states[k - 1], steps[k - 1]);
      assert states[k] == Next(states[k - 1], steps[k - 1]);
    }
  }

  lemma ConstructedInv(init: int, max: int, clock: nat)
    ensures Inv(Constructed(init, max, clock))
  {
  }

  /** In every interleaving: the free counter is the queue's length, the total is queued plus
      borrowed and within its bounds, no connection is in two places, and a borrower that was let
      through finds a connection. */
  lemma ConnectionsConserved(states: seq<Pool>, steps: seq<Step>, k: nat)
    requires IsRun(states, steps) && k < |states|
    ensures var s := states[k];
      && s.free == |s.queue| && s.total == |s.queue| + |s.borrowed.Keys|
      && states[0].init <= s.total <= Larger(Larger(states[0].init, 0), states[0].max)
      && Apart(s) && forall step :: Enabled(s, step) ==> Safe(s, step)
  {
    RunKeeps(states, steps, k);
  }

  lemma TickKeeps(s: Pool, d: nat)
    requires Inv(s)
    ensures Inv(Next(s, Tick(d)))
  {
  }

  lemma FrontIsIdlest(s: Pool)
    requires Inv(s)
    ensures forall i :: 0 <= i < |s.queue| ==> Idle(s.clock, s.queue[i]) <= Idle(s.clock, s.queue[0])
  {
    hide Idle;
    forall i | 0 <= i < |s.queue| ensures Idle(s.clock, s.queue[i]) <= Idle(s.clock, s.queue[0]) {
      OlderIsIdler(s.clock, s.queue[0], s.queue[i]);
    }
  }

  lemma IdleIsLong(clock: nat, c: Conn)
    requires c.last <= clock
    ensures Idle(clock, c) > IDLE_LIMIT <==> LongIdle(clock, c)
  {
  }

  lemma IdleInTicks(s: Pool)
    requires Inv(s)
    ensures forall i :: 0 <= i < |s.queue| ==>
      (Idle(s.clock, s.queue[i]) > IDLE_LIMIT <==> LongIdle(s.clock, s.queue[i]))
  {
    hide Idle, LongIdle;
    forall i | 0 <= i < |s.queue| ensures Idle(s.clock, s.queue[i]) > IDLE_LIMIT <==> LongIdle(s.clock, s.queue[i]) {
      IdleIsLong(s.clock, s.queue[i]);
    }
  }

  lemma OlderIsIdler(clock: nat, a: Conn, b: Conn)
    requires a.last <= b.last <= clock
    ensures Idle(clock, b) <= Idle(clock, a)
  {
  }

  /** Looking only at the front is complete: in every reachable state the reaper goes on iff the pool
      is above its initial size and some queued connection has been idle over the limit. */
  lemma FrontOnlyIsComplete(states: seq<Pool>, steps: seq<Step>, k: nat)
    requires IsRun(states, steps) && k < |states|
    ensures var s := states[k];
      Enabled(s, Reap) <==> s.total > s.init && exists i :: 0 <= i < |s.queue| && LongIdle(s.clock, s.queue[i])
  {
    hide Idle, LongIdle;
    RunKeeps(states, steps, k);
    IdleInTicks(states[k]);
    FrontIsIdlest(states[k]);
  }
}

/** The pool as the object it is, each method doing the steps of its critical section. */
module ConnectPoolClass {
  import opened ConnectSteps

  datatype Lease = Refused | Lease(conn: Conn)

  class ConnectPool {
    const init: int
    const max: int
    var queue: seq<Conn>
    var free: int
    var total: int
    var borrowed: map<nat, Conn>
    var made: nat
    var clock: nat

    ghost function State(): Pool
      reads this
    {
      Pool(init, max, queue, free, total, borrowed, made, clock)
    }

    /** Every initial connection could be opened. */
    constructor (init: int, max: int, clock: nat)
      ensures State() == Constructed(init, max, clock) && Inv(State())
    {
      this.init, this.max, this.clock := init, max, clock;
      borrowed := map[];
      var q: seq<Conn> := [];
      var i := 0;
      while i < init
        invariant 0 <= i <= Larger(init, 0)
        invariant q == FreshOnes(i)
      {
        q := q + [Conn(i, 0)];
        i := i + 1;
      }
      queue, free, total, made := q, i, i, i;
      new;
      ConstructedInv(init, max, clock);
    }

    /** Time passes. */
    method Read(d: nat) returns (now: nat)
      modifies `clock
      ensures State() == Next(old(State()), Tick(d)) && now == clock
    {
      clock := clock + d;
      now := clock;
    }

    /** The producer, let through by its condition; `connected`: the database accepted the connection. */
    method ProduceOne(connected: bool)
      requires Inv(State()) && Enabled(State(), Produce)
      modifies this
      ensures Inv(State()) && State() == if connected then Next(old(State()), Produce) else old(State())
      ensures connected ==> queue == [Conn(old(made), 0)] && total == old(total) + 1
    {
      StepKeeps(State(), Produce);
      if !connected {
        return;
      }
      queue := queue + [Conn(made, 0)];
      free, total, made := free + 1, total + 1, made + 1;
    }

    method GetConn() returns (lease: Lease)
      requires Inv(State())
      modifies this
      ensures Inv(State())
      ensures lease.Refused? <==> old(queue) == []
      ensures lease.Refused? ==> State() == old(State())
      ensures lease.Lease? ==> State() == Next(old(State()), Borrow) && lease.conn == old(queue)[0]
    {
      if free <= 0 {
        return Refused;
      }
      StepKeeps(State(), Borrow);
      var c := queue[0];
      queue := queue[1..];
      free, borrowed := free - 1, borrowed[c.id := c];
      return Lease(c);
    }

    method Return(c: Conn)
      requires Inv(State()) && c.id in borrowed
      modifies this
      ensures Inv(State()) && State() == Next(old(State()), GiveBack(c.id))
      ensures queue == old(queue) + [Conn(c.id, clock)] && free == |queue|
    {
      StepKeeps(State(), GiveBack(c.id));
      queue := queue + [Conn(c.id, clock)];
      free, borrowed := free + 1, borrowed - {c.id};
    }

    method DropFront()
      requires Inv(State()) && Enabled(State(), Reap)
      modifies this
      ensures Inv(State()) && State() == Next(old(State()), Reap)
    {
      StepKeeps(State(), Reap);
      queue := queue[1..];
      free, total := free - 1, total - 1;
    }

    /** One pass of the reaper, reading the clock before each look; `delays` is how far it moves. */
    method ReapPass(delays: seq<nat>) returns (dropped: nat)
      requires Inv(State()) && |delays| > |queue|
      modifies this
      ensures Inv(State()) && clock >= old(clock) && borrowed == old(borrowed) && made == old(made)
      ensures dropped <= |old(queue)| && queue == old(queue)[dropped..] && total == old(total) - dropped
      ensures forall i :: 0 <= i < dropped ==> LongIdle(clock, old(queue)[i])
      ensures total <= init || forall i :: 0 <= i < |queue| ==> !LongIdle(clock, queue[i])
    {
      hide Inv, Idle;
      dropped := 0;
      while queue != [] && total > init
        invariant Inv(State()) && clock >= old(clock) && borrowed == old(borrowed) && made == old(made)
        invariant dropped <= |old(queue)| && queue == old(queue)[dropped..] && total == old(total) - dropped
        invariant forall i :: 0 <= i < dropped ==> LongIdle(clock, old(queue)[i])
        decreases |queue|
      {
        TickKeeps(State(), delays[dropped]);
        var now := Read(delays[dropped]);
        IdleInTicks(State());
        if Idle(now, queue[0]) > IDLE_LIMIT {
          DropFront();
          dropped := dropped + 1;
        } else {
          FrontIsIdlest(State());
          return;
        }
      }
    }
  }
}
