/** The thread pool as interleaved steps: each is one stretch a thread runs under the queue's lock,
    or between two of them. Tasks are identified by the order in which they were accepted. */
module PoolSteps {

  type Tid = nat

  datatype Mode = Fixed | Cache

  /** Where a worker is in its loop: about to look at the queue, waiting for notEmpty, holding a task
      it took, or done with a task but not yet counted as free. */
  datatype Worker = Ready | Sleeping | Holding(ticket: nat) | Finished

  datatype Pool = Pool(
    mode: Mode, initial: nat, taskMax: int, maxThreads: int,
    running: bool,
    queue: seq<nat>, taskSize: int,
    workers: map<Tid, Worker>, nextTid: Tid,
    now: int, free: int, uncounted: nat,
    // What happened so far.
    accepted: nat, taken: nat, executed: seq<nat>, late: nat, stopExits: nat)

  datatype Step =
    | Submit | Shutdown | CountStarted
    | Take(t: Tid) | Sleep(t: Tid) | Wake(t: Tid) | IdleExit(t: Tid) | StopExit(t: Tid)
    | Execute(t: Tid) | Return(t: Tid)

  function Crew(n: nat): (w: map<Tid, Worker>)
    ensures forall t: Tid :: t in w <==> t < n
    ensures forall t :: t in w ==> w[t] == Ready
  {
    if n == 0 then map[] else Crew(n - 1)[n - 1 := Ready]
  }

  lemma {:induction false} CrewSize(n: nat)
    ensures |Crew(n).Keys| == n
  {
    if n > 0 {
      CrewSize(n - 1);
      assert Crew(n).Keys == Crew(n - 1).Keys + {n - 1};
    }
  }

  /** The pool once start(n) has filled the thread table; the threads it starts are yet to be counted free. */
  function Started(mode: Mode, n: nat, taskMax: int, maxThreads: int): Pool {
    Pool(mode, n, taskMax, maxThreads, true, [], 0, Crew(n), n, n, 0, n, 0, 0, [], 0, 0)
  }

  predicate Enabled(s: Pool, step: Step) {
    match step
    case Submit => true
    case Shutdown => true
    case CountStarted => s.uncounted > 0
    case Take(t) => t in s.workers && s.workers[t].Ready? && s.taskSize > 0 && s.queue != []
    case Sleep(t) => t in s.workers && s.workers[t].Ready? && s.taskSize == 0 && s.running
    case Wake(t) => t in s.workers && s.workers[t].Sleeping?
    // The queue and the running flag are not looked at again after the timed wait.
    case IdleExit(t) => t in s.workers && s.workers[t].Sleeping? && s.mode.Cache? && s.now > s.initial
    case StopExit(t) => t in s.workers && s.workers[t].Ready? && s.taskSize == 0 && !s.running
    case Execute(t) => t in s.workers && s.workers[t].Holding?
    case Return(t) => t in s.workers && s.workers[t].Finished?
  }

  /** A thread is added when the queue is longer than the number of free threads. */
  predicate Spawns(s: Pool) {
    s.mode.Cache? && s.free >= 0 && |s.queue| > s.free && s.now < s.maxThreads
  }

  function Enqueue(s: Pool): Pool {
    s.(queue := s.queue + [s.accepted], taskSize := s.taskSize + 1, accepted := s.accepted + 1,
       late := if s.running then s.late else s.late + 1)
  }

  function Spawn(s: Pool): Pool {
    s.(workers := s.workers[s.nextTid := Ready], nextTid := s.nextTid + 1, now := s.now + 1, free := s.free + 1)
  }

  function Next(s: Pool, step: Step): Pool
    requires Enabled(s, step)
  {
    match step
    case Submit =>
      if s.taskSize < s.taskMax then
        var q := Enqueue(s);
        if Spawns(q) then Spawn(q) else q
      else s
    case Shutdown => s.(running := false)
    case CountStarted => s.(free := s.free + 1, uncounted := s.uncounted - 1)
    case Take(t) =>
      s.(workers := s.workers[t := Holding(s.queue[0])], queue := s.queue[1..], taskSize := s.taskSize - 1,
         free := s.free - 1, taken := s.taken + 1)
    case Sleep(t) => s.(workers := s.workers[t := Sleeping])
    case Wake(t) => s.(workers := s.workers[t := Ready])
    case IdleExit(t) => s.(workers := s.workers - {t}, now := s.now - 1, free := s.free - 1)
    case StopExit(t) => s.(workers := s.workers - {t}, stopExits := s.stopExits + 1)
    case Execute(t) => s.(workers := s.workers[t := Finished], executed := s.executed + [s.workers[t].ticket])
    case Return(t) => s.(workers := s.workers[t := Ready], free := s.free + 1)
  }

  ghost predicate IsRun(states: seq<Pool>, steps: seq<Step>) {
    && |states| == |steps| + 1
    && states[0] == Started(states[0].mode, states[0].initial, states[0].taskMax, states[0].maxThreads)
    && forall k {:trigger steps[k]} :: 0 <= k < |steps| ==>
      Enabled(states[k], steps[k]) && states[k + 1] == Next(states[k], steps[k])
  }

  // ----- Conservation -----

  ghost predicate InHands(s: Pool, ticket: nat) {
    exists t :: t in s.workers && s.workers[t] == Holding(ticket)
  }

  /** The queue holds the accepted tasks nobody took, in the order accepted. */
  ghost predicate InOrder(s: Pool) {
    && s.taken + |s.queue| == s.accepted && s.taskSize == |s.queue|
    && (forall i :: 0 <= i < |s.queue| ==> s.queue[i] == s.taken + i)
  }

  ghost predicate OneOwner(s: Pool) {
    forall t, u :: t in s.workers && u in s.workers && s.workers[t].Holding? && s.workers[t] == s.workers[u] ==> t == u
  }

  ghost predicate ExecutedOnce(s: Pool) {
    forall i, j :: 0 <= i < j < |s.executed| ==> s.executed[i] != s.executed[j]
  }

  /** Of what was taken, each is either in one worker's hands or was executed, and once. */
  ghost predicate Accounted(s: Pool) {
    && OneOwner(s) && ExecutedOnce(s)
    && (forall k: nat :: InHands(s, k) || k in s.executed <==> k < s.taken)
    && (forall k: nat :: !(InHands(s, k) && k in s.executed))
  }

  lemma HandsMove(s: Pool, s': Pool, t: Tid, w: Worker, k: nat)
    requires OneOwner(s) && t in s.workers && s'.workers == s.workers[t := w]
    ensures InHands(s', k) <==> w == Holding(k) || (InHands(s, k) && s.workers[t] != Holding(k))
  {
    if InHands(s', k) {
      var u :| u in s'.workers && s'.workers[u] == Holding(k);
      if u != t { assert s.workers[u] == Holding(k); }
    }
    if w == Holding(k) { assert s'.workers[t] == Holding(k); }
    if InHands(s, k) && s.workers[t] != Holding(k) {
      var u :| u in s.workers && s.workers[u] == Holding(k);
      assert s'.workers[u] == Holding(k);
    }
  }

  /** Workers without a task may come and go. */
  lemma HandsStay(s: Pool, s': Pool, k: nat)
    requires forall t :: t in s.workers && s.workers[t].Holding? ==> t in s'.workers && s'.workers[t] == s.workers[t]
    requires forall t :: t in s'.workers && s'.workers[t].Holding? ==> t in s.workers && s'.workers[t] == s.workers[t]
    ensures InHands(s', k) <==> InHands(s, k)
  {
    if InHands(s, k) {
      var u :| u in s.workers && s.workers[u] == Holding(k);
      assert s'.workers[u] == Holding(k);
    }
  }

  ghost predicate Conserved(s: Pool) {
    && InOrder(s) && Accounted(s)
    && (forall t :: t in s.workers ==> t < s.nextTid)
  }

  lemma TakeConserves(s: Pool, t: Tid)
    requires Conserved(s) && Enabled(s, Take(t))
    ensures Conserved(Next(s, Take(t)))
  {
    var s' := Next(s, Take(t));
    var ticket := s.queue[0];
    assert !InHands(s, ticket) && ticket !in s.executed;
    forall k: nat ensures InHands(s', k) <==> k == ticket || InHands(s, k) {
      HandsMove(s, s', t, Holding(ticket), k);
    }
    assert OneOwner(s') by {
      assert forall a :: a in s.workers ==> s.workers[a] != Holding(ticket);
    }
    assert forall i :: 0 <= i < |s'.queue| ==> s'.queue[i] == s.queue[i + 1];
  }

  lemma ExecuteConserves(s: Pool, t: Tid)
    requires Conserved(s) && Enabled(s, Execute(t))
    ensures Conserved(Next(s, Execute(t)))
  {
    var s' := Next(s, Execute(t));
    var ticket := s.workers[t].ticket;
    assert InHands(s, ticket);
    forall k: nat ensures InHands(s', k) <==> k != ticket && InHands(s, k) {
      HandsMove(s, s', t, Finished, k);
      if k == ticket && InHands(s, k) { assert s.workers[t] == Holding(k); }
    }
    assert OneOwner(s');
    assert forall k: nat :: k in s'.executed <==> k in s.executed || k == ticket;
  }

  lemma OthersConserve(s: Pool, step: Step)
    requires Conserved(s) && Enabled(s, step) && !step.Take? && !step.Execute?
    ensures Conserved(Next(s, step))
  {
    var s' := Next(s, step);
    forall k: nat ensures InHands(s', k) <==> InHands(s, k) { HandsStay(s, s', k); }
    assert OneOwner(s');
  }

  lemma StepConserves(s: Pool, step: Step)
    requires Conserved(s) && Enabled(s, step)
    ensures Conserved(Next(s, step))
  {
    hide Conserved, Next;
    match step
    case Take(t) => TakeConserves(s, t);
    case Execute(t) => ExecuteConserves(s, t);
    case _ => OthersConserve(s, step);
  }

  lemma {:induction false} RunConserves(states: seq<Pool>, steps: seq<Step>, k: nat)
    requires IsRun(states, steps) && k < |states|
    ensures Conserved(states[k])
  {
    hide Next, Enabled;
    if k == 0 {
      assert forall i: nat :: !InHands(states[0], i);
    } else {
      RunConserves(states, steps, k - 1);
      StepConserves(states[k - 1], steps[k - 1]);
    }
  }

  /** In every interleaving every accepted task is exactly one of queued, in one worker's hands, or
      executed, once. */
  lemma EachTaskOnce(states: seq<Pool>, steps: seq<Step>, k: nat, ticket: nat)
    requires IsRun(states, steps) && k < |states|
    ensures var s := states[k];
      && (ticket < s.accepted <==> ticket in s.queue || InHands(s, ticket) || ticket in s.executed)
      && !(ticket in s.queue && InHands(s, ticket)) && !(ticket in s.queue && ticket in s.executed)
      && !(InHands(s, ticket) && ticket in s.executed)
      && OneOwner(s) && ExecutedOnce(s)
  {
    hide Next, Enabled;
    RunConserves(states, steps, k);
    var s := states[k];
    if s.taken <= ticket < s.accepted {
      assert s.queue[ticket - s.taken] == ticket;
    }
  }

  /** Tasks leave the queue in the order they were accepted: the n-th task taken is the n-th accepted. */
  lemma TakenInOrder(states: seq<Pool>, steps: seq<Step>, k: nat)
    requires IsRun(states, steps) && k < |steps| && steps[k].Take?
    ensures var t := steps[k].t;
      && t in states[k + 1].workers && states[k + 1].workers[t] == Holding(states[k].taken)
      && states[k + 1].taken == states[k].taken + 1
  {
    RunConserves(states, steps, k);
  }

  // ----- Threads and drain -----

  predicate IsFree(w: Worker) {
    w.Ready? || w.Sleeping?
  }

  ghost function Free(s: Pool): set<Tid> {
    set t | t in s.workers && IsFree(s.workers[t])
  }

  /** Counters agree with the table until a thread leaves at shutdown; at that moment, and while no
      task is accepted after shutdown, the queue is empty. */
  ghost predicate Manned(s: Pool) {
    && |s.workers| + s.stopExits == s.now && s.initial <= s.now
    && |Free(s)| + s.stopExits == s.free + s.uncounted
    && (s.stopExits > 0 ==> !s.running)
    && (s.stopExits > 0 && s.late == 0 ==> s.taskSize == 0)
    && s.now <= (if s.maxThreads < s.initial then s.initial else s.maxThreads)
    && s.taskSize <= (if s.taskMax < 0 then 0 else s.taskMax)
  }

  lemma FreeMoves(s: Pool, s': Pool, t: Tid, w: Worker)
    requires t in s.workers && s'.workers == s.workers[t := w]
    ensures |Free(s')| == |Free(s)| + (if IsFree(w) then 1 else 0) - (if IsFree(s.workers[t]) then 1 else 0)
    ensures |s'.workers| == |s.workers|
  {
    assert s'.workers.Keys == s.workers.Keys;
    Sizes(s.workers, s'.workers);
    var before, after := Free(s), Free(s');
    assert forall u :: u != t ==> (u in before <==> u in after);
    assert t in before <==> IsFree(s.workers[t]);
    assert t in after <==> IsFree(w);
    SizeBut(before, after, t);
  }

  lemma Sizes(a: map<Tid, Worker>, b: map<Tid, Worker>)
    ensures |a| == |a.Keys| && |b| == |b.Keys|
  {
  }

  lemma SizeBut(a: set<Tid>, b: set<Tid>, t: Tid)
    requires forall u :: u != t ==> (u in a <==> u in b)
    ensures |a| + (if t in b then 1 else 0) == |b| + (if t in a then 1 else 0)
  {
    assert a - {t} == b - {t};
    assert |a| == |a - {t}| + if t in a then 1 else 0;
    assert |b| == |b - {t}| + if t in b then 1 else 0;
  }

  lemma FreeLeaves(s: Pool, s': Pool, t: Tid)
    requires t in s.workers && IsFree(s.workers[t]) && s'.workers == s.workers - {t}
    ensures |Free(s')| == |Free(s)| - 1 && |s'.workers| == |s.workers| - 1
  {
    assert Free(s') == Free(s) - {t} && t in Free(s);
    assert s'.workers.Keys == s.workers.Keys - {t};
    Sizes(s.workers, s'.workers);
  }

  lemma FreeJoins(s: Pool, s': Pool, t: Tid)
    requires t !in s.workers && s'.workers == s.workers[t := Ready]
    ensures |Free(s')| == |Free(s)| + 1 && |s'.workers| == |s.workers| + 1
  {
    assert Free(s') == Free(s) + {t} && t !in Free(s);
    assert s'.workers.Keys == s.workers.Keys + {t};
    Sizes(s.workers, s'.workers);
  }

  lemma SubmitMans(s: Pool)
    requires Conserved(s) && Manned(s)
    ensures Manned(Next(s, Submit))
  {
    hide Free, Accounted, InOrder;
    if s.taskSize < s.taskMax {
      var q := Enqueue(s);
      SameWorkers(s, q);
      if Spawns(q) { FreeJoins(q, Spawn(q), q.nextTid); }
    }
  }

  lemma StepMans(s: Pool, step: Step)
    requires Conserved(s) && Manned(s) && Enabled(s, step)
    ensures Manned(Next(s, step))
  {
    hide Free, Accounted, InOrder;
    var s' := Next(s, step);
    match step
    case Submit => SubmitMans(s);
    case Shutdown => SameWorkers(s, s');
    case CountStarted => SameWorkers(s, s');
    case Take(t) => FreeMoves(s, s', t, s'.workers[t]);
    case Sleep(t) => FreeMoves(s, s', t, Sleeping);
    case Wake(t) => FreeMoves(s, s', t, Ready);
    case IdleExit(t) => FreeLeaves(s, s', t);
    case StopExit(t) => FreeLeaves(s, s', t);
    case Execute(t) => FreeMoves(s, s', t, Finished);
    case Return(t) => FreeMoves(s, s', t, Ready);
  }

  lemma SameWorkers(s: Pool, s': Pool)
    requires s.workers == s'.workers
    ensures Free(s) == Free(s')
  {
  }

  lemma {:induction false} RunMans(states: seq<Pool>, steps: seq<Step>, k: nat)
    requires IsRun(states, steps) && k < |states|
    ensures Manned(states[k])
  {
    hide Next, Enabled;
    if k == 0 {
      assert Free(states[0]) == states[0].workers.Keys;
      CrewSize(states[0].initial);
      Sizes(states[0].workers, states[0].workers);
    } else {
      RunConserves(states, steps, k - 1);
      RunMans(states, steps, k - 1);
      StepMans(states[k - 1], steps[k - 1]);
    }
  }

  /** When at least one thread was started and nothing was accepted after shutdown began, an empty
      thread table means that every accepted task was executed, once: what the destructor waits for
      drains the queue. */
  lemma DrainedWhenEmpty(states: seq<Pool>, steps: seq<Step>, k: nat)
    requires IsRun(states, steps) && k < |states|
    requires states[0].initial >= 1 && states[k].late == 0 && states[k].workers == map[]
    ensures states[k].queue == [] && forall i :: 0 <= i < states[k].accepted ==> i in states[k].executed
  {
    hide Next, Enabled;
    RunConserves(states, steps, k);
    RunMans(states, steps, k);
    RunInitial(states, steps, k);
  }

  lemma {:induction false} RunInitial(states: seq<Pool>, steps: seq<Step>, k: nat)
    requires IsRun(states, steps) && k < |states|
    ensures states[k].initial == states[0].initial
  {
    if k > 0 {
      RunInitial(states, steps, k - 1);
      assert states[k] == Next(states[k - 1], steps[k - 1]);
    }
  }

  /** Submitting: accepted iff fewer tasks are queued than the limit; and in cache mode a thread joins iff
      the queue, with the new task, is longer than the number of idle threads and fewer threads than
      allowed have joined and not left. */
  lemma SubmitAddsThread(states: seq<Pool>, steps: seq<Step>, k: nat)
    requires IsRun(states, steps) && k < |steps| && steps[k] == Submit && states[k].uncounted == 0
    ensures var s, s' := states[k], states[k + 1];
      var ok := |s.queue| < s.taskMax;
      var idle := |set t | t in s.workers && (s.workers[t].Ready? || s.workers[t].Sleeping?)|;
      && s'.accepted == s.accepted + (if ok then 1 else 0)
      && |s'.workers| == |s.workers| + (if ok && s.mode.Cache? && |s.queue| + 1 > idle + s.stopExits
                                             && |s.workers| + s.stopExits < s.maxThreads then 1 else 0)
  {
    hide Accounted, Enabled;
    RunConserves(states, steps, k);
    RunMans(states, steps, k);
    var s := states[k];
    assert Free(s) == set t | t in s.workers && (s.workers[t].Ready? || s.workers[t].Sleeping?);
    assert states[k + 1] == Next(s, Submit);
    if s.taskSize < s.taskMax && Spawns(Enqueue(s)) { FreeJoins(Enqueue(s), Spawn(Enqueue(s)), s.nextTid); }
  }

  /** A task accepted after shutdown began can be left in the queue with no thread to run it. */
  lemma LateTaskStranded() returns (states: seq<Pool>, steps: seq<Step>)
    ensures IsRun(states, steps) && states[0].initial >= 1
    ensures var s := states[|steps|]; s.workers == map[] && s.queue == [0] && s.late == 1
  {
    var s0 := Started(Fixed, 1, 5, 100);
    assert Crew(0) == map[] && s0.workers == map[0 := Ready];
    var s1 := Next(s0, Shutdown);
    var s2 := Next(s1, StopExit(0));
    assert s2.workers == map[];
    var s3 := Next(s2, Submit);
    states, steps := [s0, s1, s2, s3], [Shutdown, StopExit(0), Submit];
  }

  /** So can any task when no thread was started. */
  lemma NoThreadStranded() returns (states: seq<Pool>, steps: seq<Step>)
    ensures IsRun(states, steps) && states[0].initial == 0
    ensures var s := states[|steps|]; s.workers == map[] && s.queue == [0] && s.late == 0
  {
    var s0 := Started(Fixed, 0, 5, 100);
    states, steps := [s0, Next(s0, Submit)], [Submit];
  }
}

/** The pool as the object it is: one method per stretch under the lock, each doing the step of that name. */
module ThreadPoolClass {
  import opened PoolSteps

  class ThreadPool {
    var mode: Mode
    var initial: nat
    var taskMax: int
    var maxThreads: int
    var running: bool
    var queue: seq<nat>
    var taskSize: int
    var workers: map<Tid, Worker>
    var nextTid: Tid
    var now: int
    var free: int
    var uncounted: nat
    ghost var accepted: nat
    ghost var taken: nat
    ghost var executed: seq<nat>
    ghost var late: nat
    ghost var stopExits: nat

    ghost function State(): Pool
      reads this
    {
      Pool(mode, initial, taskMax, maxThreads, running, queue, taskSize, workers, nextTid, now, free, uncounted,
           accepted, taken, executed, late, stopExits)
    }

    /** Construction followed by start(n), up to the point where its threads run. */
    constructor (mode: Mode, n: nat, taskMax: int, maxThreads: int)
      ensures State() == Started(mode, n, taskMax, maxThreads)
    {
      this.mode, this.taskMax, this.maxThreads := mode, taskMax, maxThreads;
      running, initial, now, queue, taskSize := true, n, n, [], 0;
      var table: map<Tid, Worker> := map[];
      for i := 0 to n
        invariant table == Crew(i)
      {
        table := table[i := Ready];
      }
      workers, nextTid, free, uncounted := table, n, 0, n;
      accepted, taken, executed, late, stopExits := 0, 0, [], 0, 0;
    }

    /** `ticket` numbers the submissions accepted. */
    method SubmitTask(ticket: nat) returns (ok: bool)
      requires ticket == accepted
      modifies this
      ensures State() == Next(old(State()), Submit)
      ensures ok == (old(taskSize) < old(taskMax))
    {
      if taskSize >= taskMax {
        return false;
      }
      AddTask(ticket);
      if mode == Cache && free >= 0 && |queue| > free && now < maxThreads {
        AddThread();
      }
      ok := true;
    }

    method AddTask(ticket: nat)
      requires ticket == accepted
      modifies this
      ensures State() == Enqueue(old(State()))
    {
      queue := queue + [ticket];
      taskSize := taskSize + 1;
      late := if running then late else late + 1;
      accepted := accepted + 1;
    }

    method AddThread()
      modifies this
      ensures State() == Spawn(old(State()))
    {
      workers := workers[nextTid := Ready];
      nextTid, now, free := nextTid + 1, now + 1, free + 1;
    }

    /** start counts one more of the threads it started. */
    method CountOne()
      requires uncounted > 0
      modifies this
      ensures State() == Next(old(State()), CountStarted)
    {
      free, uncounted := free + 1, uncounted - 1;
    }

    method Stop()
      modifies this
      ensures State() == Next(old(State()), Shutdown)
    {
      running := false;
    }

    method TakeTask(t: Tid) returns (task: nat)
      requires Enabled(State(), Take(t))
      modifies this
      ensures State() == Next(old(State()), Take(t)) && task == old(queue)[0]
    {
      free := free - 1;
      task := queue[0];
      queue := queue[1..];
      taskSize := taskSize - 1;
      workers, taken := workers[t := Holding(task)], taken + 1;
    }

    /** One look at an empty queue: leave, or wait. */
    method LookAtEmptyQueue(t: Tid) returns (left: bool)
      requires t in workers && workers[t].Ready? && taskSize == 0
      modifies this
      ensures left == !old(running)
      ensures State() == Next(old(State()), if left then StopExit(t) else Sleep(t))
    {
      if !running {
        workers, stopExits := workers - {t}, stopExits + 1;
        return true;
      }
      workers := workers[t := Sleeping];
      return false;
    }

    /** The wait ends; `idle`: it timed out and the thread has been idle over the limit. */
    method WaitOver(t: Tid, idle: bool) returns (left: bool)
      requires t in workers && workers[t].Sleeping?
      modifies this
      ensures left == (idle && old(mode) == Cache && old(now) > old(initial))
      ensures State() == Next(old(State()), if left then IdleExit(t) else Wake(t))
    {
      if mode == Cache && idle && now > initial {
        workers, now, free := workers - {t}, now - 1, free - 1;
        return true;
      }
      workers := workers[t := Ready];
      return false;
    }

    method ExecuteTask(t: Tid)
      requires Enabled(State(), Execute(t))
      modifies this
      ensures State() == Next(old(State()), Execute(t))
    {
      executed := executed + [workers[t].ticket];
      workers := workers[t := Finished];
    }

    method ReturnToLoop(t: Tid)
      requires Enabled(State(), Return(t))
      modifies this
      ensures State() == Next(old(State()), Return(t))
    {
      workers, free := workers[t := Ready], free + 1;
    }
  }
}
