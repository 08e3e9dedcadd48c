/**
 * The admission logic of gxsync's ConnectionPool: configuration clamping,
 * queue allocation, worker-to-queue binding and non-blocking submission
 * (round robin, then a bounded number of random probes, then "pool busy").
 *
 * Goroutines and channels are abstracted away: a queue is the sequence of
 * tasks buffered in its channel, the random draws of `rand.Intn` are an input
 * sequence `probes`, and whether a worker is blocked receiving on an
 * unbuffered channel is an input flag per queue, `ready`.
 */
module GxSync {
  import opened Wrappers

  const TWO_POW_32: int := 0x1_0000_0000

  /** Go's `uint32`, the type of the task counter. */
  newtype uint32 = x: int | 0 <= x < 0x1_0000_0000

  /** A submitted task: Go's nil func, an opaque user func, or the closure
      SubmitSync builds around the caller's task. */
  datatype Task = Nil | Func(id: nat) | SyncWrapper(inner: Task)

  /** ConnectionPoolConfig without its logger. */
  datatype ConnectionPoolConfig = ConnectionPoolConfig(numWorkers: int, numQueues: int, queueSize: int)

  /** A started worker: the queue it receives from and its id. */
  datatype Worker = Worker(queue: nat, id: nat)

  datatype Error = TaskNilErr | PoolBusyErr

  /** The observable state of a pool: its channels' buffers, their common
      capacity, the round-robin counter and the started workers. */
  datatype PoolState = PoolState(queues: seq<seq<Task>>, queueSize: nat, taskId: uint32, workers: seq<Worker>)

  /** What one Submit does: the error it returns, the queue that took the
      task, how many non-blocking sends it tried, and the state afterwards. */
  datatype SubmitOutcome = SubmitOutcome(err: Option<Error>, target: Option<nat>, attempts: nat, state: PoolState)

  // ---------------------------------------------------------------------
  // Configuration and construction
  // ---------------------------------------------------------------------

  predicate ValidConfig(c: ConnectionPoolConfig)
  {
    c.numWorkers >= 1 && c.numQueues >= 1 && c.queueSize >= 0
  }

  /** Clamps each field to its minimum; values already valid are kept. */
  function Normalize(c: ConnectionPoolConfig): (r: ConnectionPoolConfig)
    ensures ValidConfig(r)
    ensures ValidConfig(c) ==> r == c
    ensures c.numWorkers >= 1 ==> r.numWorkers == c.numWorkers
    ensures c.numQueues >= 1 ==> r.numQueues == c.numQueues
    ensures c.queueSize >= 0 ==> r.queueSize == c.queueSize
    ensures c.numWorkers < 1 ==> r.numWorkers == 1
    ensures c.numQueues < 1 ==> r.numQueues == 1
    ensures c.queueSize < 0 ==> r.queueSize == 0
  {
    var w := if c.numWorkers < 1 then 1 else c.numWorkers;
    var q := if c.numQueues < 1 then 1 else c.numQueues;
    var s := if c.queueSize < 0 then 0 else c.queueSize;
    ConnectionPoolConfig(w, q, s)
  }

  /** The workers `dispatch` starts for `count` workers over `n` queues. */
  function Dispatched(count: nat, n: nat): (ws: seq<Worker>)
    requires n >= 1
    ensures |ws| == count
  {
    if count == 0 then [] else Dispatched(count - 1, n) + [Worker((count - 1) % n, count - 1)]
  }

  /** Worker `i` has id `i` and is bound to queue `i % n`, which exists. */
  lemma {:induction false} DispatchedAt(count: nat, n: nat)
    requires n >= 1
    ensures forall i :: 0 <= i < count ==>
      Dispatched(count, n)[i] == Worker(i % n, i) && Dispatched(count, n)[i].queue < n
  {
    if count > 0 {
      DispatchedAt(count - 1, n);
      assert forall i :: 0 <= i < count - 1 ==> Dispatched(count, n)[i] == Dispatched(count - 1, n)[i];
    }
  }

  /** Number of workers in `ws` bound to queue `q`. */
  function WorkersOn(ws: seq<Worker>, q: nat): nat
  {
    if ws == [] then 0
    else WorkersOn(ws[..|ws| - 1], q) + (if ws[|ws| - 1].queue == q then 1 else 0)
  }

  lemma MulAtLeast(x: int, n: nat)
    requires x >= 1 && n >= 1
    ensures x * n >= n
  {
    assert x * n == (x - 1) * n + n;
  }

  lemma DivModUnique(a: nat, n: nat, d: nat, r: nat)
    requires n >= 1 && r < n && a == d * n + r
    ensures a / n == d && a % n == r
  {
    var q, m := a / n, a % n;
    assert q * n + m == d * n + r;
    assert (q - d) * n == r - m;
    if q > d {
      MulAtLeast(q - d, n);
    } else if q < d {
      MulAtLeast(d - q, n);
    }
  }

  lemma DivModStep(c: nat, n: nat)
    requires n >= 1
    ensures c % n + 1 < n ==> (c + 1) / n == c / n && (c + 1) % n == c % n + 1
    ensures c % n + 1 == n ==> (c + 1) / n == c / n + 1 && (c + 1) % n == 0
  {
    var d, r := c / n, c % n;
    assert c == d * n + r;
    if r + 1 < n {
      DivModUnique(c + 1, n, d, r + 1);
    } else {
      assert c + 1 == (d + 1) * n + 0;
      DivModUnique(c + 1, n, d + 1, 0);
    }
  }

  /** Binding `i % n` gives every queue `count / n` workers, plus one for
      the first `count % n` queues. */
  lemma {:induction false} DispatchedCount(count: nat, n: nat, q: nat)
    requires n >= 1 && q < n
    ensures WorkersOn(Dispatched(count, n), q) == count / n + (if q < count % n then 1 else 0)
  {
    if count > 0 {
      var p := count - 1;
      var ws := Dispatched(count, n);
      var prev := Dispatched(p, n);
      assert ws[..|ws| - 1] == prev;
      assert WorkersOn(ws, q) == WorkersOn(prev, q) + (if p % n == q then 1 else 0);
      DispatchedCount(p, n, q);
      DivModStep(p, n);
    }
  }

  /** Per-queue worker counts differ by at most one. */
  lemma DispatchBalanced(count: nat, n: nat, q1: nat, q2: nat)
    requires n >= 1 && q1 < n && q2 < n
    ensures WorkersOn(Dispatched(count, n), q1) <= WorkersOn(Dispatched(count, n), q2) + 1
  {
    DispatchedCount(count, n, q1);
    DispatchedCount(count, n, q2);
  }

  /** Every buffer is within capacity and every worker is bound to an
      existing queue, of which there is at least one. */
  ghost predicate ValidState(s: PoolState)
  {
    |s.queues| >= 1 &&
    (forall q :: 0 <= q < |s.queues| ==> |s.queues[q]| <= s.queueSize) &&
    (forall i :: 0 <= i < |s.workers| ==> s.workers[i].queue < |s.queues|)
  }

  /** The pool NewConnectionPool returns for `config`. */
  function InitialState(config: ConnectionPoolConfig): (s: PoolState)
    ensures ValidState(s)
    ensures |s.queues| == Normalize(config).numQueues
    ensures forall q :: 0 <= q < |s.queues| ==> s.queues[q] == []
    ensures s.queueSize == Normalize(config).queueSize
    ensures s.taskId == 0
    ensures |s.workers| == Normalize(config).numWorkers
    ensures forall i :: 0 <= i < |s.workers| ==> s.workers[i] == Worker(i % |s.queues|, i)
  {
    var c := Normalize(config);
    DispatchedAt(c.numWorkers as nat, c.numQueues as nat);
    PoolState(seq(c.numQueues, _ => []), c.queueSize as nat, 0, Dispatched(c.numWorkers as nat, c.numQueues as nat))
  }

  /** The pieces NewConnectionPool builds make up InitialState. */
  lemma InitialStateFrom(config: ConnectionPoolConfig, qs: seq<seq<Task>>)
    requires |qs| == Normalize(config).numQueues
    requires forall q :: 0 <= q < |qs| ==> qs[q] == []
    ensures InitialState(config) ==
            PoolState(qs, Normalize(config).queueSize as nat, 0,
                      Dispatched(Normalize(config).numWorkers as nat, |qs|))
  {
    assert qs == seq(Normalize(config).numQueues, _ => []);
  }

  // ---------------------------------------------------------------------
  // Submission
  // ---------------------------------------------------------------------

  /** `atomic.AddUint32(&taskId, 1)`: wraps to 0 after 2^32 - 1. */
  function Inc(x: uint32): (r: uint32)
    ensures r as int == (x as int + 1) % TWO_POW_32
  {
    if x == 0xFFFF_FFFF then 0 else x + 1
  }

  /** `int(taskId) % len(taskQueues)` with Go's 64-bit `int`. */
  function RoundRobin(id: uint32, n: nat): (q: nat)
    requires n >= 1
    ensures q < n
  {
    id as int % n
  }

  /** Successive counter values pick successive queues, cyclically, until
      the counter wraps around. */
  lemma RoundRobinAdvances(id: uint32, n: nat)
    requires n >= 1 && id < 0xFFFF_FFFF
    ensures RoundRobin(Inc(id), n) == if RoundRobin(id, n) + 1 == n then 0 else RoundRobin(id, n) + 1
  {
    DivModStep(id as nat, n);
  }

  /** The inputs a Submit draws on: one readiness flag per queue and the
      `len(taskQueues)/2` values `rand.Intn(len(taskQueues))` would return. */
  predicate SubmitInputs(s: PoolState, ready: seq<bool>, probes: seq<nat>)
  {
    |ready| == |s.queues| && |probes| == |s.queues| / 2 &&
    forall i :: 0 <= i < |probes| ==> probes[i] < |s.queues|
  }

  /** Some started worker receives from queue `q`. */
  function HasWorker(s: PoolState, q: nat): (b: bool)
    ensures b ==> |s.workers| >= 1
    ensures b && ValidState(s) ==> q < |s.queues|
  {
    exists i :: 0 <= i < |s.workers| && s.workers[i].queue == q
  }

  /** A non-blocking send on queue `q` succeeds: a buffered channel has room,
      an unbuffered one has a worker of its own blocked receiving. */
  predicate Open(s: PoolState, ready: seq<bool>, q: nat)
    requires q < |s.queues| && |ready| == |s.queues|
  {
    if s.queueSize == 0 then ready[q] && HasWorker(s, q) else |s.queues[q]| < s.queueSize
  }

  /** In a new pool, queue `q` has a worker exactly when `q` is below the
      worker count, so with unbuffered queues and fewer workers than
      queues, a send on a higher queue never succeeds. */
  lemma UnboundQueueRefuses(config: ConnectionPoolConfig, ready: seq<bool>, q: nat)
    requires q < Normalize(config).numQueues && |ready| == Normalize(config).numQueues
    ensures var s := InitialState(config);
            HasWorker(s, q) <==> q < |s.workers|
    ensures var s := InitialState(config);
            s.queueSize == 0 && q >= |s.workers| ==> !Open(s, ready, q)
  {
    var s := InitialState(config);
    var n := |s.queues|;
    if q < |s.workers| {
      DivModUnique(q, n, 0, q);
      assert s.workers[q].queue == q;
    } else {
      forall i | 0 <= i < |s.workers|
        ensures s.workers[i].queue != q
      {
        if i < n {
          DivModUnique(i, n, 0, i);
        }
      }
    }
  }

  /** The buffers after a successful send of `t` on queue `q`; a send on an
      unbuffered channel hands `t` straight to the receiver. */
  function Push(s: PoolState, q: nat, t: Task): (qs: seq<seq<Task>>)
    requires q < |s.queues|
    ensures |qs| == |s.queues|
    ensures qs[q] == if s.queueSize == 0 then s.queues[q] else s.queues[q] + [t]
    ensures forall i :: 0 <= i < |s.queues| && i != q ==> qs[i] == s.queues[i]
  {
    if s.queueSize == 0 then s.queues else s.queues[q := s.queues[q] + [t]]
  }

  /** A send that succeeds never overfills a buffer, and a buffered queue
      refuses only when it is full. */
  lemma OpenRespectsCapacity(s: PoolState, ready: seq<bool>, q: nat, t: Task)
    requires ValidState(s) && q < |s.queues| && |ready| == |s.queues|
    ensures Open(s, ready, q) ==> ValidState(s.(queues := Push(s, q, t)))
    ensures s.queueSize >= 1 && !Open(s, ready, q) ==> |s.queues[q]| == s.queueSize
    ensures s.queueSize >= 1 && |s.queues[q]| < s.queueSize ==> Open(s, ready, q)
  {
  }

  /** The at most `1 + n/2` queues a non-nil Submit tries, in order: the
      round-robin target for the incremented counter, then the random
      probes. Submit stops at the first that accepts. */
  function Attempts(s: PoolState, probes: seq<nat>): (order: seq<nat>)
    requires |s.queues| >= 1
    ensures |order| == 1 + |probes|
    ensures order[0] == RoundRobin(Inc(s.taskId), |s.queues|)
    ensures forall j :: 0 <= j < |probes| ==> order[j + 1] == probes[j]
  {
    [RoundRobin(Inc(s.taskId), |s.queues|)] + probes
  }

  /** The position in `order` of the first queue that accepts a send. */
  function FirstOpen(s: PoolState, ready: seq<bool>, order: seq<nat>): (k: Option<nat>)
    requires |ready| == |s.queues|
    requires forall i :: 0 <= i < |order| ==> order[i] < |s.queues|
    ensures k.Some? ==> k.value < |order| && Open(s, ready, order[k.value])
    ensures k.Some? ==> forall j :: 0 <= j < k.value ==> !Open(s, ready, order[j])
    ensures k.None? ==> forall j :: 0 <= j < |order| ==> !Open(s, ready, order[j])
    decreases |order|
  {
    if order == [] then None
    else if Open(s, ready, order[0]) then Some(0)
    else match FirstOpen(s, ready, order[1..])
      case Some(k) => Some(k + 1)
      case None => None
  }

  /** One call of ConnectionPool.Submit on pool state `s`. */
  function SubmitSpec(s: PoolState, t: Task, ready: seq<bool>, probes: seq<nat>): (o: SubmitOutcome)
    requires ValidState(s) && SubmitInputs(s, ready, probes)
    ensures ValidState(o.state)
    ensures o.state.workers == s.workers && o.state.queueSize == s.queueSize
    ensures |o.state.queues| == |s.queues|
    ensures t.Nil? <==> o.err == Some(TaskNilErr)
    ensures o.err.None? <==> o.target.Some?
  {
    if t.Nil? then SubmitOutcome(Some(TaskNilErr), None, 0, s)
    else
      var order := Attempts(s, probes);
      var s1 := s.(taskId := Inc(s.taskId));
      match FirstOpen(s, ready, order)
      case Some(k) => SubmitOutcome(None, Some(order[k]), k + 1, s1.(queues := Push(s, order[k], t)))
      case None => SubmitOutcome(Some(PoolBusyErr), None, |order|, s1)
  }

  /** A nil task is refused before the counter or any queue changes. */
  lemma SubmitRejectsNil(s: PoolState, ready: seq<bool>, probes: seq<nat>)
    requires ValidState(s) && SubmitInputs(s, ready, probes)
    ensures SubmitSpec(s, Nil, ready, probes) == SubmitOutcome(Some(TaskNilErr), None, 0, s)
  {
  }

  /** A non-nil task moves the counter exactly once, whatever the outcome,
      tries the round-robin queue of the new counter first and makes at
      most `1 + n/2` attempts, so a single queue gets no random probe. */
  lemma SubmitAdvancesCounter(s: PoolState, t: Task, ready: seq<bool>, probes: seq<nat>)
    requires ValidState(s) && SubmitInputs(s, ready, probes) && !t.Nil?
    ensures var o := SubmitSpec(s, t, ready, probes);
            o.state.taskId == Inc(s.taskId) &&
            1 <= o.attempts <= 1 + |s.queues| / 2 &&
            (|s.queues| == 1 ==> o.attempts == 1)
    ensures var first := RoundRobin(Inc(s.taskId), |s.queues|);
            Open(s, ready, first) ==>
            SubmitSpec(s, t, ready, probes).target == Some(first) &&
            SubmitSpec(s, t, ready, probes).attempts == 1
  {
  }

  /** On success the first accepting queue of the attempt order takes the
      task at its tail and every other queue is unchanged. */
  lemma SubmitAdmits(s: PoolState, t: Task, ready: seq<bool>, probes: seq<nat>)
    requires ValidState(s) && SubmitInputs(s, ready, probes)
    requires SubmitSpec(s, t, ready, probes).err.None?
    ensures var o := SubmitSpec(s, t, ready, probes);
      var q := o.target.value;
      q < |s.queues| && Open(s, ready, q) &&
      q == Attempts(s, probes)[o.attempts - 1] &&
      (forall j :: 0 <= j < o.attempts - 1 ==> !Open(s, ready, Attempts(s, probes)[j])) &&
      o.state.queues[q] == (if s.queueSize == 0 then s.queues[q] else s.queues[q] + [t]) &&
      (forall i :: 0 <= i < |s.queues| && i != q ==> o.state.queues[i] == s.queues[i])
  {
  }

  /** Busy is reported only when the round-robin queue and every probed
      queue refused, and then no queue changes. */
  lemma SubmitBusy(s: PoolState, t: Task, ready: seq<bool>, probes: seq<nat>)
    requires ValidState(s) && SubmitInputs(s, ready, probes)
    requires SubmitSpec(s, t, ready, probes).err == Some(PoolBusyErr)
    ensures var o := SubmitSpec(s, t, ready, probes);
      o.state.queues == s.queues && o.attempts == 1 + |s.queues| / 2 &&
      forall j :: 0 <= j < |Attempts(s, probes)| ==> !Open(s, ready, Attempts(s, probes)[j])
  {
  }

  /** SubmitSpec when the round-robin queue takes the task. */
  lemma SubmitSpecFirst(s: PoolState, t: Task, ready: seq<bool>, probes: seq<nat>)
    requires ValidState(s) && SubmitInputs(s, ready, probes) && !t.Nil?
    requires Open(s, ready, RoundRobin(Inc(s.taskId), |s.queues|))
    ensures var first := RoundRobin(Inc(s.taskId), |s.queues|);
            SubmitSpec(s, t, ready, probes) ==
            SubmitOutcome(None, Some(first), 1, s.(taskId := Inc(s.taskId), queues := Push(s, first, t)))
  {
  }

  /** FirstOpen finds the first position whose queue accepts. */
  lemma FirstOpenAt(s: PoolState, ready: seq<bool>, order: seq<nat>, k: nat)
    requires |ready| == |s.queues|
    requires forall i :: 0 <= i < |order| ==> order[i] < |s.queues|
    requires k < |order| && Open(s, ready, order[k])
    requires forall j :: 0 <= j < k ==> !Open(s, ready, order[j])
    ensures FirstOpen(s, ready, order) == Some(k)
  {
  }

  /** SubmitSpec when the probe at position `i` is the first to succeed. */
  lemma SubmitSpecProbe(s: PoolState, t: Task, ready: seq<bool>, probes: seq<nat>, i: nat)
    requires ValidState(s) && SubmitInputs(s, ready, probes) && !t.Nil?
    requires !Open(s, ready, RoundRobin(Inc(s.taskId), |s.queues|))
    requires i < |probes| && Open(s, ready, probes[i])
    requires forall j :: 0 <= j < i ==> !Open(s, ready, probes[j])
    ensures SubmitSpec(s, t, ready, probes) ==
            SubmitOutcome(None, Some(probes[i]), i + 2,
                          s.(taskId := Inc(s.taskId), queues := Push(s, probes[i], t)))
  {
    var order := Attempts(s, probes);
    forall j | 0 <= j < i + 1
      ensures !Open(s, ready, order[j])
    {
      if j > 0 {
        assert order[j] == probes[j - 1];
      }
    }
    FirstOpenAt(s, ready, order, i + 1);
  }

  /** SubmitSpec when no attempt succeeds. */
  lemma SubmitSpecRefuses(s: PoolState, t: Task, ready: seq<bool>, probes: seq<nat>)
    requires ValidState(s) && SubmitInputs(s, ready, probes) && !t.Nil?
    requires !Open(s, ready, RoundRobin(Inc(s.taskId), |s.queues|))
    requires forall j :: 0 <= j < |probes| ==> !Open(s, ready, probes[j])
    ensures SubmitSpec(s, t, ready, probes) ==
            SubmitOutcome(Some(PoolBusyErr), None, 1 + |probes|, s.(taskId := Inc(s.taskId)))
  {
    var order := Attempts(s, probes);
    assert forall j :: 0 <= j < |order| ==> !Open(s, ready, order[j]);
  }

  /** A buffered pool whose every queue is full refuses any non-nil task,
      whatever queues the random probes pick. */
  lemma FullPoolIsBusy(s: PoolState, t: Task, ready: seq<bool>, probes: seq<nat>)
    requires ValidState(s) && SubmitInputs(s, ready, probes) && !t.Nil? && s.queueSize >= 1
    requires forall q :: 0 <= q < |s.queues| ==> |s.queues[q]| == s.queueSize
    ensures SubmitSpec(s, t, ready, probes) ==
            SubmitOutcome(Some(PoolBusyErr), None, 1 + |s.queues| / 2, s.(taskId := Inc(s.taskId)))
  {
    SubmitSpecRefuses(s, t, ready, probes);
  }

  /** A submission whose round-robin queue is empty, in a pool of capacity
      one, fills that queue with the task. */
  lemma SubmitIntoEmptyQueue(s: PoolState, t: Task, ready: seq<bool>, probes: seq<nat>, q: nat)
    requires ValidState(s) && SubmitInputs(s, ready, probes) && !t.Nil? && s.queueSize == 1
    requires q == RoundRobin(Inc(s.taskId), |s.queues|) && s.queues[q] == []
    ensures ValidState(s.(taskId := Inc(s.taskId), queues := s.queues[q := [t]]))
    ensures SubmitSpec(s, t, ready, probes) ==
            SubmitOutcome(None, Some(q), 1, s.(taskId := Inc(s.taskId), queues := s.queues[q := [t]]))
  {
    SubmitSpecFirst(s, t, ready, probes);
    assert s.queues[q] + [t] == [t];
  }

  /** The pool of four workers and four queues of capacity one: the first
      two submissions land in queues 1 and 2. */
  lemma FourQueuesFirstTwo(s0: PoolState, t1: Task, t2: Task, ready: seq<bool>, p1: seq<nat>, p2: seq<nat>)
    requires s0 == InitialState(ConnectionPoolConfig(4, 4, 1))
    requires !t1.Nil? && !t2.Nil? && SubmitInputs(s0, ready, p1) && SubmitInputs(s0, ready, p2)
    ensures var s1 := s0.(taskId := 1, queues := [[], [t1], [], []]);
            var s2 := s0.(taskId := 2, queues := [[], [t1], [t2], []]);
            ValidState(s1) && ValidState(s2) &&
            SubmitSpec(s0, t1, ready, p1) == SubmitOutcome(None, Some(1), 1, s1) &&
            SubmitSpec(s1, t2, ready, p2) == SubmitOutcome(None, Some(2), 1, s2)
  {
    InitialStateFrom(ConnectionPoolConfig(4, 4, 1), [[], [], [], []]);
    var s1 := s0.(taskId := 1, queues := [[], [t1], [], []]);
    var s2 := s0.(taskId := 2, queues := [[], [t1], [t2], []]);
    assert ValidState(s0) && s0.queues == [[], [], [], []];
    SubmitIntoEmptyQueue(s0, t1, ready, p1, 1);
    assert s0.queues[1 := [t1]] == s1.queues;
    SubmitIntoEmptyQueue(s1, t2, ready, p2, 2);
    assert s1.queues[2 := [t2]] == s2.queues;
  }

  /** The next two land in queues 3 and 0, filling every queue. */
  lemma FourQueuesNextTwo(s0: PoolState, t1: Task, t2: Task, t3: Task, t4: Task,
                          ready: seq<bool>, p3: seq<nat>, p4: seq<nat>)
    requires s0 == InitialState(ConnectionPoolConfig(4, 4, 1))
    requires !t3.Nil? && !t4.Nil? && SubmitInputs(s0, ready, p3) && SubmitInputs(s0, ready, p4)
    requires ValidState(s0.(taskId := 2, queues := [[], [t1], [t2], []]))
    ensures var s2 := s0.(taskId := 2, queues := [[], [t1], [t2], []]);
            var s3 := s0.(taskId := 3, queues := [[], [t1], [t2], [t3]]);
            var s4 := s0.(taskId := 4, queues := [[t4], [t1], [t2], [t3]]);
            ValidState(s3) && ValidState(s4) &&
            SubmitSpec(s2, t3, ready, p3) == SubmitOutcome(None, Some(3), 1, s3) &&
            SubmitSpec(s3, t4, ready, p4) == SubmitOutcome(None, Some(0), 1, s4)
  {
    var s2 := s0.(taskId := 2, queues := [[], [t1], [t2], []]);
    var s3 := s0.(taskId := 3, queues := [[], [t1], [t2], [t3]]);
    var s4 := s0.(taskId := 4, queues := [[t4], [t1], [t2], [t3]]);
    SubmitIntoEmptyQueue(s2, t3, ready, p3, 3);
    assert s2.queues[3 := [t3]] == s3.queues;
    SubmitIntoEmptyQueue(s3, t4, ready, p4, 0);
    assert s3.queues[0 := [t4]] == s4.queues;
  }

  /** Four back-to-back submissions land one per queue in round-robin order
      starting at queue 1. */
  lemma FourQueuesFill(s0: PoolState, t1: Task, t2: Task, t3: Task, t4: Task,
                       ready: seq<bool>, p1: seq<nat>, p2: seq<nat>, p3: seq<nat>, p4: seq<nat>)
    requires s0 == InitialState(ConnectionPoolConfig(4, 4, 1))
    requires !t1.Nil? && !t2.Nil? && !t3.Nil? && !t4.Nil?
    requires SubmitInputs(s0, ready, p1) && SubmitInputs(s0, ready, p2) && SubmitInputs(s0, ready, p3)
    requires SubmitInputs(s0, ready, p4)
    ensures var s1 := s0.(taskId := 1, queues := [[], [t1], [], []]);
            var s2 := s0.(taskId := 2, queues := [[], [t1], [t2], []]);
            var s3 := s0.(taskId := 3, queues := [[], [t1], [t2], [t3]]);
            var s4 := s0.(taskId := 4, queues := [[t4], [t1], [t2], [t3]]);
            ValidState(s1) && ValidState(s2) && ValidState(s3) && ValidState(s4) &&
            SubmitSpec(s0, t1, ready, p1) == SubmitOutcome(None, Some(1), 1, s1) &&
            SubmitSpec(s1, t2, ready, p2) == SubmitOutcome(None, Some(2), 1, s2) &&
            SubmitSpec(s2, t3, ready, p3) == SubmitOutcome(None, Some(3), 1, s3) &&
            SubmitSpec(s3, t4, ready, p4) == SubmitOutcome(None, Some(0), 1, s4)
  {
    FourQueuesFirstTwo(s0, t1, t2, ready, p1, p2);
    FourQueuesNextTwo(s0, t1, t2, t3, t4, ready, p3, p4);
  }

  /** The same pool after those four submissions refuses a fifth whatever
      the random probes are. */
  lemma FourQueuesScenario(s0: PoolState, t1: Task, t2: Task, t3: Task, t4: Task, t5: Task,
                           ready: seq<bool>, p1: seq<nat>, p2: seq<nat>, p3: seq<nat>, p4: seq<nat>, p5: seq<nat>)
    requires s0 == InitialState(ConnectionPoolConfig(4, 4, 1))
    requires !t1.Nil? && !t2.Nil? && !t3.Nil? && !t4.Nil? && !t5.Nil?
    requires SubmitInputs(s0, ready, p1) && SubmitInputs(s0, ready, p2) && SubmitInputs(s0, ready, p3)
    requires SubmitInputs(s0, ready, p4) && SubmitInputs(s0, ready, p5)
    ensures var s4 := s0.(taskId := 4, queues := [[t4], [t1], [t2], [t3]]);
            ValidState(s4) &&
            SubmitSpec(s4, t5, ready, p5) == SubmitOutcome(Some(PoolBusyErr), None, 3, s4.(taskId := 5))
  {
    FourQueuesFill(s0, t1, t2, t3, t4, ready, p1, p2, p3, p4);
    var s4 := s0.(taskId := 4, queues := [[t4], [t1], [t2], [t3]]);
    FullPoolIsBusy(s4, t5, ready, p5);
  }

  // ---------------------------------------------------------------------
  // The 32-bit `int` conversion in the round-robin index
  // ---------------------------------------------------------------------

  /** Go's `int(x)` for a `uint32` where `int` is 32 bits wide. */
  function Int32Of(x: uint32): (r: int)
    ensures -0x8000_0000 <= r < 0x8000_0000
    ensures (r - x as int) % TWO_POW_32 == 0
  {
    if x < 0x8000_0000 then x as int else x as int - TWO_POW_32
  }

  /** Go's `%`, which truncates toward zero. */
  function GoRem(a: int, n: int): (r: int)
    requires n >= 1
    ensures a >= 0 ==> r == a % n && 0 <= r < n
    ensures a < 0 ==> -n < r <= 0
  {
    if a >= 0 then a % n else -((-a) % n)
  }

  /** Go's `%` is odd in its dividend: `(-a) % n == -(a % n)`. */
  lemma GoRemNegate(a: int, n: int)
    requires n >= 1
    ensures GoRem(-a, n) == -GoRem(a, n)
  {
  }

  /** The round-robin index as the source computes it, `int(taskId) % n`,
      on a platform with a 32-bit `int`: it
      agrees with RoundRobin below 2^31 and is only bounded in magnitude
      above. */
  function RoundRobinIndex32(id: uint32, n: nat): (r: int)
    requires n >= 1
    ensures -(n as int) < r < n
    ensures id < 0x8000_0000 ==> r == RoundRobin(id, n)
  {
    GoRem(Int32Of(id), n)
  }

  /** Once the counter passes 2^31 the index is never positive, and for three
      queues the 2^31-th task computes index -2, out of range. */
  lemma RoundRobinIndex32Negative(id: uint32, n: nat)
    requires id >= 0x8000_0000 && n >= 1
    ensures RoundRobinIndex32(id, n) <= 0
    ensures RoundRobinIndex32(0x8000_0000, 3) == -2
  {
  }

  /** With a 64-bit `int` the index as written is RoundRobin, always in range. */
  lemma RoundRobinIndex64Agrees(id: uint32, n: nat)
    requires n >= 1
    ensures GoRem(id as int, n) == RoundRobin(id, n)
    ensures 0 <= GoRem(id as int, n) < n
  {
  }

  // ---------------------------------------------------------------------
  // The pool object
  // ---------------------------------------------------------------------

  /** ConnectionPool with its base pool's queues, counter and workers. */
  class ConnectionPool {
    var queues: seq<seq<Task>>
    var queueSize: nat
    var taskId: uint32
    var workers: seq<Worker>

    function State(): PoolState
      reads this
    {
      PoolState(queues, queueSize, taskId, workers)
    }

    ghost predicate Valid()
      reads this
    {
      ValidState(State())
    }

    /** NewConnectionPool: clamp the configuration, allocate the queues,
        start the workers. */
    constructor (config: ConnectionPoolConfig)
      ensures Valid()
      ensures State() == InitialState(config)
    {
      var c := Normalize(config);
      var qs: seq<seq<Task>> := [];
      var i := 0;
      while i < c.numQueues
        invariant 0 <= i <= c.numQueues
        invariant |qs| == i
        invariant forall q :: 0 <= q < i ==> qs[q] == []
      {
        qs := qs + [[]];
        i := i + 1;
      }
      InitialStateFrom(config, qs);
      queues := qs;
      queueSize := c.queueSize as nat;
      taskId := 0;
      workers := [];
      new;
      Dispatch(c.numWorkers);
    }

    /** Starts `numWorkers` workers, worker `i` on queue `i % len(queues)`. */
    method Dispatch(numWorkers: int)
      requires |queues| >= 1
      modifies this`workers
      ensures workers == old(workers) + Dispatched(if numWorkers < 0 then 0 else numWorkers, |queues|)
    {
      var i := 0;
      while i < numWorkers
        invariant 0 <= i <= if numWorkers < 0 then 0 else numWorkers
        invariant workers == old(workers) + Dispatched(i, |queues|)
      {
        // start worker `i` on queue `i % n`
        workers := workers + [Worker(i % |queues|, i)];
        i := i + 1;
      }
    }

    /** Submit: refuse nil, bump the counter, try the round-robin queue,
        then up to `len(queues)/2` random queues, else report busy. */
    method Submit(t: Task, ready: seq<bool>, probes: seq<nat>) returns (err: Option<Error>)
      requires Valid() && SubmitInputs(State(), ready, probes)
      modifies this`queues, this`taskId
      ensures err == SubmitSpec(old(State()), t, ready, probes).err
      ensures State() == SubmitSpec(old(State()), t, ready, probes).state
      ensures Valid()
    {
      if t.Nil? {
        return Some(TaskNilErr);
      }
      var s := State();
      taskId := Inc(taskId);
      var n := |queues|;
      var first := RoundRobin(taskId, n);
      if Open(s, ready, first) {
        SubmitSpecFirst(s, t, ready, probes);
        queues := Push(s, first, t);
        return None;
      }
      var i := 0;
      while i < n / 2
        invariant 0 <= i <= n / 2
        invariant queues == s.queues && taskId == Inc(s.taskId)
        invariant forall j :: 0 <= j < i ==> !Open(s, ready, probes[j])
      {
        var q := probes[i];
        if Open(s, ready, q) {
          SubmitSpecProbe(s, t, ready, probes, i);
          queues := Push(s, q, t);
          return None;
        }
        i := i + 1;
      }
      SubmitSpecRefuses(s, t, ready, probes);
      return Some(PoolBusyErr);
    }

    /** SubmitSync's admission: the wrapped task is never nil, and Submit's
        error is passed through. The wait for completion is not modelled. */
    method SubmitSync(t: Task, ready: seq<bool>, probes: seq<nat>) returns (err: Option<Error>)
      requires Valid() && SubmitInputs(State(), ready, probes)
      modifies this`queues, this`taskId
      ensures err == SubmitSpec(old(State()), SyncWrapper(t), ready, probes).err
      ensures State() == SubmitSpec(old(State()), SyncWrapper(t), ready, probes).state
      ensures Valid()
      ensures err != Some(TaskNilErr) && taskId == Inc(old(taskId))
    {
      err := Submit(SyncWrapper(t), ready, probes);
    }
  }
}
