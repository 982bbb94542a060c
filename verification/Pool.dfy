/** The bounded worker pool of one probe round, as a timed transition system. */
module Pool {
  import opened Types

  /** One target: whether its pods claim to serve, its start time, the outcome recorded
      without probing and the answer a probe of it gets. */
  datatype Job = Job(ready: bool, at: Time, skipped: Verification, answer: Verification)

  function Expected(j: Job): Verification {
    if j.ready then j.answer else j.skipped
  }

  /** A pool: jobs in dispatch order, the number of workers, when the round starts, the
      width of the start window and the longest a probe takes. */
  datatype Setup = Setup(jobs: seq<Job>, workers: nat, start: Time, jitter: nat, limit: nat)

  ghost predicate WellFormed(c: Setup) {
    && (c.jobs != [] ==> c.workers > 0)
    && forall j <- c.jobs :: c.start <= j.at <= c.start + c.jitter
  }

  datatype Worker =
    | Idle
    | Holding(i: nat)
    | Probing(i: nat, since: Time)
    | Exited

  predicate Busy(w: Worker) { w.Holding? || w.Probing? }

  datatype PoolState = PoolState(
    clock: Time,
    next: nat,
    closed: bool,
    workers: seq<Worker>,
    results: seq<Option<Verification>>,
    written: seq<nat>)

  datatype PoolStep =
    | Receive(w: nat)
    | Skip(w: nat)
    | Begin(w: nat)
    | Finish(w: nat)
    | Close
    | Exit(w: nat)
    | Wait(until: Time)

  function Init(c: Setup): PoolState {
    PoolState(c.start, 0, false, seq(c.workers, _ => Idle), seq(|c.jobs|, _ => None), [])
  }

  predicate Done(s: PoolState) {
    s.closed && forall w <- s.workers :: w == Exited
  }

  // ----- steps -----

  predicate At(s: PoolState, w: nat) { w < |s.workers| }

  /** Nothing can happen without time passing: no idle worker while the channel has work
      or is closed, no worker holding a job it could start, nothing left to close. */
  predicate Quiet(c: Setup, s: PoolState) {
    && (s.next == |c.jobs| ==> s.closed)
    && (forall w <- s.workers :: w != Idle)
    && (forall w <- s.workers :: w.Holding? && w.i < |c.jobs| ==> c.jobs[w.i].ready && s.clock < c.jobs[w.i].at)
  }

  /** Sleepers wake at their start time; a probe returns within its limit. */
  predicate MayReach(c: Setup, s: PoolState, t: Time) {
    && (forall w <- s.workers :: w.Holding? && w.i < |c.jobs| ==> t <= c.jobs[w.i].at)
    && (forall w <- s.workers :: w.Probing? ==> t <= w.since + c.limit)
  }

  predicate Allowed(c: Setup, s: PoolState, step: PoolStep) {
    match step
    case Receive(w) => At(s, w) && s.workers[w].Idle? && s.next < |c.jobs|
    case Skip(w) => At(s, w) && s.workers[w].Holding? && s.workers[w].i < |c.jobs| && !c.jobs[s.workers[w].i].ready
    case Begin(w) =>
      && At(s, w) && s.workers[w].Holding? && s.workers[w].i < |c.jobs|
      && c.jobs[s.workers[w].i].ready && c.jobs[s.workers[w].i].at <= s.clock
    case Finish(w) => At(s, w) && s.workers[w].Probing? && s.workers[w].i < |c.jobs|
    case Close => s.next == |c.jobs| && !s.closed
    case Exit(w) => At(s, w) && s.workers[w].Idle? && s.closed
    case Wait(t) => s.clock < t
  }

  /** No time passes while a worker can act, and none past the end of a sleep or the limit
      of a probe. Only the deadlines below ask this of a schedule. */
  predicate Eager(c: Setup, s: PoolState, step: PoolStep) {
    step.Wait? ==> Quiet(c, s) && MayReach(c, s, step.until) && exists w <- s.workers :: Busy(w)
  }

  predicate EagerlyAllowed(c: Setup, s: PoolState, step: PoolStep) {
    Allowed(c, s, step) && Eager(c, s, step)
  }

  function Do(c: Setup, s: PoolState, step: PoolStep): PoolState
    requires Allowed(c, s, step)
  {
    match step
    case Receive(w) => s.(workers := s.workers[w := Holding(s.next)], next := s.next + 1)
    case Skip(w) => Write(s, w, c.jobs[s.workers[w].i].skipped)
    case Begin(w) => s.(workers := s.workers[w := Probing(s.workers[w].i, s.clock)])
    case Finish(w) => Write(s, w, c.jobs[s.workers[w].i].answer)
    case Close => s.(closed := true)
    case Exit(w) => s.(workers := s.workers[w := Exited])
    case Wait(t) => s.(clock := t)
  }

  /** Worker w stores its outcome at the index it received and goes back to the channel. */
  function Write(s: PoolState, w: nat, v: Verification): PoolState
    requires At(s, w) && Busy(s.workers[w])
  {
    var i := s.workers[w].i;
    s.(workers := s.workers[w := Idle],
       results := if i < |s.results| then s.results[i := Some(v)] else s.results,
       written := s.written + [i])
  }

  // ----- what every reachable state satisfies -----

  ghost predicate Shape(c: Setup, s: PoolState) {
    && |s.workers| == c.workers && |s.results| == |c.jobs|
    && s.next <= |c.jobs|
    && (s.closed ==> s.next == |c.jobs|)
    && (forall w <- s.workers :: Busy(w) ==> w.i < s.next)
    && (forall w <- s.workers :: w.Exited? ==> s.closed)
    && (forall w <- s.workers :: w.Probing? ==> c.jobs[w.i].ready)
  }

  ghost predicate Exclusive(s: PoolState) {
    forall v, w :: 0 <= v < w < |s.workers| && Busy(s.workers[v]) && Busy(s.workers[w]) ==>
      s.workers[v].i != s.workers[w].i
  }

  ghost predicate Held(s: PoolState, i: nat) {
    exists w <- s.workers :: Busy(w) && w.i == i
  }

  /** A dispatched index is held by a worker or written, with its own outcome; no index
      is written twice. */
  ghost predicate Bookkeeping(c: Setup, s: PoolState) {
    && |s.results| == |c.jobs| && s.next <= |c.jobs|
    && (forall i :: 0 <= i < |c.jobs| ==>
          (s.results[i].Some? <==> i < s.next && !Held(s, i)))
    && (forall i :: 0 <= i < |c.jobs| && s.results[i].Some? ==> s.results[i].value == Expected(c.jobs[i]))
    && (forall i, j :: 0 <= i < j < |s.written| ==> s.written[i] != s.written[j])
    && (forall i: nat :: i in s.written <==> i < |c.jobs| && s.results[i].Some?)
  }

  // ----- deadlines -----

  /** Which wave of the pool an index belongs to. */
  function Wave(i: nat, workers: nat): nat
    requires workers > 0
  {
    if i < workers then 0 else 1 + Wave(i - workers, workers)
  }

  /** The latest moment job i starts. */
  function Latest(c: Setup, i: nat): Time
    requires c.workers > 0
  {
    c.start + c.jitter + Wave(i, c.workers) * c.limit
  }

  function End(c: Setup): Time
    requires c.jobs != [] ==> c.workers > 0
  {
    if c.jobs == [] then c.start else Latest(c, |c.jobs| - 1) + c.limit
  }

  ghost predicate WorkerOnTime(c: Setup, clock: Time, w: Worker)
    requires c.workers > 0
  {
    && (w.Holding? ==> clock <= Latest(c, w.i))
    && (w.Probing? ==> w.since <= Latest(c, w.i) && clock <= w.since + c.limit)
  }

  ghost predicate OnTime(c: Setup, s: PoolState)
    requires c.jobs != [] ==> c.workers > 0
  {
    && s.clock <= End(c)
    && (c.workers > 0 ==>
          && (s.next < |c.jobs| ==> s.clock <= Latest(c, s.next))
          && (forall w <- s.workers :: WorkerOnTime(c, s.clock, w)))
  }

  /** What holds under every schedule. */
  ghost predicate Inv(c: Setup, s: PoolState) {
    WellFormed(c) && Shape(c, s) && Exclusive(s) && Bookkeeping(c, s)
  }

  /** What holds under every eager schedule. */
  ghost predicate TimedInv(c: Setup, s: PoolState) {
    Inv(c, s) && OnTime(c, s)
  }

  lemma InitInv(c: Setup)
    requires WellFormed(c)
    ensures TimedInv(c, Init(c))
  {
    var s := Init(c);
    assert forall w <- s.workers :: w == Idle;
    if c.jobs != [] {
      assert Latest(c, 0) == c.start + c.jitter;
      LatestMonotone(c, 0, |c.jobs| - 1);
    }
  }

  lemma {:induction false} WaveMonotone(i: nat, j: nat, workers: nat)
    requires workers > 0 && i <= j
    ensures Wave(i, workers) <= Wave(j, workers)
  {
    if i >= workers {
      WaveMonotone(i - workers, j - workers, workers);
    }
  }

  lemma LatestMonotone(c: Setup, i: nat, j: nat)
    requires c.workers > 0 && i <= j
    ensures Latest(c, i) <= Latest(c, j)
  {
    WaveMonotone(i, j, c.workers);
    Times(Wave(i, c.workers), Wave(j, c.workers), c.limit);
  }

  lemma Times(a: nat, b: nat, p: nat)
    requires a <= b
    ensures a * p <= b * p
  {
  }

  lemma LatestNextWave(c: Setup, i: nat)
    requires c.workers > 0
    ensures Latest(c, i + c.workers) == Latest(c, i) + c.limit
  {
  }

  // ----- steps keep the invariant -----

  lemma ShapeKept(c: Setup, s: PoolState, step: PoolStep)
    requires Inv(c, s) && Allowed(c, s, step)
    ensures Shape(c, Do(c, s, step))
  {
    var s' := Do(c, s, step);
    if !step.Close? && !step.Wait? {
      assert s.workers[step.w] in s.workers;
      forall x <- s'.workers ensures x == s'.workers[step.w] || x in s.workers {
        var v :| 0 <= v < |s'.workers| && s'.workers[v] == x;
        assert v != step.w ==> s.workers[v] == x;
      }
    }
  }

  lemma ExclusiveKept(c: Setup, s: PoolState, step: PoolStep)
    requires Inv(c, s) && Allowed(c, s, step)
    ensures Exclusive(Do(c, s, step))
  {
    assert forall v :: 0 <= v < |s.workers| ==> s.workers[v] in s.workers;
  }

  lemma HeldChange(s: PoolState, s': PoolState, w: nat, i: nat)
    requires At(s, w) && |s'.workers| == |s.workers| && s'.workers == s.workers[w := s'.workers[w]]
    requires Exclusive(s)
    ensures !(Busy(s.workers[w]) && s.workers[w].i == i) && !(Busy(s'.workers[w]) && s'.workers[w].i == i) ==>
              Held(s', i) == Held(s, i)
    ensures Busy(s'.workers[w]) && s'.workers[w].i == i ==> Held(s', i)
    ensures Busy(s.workers[w]) && s.workers[w].i == i ==> Held(s, i)
    ensures Busy(s.workers[w]) && s.workers[w].i == i && !Busy(s'.workers[w]) ==> !Held(s', i)
  {
    assert s.workers[w] in s.workers && s'.workers[w] in s'.workers;
    if Held(s', i) {
      var x :| x in s'.workers && Busy(x) && x.i == i;
      var v :| 0 <= v < |s'.workers| && s'.workers[v] == x;
      assert v != w ==> s.workers[v] == x && x in s.workers;
    }
    if Held(s, i) {
      var x :| x in s.workers && Busy(x) && x.i == i;
      var v :| 0 <= v < |s.workers| && s.workers[v] == x;
      assert v != w ==> s'.workers[v] == x && x in s'.workers;
    }
  }

  lemma WriteBookkeeping(c: Setup, s: PoolState, w: nat)
    requires Inv(c, s) && At(s, w) && Busy(s.workers[w])
    ensures s.workers[w].i < |c.jobs|
    ensures Bookkeeping(c, Write(s, w, Expected(c.jobs[s.workers[w].i])))
  {
    assert s.workers[w] in s.workers;
    var i := s.workers[w].i;
    var s' := Write(s, w, Expected(c.jobs[i]));
    HeldChange(s, s', w, i);
    forall j | 0 <= j < |c.jobs| ensures s'.results[j].Some? <==> j < s'.next && !Held(s', j) {
      HeldChange(s, s', w, j);
    }
    assert i !in s.written;
  }

  lemma BookkeepingKept(c: Setup, s: PoolState, step: PoolStep)
    requires Inv(c, s) && Allowed(c, s, step)
    ensures Bookkeeping(c, Do(c, s, step))
  {
    var s' := Do(c, s, step);
    match step
    case Skip(w) =>
      WriteBookkeeping(c, s, w);
    case Finish(w) =>
      assert s.workers[w] in s.workers;
      WriteBookkeeping(c, s, w);
    case Receive(w) =>
      forall j: nat | j < |c.jobs| ensures s'.results[j].Some? <==> j < s'.next && !Held(s', j) {
        HeldChange(s, s', w, j);
      }
    case Begin(w) =>
      forall j: nat | j < |c.jobs| ensures Held(s', j) == Held(s, j) {
        HeldChange(s, s', w, j);
      }
    case Exit(w) =>
      forall j: nat | j < |c.jobs| ensures Held(s', j) == Held(s, j) {
        HeldChange(s, s', w, j);
      }
    case Close =>
    case Wait(_) =>
  }

  /** Distinct numbers of a range are no more than the range holds. */
  lemma {:induction false} DistinctInRange(s: seq<int>, lo: int, hi: int)
    requires forall i, j :: 0 <= i < j < |s| ==> s[i] != s[j]
    requires forall i :: 0 <= i < |s| ==> lo <= s[i] < hi
    ensures |s| <= if lo <= hi then hi - lo else 0
    decreases hi - lo
  {
    assert s != [] ==> lo <= s[0] < hi;
    if lo < hi {
      if i :| 0 <= i < |s| && s[i] == hi - 1 {
        var rest := s[..i] + s[i + 1..];
        DistinctInRange(rest, lo, hi - 1);
      } else {
        DistinctInRange(s, lo, hi - 1);
      }
    }
  }

  /** When no worker is idle and work remains, some worker is a whole wave behind. */
  lemma Straggler(c: Setup, s: PoolState) returns (w: nat)
    requires Inv(c, s) && c.workers > 0 && s.next < |c.jobs|
    requires forall x <- s.workers :: x != Idle
    ensures At(s, w) && Busy(s.workers[w]) && s.workers[w].i + c.workers <= s.next
  {
    assert forall v :: 0 <= v < |s.workers| ==> s.workers[v] in s.workers && Busy(s.workers[v]);
    if !exists v :: 0 <= v < |s.workers| && s.workers[v].i + c.workers <= s.next {
      var held := seq(|s.workers|, v requires 0 <= v < |s.workers| => s.workers[v].i as int);
      DistinctInRange(held, s.next - c.workers + 1, s.next);
    }
    w :| 0 <= w < |s.workers| && s.workers[w].i + c.workers <= s.next;
  }

  /** How long a busy worker can let time pass. */
  lemma BusyBoundsTime(c: Setup, s: PoolState, w: nat, t: Time)
    requires TimedInv(c, s) && c.workers > 0 && At(s, w) && Busy(s.workers[w]) && MayReach(c, s, t)
    ensures t <= Latest(c, s.workers[w].i) + c.limit
    ensures s.workers[w].Holding? ==> t <= Latest(c, s.workers[w].i)
  {
    assert s.workers[w] in s.workers;
    var i := s.workers[w].i;
    assert WorkerOnTime(c, s.clock, s.workers[w]);
    assert c.jobs[i] in c.jobs;
    assert Wave(i, c.workers) * c.limit >= 0 by { Times(0, Wave(i, c.workers), c.limit); }
  }

  lemma WaitBeforeEnd(c: Setup, s: PoolState, t: Time)
    requires TimedInv(c, s) && EagerlyAllowed(c, s, Wait(t))
    ensures c.workers > 0 && t <= End(c)
  {
    var b := SomeoneBusy(s);
    var x := s.workers[b];
    assert x in s.workers;
    assert c.workers > 0 && x.i < |c.jobs|;
    BusyBoundsTime(c, s, b, t);
    LatestMonotone(c, x.i, |c.jobs| - 1);
  }

  lemma SomeoneBusy(s: PoolState) returns (b: nat)
    requires exists x <- s.workers :: Busy(x)
    ensures At(s, b) && Busy(s.workers[b])
  {
    var x :| x in s.workers && Busy(x);
    b :| 0 <= b < |s.workers| && s.workers[b] == x;
  }

  lemma WaitBeforeNext(c: Setup, s: PoolState, t: Time)
    requires TimedInv(c, s) && EagerlyAllowed(c, s, Wait(t)) && c.workers > 0 && s.next < |c.jobs|
    ensures t <= Latest(c, s.next)
  {
    var w := Straggler(c, s);
    BusyBoundsTime(c, s, w, t);
    LatestNextWave(c, s.workers[w].i);
    LatestMonotone(c, s.workers[w].i + c.workers, s.next);
  }

  lemma WaitWorkersOnTime(c: Setup, s: PoolState, t: Time, y: Worker)
    requires TimedInv(c, s) && EagerlyAllowed(c, s, Wait(t)) && c.workers > 0 && y in s.workers
    ensures WorkerOnTime(c, t, y)
  {
    var v :| 0 <= v < |s.workers| && s.workers[v] == y;
    if Busy(y) { BusyBoundsTime(c, s, v, t); }
    assert WorkerOnTime(c, s.clock, y);
  }

  lemma OnTimeKept(c: Setup, s: PoolState, step: PoolStep)
    requires TimedInv(c, s) && EagerlyAllowed(c, s, step)
    ensures OnTime(c, Do(c, s, step))
  {
    var s' := Do(c, s, step);
    if step.Wait? {
      WaitBeforeEnd(c, s, step.until);
      if s.next < |c.jobs| { WaitBeforeNext(c, s, step.until); }
      forall y <- s.workers ensures WorkerOnTime(c, step.until, y) {
        WaitWorkersOnTime(c, s, step.until, y);
      }
    } else if !step.Close? {
      var w := step.w;
      assert s.workers[w] in s.workers && WorkerOnTime(c, s.clock, s.workers[w]);
      forall x <- s'.workers ensures WorkerOnTime(c, s'.clock, x) {
        var v :| 0 <= v < |s'.workers| && s'.workers[v] == x;
        if v != w { assert s.workers[v] in s.workers && WorkerOnTime(c, s.clock, s.workers[v]); }
      }
      if step.Receive? {
        LatestMonotone(c, s.next, s.next + 1);
      }
    }
  }

  lemma InvKept(c: Setup, s: PoolState, step: PoolStep)
    requires Inv(c, s) && Allowed(c, s, step)
    ensures Inv(c, Do(c, s, step))
  {
    ShapeKept(c, s, step);
    ExclusiveKept(c, s, step);
    BookkeepingKept(c, s, step);
  }

  lemma TimedInvKept(c: Setup, s: PoolState, step: PoolStep)
    requires TimedInv(c, s) && EagerlyAllowed(c, s, step)
    ensures TimedInv(c, Do(c, s, step))
  {
    InvKept(c, s, step);
    OnTimeKept(c, s, step);
  }

  // ----- progress -----

  /** Unless the pool is done, some step is possible, other than sleeping past work: it
      never deadlocks. */
  lemma NeverStuck(c: Setup, s: PoolState)
    requires Inv(c, s) && !Done(s)
    ensures exists step :: EagerlyAllowed(c, s, step)
  {
    if s.next == |c.jobs| && !s.closed {
      assert EagerlyAllowed(c, s, Close);
    } else {
      var w := LiveWorker(c, s);
      WorkerCanAct(c, s, w);
    }
  }

  lemma LiveWorker(c: Setup, s: PoolState) returns (w: nat)
    requires Inv(c, s) && !Done(s) && (s.next == |c.jobs| ==> s.closed)
    ensures At(s, w) && !s.workers[w].Exited?
  {
    if s.closed {
      var x :| x in s.workers && x != Exited;
      w :| 0 <= w < |s.workers| && s.workers[w] == x;
    } else {
      w := 0;
      assert s.workers[0] in s.workers;
    }
  }

  /** Some step of this worker is possible, or time may pass. */
  lemma WorkerCanAct(c: Setup, s: PoolState, w: nat)
    requires Inv(c, s) && At(s, w) && !s.workers[w].Exited? && (s.next == |c.jobs| ==> s.closed)
    ensures exists step :: EagerlyAllowed(c, s, step)
  {
    assert s.workers[w] in s.workers;
    match s.workers[w]
    case Idle =>
      assert EagerlyAllowed(c, s, if s.next < |c.jobs| then Receive(w) else Exit(w));
    case Probing(i, since) =>
      assert EagerlyAllowed(c, s, Finish(w));
    case Holding(i) =>
      if !c.jobs[i].ready { assert EagerlyAllowed(c, s, Skip(w)); }
      else if c.jobs[i].at <= s.clock { assert EagerlyAllowed(c, s, Begin(w)); }
      else { SleepersWake(c, s, w); }
  }

  /** A worker asleep on a future start time: somebody can act, or all may sleep on. */
  lemma SleepersWake(c: Setup, s: PoolState, w: nat)
    requires Inv(c, s) && At(s, w) && (s.next == |c.jobs| ==> s.closed)
    requires s.workers[w].Holding? && s.workers[w].i < |c.jobs| && s.clock < c.jobs[s.workers[w].i].at
    ensures exists step :: EagerlyAllowed(c, s, step)
  {
    assert s.workers[w] in s.workers && Busy(s.workers[w]);
    if v :| 0 <= v < |s.workers| && s.workers[v].Probing? {
      assert s.workers[v] in s.workers;
      assert EagerlyAllowed(c, s, Finish(v));
    } else if v :| 0 <= v < |s.workers| && s.workers[v].Idle? {
      assert EagerlyAllowed(c, s, if s.next < |c.jobs| then Receive(v) else Exit(v));
    } else if v :| 0 <= v < |s.workers| && s.workers[v].Holding? &&
                   s.workers[v].i < |c.jobs| &&
                   !(c.jobs[s.workers[v].i].ready && s.clock < c.jobs[s.workers[v].i].at) {
      assert EagerlyAllowed(c, s, if c.jobs[s.workers[v].i].ready then Begin(v) else Skip(v));
    } else {
      assert Quiet(c, s);
      assert MayReach(c, s, s.clock + 1);
      assert EagerlyAllowed(c, s, Wait(s.clock + 1));
    }
  }

  function Effort(w: Worker): nat {
    match w
    case Idle => 1
    case Holding(_) => 4
    case Probing(_, _) => 3
    case Exited => 0
  }

  function Efforts(ws: seq<Worker>): nat {
    if ws == [] then 0 else Effort(ws[0]) + Efforts(ws[1..])
  }

  lemma {:induction false} EffortsUpdate(ws: seq<Worker>, w: nat, x: Worker)
    requires w < |ws|
    ensures Efforts(ws[w := x]) == Efforts(ws) - Effort(ws[w]) + Effort(x)
  {
    if w == 0 {
      assert ws[0 := x][1..] == ws[1..];
    } else {
      EffortsUpdate(ws[1..], w - 1, x);
      assert ws[w := x][1..] == ws[1..][w - 1 := x];
    }
  }

  /** Steps other than waiting that are still to come. */
  function Remaining(c: Setup, s: PoolState): int {
    4 * (|c.jobs| - s.next) + Efforts(s.workers) + if s.closed then 0 else 1
  }

  /** Every step but waiting uses up a unit of work, and waiting gives none back. */
  lemma StepsRunOut(c: Setup, s: PoolState, step: PoolStep)
    requires Inv(c, s) && Allowed(c, s, step)
    ensures 0 <= Remaining(c, Do(c, s, step)) <= Remaining(c, s)
    ensures !step.Wait? ==> Remaining(c, Do(c, s, step)) < Remaining(c, s)
  {
    var s' := Do(c, s, step);
    InvKept(c, s, step);
    if !step.Close? && !step.Wait? {
      EffortsUpdate(s.workers, step.w, s'.workers[step.w]);
    }
  }

  // ----- whole rounds -----

  ghost function Exec(c: Setup, steps: seq<PoolStep>): PoolState
    requires Legal(c, steps)
    decreases |steps|, 1
  {
    if steps == [] then Init(c)
    else
      var n := |steps| - 1;
      Do(c, Exec(c, steps[..n]), steps[n])
  }

  /** Every step was possible when it was taken. */
  ghost predicate Legal(c: Setup, steps: seq<PoolStep>)
    decreases |steps|, 0
  {
    steps == [] ||
    var n := |steps| - 1;
    Legal(c, steps[..n]) && Allowed(c, Exec(c, steps[..n]), steps[n])
  }

  lemma {:induction false} ReachableInv(c: Setup, steps: seq<PoolStep>)
    requires WellFormed(c) && Legal(c, steps)
    ensures Inv(c, Exec(c, steps))
  {
    if steps == [] {
      InitInv(c);
    } else {
      var n := |steps| - 1;
      ReachableInv(c, steps[..n]);
      InvKept(c, Exec(c, steps[..n]), steps[n]);
    }
  }

  /** Every step was eager as well. */
  ghost predicate EagerRun(c: Setup, steps: seq<PoolStep>)
    requires Legal(c, steps)
  {
    steps == [] ||
    var n := |steps| - 1;
    EagerRun(c, steps[..n]) && Eager(c, Exec(c, steps[..n]), steps[n])
  }

  lemma {:induction false} EagerRunsAreOnTime(c: Setup, steps: seq<PoolStep>)
    requires WellFormed(c) && Legal(c, steps) && EagerRun(c, steps)
    ensures TimedInv(c, Exec(c, steps))
  {
    if steps == [] {
      InitInv(c);
    } else {
      var n := |steps| - 1;
      EagerRunsAreOnTime(c, steps[..n]);
      TimedInvKept(c, Exec(c, steps[..n]), steps[n]);
    }
  }

  /** Every interleaving ends with the same results: each index written exactly once, with
      the outcome of its own target. */
  lemma Confluent(c: Setup, s: PoolState)
    requires Inv(c, s) && Done(s)
    ensures forall i :: 0 <= i < |c.jobs| ==> s.results[i] == Some(Expected(c.jobs[i]))
    ensures forall i: nat :: i in s.written <==> i < |c.jobs|
    ensures |s.written| == |c.jobs|
  {
    forall i: nat | i < |c.jobs| ensures !Held(s, i) {
    }
    forall i: nat | i < |c.jobs| ensures i in s.written {
      assert s.results[i].Some?;
    }
    var log := seq(|s.written|, k requires 0 <= k < |s.written| => s.written[k] as int);
    forall k | 0 <= k < |log| ensures 0 <= log[k] < |c.jobs| {
      assert s.written[k] in s.written;
    }
    DistinctInRange(log, 0, |c.jobs|);
    CoversRange(s.written, |c.jobs|);
  }

  /** Whatever the scheduling, two complete rounds over the same jobs agree, even with
      different numbers of workers, start windows and probe limits. */
  lemma RunsAgree(c: Setup, steps: seq<PoolStep>, c': Setup, steps': seq<PoolStep>)
    requires WellFormed(c) && Legal(c, steps) && Done(Exec(c, steps))
    requires WellFormed(c') && Legal(c', steps') && Done(Exec(c', steps'))
    requires |c.jobs| == |c'.jobs| && forall i :: 0 <= i < |c.jobs| ==> Expected(c.jobs[i]) == Expected(c'.jobs[i])
    ensures Exec(c, steps).results == Exec(c', steps').results
  {
    ReachableInv(c, steps);
    ReachableInv(c', steps');
    Confluent(c, Exec(c, steps));
    Confluent(c', Exec(c', steps'));
  }

  lemma {:induction false} CoversRange(s: seq<nat>, n: nat)
    requires forall i: nat :: i < n ==> i in s
    ensures |s| >= n
    decreases n
  {
    if n > 0 {
      assert (n - 1) in s;
      var k :| 0 <= k < |s| && s[k] == n - 1;
      var rest := s[..k] + s[k + 1..];
      forall i: nat | i < n - 1 ensures i in rest {
        assert i in s;
        var j :| 0 <= j < |s| && s[j] == i;
        assert rest[if j < k then j else j - 1] == i;
      }
      CoversRange(rest, n - 1);
    }
  }

  /** At any moment a worker sleeps, nothing undispatched is already due. */
  lemma NoWorkIsOverslept(c: Setup, steps: seq<PoolStep>, w: nat, j: nat)
    requires WellFormed(c) && Legal(c, steps)
    requires forall a, b :: 0 <= a < b < |c.jobs| ==> c.jobs[a].at <= c.jobs[b].at
    requires var s := Exec(c, steps);
             && At(s, w) && s.workers[w].Holding? && s.workers[w].i < |c.jobs|
             && s.clock < c.jobs[s.workers[w].i].at
             && s.next <= j < |c.jobs|
    ensures Exec(c, steps).clock < c.jobs[j].at
  {
    ReachableInv(c, steps);
    var s := Exec(c, steps);
    assert s.workers[w] in s.workers;
  }

  function CeilDiv(n: nat, d: nat): nat
    requires d > 0
  {
    (n + d - 1) / d
  }

  /** The least number of rows of d that hold n. */
  lemma CeilDivMeaning(n: nat, d: nat)
    requires d > 0
    ensures n <= CeilDiv(n, d) * d && (n > 0 ==> (CeilDiv(n, d) - 1) * d < n)
  {
    var p, m := DivMod(n + d - 1, d);
    assert (p - 1) * d == p * d - d;
  }

  lemma DivUnique(x: int, q: int, r: int, d: int)
    requires d > 0 && x == q * d + r && 0 <= r < d
    ensures x / d == q
  {
    var p, m := DivMod(x, d);
    if p < q { MulGap(p, q, d); }
    if q < p { MulGap(q, p, d); }
  }

  lemma DivMod(x: int, d: int) returns (p: int, m: int)
    requires d > 0
    ensures p == x / d && x == p * d + m && 0 <= m < d
  {
    p, m := x / d, x % d;
  }

  lemma MulGap(p: int, q: int, d: int)
    requires p < q && d > 0
    ensures p * d + d <= q * d
  {
    assert (q - p - 1) * d >= 0;
    assert (q - p - 1) * d == q * d - p * d - d;
  }

  lemma DivNext(a: int, d: int)
    requires d > 0
    ensures (a + d) / d == a / d + 1
  {
    var p, m := DivMod(a, d);
    assert (p + 1) * d == p * d + d;
    DivUnique(a + d, p + 1, m, d);
  }

  lemma {:induction false} WaveIsQuotient(i: nat, workers: nat)
    requires workers > 0
    ensures Wave(i, workers) == i / workers
  {
    if i >= workers {
      WaveIsQuotient(i - workers, workers);
      DivNext(i - workers, workers);
    } else {
      DivUnique(i, 0, i, workers);
    }
  }

  /** A round over n targets with a bounded number of workers ends within
      jitter + ceil(n / concurrency) * limit, whatever the offsets, the choice among idle
      workers and the length of each probe up to its limit. */
  lemma Makespan(c: Setup, steps: seq<PoolStep>, concurrency: nat)
    requires WellFormed(c) && Legal(c, steps) && EagerRun(c, steps) && concurrency > 0
    requires c.workers == if concurrency < |c.jobs| then concurrency else |c.jobs|
    ensures Exec(c, steps).clock <= c.start + c.jitter + CeilDiv(|c.jobs|, concurrency) * c.limit
  {
    EagerRunsAreOnTime(c, steps);
    EndIsMakespan(c, concurrency);
  }

  lemma EndIsMakespan(c: Setup, concurrency: nat)
    requires WellFormed(c) && concurrency > 0
    requires c.workers == if concurrency < |c.jobs| then concurrency else |c.jobs|
    ensures End(c) <= c.start + c.jitter + CeilDiv(|c.jobs|, concurrency) * c.limit
  {
    var n := |c.jobs|;
    if n == 0 {
      Times(0, CeilDiv(n, concurrency), c.limit);
    } else {
      WaveIsQuotient(n - 1, c.workers);
      QuotientIsCeil(n, concurrency);
      var k := (n - 1) / c.workers;
      assert k + 1 == CeilDiv(n, concurrency);
      assert (k + 1) * c.limit == k * c.limit + c.limit;
    }
  }

  lemma QuotientIsCeil(n: nat, d: nat)
    requires n > 0 && d > 0
    ensures (n - 1) / (if d < n then d else n) + 1 == CeilDiv(n, d)
  {
    DivNext(n - 1, d);
    assert n + d - 1 == n - 1 + d;
    if d >= n {
      DivUnique(n - 1, 0, n - 1, n);
      DivUnique(n - 1, 0, n - 1, d);
    }
  }

  lemma CeilDivMonotone(m: nat, n: nat, d: nat)
    requires d > 0 && m <= n
    ensures CeilDiv(m, d) <= CeilDiv(n, d)
  {
    var p, x := DivMod(m + d - 1, d);
    var q, y := DivMod(n + d - 1, d);
    if q < p { MulGap(q, p, d); }
  }

  /** Runs the pool under an arbitrary eager scheduler, until it is done. */
  method RunPool(c: Setup) returns (results: seq<Verification>, end: Time)
    requires WellFormed(c)
    ensures |results| == |c.jobs|
    ensures forall i :: 0 <= i < |c.jobs| ==> results[i] == Expected(c.jobs[i])
    ensures c.start <= end <= End(c)
  {
    var s := Init(c);
    InitInv(c);
    while !Done(s)
      invariant TimedInv(c, s) && c.start <= s.clock
      decreases Remaining(c, s), End(c) - s.clock
    {
      NeverStuck(c, s);
      var step :| EagerlyAllowed(c, s, step);
      TimedInvKept(c, s, step);
      StepsRunOut(c, s, step);
      s := Do(c, s, step);
    }
    Confluent(c, s);
    results := seq(|s.results|, i requires 0 <= i < |s.results| => s.results[i].value);
    end := s.clock;
  }
}
