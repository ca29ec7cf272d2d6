/** Which rates `config.load` calls unreachable (generator/src/config.py): the steps it builds, the
    ceiling that flush latency puts on a rate, and the warnings. Floats are reals. */
module RateCheck {
  import opened Basics

  datatype Result<+T> = Ok(value: T) | Err(error: Problem)

  datatype Problem =
    | NotPositive(step: nat, field: string)
    | WorkersExceedInflight
    | DivisionByZero

  datatype Workload = Workload(targetRps: real, duration: real, workers: nat, batch: nat, maxInflight: nat)

  datatype Pipeline = Pipeline(maxDelayMs: real, minBucketSize: int, recordBytes: int)

  datatype Step = Step(index: nat, rps: real, duration: real)

  /** A step as the profile gives it; None is a value that is missing or not a number. */
  datatype RawStep = RawStep(rps: Option<real>, duration: Option<real>)

  // -- _build_steps ---------------------------------------------------------------------------

  predicate Positive(x: Option<real>) {
    x.Some? && x.value > 0.0
  }

  predicate WellFormed(raw: RawStep) {
    Positive(raw.rps) && Positive(raw.duration)
  }

  /** Steps are numbered from 0 and hold positive rates for positive times. */
  predicate Runnable(steps: seq<Step>) {
    steps != [] && forall i :: 0 <= i < |steps| ==> steps[i].index == i && steps[i].rps > 0.0 && steps[i].duration > 0.0
  }

  method BuildSteps(raw: seq<RawStep>, wl: Workload) returns (r: Result<seq<Step>>)
    ensures r.Ok? <==> forall i :: 0 <= i < |raw| ==> WellFormed(raw[i])
    ensures r.Ok? && raw == [] ==> r.value == [Step(0, wl.targetRps, wl.duration)]
    ensures r.Ok? && raw != [] ==> |r.value| == |raw|
    ensures r.Ok? && raw != [] ==>
      forall i :: 0 <= i < |raw| ==> r.value[i] == Step(i, raw[i].rps.value, raw[i].duration.value)
    ensures r.Ok? && wl.targetRps > 0.0 && wl.duration > 0.0 ==> Runnable(r.value)
    ensures r.Err? ==> r.error.NotPositive? && r.error.step < |raw| && !WellFormed(raw[r.error.step])
                       && (forall i :: 0 <= i < r.error.step ==> WellFormed(raw[i]))
                       && r.error.field == if !Positive(raw[r.error.step].rps) then "rps" else "duration_seconds"
  {
    if raw == [] {
      return Ok([Step(0, wl.targetRps, wl.duration)]);
    }
    var steps := [];
    for i := 0 to |raw|
      invariant |steps| == i
      invariant forall j :: 0 <= j < i ==>
        WellFormed(raw[j]) && steps[j] == Step(j, raw[j].rps.value, raw[j].duration.value)
    {
      if !Positive(raw[i].rps) {
        return Err(NotPositive(i, "rps"));
      }
      if !Positive(raw[i].duration) {
        return Err(NotPositive(i, "duration_seconds"));
      }
      steps := steps + [Step(i, raw[i].rps.value, raw[i].duration.value)];
    }
    return Ok(steps);
  }

  // -- the ceiling --------------------------------------------------------------------------------

  /** A flush takes at least this long in `max_reachable_rps`. */
  const CLAMP: real := 0.000000001

  function FlushSeconds(p: Pipeline, rps: real): real
    requires p.recordBytes != 0
  {
    if rps <= 0.0 then p.maxDelayMs / 1000.0
    else MinReal(p.maxDelayMs / 1000.0, p.minBucketSize as real / Mul(rps, p.recordBytes as real))
  }

  /** A product of two quantities that are not constants; a divisor when neither is zero. */
  function Mul(a: real, b: real): (c: real)
    ensures a > 0.0 && b != 0.0 ==> c != 0.0
  {
    a * b
  }

  function MaxReachableRps(p: Pipeline, workers: nat, batch: nat, rps: real): real
    requires p.recordBytes != 0
  {
    (workers * batch) as real / MaxReal(CLAMP, FlushSeconds(p, rps))
  }

  predicate Warned(p: Pipeline, workers: nat, batch: nat, rps: real)
    requires p.recordBytes != 0
  {
    rps > MaxReachableRps(p, workers, batch, rps) * 1.02
  }

  /** The workers that carry so many records at once. */
  function WorkersFor(records: real, batch: nat): int
    requires batch > 0
  {
    Ceil(records / batch as real)
  }

  function Need(p: Pipeline, batch: nat, rps: real): int
    requires p.recordBytes != 0 && batch > 0
  {
    WorkersFor(Mul(rps, FlushSeconds(p, rps)), batch)
  }

  /** What the workers can have in flight at once, with the two percent the check allows. */
  function Capacity(workers: nat, batch: nat): real {
    1.02 * (workers * batch) as real
  }

  /** k / m * 1.02 < r if and only if 1.02 * k < r * m. */
  lemma CrossMultiply(r: real, k: real, m: real)
    requires m > 0.0
    ensures r > k / m * 1.02 <==> r * m > 1.02 * k
  {
    var q := k / m;
    assert q * m == k;
    Scaled(q * 1.02, r, m);
    assert q * 1.02 * m == 1.02 * (q * m);
  }

  lemma ScaleMax(r: real, a: real, b: real, limit: real)
    requires r > 0.0
    ensures r * MaxReal(a, b) > limit <==> r * a > limit || r * b > limit
  {
    if b > a {
      Scaled(a, b, r);
    } else if a > b {
      Scaled(b, a, r);
    }
  }

  lemma ScaleMin(r: real, a: real, b: real, limit: real)
    requires r > 0.0
    ensures r * MinReal(a, b) > limit <==> r * a > limit && r * b > limit
  {
    if b < a {
      Scaled(b, a, r);
    } else if a < b {
      Scaled(a, b, r);
    }
  }

  /** At rate r a bucket of m bytes fills with r * (m / (r * b)) = m / b records. */
  lemma RecordsToFill(r: real, m: real, b: real)
    requires r > 0.0 && b != 0.0
    ensures r * (m / Mul(r, b)) == m / b
  {
    var q := m / (r * b);
    assert q * (r * b) == m;
    assert (r * q) * b == m;
  }

  lemma WarnedIs(p: Pipeline, workers: nat, batch: nat, rps: real)
    requires p.recordBytes != 0
    ensures Warned(p, workers, batch, rps) <==> rps * MaxReal(CLAMP, FlushSeconds(p, rps)) > Capacity(workers, batch)
  {
    CrossMultiply(rps, (workers * batch) as real, MaxReal(CLAMP, FlushSeconds(p, rps)));
  }

  /** The warned rates in closed form. Up to the clamp on the flush time there are two cases: if the
      workers' batches fill a bucket, the bucket fills before its timer and no rate is too high;
      otherwise the timer decides, and exactly the rates above capacity / max_delay are. */
  lemma WarnedExactly(p: Pipeline, workers: nat, batch: nat, rps: real)
    requires p.recordBytes != 0 && rps > 0.0
    ensures var k := Capacity(workers, batch);
            Warned(p, workers, batch, rps) <==>
            rps * CLAMP > k
              || (rps * (p.maxDelayMs / 1000.0) > k && p.minBucketSize as real / p.recordBytes as real > k)
  {
    var k := Capacity(workers, batch);
    var delay, fill := p.maxDelayMs / 1000.0, p.minBucketSize as real / Mul(rps, p.recordBytes as real);
    WarnedIs(p, workers, batch, rps);
    ScaleMax(rps, CLAMP, MinReal(delay, fill), k);
    ScaleMin(rps, delay, fill, k);
    RecordsToFill(rps, p.minBucketSize as real, p.recordBytes as real);
  }

  lemma BelowQuotient(m: real, b: real, k: real)
    requires b > 0.0
    ensures m / b > k <==> m > k * b
  {
    var q := m / b;
    assert q * b == m;
    Scaled(k, q, b);
  }

  /** Away from the clamp: a threshold on the bucket, and then one on the rate. */
  lemma ReachableRates(p: Pipeline, workers: nat, batch: nat, rps: real)
    requires p.recordBytes > 0 && p.maxDelayMs > 0.0 && rps > 0.0 && FlushSeconds(p, rps) >= CLAMP
    ensures var k := Capacity(workers, batch);
            Warned(p, workers, batch, rps) <==>
            k * p.recordBytes as real < p.minBucketSize as real && rps > k / (p.maxDelayMs / 1000.0)
  {
    var k, delay, b := Capacity(workers, batch), p.maxDelayMs / 1000.0, p.recordBytes as real;
    var fill := p.minBucketSize as real / Mul(rps, b);
    WarnedIs(p, workers, batch, rps);
    ScaleMin(rps, delay, fill, k);
    RecordsToFill(rps, p.minBucketSize as real, b);
    BelowQuotient(p.minBucketSize as real, b, k);
    AboveQuotient(rps, delay, k);
  }

  lemma AboveQuotient(r: real, d: real, k: real)
    requires d > 0.0
    ensures r * d > k <==> r > k / d
  {
    var q := k / d;
    assert q * d == k;
    Scaled(q, r, d);
  }

  // -- the suggestion --------------------------------------------------------------------------------

  lemma QuotientReaches(x: real, batch: real, n: real)
    requires batch > 0.0 && n >= x / batch
    ensures n * batch >= x
  {
    var q := x / batch;
    assert q * batch == x;
    if n > q {
      Scaled(q, n, batch);
    }
  }

  /** The suggestion is the least number of workers that hold what is offered during one flush. */
  lemma NeedIsLeast(p: Pipeline, workers: nat, batch: nat, rps: real)
    requires p.recordBytes != 0 && batch > 0
    ensures workers >= Need(p, batch, rps) <==> rps * FlushSeconds(p, rps) <= (workers * batch) as real
  {
    var x, b := Mul(rps, FlushSeconds(p, rps)), batch as real;
    var q := x / b;
    assert q * b == x;
    CeilAtMost(q, workers);
    Scaled(workers as real, q, b);
    assert workers as real * b == (workers * batch) as real;
  }

  lemma WorkersHold(records: real, workers: nat, batch: nat)
    requires batch > 0 && workers >= WorkersFor(records, batch)
    ensures records <= (workers * batch) as real
  {
    QuotientReaches(records, batch as real, workers as real);
    assert workers as real * batch as real == (workers * batch) as real;
  }

  /** As many workers as the warning asks for hold what is offered during one flush. */
  lemma NeedHolds(p: Pipeline, workers: nat, batch: nat, rps: real)
    requires p.recordBytes != 0 && batch > 0 && workers >= Need(p, batch, rps)
    ensures rps * FlushSeconds(p, rps) <= (workers * batch) as real
  {
    WorkersHold(Mul(rps, FlushSeconds(p, rps)), workers, batch);
  }

  /** Taking the advice clears the warning, except where the clamp is what warned. */
  lemma NeedClears(p: Pipeline, workers: nat, batch: nat, rps: real)
    requires p.recordBytes != 0 && batch > 0 && rps > 0.0 && workers >= Need(p, batch, rps)
    ensures Warned(p, workers, batch, rps) <==> rps * CLAMP > Capacity(workers, batch)
  {
    NeedHolds(p, workers, batch, rps);
    WarnedIs(p, workers, batch, rps);
    ScaleMax(rps, CLAMP, FlushSeconds(p, rps), Capacity(workers, batch));
  }

  /** More workers never add a warning. */
  lemma MoreWorkers(p: Pipeline, workers: nat, workers': nat, batch: nat, rps: real)
    requires p.recordBytes != 0 && workers <= workers'
    ensures Warned(p, workers', batch, rps) ==> Warned(p, workers, batch, rps)
  {
    WarnedIs(p, workers, batch, rps);
    WarnedIs(p, workers', batch, rps);
    assert workers * batch <= workers' * batch;
  }

  // -- the loop -----------------------------------------------------------------------------------------

  datatype Warning = Warning(step: nat, ceiling: real, flush: real, need: int)

  function WarningFor(p: Pipeline, wl: Workload, s: Step): Warning
    requires p.recordBytes != 0 && wl.batch > 0
  {
    Warning(s.index, MaxReachableRps(p, wl.workers, wl.batch, s.rps), FlushSeconds(p, s.rps), Need(p, wl.batch, s.rps))
  }

  /** A flush takes the shorter of the timer and the time in which a bucket fills. */
  lemma FlushIs(p: Pipeline, rps: real)
    requires p.recordBytes > 0 && rps > 0.0
    ensures var flush, bytes := FlushSeconds(p, rps), Mul(rps, p.recordBytes as real);
      && flush <= p.maxDelayMs / 1000.0 && flush * bytes <= p.minBucketSize as real
      && (flush == p.maxDelayMs / 1000.0 || flush * bytes == p.minBucketSize as real)
  {
    var bytes := Mul(rps, p.recordBytes as real);
    Scaled(0.0, rps, p.recordBytes as real);
    var fill := p.minBucketSize as real / bytes;
    DivTimes(p.minBucketSize as real, bytes);
    Scaled(fill, p.maxDelayMs / 1000.0, bytes);
    Scaled(p.maxDelayMs / 1000.0, fill, bytes);
  }

  /** The ceiling is the rate at which the workers' batches turn over, one batch each a flush. */
  lemma CeilingIs(p: Pipeline, workers: nat, batch: nat, rps: real)
    requires p.recordBytes != 0
    ensures MaxReachableRps(p, workers, batch, rps) * MaxReal(CLAMP, FlushSeconds(p, rps)) == (workers * batch) as real
  {
    DivTimes((workers * batch) as real, MaxReal(CLAMP, FlushSeconds(p, rps)));
  }

  /** Without a rate only the timer flushes, and the clamp is a nanosecond. */
  lemma TimerAlone(p: Pipeline, rps: real)
    requires p.recordBytes != 0 && rps <= 0.0
    ensures FlushSeconds(p, rps) * 1000.0 == p.maxDelayMs && CLAMP * 1000000000.0 == 1.0
  {
    DivTimes(p.maxDelayMs, 1000.0);
  }

  /** What a warning says: its step; the ceiling; how long a flush takes, the shorter of the timer and the
      time in which a bucket fills; and the least number of workers that would do. */
  lemma WarningSays(p: Pipeline, wl: Workload, s: Step, workers: nat)
    requires p.recordBytes > 0 && wl.batch > 0 && s.rps > 0.0
    ensures var w, bytes := WarningFor(p, wl, s), Mul(s.rps, p.recordBytes as real);
      && w.step == s.index
      && w.ceiling * MaxReal(CLAMP, w.flush) == (wl.workers * wl.batch) as real
      && w.flush <= p.maxDelayMs / 1000.0 && w.flush * bytes <= p.minBucketSize as real
      && (w.flush == p.maxDelayMs / 1000.0 || w.flush * bytes == p.minBucketSize as real)
      && (workers >= w.need <==> s.rps * w.flush <= (workers * wl.batch) as real)
  {
    FlushIs(p, s.rps);
    CeilingIs(p, wl.workers, wl.batch, s.rps);
    NeedIsLeast(p, workers, wl.batch, s.rps);
  }

  /** One warning for each step above its ceiling, in order. */
  function Warnings(p: Pipeline, wl: Workload, steps: seq<Step>): seq<Warning>
    requires p.recordBytes != 0 && wl.batch > 0
  {
    if steps == [] then [] else
      var s := steps[|steps| - 1];
      Warnings(p, wl, steps[..|steps| - 1])
      + if Warned(p, wl.workers, wl.batch, s.rps) then [WarningFor(p, wl, s)] else []
  }

  /** The checks of `load` on the numbers. A record size of 0 divides by zero in `flush_seconds`, and
      a batch size below 1 is truncated to 0, so that every rate is above the ceiling and the
      suggestion divides by zero. The early exit of the loop is never taken. */
  method CheckRates(p: Pipeline, wl: Workload, steps: seq<Step>) returns (r: Result<seq<Warning>>)
    requires Runnable(steps)
    ensures r == if wl.workers > wl.maxInflight then Err(WorkersExceedInflight)
                 else if p.recordBytes == 0 || wl.batch == 0 then Err(DivisionByZero)
                 else Ok(Warnings(p, wl, steps))
  {
    if wl.workers > wl.maxInflight {
      return Err(WorkersExceedInflight);
    }
    var warnings := [];
    for i := 0 to |steps|
      invariant i > 0 ==> p.recordBytes != 0 && wl.batch > 0
      invariant i == 0 ==> warnings == []
      invariant i > 0 ==> warnings == Warnings(p, wl, steps[..i])
    {
      if p.recordBytes == 0 {
        return Err(DivisionByZero);
      }
      var w := CheckStep(p, wl, steps[i]);
      if w.Err? {
        return Err(DivisionByZero);
      }
      WarningsSnoc(p, wl, steps, i);
      warnings := warnings + w.value;
      if wl.maxInflight < wl.workers {
        break;
      }
    }
    assert steps[..|steps|] == steps;
    return Ok(warnings);
  }

  /** One step's check, with the warning if there is one. */
  method CheckStep(p: Pipeline, wl: Workload, step: Step) returns (r: Result<seq<Warning>>)
    requires p.recordBytes != 0 && step.rps > 0.0
    ensures wl.batch == 0 ==> r == Err(DivisionByZero)
    ensures wl.batch > 0 ==>
      r == Ok(if Warned(p, wl.workers, wl.batch, step.rps) then [WarningFor(p, wl, step)] else [])
  {
    var ceiling := MaxReachableRps(p, wl.workers, wl.batch, step.rps);
    assert step.rps > ceiling * 1.02 <==> Warned(p, wl.workers, wl.batch, step.rps);
    if wl.batch == 0 {
      NoBatchNoCeiling(p, wl.workers, step.rps);
    }
    if step.rps > ceiling * 1.02 {
      var flush := FlushSeconds(p, step.rps);
      if wl.batch == 0 {
        return Err(DivisionByZero);
      }
      var need := WorkersFor(Mul(step.rps, flush), wl.batch);
      return Ok([Warning(step.index, ceiling, flush, need)]);
    }
    return Ok([]);
  }

  lemma {:induction false} WarningsSnoc(p: Pipeline, wl: Workload, steps: seq<Step>, i: nat)
    requires p.recordBytes != 0 && wl.batch > 0 && i < |steps|
    ensures Warnings(p, wl, steps[..i + 1]) == Warnings(p, wl, steps[..i])
      + if Warned(p, wl.workers, wl.batch, steps[i].rps) then [WarningFor(p, wl, steps[i])] else []
  {
    assert steps[..i + 1][..i] == steps[..i];
  }

  lemma NoBatchNoCeiling(p: Pipeline, workers: nat, rps: real)
    requires p.recordBytes != 0 && rps > 0.0
    ensures Warned(p, workers, 0, rps)
  {
    WarnedIs(p, workers, 0, rps);
    ScaleMax(rps, CLAMP, FlushSeconds(p, rps), 0.0);
    assert workers * 0 == 0;
  }

  /** The warnings are those of the steps above their ceiling. */
  lemma {:induction false} WarningsAre(p: Pipeline, wl: Workload, steps: seq<Step>)
    requires p.recordBytes != 0 && wl.batch > 0
    ensures forall w :: w in Warnings(p, wl, steps) <==>
      exists i :: 0 <= i < |steps| && Warned(p, wl.workers, wl.batch, steps[i].rps) && w == WarningFor(p, wl, steps[i])
  {
    if steps != [] {
      var n := |steps| - 1;
      WarningsAre(p, wl, steps[..n]);
      assert forall i :: 0 <= i < n ==> steps[..n][i] == steps[i];
    }
  }

  /** Once each, in the order of their steps, of which there are n. */
  ghost predicate InOrder(ws: seq<Warning>, n: nat) {
    && (forall k :: 0 <= k < |ws| ==> ws[k].step < n)
    && (forall j, k :: 0 <= j < k < |ws| ==> ws[j].step < ws[k].step)
  }

  lemma {:induction false} WarningsInOrder(p: Pipeline, wl: Workload, steps: seq<Step>)
    requires p.recordBytes != 0 && wl.batch > 0 && forall i :: 0 <= i < |steps| ==> steps[i].index == i
    ensures InOrder(Warnings(p, wl, steps), |steps|)
  {
    if steps != [] {
      var n := |steps| - 1;
      WarningsInOrder(p, wl, steps[..n]);
      assert WarningFor(p, wl, steps[n]).step == n;
    }
  }

  lemma {:induction false} WarningsCover(p: Pipeline, wl: Workload, steps: seq<Step>, i: nat)
    requires p.recordBytes != 0 && wl.batch > 0 && i < |steps|
    ensures Warned(p, wl.workers, wl.batch, steps[i].rps) ==> WarningFor(p, wl, steps[i]) in Warnings(p, wl, steps)
  {
    if i < |steps| - 1 {
      WarningsCover(p, wl, steps[..|steps| - 1], i);
    }
  }

  lemma {:induction false} NoWarnings(p: Pipeline, wl: Workload, steps: seq<Step>)
    requires p.recordBytes != 0 && wl.batch > 0
    ensures Warnings(p, wl, steps) == [] <==>
            forall i :: 0 <= i < |steps| ==> !Warned(p, wl.workers, wl.batch, steps[i].rps)
  {
    if steps != [] {
      var n := |steps| - 1;
      NoWarnings(p, wl, steps[..n]);
      assert forall i :: 0 <= i < n ==> steps[..n][i] == steps[i];
    }
  }

  /** Raising `workers` to the largest number any warning asks for (and `max_inflight` with it) clears
      them all, if no flush is shorter than the clamp. */
  lemma {:induction false} RaisingWorkersClears(p: Pipeline, wl: Workload, steps: seq<Step>, workers: nat)
    requires p.recordBytes != 0 && wl.batch > 0 && Runnable(steps) && workers >= wl.workers
    requires forall w :: w in Warnings(p, wl, steps) ==> workers >= w.need
    requires forall i :: 0 <= i < |steps| ==> FlushSeconds(p, steps[i].rps) >= CLAMP
    ensures Warnings(p, wl.(workers := workers, maxInflight := workers), steps) == []
  {
    forall i | 0 <= i < |steps| ensures !Warned(p, workers, wl.batch, steps[i].rps) {
      MoreWorkers(p, wl.workers, workers, wl.batch, steps[i].rps);
      if Warned(p, wl.workers, wl.batch, steps[i].rps) {
        WarningsCover(p, wl, steps, i);
        AdviceWorks(p, workers, wl.batch, steps[i].rps);
      }
    }
    NoWarnings(p, wl.(workers := workers, maxInflight := workers), steps);
  }

  lemma AdviceWorks(p: Pipeline, workers: nat, batch: nat, rps: real)
    requires p.recordBytes != 0 && batch > 0 && rps > 0.0 && workers >= Need(p, batch, rps)
    requires FlushSeconds(p, rps) >= CLAMP
    ensures !Warned(p, workers, batch, rps)
  {
    NeedHolds(p, workers, batch, rps);
    WarnedIs(p, workers, batch, rps);
  }

  /** Below the clamp the advice can be empty: with no delay a flush takes no time, the suggestion is
      zero workers, and the rate is above the ceiling whatever the bucket. */
  lemma AdviceCanFail(bucket: nat, bytes: int)
    requires bytes > 0
    ensures var p := Pipeline(0.0, bucket, bytes);
            var rps := 2000000000.0;
            Warned(p, 1, 1, rps) && Need(p, 1, rps) == 0
  {
    var p := Pipeline(0.0, bucket, bytes);
    var rps := 2000000000.0;
    NoDelay(p, rps);
    WarnedIs(p, 1, 1, rps);
  }

  lemma NoDelay(p: Pipeline, rps: real)
    requires p.maxDelayMs == 0.0 && p.minBucketSize >= 0 && p.recordBytes > 0 && rps > 0.0
    ensures FlushSeconds(p, rps) == 0.0
  {
    var d := Mul(rps, p.recordBytes as real);
    Scaled(0.0, rps, p.recordBytes as real);
    assert p.minBucketSize as real / d >= 0.0;
  }
}
