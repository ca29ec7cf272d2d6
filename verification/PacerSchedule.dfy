/** The schedule of `run_step` (generator/src/loadgen.py, lines 142 to 213) as a timeline: what the
    ideal times, the catch-up and the re-anchoring rule promise about it, whatever the clock does. */
module PacerSchedule {
  import opened Basics

  /** A re-anchoring: when it happened and how much of the schedule it wrote off. */
  datatype Skip = Skip(at: real, amount: real)

  /** The ideal time of batch n: the schedule advances by exactly one interval a batch. */
  function Ideal(started: real, interval: real, n: nat): real {
    if n == 0 then started else Ideal(started, interval, n - 1) + interval
  }

  lemma {:induction false} IdealIs(started: real, interval: real, n: nat)
    ensures Ideal(started, interval, n) == started + n as real * interval
  {
    if n > 0 {
      IdealIs(started, interval, n - 1);
      assert (n - 1) as real * interval + interval == n as real * interval;
    }
  }

  lemma {:induction false} TimesAtMost(n: nat, batch: nat, k: int)
    requires n <= k
    ensures Times(n, batch) <= batch * k
  {
    TimesIsProduct(n, batch);
    assert n * batch <= k * batch;
  }

  /** Every enqueued batch was attempted no earlier than its ideal time, and in time order. */
  ghost predicate Paced(starts: seq<real>, started: real, interval: real) {
    && (forall i :: 0 <= i < |starts| ==> Ideal(started, interval, i) <= starts[i])
    && (forall i, j :: 0 <= i <= j < |starts| ==> starts[i] <= starts[j])
  }

  /** How many of the batches were attempted by time t. */
  function SentBy(starts: seq<real>, t: real): nat {
    if starts == [] then 0
    else SentBy(starts[..|starts| - 1], t) + if starts[|starts| - 1] <= t then 1 else 0
  }

  lemma {:induction false} SentByBound(starts: seq<real>, started: real, interval: real, t: real)
    requires Paced(starts, started, interval) && interval > 0.0
    ensures SentBy(starts, t) <= |starts|
    ensures SentBy(starts, t) > 0 ==> Ideal(started, interval, SentBy(starts, t) - 1) <= t
  {
    if starts != [] {
      var n := |starts| - 1;
      SentByBound(starts[..n], started, interval, t);
      if starts[n] <= t {
        AllBy(starts[..n], t);
      }
    }
  }

  lemma {:induction false} AllBy(starts: seq<real>, t: real)
    requires forall i :: 0 <= i < |starts| ==> starts[i] <= t
    ensures SentBy(starts, t) == |starts|
  {
    if starts != [] {
      AllBy(starts[..|starts| - 1], t);
    }
  }

  lemma QuotientAtLeast(i: nat, x: real, interval: real)
    requires interval > 0.0 && i as real * interval <= x
    ensures i <= (x / interval).Floor
  {
    var q := x / interval;
    assert q * interval == x;
    Scaled(q, i as real, interval);
  }

  lemma BelowQuotient(i: nat, x: real, interval: real)
    requires interval > 0.0 && i as real * interval < x
    ensures i as real < x / interval
  {
    var q := x / interval;
    assert q * interval == x;
    Scaled(i as real, q, interval);
  }

  lemma QuotientBelow(i: nat, x: real, interval: real)
    requires interval > 0.0 && x < i as real * interval
    ensures (x / interval).Floor < i
  {
    var q := x / interval;
    assert q * interval == x;
    Scaled(q, i as real, interval);
  }

  /** The pacer never exceeds the target: by any time t it has attempted at most one batch more than
      the intervals that have passed. */
  lemma {:induction false} NeverAheadOfSchedule(starts: seq<real>, started: real, interval: real, t: real)
    requires Paced(starts, started, interval) && interval > 0.0 && t >= started
    ensures SentBy(starts, t) <= ((t - started) / interval).Floor + 1
  {
    SentByBound(starts, started, interval, t);
    NotAhead(SentBy(starts, t), started, interval, t);
  }

  lemma NotAhead(n: nat, started: real, interval: real, t: real)
    requires interval > 0.0 && t >= started && (n > 0 ==> Ideal(started, interval, n - 1) <= t)
    ensures n <= ((t - started) / interval).Floor + 1
  {
    if n > 0 {
      IdealIs(started, interval, n - 1);
      QuotientAtLeast(n - 1, t - started, interval);
    } else {
      QuotientAtLeast(0, t - started, interval);
    }
  }

  lemma AtMostCeil(n: nat, q: real)
    requires (n as real) - 1.0 < q
    ensures n <= Ceil(q)
  {
    assert -q < 1.0 - n as real;
    assert (-q).Floor as real <= -q;
  }

  /** All batches attempted before the deadline are at most the intervals the step holds, rounded up. */
  lemma StepHoldsAtMost(starts: seq<real>, started: real, interval: real, duration: real)
    requires Paced(starts, started, interval) && interval > 0.0
    requires forall i :: 0 <= i < |starts| ==> starts[i] < started + duration
    ensures starts != [] ==> |starts| <= Ceil(duration / interval)
  {
    var n := |starts|;
    if n > 0 {
      var last := starts[n - 1];
      assert Ideal(started, interval, n - 1) <= last && last < started + duration;
      IdealIs(started, interval, n - 1);
      BelowQuotient(n - 1, duration, interval);
      AtMostCeil(n, duration / interval);
    }
  }

  // -- re-anchoring and sleeping ------------------------------------------------------------

  /** What re-anchoring has written off in all. */
  function Lost(skips: seq<Skip>): real {
    if skips == [] then 0.0 else Lost(skips[..|skips| - 1]) + skips[|skips| - 1].amount
  }

  /** What it had written off by time t. */
  function LostBy(skips: seq<Skip>, t: real): real {
    if skips == [] then 0.0 else
      var last := skips[|skips| - 1];
      LostBy(skips[..|skips| - 1], t) + if last.at <= t then last.amount else 0.0
  }

  lemma {:induction false} AllLostBy(skips: seq<Skip>, t: real)
    requires forall i :: 0 <= i < |skips| ==> skips[i].at <= t
    ensures LostBy(skips, t) == Lost(skips)
  {
    if skips != [] {
      AllLostBy(skips[..|skips| - 1], t);
    }
  }

  /** No re-anchoring happened by time t. */
  predicate NoSkipBy(skips: seq<Skip>, t: real) {
    forall i :: 0 <= i < |skips| ==> skips[i].at > t
  }

  lemma {:induction false} NothingLostBy(skips: seq<Skip>, t: real)
    requires NoSkipBy(skips, t)
    ensures LostBy(skips, t) == 0.0
  {
    if skips != [] {
      NothingLostBy(skips[..|skips| - 1], t);
    }
  }

  lemma {:induction false} LostAtLeast(skips: seq<Skip>)
    requires forall i :: 0 <= i < |skips| ==> skips[i].amount > 1.0
    ensures Lost(skips) >= |skips| as real
  {
    if skips != [] {
      LostAtLeast(skips[..|skips| - 1]);
    }
  }

  /** At time z the last batch sent was due and the next one is not. */
  ghost predicate BetweenBatches(p: Plan, starts: seq<real>, skips: seq<Skip>, z: real) {
    var n := SentBy(starts, z);
    && n > 0
    && Ideal(p.started, p.interval, n - 1) + LostBy(skips, z) <= z < Ideal(p.started, p.interval, n) + LostBy(skips, z)
  }

  /** So the batches sent by then are exactly those due, less the time that re-anchoring wrote off. */
  lemma {:induction false} SleepIsExact(p: Plan, starts: seq<real>, skips: seq<Skip>, z: real)
    requires p.interval > 0.0 && BetweenBatches(p, starts, skips, z)
    ensures SentBy(starts, z) == ((z - p.started - LostBy(skips, z)) / p.interval).Floor + 1
    ensures NoSkipBy(skips, z) ==> SentBy(starts, z) == ((z - p.started) / p.interval).Floor + 1
  {
    var n := SentBy(starts, z);
    IsQuotient(n, p.started, p.interval, z - p.started - LostBy(skips, z));
    if NoSkipBy(skips, z) {
      NothingLostBy(skips, z);
    }
  }

  /** Seconds from one batch to the next. */
  function IntervalOf(rps: real, batch: nat): real
    requires batch > 0
  {
    if rps <= 0.0 then 0.0 else
      PositiveQuotient(rps, batch as real);
      1.0 / (rps / batch as real)
  }

  /** How many batches fill x seconds. */
  function Filling(rps: real, batch: nat, x: real): int
    requires batch > 0
  {
    if rps <= 0.0 then 0 else
      IntervalIs(rps, batch as real, x);
      Ceil(x / IntervalOf(rps, batch))
  }

  /** Batches due after x seconds of schedule: the one at 0 and one for each whole interval. */
  function DueBy(rps: real, batch: nat, x: real): int
    requires batch > 0
  {
    if rps <= 0.0 then 0 else
      IntervalIs(rps, batch as real, x);
      (x / IntervalOf(rps, batch)).Floor + 1
  }

  lemma {:induction false} SleepsAreExact(p: Plan, rps: real, starts: seq<real>, skips: seq<Skip>, sleeps: seq<real>)
    requires rps > 0.0 && p.batch > 0 && p.interval == IntervalOf(rps, p.batch)
    requires p.interval > 0.0 && SleptBetween(p, starts, skips, sleeps)
    ensures forall i :: 0 <= i < |sleeps| ==>
      SentBy(starts, sleeps[i]) == DueBy(rps, p.batch, sleeps[i] - p.started - LostBy(skips, sleeps[i]))
    ensures forall i :: 0 <= i < |sleeps| && NoSkipBy(skips, sleeps[i]) ==>
      SentBy(starts, sleeps[i]) == DueBy(rps, p.batch, sleeps[i] - p.started)
  {
    forall i | 0 <= i < |sleeps|
      ensures SentBy(starts, sleeps[i]) == DueBy(rps, p.batch, sleeps[i] - p.started - LostBy(skips, sleeps[i]))
      ensures NoSkipBy(skips, sleeps[i]) ==> SentBy(starts, sleeps[i]) == DueBy(rps, p.batch, sleeps[i] - p.started)
    {
      SleepIsExact(p, starts, skips, sleeps[i]);
    }
  }

  lemma IsQuotient(n: nat, started: real, interval: real, x: real)
    requires interval > 0.0 && n > 0
    requires Ideal(started, interval, n - 1) <= started + x < Ideal(started, interval, n)
    ensures n == (x / interval).Floor + 1
  {
    IdealIs(started, interval, n - 1);
    IdealIs(started, interval, n);
    QuotientAtLeast(n - 1, x, interval);
    QuotientBelow(n, x, interval);
  }

  /** The constants of one step. */
  datatype Plan = Plan(started: real, interval: real, deadline: real, batch: nat, seq0: int)

  /** Where the schedule stands: the next batch is due one interval after the one before it, later
      only by what re-anchoring wrote off, and that is more than a second each time. */
  ghost predicate OnSchedule(p: Plan, starts: seq<real>, skips: seq<Skip>, nextSubmit: real, clock: real) {
    && p.interval > 0.0 && p.started <= clock
    && Paced(starts, p.started, p.interval)
    && (forall i :: 0 <= i < |starts| ==> starts[i] < p.deadline && starts[i] <= clock)
    && (forall i :: 0 <= i < |skips| ==> skips[i].amount > 1.0 && skips[i].at <= clock)
    && nextSubmit == Ideal(p.started, p.interval, |starts|) + Lost(skips)
    && (if starts == [] then nextSubmit == p.started else nextSubmit - p.interval <= clock)
  }

  /** What one more batch does to the schedule: by the ideal timeline the next one is due an interval
      later, but a pacer more than a second behind starts again from now. */
  function SkipsAfter(skips: seq<Skip>, due: real, now: real, at: real): seq<Skip> {
    if due < now - 1.0 then skips + [Skip(at, now - due)] else skips
  }

  /** One more batch was put at time t, by a turn that read the clock as `now`. */
  lemma Advance(p: Plan, starts: seq<real>, skips: seq<Skip>, nextSubmit: real, clock: real,
                t: real, now: real, clock': real)
    requires OnSchedule(p, starts, skips, nextSubmit, clock)
    requires nextSubmit <= clock <= t <= clock' && p.started <= now <= clock && t < p.deadline
    ensures var due := nextSubmit + p.interval;
            OnSchedule(p, starts + [t], SkipsAfter(skips, due, now, clock'),
                       if due < now - 1.0 then now else due, clock')
  {
    LostAtLeast(skips);
    PacedSnoc(starts, t, p.started, p.interval, Lost(skips));
    assert |starts + [t]| == |starts| + 1;
    var due := nextSubmit + p.interval;
    if due < now - 1.0 {
      assert (skips + [Skip(clock', now - due)])[..|skips|] == skips;
    }
  }

  lemma Later(p: Plan, starts: seq<real>, skips: seq<Skip>, nextSubmit: real, clock: real, clock': real)
    requires OnSchedule(p, starts, skips, nextSubmit, clock) && clock <= clock'
    ensures OnSchedule(p, starts, skips, nextSubmit, clock')
  {
  }

  /** Every time the pacer went to sleep it was between two batches. */
  ghost predicate SleptBetween(p: Plan, starts: seq<real>, skips: seq<Skip>, sleeps: seq<real>) {
    forall i :: 0 <= i < |sleeps| ==> BetweenBatches(p, starts, skips, sleeps[i])
  }

  /** The sleeps are over. */
  ghost predicate Awake(sleeps: seq<real>, clock: real) {
    forall i :: 0 <= i < |sleeps| ==> sleeps[i] < clock
  }

  lemma GoesToSleep(p: Plan, starts: seq<real>, skips: seq<Skip>, nextSubmit: real, now: real, sleeps: seq<real>)
    requires OnSchedule(p, starts, skips, nextSubmit, now) && nextSubmit > now && SleptBetween(p, starts, skips, sleeps)
    ensures SleptBetween(p, starts, skips, sleeps + [now])
  {
    AllBy(starts, now);
    AllLostBy(skips, now);
    assert starts != [] ==>
      Ideal(p.started, p.interval, |starts|) == Ideal(p.started, p.interval, |starts| - 1) + p.interval;
  }

  /** A later batch, and a later re-anchoring, are not counted at earlier sleeps. */
  lemma SleepsStay(p: Plan, starts: seq<real>, skips: seq<Skip>, sleeps: seq<real>, t: real, due: real, now: real,
                   at: real)
    requires SleptBetween(p, starts, skips, sleeps) && Awake(sleeps, t) && t <= at
    ensures SleptBetween(p, starts + [t], SkipsAfter(skips, due, now, at), sleeps)
  {
    var skips' := SkipsAfter(skips, due, now, at);
    forall i | 0 <= i < |sleeps| ensures BetweenBatches(p, starts + [t], skips', sleeps[i]) {
      assert BetweenBatches(p, starts, skips, sleeps[i]);
      assert (starts + [t])[..|starts|] == starts;
      if skips' != skips {
        assert skips'[..|skips|] == skips;
      }
    }
  }

  lemma BatchKeepsSchedule(p: Plan, starts: seq<real>, skips: seq<Skip>, nextSubmit: real, sleeps: seq<real>,
                           clock: real, t: real, now: real, clock': real)
    requires OnSchedule(p, starts, skips, nextSubmit, clock) && SleptBetween(p, starts, skips, sleeps)
    requires nextSubmit <= clock <= t <= clock' && p.started <= now <= clock && t < p.deadline && Awake(sleeps, clock)
    ensures var due := nextSubmit + p.interval;
            var skips' := SkipsAfter(skips, due, now, clock');
            && OnSchedule(p, starts + [t], skips', if due < now - 1.0 then now else due, clock')
            && SleptBetween(p, starts + [t], skips', sleeps)
  {
    Advance(p, starts, skips, nextSubmit, clock, t, now, clock');
    SleepsStay(p, starts, skips, sleeps, t, nextSubmit + p.interval, now, clock');
  }

  lemma {:induction false} PacedSnoc(starts: seq<real>, t: real, started: real, interval: real, skipped: real)
    requires Paced(starts, started, interval) && skipped >= 0.0 && interval > 0.0
    requires Ideal(started, interval, |starts|) + skipped <= t
    requires forall i :: 0 <= i < |starts| ==> starts[i] <= t
    ensures Paced(starts + [t], started, interval)
  {
  }

  lemma IntervalIs(rps: real, batch: real, duration: real)
    requires rps > 0.0 && batch > 0.0
    ensures rps / batch > 0.0 && 1.0 / (rps / batch) > 0.0
    ensures duration / (1.0 / (rps / batch)) == duration * rps / batch
  {
    PositiveQuotient(rps, batch);
    PositiveQuotient(1.0, rps / batch);
  }

  lemma PositiveQuotient(a: real, b: real)
    requires b > 0.0
    ensures a / b > 0.0 <==> a > 0.0
  {
    var q := a / b;
    assert q * b == a;
  }
}
