/** The turns of the loop of `run_step` (generator/src/loadgen.py, lines 153 to 213): how each ends, what
    it does to the schedule, and how far the pacer can fall behind. The scheduler and the queue are an
    environment that decides how long everything takes. */
module PacerTurns {
  import opened Basics
  import opened PacerSchedule

  type Duration = x: real | x >= 0.0

  /** One turn of the inner loop: the guard reads the clock, then `put` takes its time and either
      finds room or raises Full. */
  datatype Attempt = Attempt(before: Duration, took: Duration, full: bool)

  /** One turn of the pacer's loop, as the environment plays it. When the turns (or the tries) run
      out, the loop's guard sees the stop flag. */
  datatype Turn = Turn(
    before: Duration,      // until `now` is read
    overshoot: Duration,   // `wait` returns this much after its timeout
    interrupted: bool,     // `wait` was cut short by the stop flag
    alloc: Duration,       // until the put is attempted
    tries: seq<Attempt>,
    after: Duration,       // until the stall is measured
    aborted: bool)         // an abort reason is set by the end of the turn

  /** How a turn ended: it only waited, it sent a batch, or it left the loop. */
  datatype End = Waited | Sent | PastDeadline | Interrupted | NotPut | Aborted
  {
    predicate Leaves() {
      !Waited? && !Sent?
    }

    predicate Sends() {
      Sent? || Aborted?
    }
  }

  /** The reasons for leaving the loop before the deadline. */
  predicate EndsEarly(turn: Turn) {
    turn.interrupted || turn.aborted || AllFull(turn.tries)
  }

  predicate AllFull(tries: seq<Attempt>) {
    forall i :: 0 <= i < |tries| ==> tries[i].full
  }

  /** How long the first n tries take. */
  function Elapsed(tries: seq<Attempt>, n: nat): Duration
    requires n <= |tries|
  {
    if n == 0 then 0.0 else Elapsed(tries, n - 1) + tries[n - 1].before + tries[n - 1].took
  }

  /** When the guard before try i reads the clock, if the tries before it were made. */
  function GuardAt(t: real, tries: seq<Attempt>, i: nat): real
    requires i < |tries|
  {
    t + Elapsed(tries, i) + tries[i].before
  }

  /** Try i is the first to find room, and it is made before the deadline. */
  ghost predicate FindsRoom(t: real, tries: seq<Attempt>, deadline: real, i: nat) {
    i < |tries| && !tries[i].full && (forall j :: 0 <= j < i ==> tries[j].full) && GuardAt(t, tries, i) < deadline
  }

  /** The tries that start at time t put the batch. */
  ghost predicate Lands(t: real, tries: seq<Attempt>, deadline: real) {
    exists i :: FindsRoom(t, tries, deadline, i)
  }

  lemma {:induction false} TimePasses(tries: seq<Attempt>, i: nat, j: nat)
    requires i <= j <= |tries|
    ensures Elapsed(tries, i) <= Elapsed(tries, j)
    ensures i < j ==> Elapsed(tries, i) + tries[i].before + tries[i].took <= Elapsed(tries, j)
  {
    if i + 1 < j {
      TimePasses(tries, i, j - 1);
    }
  }

  lemma {:induction false} TooLate(t: real, tries: seq<Attempt>, deadline: real, i: nat)
    requires i < |tries| && (forall j :: 0 <= j < i ==> tries[j].full) && GuardAt(t, tries, i) >= deadline
    ensures !Lands(t, tries, deadline)
  {
    forall k ensures !FindsRoom(t, tries, deadline, k) {
      if FindsRoom(t, tries, deadline, k) {
        TimePasses(tries, i, k);
      }
    }
  }

  // -- one turn ------------------------------------------------------------------------------------

  /** What the main thread's part of the engine holds during one step. */
  datatype Pace = Pace(
    clock: real, nextSeq: int, offered: int, stalledMs: real,
    starts: seq<real>, sleeps: seq<real>, skips: seq<Skip>, nextSubmit: real)

  /** What a turn takes from the allocation on. */
  function Busy(turn: Turn): Duration {
    turn.alloc + Elapsed(turn.tries, |turn.tries|) + turn.after
  }

  /** What a turn takes in all, apart from the sleep it asks for. */
  function Work(turn: Turn): Duration {
    turn.before + turn.overshoot + Busy(turn)
  }

  function StallOf(waited: real): real {
    if waited > 0.001 then waited * 1000.0 else 0.0
  }

  /** How a turn ends that allocates at time t. */
  ghost function SendEnds(turn: Turn, t: real, deadline: real): End {
    if !Lands(t + turn.alloc, turn.tries, deadline) then NotPut
    else if turn.aborted then Aborted else Sent
  }

  /** The state after a batch was put at time t, by a turn that read the clock as `now`. */
  function Booked(a: Pace, batch: nat, interval: real, t: real, now: real, clock: real, stalledMs: real): Pace {
    var due := a.nextSubmit + interval;
    Pace(clock, a.nextSeq + batch, a.offered + batch, stalledMs, a.starts + [t], a.sleeps,
         SkipsAfter(a.skips, due, now, clock), if due < now - 1.0 then now else due)
  }

  /** What the part of a turn from the allocation on does: the batch is put and booked, or nothing but
      time is spent, because the deadline passed or the stop flag was set. */
  ghost predicate Moves(turn: Turn, now: real, interval: real, deadline: real, batch: nat,
                        a: Pace, end: End, b: Pace) {
    && a.clock + turn.alloc <= b.clock <= a.clock + Busy(turn)
    && b.stalledMs == a.stalledMs + StallOf(b.clock - (a.clock + turn.alloc))
    && (if end.Sends()
        then a.clock + turn.alloc < deadline
             && b == Booked(a, batch, interval, a.clock + turn.alloc, now, b.clock, b.stalledMs)
        else (b.clock >= deadline || AllFull(turn.tries)) && b == a.(clock := b.clock, stalledMs := b.stalledMs))
  }

  ghost predicate SendDone(turn: Turn, now: real, interval: real, deadline: real, batch: nat,
                           a: Pace, end: End, b: Pace) {
    end == SendEnds(turn, a.clock, deadline) && Moves(turn, now, interval, deadline, batch, a, end, b)
  }

  /** The pacer wakes up, or did not have to sleep. */
  function Woken(turn: Turn, now: real, a: Pace): Pace {
    if now < a.nextSubmit
    then a.(clock := a.nextSubmit + turn.overshoot, sleeps := a.sleeps + [now])
    else a.(clock := now)
  }

  /** One turn, from the guard of the loop to the next. */
  ghost predicate TurnDone(turn: Turn, interval: real, deadline: real, batch: nat, a: Pace, end: End, b: Pace) {
    var now := a.clock + turn.before;
    if now >= deadline then end == PastDeadline && b == a.(clock := now)
    else if now < a.nextSubmit && turn.interrupted then
      end == Interrupted && b == a.(clock := now, sleeps := a.sleeps + [now])
    else if a.nextSubmit - now > 0.25 then
      end == Waited && b == a.(clock := now + 0.25 + turn.overshoot, sleeps := a.sleeps + [now])
    else SendDone(turn, now, interval, deadline, batch, Woken(turn, now, a), end, b)
  }

  /** A due batch is sent, unless the deadline or the stop flag comes before there is room; only a batch
      that is more than a quarter of a second away is waited for. */
  lemma TurnEnds(turn: Turn, interval: real, deadline: real, batch: nat, a: Pace, end: End, b: Pace)
    requires TurnDone(turn, interval, deadline, batch, a, end, b)
    ensures var now := a.clock + turn.before;
      && (now < deadline && a.nextSubmit <= now ==> end.Sends() || end.NotPut?)
      && (end.Waited? <==> now < deadline && a.nextSubmit - now > 0.25 && !turn.interrupted)
      && (end.NotPut? ==> b.clock >= deadline || AllFull(turn.tries))
      && (|b.starts| == |a.starts| + if end.Sends() then 1 else 0)
      && (end.Leaves() ==> b.clock >= deadline || EndsEarly(turn))
  {
  }

  // -- the schedule and the books ------------------------------------------------------------------

  /** The pacer is on schedule, and its books are right: each enqueued batch was offered and keeps its
      sequence numbers, and nothing else does. */
  ghost predicate Scheduled(p: Plan, v: Pace) {
    match v
    case Pace(clock, nextSeq, offered, stalledMs, starts, sleeps, skips, nextSubmit) =>
      && OnSchedule(p, starts, skips, nextSubmit, clock)
      && SleptBetween(p, starts, skips, sleeps)
      && offered == Times(|starts|, p.batch) && nextSeq == p.seq0 + Times(|starts|, p.batch)
      && 0.0 <= stalledMs <= (clock - p.started) * 1000.0
  }

  lemma BookedKeepsSchedule(p: Plan, a: Pace, t: real, now: real, clock: real, stalledMs: real)
    requires Scheduled(p, a) && Awake(a.sleeps, a.clock) && p.started <= now <= a.clock && a.nextSubmit <= a.clock
    requires a.clock <= t <= clock && t < p.deadline && 0.0 <= stalledMs <= (clock - p.started) * 1000.0
    ensures Scheduled(p, Booked(a, p.batch, p.interval, t, now, clock, stalledMs))
  {
    BatchKeepsSchedule(p, a.starts, a.skips, a.nextSubmit, a.sleeps, a.clock, t, now, clock);
    assert |a.starts + [t]| == |a.starts| + 1;
  }

  lemma SendKeepsSchedule(p: Plan, turn: Turn, now: real, a: Pace, end: End, b: Pace)
    requires Scheduled(p, a) && Awake(a.sleeps, a.clock) && p.started <= now <= a.clock && a.nextSubmit <= a.clock
    requires Moves(turn, now, p.interval, p.deadline, p.batch, a, end, b)
    ensures Scheduled(p, b)
  {
    StallInTime(p, a, b, turn);
    var t, clock, stalledMs := a.clock + turn.alloc, b.clock, b.stalledMs;
    if end.Sends() {
      BookedKeepsSchedule(p, a, t, now, clock, stalledMs);
      assert b == Booked(a, p.batch, p.interval, t, now, clock, stalledMs);
    } else {
      TimeKeepsSchedule(p, a, clock, stalledMs);
    }
  }

  lemma TimeKeepsSchedule(p: Plan, a: Pace, clock: real, stalledMs: real)
    requires Scheduled(p, a) && a.clock <= clock && 0.0 <= stalledMs <= (clock - p.started) * 1000.0
    ensures Scheduled(p, a.(clock := clock, stalledMs := stalledMs))
  {
    Later(p, a.starts, a.skips, a.nextSubmit, a.clock, clock);
  }

  lemma StallInTime(p: Plan, a: Pace, b: Pace, turn: Turn)
    requires Scheduled(p, a) && a.clock + turn.alloc <= b.clock
    requires b.stalledMs == a.stalledMs + StallOf(b.clock - (a.clock + turn.alloc))
    ensures 0.0 <= b.stalledMs <= (b.clock - p.started) * 1000.0
  {
  }

  lemma SendStaysAwake(p: Plan, turn: Turn, now: real, a: Pace, end: End, b: Pace)
    requires Moves(turn, now, p.interval, p.deadline, p.batch, a, end, b) && Awake(a.sleeps, a.clock)
    ensures Awake(b.sleeps, b.clock)
  {
  }

  /** Going to sleep and waking up later. */
  lemma SleepKeepsSchedule(p: Plan, a: Pace, now: real, clock: real)
    requires Scheduled(p, a) && a.clock <= now < a.nextSubmit && now <= clock
    ensures Scheduled(p, a.(clock := clock, sleeps := a.sleeps + [now]))
  {
    Later(p, a.starts, a.skips, a.nextSubmit, a.clock, now);
    GoesToSleep(p, a.starts, a.skips, a.nextSubmit, now, a.sleeps);
    Later(p, a.starts, a.skips, a.nextSubmit, now, clock);
  }

  /** A turn keeps the schedule and the books. */
  lemma TurnKeepsSchedule(p: Plan, turn: Turn, a: Pace, end: End, b: Pace)
    requires Scheduled(p, a) && Awake(a.sleeps, a.clock)
    requires TurnDone(turn, p.interval, p.deadline, p.batch, a, end, b)
    ensures Scheduled(p, b) && (!end.Leaves() ==> Awake(b.sleeps, b.clock))
  {
    var now := a.clock + turn.before;
    if now >= p.deadline {
      Later(p, a.starts, a.skips, a.nextSubmit, a.clock, now);
    } else if now < a.nextSubmit && (turn.interrupted || a.nextSubmit - now > 0.25) {
      SleepKeepsSchedule(p, a, now, b.clock);
    } else {
      var u := Woken(turn, now, a);
      if now < a.nextSubmit {
        SleepKeepsSchedule(p, a, now, u.clock);
      } else {
        Later(p, a.starts, a.skips, a.nextSubmit, a.clock, now);
      }
      SendKeepsSchedule(p, turn, now, u, end, b);
      SendStaysAwake(p, turn, now, u, end, b);
    }
  }

  // -- how far behind -----------------------------------------------------------------------------------

  /** How late the next batch is, together with what was written off already. */
  function Lag(v: Pace): real {
    MaxReal(0.0, v.clock - v.nextSubmit) + Lost(v.skips)
  }

  /** What a turn can add to the lag: the work that does not fit into one interval, and how long a wait
      that takes more than one turn overshoots. */
  function Excess(turn: Turn, interval: real): Duration {
    MaxReal(0.0, Work(turn) - interval) + if interval > 0.25 then turn.overshoot else 0.0
  }

  function TotalExcess(turns: seq<Turn>, n: nat, interval: real): Duration
    requires n <= |turns|
  {
    if n == 0 then 0.0 else TotalExcess(turns, n - 1, interval) + Excess(turns[n - 1], interval)
  }

  /** What n turns can cost: the excess of all but the last, and the last one's work. */
  function Slack(turns: seq<Turn>, n: nat, interval: real): Duration
    requires 0 < n <= |turns|
  {
    TotalExcess(turns, n - 1, interval) + Work(turns[n - 1])
  }

  lemma {:induction false} NextLost(skips: seq<Skip>, due: real, now: real, at: real)
    ensures Lost(SkipsAfter(skips, due, now, at)) == Lost(skips) + if due < now - 1.0 then now - due else 0.0
  {
    if due < now - 1.0 {
      assert (skips + [Skip(at, now - due)])[..|skips|] == skips;
    }
  }

  lemma SendLags(p: Plan, turn: Turn, now: real, a: Pace, end: End, b: Pace)
    requires Moves(turn, now, p.interval, p.deadline, p.batch, a, end, b) && end.Sends() && now <= a.clock
    ensures b.nextSubmit - Lost(b.skips) == a.nextSubmit + p.interval - Lost(a.skips)
    ensures Lag(b) <= MaxReal(MaxReal(0.0, a.clock + Busy(turn) - a.nextSubmit - p.interval),
                              MaxReal(0.0, now - a.nextSubmit - p.interval)) + Lost(a.skips)
  {
    NextLost(a.skips, a.nextSubmit + p.interval, now, b.clock);
  }

  /** A turn that stays in the loop adds no more than its excess to the lag. */
  lemma TurnLags(p: Plan, turn: Turn, a: Pace, end: End, b: Pace)
    requires Scheduled(p, a) && TurnDone(turn, p.interval, p.deadline, p.batch, a, end, b) && !end.Leaves()
    ensures Lag(b) <= Lag(a) + Excess(turn, p.interval)
  {
    var now := a.clock + turn.before;
    if end.Sent? {
      SendLags(p, turn, now, Woken(turn, now, a), end, b);
    }
  }

  /** However a turn ends: the time up to it is covered by the batches sent, the lag before the turn and
      the turn's own work; strictly so if it stays in the loop. */
  lemma TurnCovers(p: Plan, turn: Turn, a: Pace, end: End, b: Pace)
    requires Scheduled(p, a) && TurnDone(turn, p.interval, p.deadline, p.batch, a, end, b)
    ensures Ideal(p.started, p.interval, |b.starts|) + Lag(a) + Work(turn) >= b.clock
    ensures !end.Leaves() ==> Ideal(p.started, p.interval, |b.starts|) + Lag(a) + Work(turn) > b.clock
  {
    var now := a.clock + turn.before;
    if end.Sends() {
      assert |b.starts| == |a.starts| + 1;
    }
  }

  /** The loop is at its guard after n turns: on schedule, and with no more lag than they explain. */
  ghost predicate Going(p: Plan, turns: seq<Turn>, n: nat, v: Pace)
    requires n <= |turns|
  {
    match v
    case Pace(clock, _, _, _, starts, sleeps, _, _) =>
      && Scheduled(p, v) && Awake(sleeps, clock)
      && Lag(v) <= TotalExcess(turns, n, p.interval)
      && (n > 0 ==> Ideal(p.started, p.interval, |starts|) + Slack(turns, n, p.interval) > clock)
  }

  /** The loop was left after n turns: on schedule, and the time that passed is covered by the batches sent
      and what the turns cost. Before the deadline it only stops for a reason. */
  ghost predicate Over(p: Plan, turns: seq<Turn>, n: nat, v: Pace)
    requires n <= |turns|
  {
    match v
    case Pace(clock, _, _, _, starts, _, _, _) =>
      && Scheduled(p, v)
      && (n > 0 ==> Ideal(p.started, p.interval, |starts|) + Slack(turns, n, p.interval) >= clock)
      && (clock < p.deadline ==> n == |turns| || (n > 0 && EndsEarly(turns[n - 1])))
      && (n > 0 && clock < p.deadline && !EndsEarly(turns[n - 1]) ==>
            Ideal(p.started, p.interval, |starts|) + Slack(turns, n, p.interval) > clock)
  }

  lemma TurnKeepsGoing(p: Plan, turns: seq<Turn>, i: nat, a: Pace, end: End, b: Pace)
    requires i < |turns| && TurnDone(turns[i], p.interval, p.deadline, p.batch, a, end, b)
    requires Going(p, turns, i, a)
    ensures if end.Leaves() then Over(p, turns, i + 1, b) else Going(p, turns, i + 1, b)
  {
    TurnKeepsSchedule(p, turns[i], a, end, b);
    TurnCovers(p, turns[i], a, end, b);
    TurnEnds(turns[i], p.interval, p.deadline, p.batch, a, end, b);
    if !end.Leaves() {
      TurnLags(p, turns[i], a, end, b);
    }
  }

  lemma StopsAtGuard(p: Plan, turns: seq<Turn>, v: Pace)
    requires Going(p, turns, |turns|, v)
    ensures Over(p, turns, |turns|, v)
  {
  }

  lemma AtLeastCeil(n: nat, q: real)
    requires n as real >= q
    ensures n >= Ceil(q)
  {
    var k := (-q).Floor;
    if k + n < 0 {
    }
  }

  /** So many batches fill x seconds of the timeline. */
  lemma {:induction false} EnoughSent(n: nat, started: real, interval: real, x: real)
    requires interval > 0.0 && Ideal(started, interval, n) >= started + x
    ensures n >= Ceil(x / interval)
    ensures Ideal(started, interval, n) > started + x ==> n >= (x / interval).Floor + 1
  {
    IdealIs(started, interval, n);
    var q := x / interval;
    assert q * interval == x;
    Scaled(n as real, q, interval);
    AtLeastCeil(n, q);
    if n as real * interval > x {
      QuotientBelow(n, x, interval);
    }
  }

  /** Turns that take at most an interval each, and waits that end on time, cost nothing but the last turn. */
  lemma {:induction false} NoExcess(turns: seq<Turn>, n: nat, interval: real)
    requires n <= |turns|
    requires forall i :: 0 <= i < n ==> Work(turns[i]) <= interval && (interval > 0.25 ==> turns[i].overshoot == 0.0)
    ensures TotalExcess(turns, n, interval) == 0.0
    ensures n < |turns| ==> Slack(turns, n + 1, interval) == Work(turns[n])
  {
    if n > 0 {
      NoExcess(turns, n - 1, interval);
    }
  }

  // -- one step ---------------------------------------------------------------------------------------

  function PlanOf(rps: real, batch: nat, duration: real, started: real, seq0: int): Plan
    requires batch > 0
  {
    Plan(started, IntervalOf(rps, batch), started + duration, batch, seq0)
  }

  /** Whenever the pacer went to sleep it had attempted exactly the batches due by then, less what
      re-anchoring had written off; without a re-anchoring by then, exactly the batches due. */
  ghost predicate ExactAtSleeps(rps: real, batch: nat, started: real, v: Pace)
    requires batch > 0
  {
    match v
    case Pace(_, _, _, _, starts, sleeps, skips, _) =>
      && (forall i :: 0 <= i < |sleeps| ==>
            SentBy(starts, sleeps[i]) == DueBy(rps, batch, sleeps[i] - started - LostBy(skips, sleeps[i])))
      && (forall i :: 0 <= i < |sleeps| && NoSkipBy(skips, sleeps[i]) ==>
            SentBy(starts, sleeps[i]) == DueBy(rps, batch, sleeps[i] - started))
  }

  lemma IntervalPositive(rps: real, batch: nat)
    requires batch > 0 && rps > 0.0
    ensures IntervalOf(rps, batch) > 0.0 && IntervalOf(rps, batch) * rps == batch as real
  {
    var q := rps / batch as real;
    PositiveQuotient(rps, batch as real);
    PositiveQuotient(1.0, q);
    var i := 1.0 / q;
    assert q * batch as real == rps && i * q == 1.0;
    assert i * (q * batch as real) == (i * q) * batch as real;
  }

  /** So many batches fill x seconds: as many as it takes to hold the records of x seconds at the rate. */
  lemma FillingHolds(rps: real, batch: nat, x: real, n: int)
    requires batch > 0 && rps > 0.0
    ensures Filling(rps, batch, x) <= n <==> x * rps <= n as real * batch as real
  {
    IntervalPositive(rps, batch);
    var interval, b := IntervalOf(rps, batch), batch as real;
    var q := x / interval;
    assert q * interval == x;
    assert (q * interval) * rps == q * (interval * rps);
    Scaled(n as real, q, b);
    CeilAtMost(q, n);
  }

  /** One batch more than what is due by then is more than the rate allows, and one less is not enough. */
  lemma DueHolds(rps: real, batch: nat, x: real, n: int)
    requires batch > 0 && rps > 0.0
    ensures DueBy(rps, batch, x) <= n <==> x * rps < n as real * batch as real
  {
    IntervalPositive(rps, batch);
    var interval, b := IntervalOf(rps, batch), batch as real;
    var q := x / interval;
    assert q * interval == x;
    assert (q * interval) * rps == q * (interval * rps);
    Scaled(q, n as real, b);
  }

  /** The step never runs ahead of its rate. */
  lemma {:induction false} NotTooFast(p: Plan, rps: real, duration: real, v: Pace)
    requires p.batch > 0 && rps > 0.0 && p == PlanOf(rps, p.batch, duration, p.started, p.seq0) && Scheduled(p, v)
    ensures v.starts != [] ==> |v.starts| <= Filling(rps, p.batch, duration)
    ensures v.starts != [] ==> v.offered <= p.batch * Filling(rps, p.batch, duration)
    ensures v.offered == p.batch * |v.starts| && v.nextSeq == p.seq0 + v.offered
  {
    IntervalPositive(rps, p.batch);
    StepHoldsAtMost(v.starts, p.started, p.interval, duration);
    TimesIsProduct(|v.starts|, p.batch);
    if v.starts != [] {
      TimesAtMost(|v.starts|, p.batch, Filling(rps, p.batch, duration));
    }
  }

  /** When x seconds of the timeline are covered, as many batches were sent. */
  lemma {:induction false} NotTooSlow(p: Plan, rps: real, n: nat, x: real)
    requires p.batch > 0 && rps > 0.0 && p.interval == IntervalOf(rps, p.batch)
    ensures Ideal(p.started, p.interval, n) >= p.started + x ==> n >= Filling(rps, p.batch, x)
    ensures Ideal(p.started, p.interval, n) > p.started + x ==> n >= DueBy(rps, p.batch, x)
  {
    IntervalPositive(rps, p.batch);
    if Ideal(p.started, p.interval, n) >= p.started + x {
      EnoughSent(n, p.started, p.interval, x);
    }
  }

  lemma {:induction false} SleptExactly(p: Plan, rps: real, v: Pace)
    requires p.batch > 0 && rps > 0.0 && p.interval == IntervalOf(rps, p.batch) && Scheduled(p, v)
    ensures ExactAtSleeps(rps, p.batch, p.started, v)
  {
    IntervalPositive(rps, p.batch);
    SleepsAreExact(p, rps, v.starts, v.skips, v.sleeps);
  }
}
