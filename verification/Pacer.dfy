/** `run_step` (generator/src/loadgen.py, lines 123 to 222), with the clock. */
module Pacer {
  import opened Basics
  import opened PacerSchedule
  import opened PacerTurns
  import opened PacerEvents

  /** The main thread's part of `LoadGenerator` during one step. */
  class StepPacer {
    var nextSeq: int
    var clock: real
    var offered: int
    var stalledMs: real
    // what the schedule did
    var starts: seq<real>      // time.monotonic() before the put of each enqueued batch
    var sleeps: seq<real>      // `now` whenever the pacer went to sleep
    var skips: seq<Skip>       // re-anchorings
    var nextSubmit: real

    function View(): Pace
      reads this
    {
      Pace(clock, nextSeq, offered, stalledMs, starts, sleeps, skips, nextSubmit)
    }

    /** The events so far end where the object is. */
    ghost predicate At(m: Mark, place: Place)
      reads this
    {
      m.place == place && m.nextSeq == nextSeq && m.offered == offered && m.sent == |starts|
    }

    constructor (nextSeq: int, clock: real)
      ensures View() == Pace(clock, nextSeq, 0, 0.0, [], [], [], 0.0)
    {
      this.nextSeq, this.clock := nextSeq, clock;
      offered, stalledMs, starts, sleeps, skips, nextSubmit := 0, 0.0, [], [], [], 0.0;
    }

    /** The inner loop: try to put until there is room, the deadline passes or the stop flag is set. */
    method TryPut(tries: seq<Attempt>, deadline: real, ghost batch: nat, ghost m: Mark)
      returns (enqueued: bool, ghost log: seq<Event>)
      requires m.place == Holding
      modifies this`clock
      ensures old(clock) <= clock <= old(clock) + Elapsed(tries, |tries|)
      ensures enqueued <==> Lands(old(clock), tries, deadline)
      ensures enqueued ==> old(clock) < deadline
      ensures !enqueued ==> clock >= deadline || AllFull(tries)
      ensures After(batch, m, log) == if enqueued then m.(place := Queued, sent := m.sent + 1) else m
    {
      enqueued, log := false, [];
      var i := 0;
      while i < |tries|
        invariant 0 <= i <= |tries| && clock >= old(clock)
        invariant forall j :: 0 <= j < i ==> tries[j].full
        invariant clock == old(clock) + Elapsed(tries, i)
        invariant After(batch, m, log) == m
      {
        TimePasses(tries, i, |tries|);
        clock := clock + tries[i].before;
        if clock >= deadline {
          TooLate(old(clock), tries, deadline, i);
          return;
        }
        AfterConcat(batch, m, log, [Try, if tries[i].full then Full else Put]);
        AfterTwo(batch, m, Try, if tries[i].full then Full else Put);
        log := log + [Try, if tries[i].full then Full else Put];
        clock := clock + tries[i].took;
        if !tries[i].full {
          assert FindsRoom(old(clock), tries, deadline, i);
          enqueued := true;
          return;
        }
        i := i + 1;
      }
    }

    /** Put one batch, measuring how long that blocks. */
    method PutBatch(turn: Turn, deadline: real, ghost batch: nat, ghost m: Mark)
      returns (enqueued: bool, stallStarted: real, ghost log: seq<Event>)
      requires m.place == Holding
      modifies this`clock, this`stalledMs
      ensures stallStarted == old(clock) + turn.alloc <= clock <= old(clock) + Busy(turn)
      ensures enqueued <==> Lands(stallStarted, turn.tries, deadline)
      ensures enqueued ==> stallStarted < deadline
      ensures !enqueued ==> clock >= deadline || AllFull(turn.tries)
      ensures stalledMs == old(stalledMs) + StallOf(clock - stallStarted)
      ensures After(batch, m, log) == if enqueued then m.(place := Queued, sent := m.sent + 1) else m
    {
      clock := clock + turn.alloc;
      stallStarted := clock;
      enqueued, log := TryPut(turn.tries, deadline, batch, m);
      clock := clock + turn.after;
      var stalled := clock - stallStarted;
      if stalled > 0.001 {
        stalledMs := stalledMs + stalled * 1000.0;
      }
    }

    /** Allocate a range and try to put it; a range that was never submitted is given back. */
    method Submit(turn: Turn, deadline: real, batch: nat, ghost m: Mark)
      returns (enqueued: bool, stallStarted: real, ghost log: seq<Event>)
      requires At(m, InTurn)
      modifies this`nextSeq, this`clock, this`stalledMs
      ensures stallStarted == old(clock) + turn.alloc <= clock <= old(clock) + Busy(turn)
      ensures enqueued <==> Lands(stallStarted, turn.tries, deadline)
      ensures enqueued ==> stallStarted < deadline
      ensures !enqueued ==> clock >= deadline || AllFull(turn.tries)
      ensures stalledMs == old(stalledMs) + StallOf(clock - stallStarted)
      ensures nextSeq == old(nextSeq) + if enqueued then batch else 0
      ensures After(batch, m, log).place == if enqueued then Queued else Gone
      ensures After(batch, m, log).nextSeq == nextSeq && After(batch, m, log).offered == offered
      ensures After(batch, m, log).sent == |starts| + if enqueued then 1 else 0
    {
      ghost var holding := Next(batch, m, Allocate);
      var seqStart := nextSeq;
      nextSeq := nextSeq + batch;
      enqueued, stallStarted, log := PutBatch(turn, deadline, batch, holding);
      AfterFirst(batch, m, Allocate, log);
      log := [Allocate] + log;
      if !enqueued {
        if nextSeq == seqStart + batch {
          nextSeq := seqStart;
        }
        AfterConcat(batch, m, log, [GiveUp, RollBack]);
        AfterTwo(batch, holding, GiveUp, RollBack);
        log := log + [GiveUp, RollBack];
      }
    }

    /** The batch put at t is offered, and the next one is scheduled. */
    method Account(batch: nat, now: real, interval: real, t: real)
      modifies this`offered, this`starts, this`nextSubmit, this`skips
      ensures offered == old(offered) + batch && starts == old(starts) + [t]
      ensures skips == SkipsAfter(old(skips), old(nextSubmit) + interval, now, clock)
      ensures nextSubmit == if old(nextSubmit) + interval < now - 1.0 then now else old(nextSubmit) + interval
    {
      offered := offered + batch;
      starts := starts + [t];
      nextSubmit := nextSubmit + interval;
      if nextSubmit < now - 1.0 {
        skips := skips + [Skip(clock, now - nextSubmit)];
        nextSubmit := now;
      }
    }

    /** From the allocation of a range to the end of the turn. */
    method SendBatch(turn: Turn, now: real, interval: real, deadline: real, batch: nat, ghost m: Mark)
      returns (end: End, ghost log: seq<Event>)
      requires At(m, InTurn)
      modifies this
      ensures SendDone(turn, now, interval, deadline, batch, old(View()), end, View())
      ensures At(After(batch, m, log), if end.Leaves() then Gone else AtGuard)
    {
      var enqueued, stallStarted;
      enqueued, stallStarted, log := Submit(turn, deadline, batch, m);
      if !enqueued {
        return NotPut, log;
      }
      Account(batch, now, interval, stallStarted);
      end := if turn.aborted then Aborted else Sent;
      AfterBooked(batch, m, log, After(batch, m, log), turn.aborted);
      log := log + [Offer, Note(turn.aborted)];
    }

    /** Wait for the next batch to be due, for a quarter of a second at most. */
    method Doze(turn: Turn, now: real) returns (interrupted: bool, due: bool)
      requires now == clock < nextSubmit
      modifies this`clock, this`sleeps
      ensures sleeps == old(sleeps) + [now]
      ensures interrupted == turn.interrupted
      ensures clock == if interrupted then now else now + MinReal(nextSubmit - now, 0.25) + turn.overshoot
      ensures due <==> !interrupted && nextSubmit - now <= 0.25
    {
      sleeps := sleeps + [now];
      if turn.interrupted {
        return true, false;
      }
      var sleepFor := nextSubmit - now;
      clock := clock + MinReal(sleepFor, 0.25) + turn.overshoot;
      return false, sleepFor <= 0.25;
    }

    /** One turn of the loop. A batch that is due at its first look at the clock is sent, unless the
        deadline or the stop flag comes before there is room. It waits without sending only for a batch
        that is more than a quarter of a second away. */
    method OneTurn(turn: Turn, interval: real, deadline: real, batch: nat, ghost m: Mark)
      returns (end: End, ghost log: seq<Event>)
      requires At(m, AtGuard)
      modifies this
      ensures TurnDone(turn, interval, deadline, batch, old(View()), end, View())
      ensures var now := old(clock) + turn.before;
        && (now < deadline && old(nextSubmit) <= now ==> end.Sends() || end.NotPut?)
        && (end.Waited? <==> now < deadline && old(nextSubmit) - now > 0.25 && !turn.interrupted)
        && (end.NotPut? ==> clock >= deadline || AllFull(turn.tries))
      ensures |starts| == |old(starts)| + if end.Sends() then 1 else 0
      ensures At(After(batch, m, log), if end.Leaves() then Gone else AtGuard)
    {
      ghost var a := View();
      clock := clock + turn.before;
      var now := clock;
      ghost var inTurn := Next(batch, m, Enter);
      if now >= deadline {
        AfterTwo(batch, m, Enter, Leave);
        return PastDeadline, [Enter, Leave];
      }
      if nextSubmit > now {
        var interrupted, due := Doze(turn, now);
        if interrupted {
          AfterTwo(batch, m, Enter, Leave);
          return Interrupted, [Enter, Leave];
        }
        if !due {
          AfterTwo(batch, m, Enter, Wait);
          return Waited, [Enter, Wait];
        }
      }
      assert View() == Woken(turn, now, a);
      end, log := SendBatch(turn, now, interval, deadline, batch, inTurn);
      AfterFirst(batch, m, Enter, log);
      log := [Enter] + log;
      TurnEnds(turn, interval, deadline, batch, a, end, View());
    }

    /** The loop, until a turn leaves it or the stop flag is seen. */
    method Loop(turns: seq<Turn>, interval: real, deadline: real, batch: nat, ghost p: Plan, ghost m: Mark)
      returns (used: nat, ghost log: seq<Event>)
      requires p.interval == interval && p.deadline == deadline && p.batch == batch
      requires Going(p, turns, 0, View()) && At(m, AtGuard)
      modifies this
      ensures used <= |turns|
      ensures Over(p, turns, used, View())
      ensures At(After(batch, m, log), Gone)
    {
      used, log := 0, [];
      while used < |turns|
        invariant used <= |turns|
        invariant Going(p, turns, used, View())
        invariant At(After(batch, m, log), AtGuard)
      {
        ghost var a := View();
        var end;
        ghost var events;
        end, events := OneTurn(turns[used], interval, deadline, batch, After(batch, m, log));
        TurnKeepsGoing(p, turns, used, a, end, View());
        AfterConcat(batch, m, log, events);
        log := log + events;
        used := used + 1;
        if end.Leaves() {
          return;
        }
      }
      StopsAtGuard(p, turns, View());
      AfterOne(batch, m, log, Leave);
      log := log + [Leave];
    }

    /** One step. The turns are what the scheduler and the queue do; the rate check is the only error. */
    method RunStep(rps: real, batch: nat, duration: real, turns: seq<Turn>)
      returns (raised: bool, used: nat, ghost log: seq<Event>)
      requires batch > 0
      modifies this
      ensures raised <==> rps <= 0.0
      ensures used <= |turns|
      ensures !raised ==> Scheduled(PlanOf(rps, batch, duration, old(clock), old(nextSeq)), View())
      ensures !raised && clock < old(clock) + duration ==> used == |turns| || (used > 0 && EndsEarly(turns[used - 1]))
      // not too fast
      ensures !raised && starts != [] ==> |starts| <= Filling(rps, batch, duration)
      ensures !raised && starts != [] ==> offered <= batch * Filling(rps, batch, duration)
      // not too slow
      ensures !raised && used > 0 ==>
        |starts| >= Filling(rps, batch, clock - old(clock) - Slack(turns, used, IntervalOf(rps, batch)))
      ensures !raised && used > 0 && clock < old(clock) + duration && !EndsEarly(turns[used - 1]) ==>
        |starts| >= DueBy(rps, batch, clock - old(clock) - Slack(turns, used, IntervalOf(rps, batch)))
      ensures !raised ==> offered == batch * |starts| && nextSeq == old(nextSeq) + offered
      // exact at every sleep
      ensures !raised ==> ExactAtSleeps(rps, batch, old(clock), View())
      ensures !raised ==> At(After(batch, Mark(AtGuard, old(nextSeq), 0, 0, 0), log), Gone)
    {
      PositiveQuotient(rps, batch as real);
      var batchesPerSecond := rps / batch as real;
      if batchesPerSecond <= 0.0 {
        return true, 0, [];
      }
      raised := false;
      var interval := 1.0 / batchesPerSecond;
      var started := clock;
      var deadline := started + duration;
      ghost var p := PlanOf(rps, batch, duration, started, nextSeq);
      nextSubmit := started;
      offered, stalledMs, starts, sleeps, skips := 0, 0.0, [], [], [];
      used, log := Loop(turns, interval, deadline, batch, p, Mark(AtGuard, nextSeq, 0, 0, 0));
      ghost var x := if used > 0 then clock - started - Slack(turns, used, IntervalOf(rps, batch)) else 0.0;
      IntervalPositive(rps, batch);
      NotTooFast(p, rps, duration, View());
      NotTooSlow(p, rps, |starts|, x);
      SleptExactly(p, rps, View());
    }
  }
}
