/** The clocked pacer of `Pacer` is the main thread of the state machine of `Loadgen`: what one step of
    it does is a schedule of the state machine, whatever the workers do in between. */
module PacerPaths {
  import opened Basics
  import opened Loadgen
  import opened LoadgenPaths
  import opened LoadgenSteps
  import opened LoadgenStop
  import E = PacerEvents
  import P = Pacer

  function Act(e: E.Event): Action {
    match e
    case Enter => EnterTurn
    case Wait => Wait
    case Leave => LeaveLoop
    case Allocate => Allocate
    case Try => TryPut
    case Full => Put
    case Put => Put
    case GiveUp => GiveUp
    case RollBack => RollBack
    case Offer => RecordOffered
    case Note(_) => RecordInStep
  }

  /** What the main thread saw when it did this is what the shared state says. */
  predicate Saw(c: Config, s: State, e: E.Event) {
    match e
    case Enter => !s.stop
    case Try => !s.stop
    case Full => |s.queue| >= c.QueueSize()
    case Put => |s.queue| < c.QueueSize()
    case Note(aborted) => aborted == s.aborted
    case _ => true
  }

  function PlaceOf(p: Pacer): E.Place {
    match p
    case Looping => E.AtGuard
    case InTurn => E.InTurn
    case Allocated(_) => E.Holding
    case Putting(_) => E.InPut
    case GaveUp(_) => E.GivingUp
    case Enqueued(_) => E.Queued
    case Recorded(_) => E.Counted
    case _ => E.Gone
  }

  /** A worker, or the operator who sets the stop flag. */
  predicate IsOther(a: Action) {
    WorkerOf(a) >= 0 || a.Signal?
  }

  /** On the schedule `acts` from s to t the main thread does exactly what is in the log. */
  ghost predicate Follows(c: Config, s: State, acts: seq<Action>, log: seq<E.Event>, t: State)
    requires c.Valid()
    decreases |acts|
  {
    if acts == [] then log == [] && s == t
    else
      && PoolShape(c, s.pool)
      && if IsOther(acts[0]) then Follows(c, Step(c, s, acts[0]), acts[1..], log, t)
         else
           && log != [] && acts[0] == Act(log[0]) && Saw(c, s, log[0])
           && Follows(c, Step(c, s, acts[0]), acts[1..], log[1..], t)
  }

  /** The main thread is where the log says, in the step that began with `before` batches enqueued. */
  ghost predicate IsAt(s: State, before: nat, m: E.Mark) {
    && m.place == PlaceOf(s.pacer) && m.nextSeq == s.nextSeq
    && |s.open| == 1 && m.offered == s.open[0].offered
    && |s.enqueued| == before + m.sent
    && (m.place.Gone? ==> s.pacer.Draining?)
    && (s.pacer.Allocated? || s.pacer.Putting? || s.pacer.GaveUp? ==> m.start == s.pacer.item.start)
  }

  lemma TurnMatches(c: Config, s: State, before: nat, m: E.Mark, e: E.Event)
    requires c.Valid() && IsAt(s, before, m) && Saw(c, s, e) && (e.Enter? || e.Wait? || e.Leave? || e.Allocate?)
    ensures IsAt(PacerStep(c, s, Act(e)), before, E.Next(c.batch, m, e))
  {
  }

  lemma PutMatches(c: Config, s: State, before: nat, m: E.Mark, e: E.Event)
    requires c.Valid() && IsAt(s, before, m) && Saw(c, s, e) && (e.Try? || e.Full? || e.Put?)
    ensures IsAt(PacerStep(c, s, Act(e)), before, E.Next(c.batch, m, e))
  {
  }

  lemma GivesUpMatches(c: Config, s: State, before: nat, m: E.Mark, e: E.Event)
    requires c.Valid() && IsAt(s, before, m) && Saw(c, s, e) && (e.GiveUp? || e.RollBack?)
    ensures IsAt(PacerStep(c, s, Act(e)), before, E.Next(c.batch, m, e))
  {
  }

  lemma OfferMatches(c: Config, s: State, before: nat, m: E.Mark, e: E.Event)
    requires c.Valid() && IsAt(s, before, m) && Saw(c, s, e) && e.Offer?
    ensures IsAt(PacerStep(c, s, Act(e)), before, E.Next(c.batch, m, e))
  {
  }

  lemma NoteMatches(c: Config, s: State, before: nat, m: E.Mark, e: E.Event)
    requires c.Valid() && IsAt(s, before, m) && Saw(c, s, e) && e.Note?
    ensures IsAt(PacerStep(c, s, Act(e)), before, E.Next(c.batch, m, e))
  {
  }

  lemma EventMatches(c: Config, s: State, before: nat, m: E.Mark, e: E.Event)
    requires c.Valid() && IsAt(s, before, m) && Saw(c, s, e)
    ensures IsAt(PacerStep(c, s, Act(e)), before, E.Next(c.batch, m, e))
  {
    if e.Enter? || e.Wait? || e.Leave? || e.Allocate? {
      TurnMatches(c, s, before, m, e);
    } else if e.Try? || e.Full? || e.Put? {
      PutMatches(c, s, before, m, e);
    } else if e.GiveUp? || e.RollBack? {
      GivesUpMatches(c, s, before, m, e);
    } else if e.Offer? {
      OfferMatches(c, s, before, m, e);
    } else {
      NoteMatches(c, s, before, m, e);
    }
  }

  lemma WorkerKeepsSeq(c: Config, s: State, w: nat, a: Action)
    requires c.Valid() && PoolShape(c, s.pool) && w < |s.workers|
    ensures WorkerStep(c, s, w, a).nextSeq == s.nextSeq
  {
  }

  lemma WorkerKeepsOpen(c: Config, s: State, w: nat, a: Action)
    requires c.Valid() && PoolShape(c, s.pool) && w < |s.workers| && |s.open| == 1
    ensures |WorkerStep(c, s, w, a).open| == 1
  {
    if a.RecordStep? {
      RecordMoves(c, s, w, a);
    } else if a.Crash? {
      CrashMoves(c, s, w);
    } else {
      OthersLeaveSteps(c, s, w, a);
    }
  }

  /** The others leave the main thread where it is. */
  lemma OthersMatch(c: Config, s: State, before: nat, m: E.Mark, a: Action)
    requires c.Valid() && PoolShape(c, s.pool) && IsAt(s, before, m) && IsOther(a)
    ensures IsAt(Step(c, s, a), before, m)
  {
    var w := WorkerOf(a);
    if 0 <= w < |s.workers| {
      WorkerControl(c, s, w, a);
      WorkerKeepsOffer(c, s, w, a);
      WorkerKeepsSeq(c, s, w, a);
      WorkerKeepsOpen(c, s, w, a);
    }
  }

  lemma ActIsMain(e: E.Event)
    ensures WorkerOf(Act(e)) < 0 && !IsOther(Act(e))
  {
  }

  /** Such a schedule is a path of the state machine, and at its end the state has what the log says. */
  lemma {:induction false} FollowsIsPath(c: Config, s: State, acts: seq<Action>, log: seq<E.Event>, t: State,
                                         before: nat, m: E.Mark)
    requires c.Valid() && Follows(c, s, acts, log, t) && IsAt(s, before, m)
    ensures Path(c, s, acts, t)
    ensures IsAt(t, before, E.After(c.batch, m, log))
    decreases |acts|
  {
    if acts == [] {
      EmptyPath(c, s);
    } else {
      var a, u := acts[0], Step(c, s, acts[0]);
      if IsOther(a) {
        OthersMatch(c, s, before, m, a);
        FollowsIsPath(c, u, acts[1..], log, t, before, m);
      } else {
        var e := log[0];
        ActIsMain(e);
        EventMatches(c, s, before, m, e);
        FollowsIsPath(c, u, acts[1..], log[1..], t, before, E.Next(c.batch, m, e));
        E.AfterFirst(c.batch, m, e, log[1..]);
        assert log == [e] + log[1..];
      }
      EmptyPath(c, s);
      Extend(c, s, [], s, a, u);
      PathConcat(c, s, [] + [a], u, acts[1..], t);
      assert acts == ([] + [a]) + acts[1..];
    }
  }

  /** `Pacer.StepPacer.RunStep` is the main thread's part of a run: on every schedule on which the main
      thread did what that method did, from the same next number, the step ends with the method's
      offered count, its next number and as many batches enqueued as the method put. */
  lemma {:induction false} RunStepIsASchedule(c: Config, g: P.StepPacer, log: seq<E.Event>, s: State,
                                              acts: seq<Action>, t: State)
    requires c.Valid() && PoolShape(c, s.pool) && s.pacer.Between?
    requires g.At(E.After(c.batch, E.Mark(E.AtGuard, s.nextSeq, 0, 0, 0), log), E.Gone)
    requires Follows(c, PacerStep(c, s, BeginStep), acts, log, t)
    ensures Path(c, s, [BeginStep] + acts, t) && t.pacer == Draining
    ensures t.nextSeq == g.nextSeq && |t.open| == 1 && t.open[0].offered == g.offered
    ensures |t.enqueued| == |s.enqueued| + |g.starts|
  {
    var u := PacerStep(c, s, BeginStep);
    FollowsIsPath(c, u, acts, log, t, |s.enqueued|, E.Mark(E.AtGuard, s.nextSeq, 0, 0, 0));
    EmptyPath(c, s);
    Extend(c, s, [], s, BeginStep, u);
    PathConcat(c, s, [] + [BeginStep], u, acts, t);
    assert [] + [BeginStep] == [BeginStep];
  }

  function Puts(log: seq<E.Event>): nat {
    if log == [] then 0 else (if log[0].Put? then 1 else 0) + Puts(log[1..])
  }

  lemma MainKeeps(c: Config, s: State, e: E.Event)
    requires c.Valid()
    ensures var t := PacerStep(c, s, Act(e));
            t.pool == s.pool && t.stop == s.stop && t.aborted == s.aborted
            && |t.queue| <= |s.queue| + if e.Put? || e.Full? then 1 else 0
  {
  }

  /** There is such a schedule, of the main thread alone, whenever the queue has room for what the
      method puts and nothing was stopped. */
  lemma {:induction false} SmoothRun(c: Config, s: State, log: seq<E.Event>) returns (acts: seq<Action>, t: State)
    requires c.Valid() && PoolShape(c, s.pool) && !s.stop && !s.aborted && |s.queue| + Puts(log) <= c.QueueSize()
    requires forall i :: 0 <= i < |log| ==> !log[i].Full? && log[i] != E.Note(true)
    ensures Follows(c, s, acts, log, t)
    ensures |acts| == |log| && forall i :: 0 <= i < |log| ==> acts[i] == Act(log[i])
    decreases |log|
  {
    if log == [] {
      acts, t := [], s;
    } else {
      var e := log[0];
      ActIsMain(e);
      MainKeeps(c, s, e);
      assert log[0] != E.Note(true) && !log[0].Full?;
      var rest;
      rest, t := SmoothRun(c, PacerStep(c, s, Act(e)), log[1..]);
      acts := [Act(e)] + rest;
      assert acts[1..] == rest;
    }
  }
}
