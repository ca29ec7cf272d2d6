/** The stop flag, and what the main thread can still do once it is set. */
module LoadgenStop {
  import opened Basics
  import opened Metrics
  import opened Payload
  import opened Loadgen
  import opened LoadgenInvariant
  import opened LoadgenWorkers
  import opened LoadgenPaths
  import opened LoadgenRuns
  import opened LoadgenShutdown
  import opened LoadgenSteps

  // -- the loops stop ---------------------------------------------------------------------

  /** What is enqueued, and the put the pacer is in. */
  function Budget(s: State): nat {
    |s.enqueued| + if s.pacer.Putting? then 1 else 0
  }

  lemma PacerBudget(c: Config, s: State, a: Action)
    requires c.Valid() && s.stop
    ensures PacerStep(c, s, a).stop && Budget(PacerStep(c, s, a)) <= Budget(s)
  {
  }

  /** A worker never clears the flag and never moves the main thread. */
  lemma WorkerControl(c: Config, s: State, w: nat, a: Action)
    requires c.Valid() && PoolShape(c, s.pool) && w < |s.workers|
    ensures var t := WorkerStep(c, s, w, a);
            (s.stop ==> t.stop) && t.enqueued == s.enqueued && t.pacer == s.pacer
  {
  }

  lemma StepBudget(c: Config, s: State, a: Action)
    requires c.Valid() && PoolShape(c, s.pool) && s.stop
    ensures Step(c, s, a).stop && Budget(Step(c, s, a)) <= Budget(s)
  {
    var w := WorkerOf(a);
    if w < 0 {
      PacerBudget(c, s, a);
    } else if w < |s.workers| {
      WorkerControl(c, s, w, a);
    }
  }

  /** Once the flag is set at most one more batch is enqueued, and only if the pacer was already in
      `put`. The flag stays set. */
  lemma AtMostOneMore(c: Config, s: State, acts: seq<Action>, t: State)
    requires c.Valid() && Path(c, s, acts, t) && s.stop
    ensures t.stop && |t.enqueued| <= |s.enqueued| + if s.pacer.Putting? then 1 else 0
  {
    var states :| Trace(c, s, states, acts, t);
    var p := (u: State) => u.stop && Budget(u) <= Budget(s);
    forall i | 0 <= i < |acts| && p(states[i]) ensures p(states[i + 1]) {
      assert Link(c, states, acts, i);
      StepBudget(c, states[i], acts[i]);
    }
    AlongTrace(states, |acts|, p);
  }

  /** The main thread is between two puts and will not come to another. */
  predicate Idles(p: Pacer) {
    p.Between? || p.Looping? || p.Draining? || p.SawEmpty? || p.Closing? || p.Stopping? || p.Finished?
  }

  /** Nothing was offered since s. */
  ghost predicate NothingSince(s: State, u: State) {
    && u.stop && Idles(u.pacer) && u.enqueued == s.enqueued
    && s.steps <= u.steps
    && (forall i :: |s.steps| <= i < |u.steps| ==> u.steps[i].offered == 0)
    && (u.open != [] ==> u.open[0].offered == 0)
  }

  lemma PacerIdles(c: Config, s: State, u: State, a: Action)
    requires c.Valid() && NothingSince(s, u)
    ensures NothingSince(s, PacerStep(c, u, a))
  {
  }

  predicate SameOffer(s: State, t: State) {
    t.steps == s.steps && (t.open != [] ==> s.open != [] && t.open[0].offered == s.open[0].offered)
  }

  lemma PostsKeepOffer(c: Config, s: State, w: nat, item: Item, code: Code)
    requires w < |s.workers|
    ensures SameOffer(s, PostAck(c, s, w, item)) && SameOffer(s, PostFailure(c, s, w, code))
  {
  }

  lemma CrashKeepsOffer(s: State, w: nat)
    requires w < |s.workers|
    ensures SameOffer(s, CrashStep(s, w))
  {
  }

  lemma RecordKeepsOffer(c: Config, s: State, w: nat, a: Action)
    requires c.Valid() && PoolShape(c, s.pool) && w < |s.workers| && a.RecordStep?
    ensures SameOffer(s, WorkerStep(c, s, w, a))
  {
    if s.workers[w].InTotals? {
      var p := s.workers[w];
      PostsKeepOffer(c, s, w, p.item, if p.outcome.Ok? then ResourceExhausted else p.outcome.code);
    }
  }

  /** A worker never changes what a step offered. */
  lemma WorkerKeepsOffer(c: Config, s: State, w: nat, a: Action)
    requires c.Valid() && PoolShape(c, s.pool) && w < |s.workers|
    ensures SameOffer(s, WorkerStep(c, s, w, a))
  {
    if a.Crash? {
      CrashKeepsOffer(s, w);
    } else if a.RecordStep? {
      RecordKeepsOffer(c, s, w, a);
    } else {
      OthersLeaveSteps(c, s, w, a);
    }
  }

  /** A step that begins with the flag set offers nothing, and so do all after it. */
  lemma StoppedStepsAreEmpty(c: Config, s: State, acts: seq<Action>, t: State)
    requires c.Valid() && Path(c, s, acts, t) && s.stop && s.pacer == Between && s.open == []
    ensures NothingSince(s, t)
  {
    var states :| Trace(c, s, states, acts, t);
    var p := (u: State) => NothingSince(s, u);
    forall i | 0 <= i < |acts| && p(states[i]) ensures p(states[i + 1]) {
      assert Link(c, states, acts, i);
      StepIdles(c, s, states[i], acts[i]);
    }
    AlongTrace(states, |acts|, p);
  }

  lemma StepIdles(c: Config, s: State, u: State, a: Action)
    requires c.Valid() && PoolShape(c, u.pool) && NothingSince(s, u)
    ensures NothingSince(s, Step(c, u, a))
  {
    var w := WorkerOf(a);
    if w < 0 {
      PacerIdles(c, s, u, a);
    } else if w < |u.workers| {
      WorkerControl(c, u, w, a);
      WorkerKeepsOffer(c, u, w, a);
    }
  }

  // -- the workers exit -----------------------------------------------------------------------

  ghost predicate NoStepBegins(acts: seq<Action>) {
    forall i :: 0 <= i < |acts| ==> !acts[i].BeginStep?
  }

  /** The queue was drained, and `stop` has met no full queue. */
  ghost predicate Drained(s: State) {
    && s.taken == |s.enqueued| && s.dropped == 0
    && (s.pacer == Closing(true) || s.pacer.Between? || s.pacer.Stopping? || s.pacer.Finished?)
  }

  lemma PacerStaysDrained(c: Config, s: State, a: Action)
    requires c.Valid() && Drained(s) && !a.BeginStep?
    requires s.pacer.Stopping? && s.pacer.sent < c.workers ==> |s.queue| < c.QueueSize()
    requires s.pacer.Stopping? ==> s.pacer.sent <= c.workers
    ensures Drained(PacerStep(c, s, a))
  {
  }

  lemma WorkerLeavesDrained(c: Config, s: State, w: nat, a: Action)
    requires c.Valid() && PoolShape(c, s.pool) && w < |s.workers|
    ensures var t := WorkerStep(c, s, w, a);
            t.pacer == s.pacer && t.enqueued == s.enqueued && t.dropped == s.dropped && t.taken >= s.taken
  {
  }

  lemma StaysDrained(c: Config, s: State, a: Action)
    requires Reachable(c, s) && PoolShape(c, s.pool) && Drained(s) && !a.BeginStep?
    requires Reachable(c, Step(c, s, a))
    ensures Drained(Step(c, s, a))
  {
    var w := WorkerOf(a);
    if w < 0 {
      SentBound(c, s);
      if s.pacer.Stopping? && s.pacer.sent < c.workers {
        SentinelFits(c, s);
      }
      PacerStaysDrained(c, s, a);
    } else if w < |s.workers| {
      WorkerLeavesDrained(c, s, w, a);
      TakenBound(c, Step(c, s, a));
    }
  }

  lemma SentBound(c: Config, s: State)
    requires Reachable(c, s)
    ensures s.pacer.Stopping? ==> s.pacer.sent <= c.workers
  {
    ReachableInv(c, s);
  }

  lemma TakenBound(c: Config, s: State)
    requires Reachable(c, s)
    ensures s.taken <= |s.enqueued|
  {
    ReachableInv(c, s);
  }

  /** The drain has just returned early, or the main thread is between steps and everything
      enqueued was taken. */
  predicate FullDrain(s: State) {
    s.pacer == Closing(true) || (s.pacer.Between? && s.taken == |s.enqueued|)
  }

  /** From a full drain to the end of `stop`, without another step, no sentinel is dropped. */
  lemma AllSentinelsFit(c: Config, s: State, acts: seq<Action>, t: State)
    requires Reachable(c, s) && FullDrain(s) && Path(c, s, acts, t) && NoStepBegins(acts)
    ensures Reachable(c, t) && Drained(t) && t.dropped == 0
  {
    var states :| Trace(c, s, states, acts, t);
    DrainIsDrained(c, s);
    var p := (u: State) => Drained(u);
    forall i | 0 <= i < |acts| && p(states[i]) ensures p(states[i + 1]) {
      TraceReachable(c, s, states, acts, t, i);
      TraceReachable(c, s, states, acts, t, i + 1);
      assert Link(c, states, acts, i);
      StaysDrained(c, states[i], acts[i]);
    }
    AlongTrace(states, |acts|, p);
    TraceReachable(c, s, states, acts, t, |acts|);
  }

  lemma DrainIsDrained(c: Config, s: State)
    requires Reachable(c, s) && FullDrain(s)
    ensures Drained(s)
  {
    ReachableInv(c, s);
  }

  /** So after a full drain every worker exits: whatever the schedule from the drain to the end of
      `stop`, once the workers have come to rest none of them is left and nothing is outstanding. */
  lemma EveryWorkerExits(c: Config, s: State, acts: seq<Action>, t: State)
    requires Reachable(c, s) && FullDrain(s) && Path(c, s, acts, t) && NoStepBegins(acts)
    requires t.pacer == Finished && AtRest(t) && c.workers > 0
    ensures forall w :: 0 <= w < |t.workers| ==> t.workers[w].Exited?
    ensures |t.workers| == c.workers && t.queue == [] && Outstanding(c, t) == 0
  {
    AllSentinelsFit(c, s, acts, t);
    ShutdownOutcome(c, t);
    WorkerCount(c, t);
  }

  lemma WorkerCount(c: Config, s: State)
    requires Reachable(c, s)
    ensures |s.workers| == c.workers
  {
    ReachableInv(c, s);
  }
}
