/** The two barriers of the load engine: the drain at the end of a step, and the sentinels of `stop`. */
module LoadgenShutdown {
  import opened Basics
  import opened Metrics
  import opened Payload
  import opened Loadgen
  import opened LoadgenInvariant
  import opened LoadgenWorkers
  import opened LoadgenPaths
  import opened LoadgenRuns

  // -- the drain -----------------------------------------------------------------------------

  /** Records offered that have no outcome yet. */
  function Outstanding(c: Config, s: State): int {
    s.totals.recordsOffered - s.totals.recordsAccepted - (|s.failed| + |s.crashed| + |s.lostAcks|) * c.batch
  }

  /** Everything offered has an outcome in the totals, and every ack in the totals is in a step
      (or came while none was open). */
  ghost predicate AllAccounted(c: Config, s: State) {
    && Outstanding(c, s) == 0
    && s.totals.recordsAccepted == Accepted(s.steps) + OpenAccepted(s.open) + s.late
  }

  predicate Busy(p: Phase) {
    Unsettled(p) || KindOf(p) == KInTotalsOk
  }

  /** What `_drain_inflight` guarantees when it returns early, that is, when after an empty queue
      it finds `inflight() == 0`: the queue is still empty, and what has no outcome yet is exactly
      what workers hold outside `export`. */
  lemma DrainReturns(c: Config, s: State)
    requires Reachable(c, s) && s.pacer == SawEmpty && s.inflight == 0
    ensures s.queue == []
    ensures Outstanding(c, s) == InHand(c, s)
    ensures Count(s.workers, KInRpc) == 0
  {
    ReachableInv(c, s);
    EmptyQueueBalance(c, s);
  }

  /** With the queue empty, offered and settled differ by what the workers hold. */
  lemma EmptyQueueBalance(c: Config, s: State)
    requires s.taken == |s.enqueued| && Ledger(c, s) && Census(s) && !s.pacer.Enqueued?
    ensures Outstanding(c, s) == InHand(c, s)
  {
    ConservationOf(c, s);
    assert 0 * c.batch == 0;
  }

  /** After the check the queue stays empty until the step is closed. */
  lemma DrainedStaysEmpty(c: Config, s: State)
    requires Reachable(c, s) && s.pacer == Closing(true)
    ensures s.queue == []
  {
    ReachableInv(c, s);
  }

  /** The run as a whole is accounted for exactly when every worker was between items. (Whether the
      step counts its own items is `LoadgenDrain.DrainExact`.) */
  lemma DrainBalance(c: Config, s: State)
    requires Reachable(c, s) && s.pacer == SawEmpty && s.inflight == 0
    ensures AllAccounted(c, s) <==> forall w :: 0 <= w < |s.workers| ==> !Busy(s.workers[w])
  {
    ReachableInv(c, s);
    EmptyQueueBalance(c, s);
    DrainBalanceOf(c, s);
  }

  lemma DrainBalanceOf(c: Config, s: State)
    requires c.batch > 0 && Outstanding(c, s) == InHand(c, s)
    requires s.totals.recordsAccepted == Accepted(s.steps) + OpenAccepted(s.open) + s.late
                                         + Times(Count(s.workers, KInTotalsOk), c.batch)
    ensures AllAccounted(c, s) <==> forall w :: 0 <= w < |s.workers| ==> !Busy(s.workers[w])
  {
    var n := Count(s.workers, KPreparing) + Count(s.workers, KInRpc) + Count(s.workers, KReturnedOk)
             + Count(s.workers, KReturnedFailed);
    TimesIsProduct(n, c.batch);
    TimesZero(n, c.batch);
    TimesZero(Count(s.workers, KInTotalsOk), c.batch);
    BusyCounts(s.workers);
  }

  lemma {:induction false} TimesZero(n: nat, b: nat)
    requires b > 0
    ensures Times(n, b) == 0 <==> n == 0
  {
  }

  lemma {:induction false} BusyCounts(ws: seq<Phase>)
    ensures (forall w :: 0 <= w < |ws| ==> !Busy(ws[w])) <==>
            Count(ws, KPreparing) + Count(ws, KInRpc) + Count(ws, KReturnedOk) + Count(ws, KReturnedFailed)
            + Count(ws, KInTotalsOk) == 0
  {
    if w :| 0 <= w < |ws| && Busy(ws[w]) {
      CountPositive(ws, KindOf(ws[w]), w);
    } else {
      CountNone(ws, KPreparing);
      CountNone(ws, KInRpc);
      CountNone(ws, KReturnedOk);
      CountNone(ws, KReturnedFailed);
      CountNone(ws, KInTotalsOk);
    }
  }

  /** The per-step counts never exceed the totals; what they miss came late or is about to be posted. */
  lemma StepsWithinTotals(c: Config, s: State)
    requires Reachable(c, s)
    ensures s.totals.recordsAccepted - Accepted(s.steps) - OpenAccepted(s.open)
            == s.late + Count(s.workers, KInTotalsOk) * c.batch
    ensures Accepted(s.steps) + OpenAccepted(s.open) <= s.totals.recordsAccepted
  {
    ReachableInv(c, s);
    TimesIsProduct(Count(s.workers, KInTotalsOk), c.batch);
  }

  // -- the sentinels --------------------------------------------------------------------------

  function RemainingAll(c: Config, ws: seq<Phase>): nat {
    if ws == [] then 0 else RemainingAll(c, ws[..|ws| - 1]) + Remaining(c, ws[|ws| - 1])
  }

  lemma {:induction false} RemainingUpdate(c: Config, ws: seq<Phase>, i: nat, p: Phase)
    requires i < |ws|
    ensures RemainingAll(c, ws[i := p]) == RemainingAll(c, ws) - Remaining(c, ws[i]) + Remaining(c, p)
  {
    var n := |ws| - 1;
    if i < n {
      assert ws[i := p][..n] == ws[..n][i := p];
      RemainingUpdate(c, ws[..n], i, p);
    } else {
      assert ws[i := p][..n] == ws[..n];
    }
  }

  /** A bound on the steps all the workers can still take once nothing more is enqueued. */
  function Measure(c: Config, s: State): nat {
    Times(|s.queue|, c.batch + 6) + RemainingAll(c, s.workers)
  }

  lemma PrepareDelta(c: Config, s: State, w: nat, a: Action)
    requires Inv(c, s) && w < |s.workers| && (a.Take? || a.BeginStamp? || a.StampOne?)
    ensures WorkerStep(c, s, w, a) == s || Delta(c, s, WorkerStep(c, s, w, a), w)
  {
    match (a, s.workers[w])
    case (Take(_), Idle) => if s.queue != [] { DequeueDelta(c, s, w); }
    case (BeginStamp(_), Held(item)) => QuietDelta(c, s, SetPhase(s, w, Stamping(item, 0)), w);
    case (StampOne(_), Stamping(item, k)) => if k < c.batch { QuietDelta(c, s, StampNext(c, s, w, item, k), w); }
    case _ =>
  }

  lemma RpcDelta(c: Config, s: State, w: nat, a: Action)
    requires Inv(c, s) && w < |s.workers| && (a.Export? || a.Return?)
    ensures WorkerStep(c, s, w, a) == s || Delta(c, s, WorkerStep(c, s, w, a), w)
  {
    match (a, s.workers[w])
    case (Export(_), Stamping(item, k)) => if k >= c.batch { QuietDelta(c, s, CallExport(c, s, w, item), w); }
    case (Return(_, outcome), InRpc(item, wire)) => ReturnDelta(c, s, w, item, wire, outcome);
    case _ =>
  }

  lemma PostDelta(c: Config, s: State, w: nat, a: Action)
    requires Inv(c, s) && w < |s.workers| && (a.RecordTotals? || a.RecordStep?)
    ensures WorkerStep(c, s, w, a) == s || Delta(c, s, WorkerStep(c, s, w, a), w)
  {
    match (a, s.workers[w])
    case (RecordTotals(_), Returned(item, outcome)) => PostTotalsDelta(c, s, w, item, outcome);
    case (RecordStep(_), InTotals(item, outcome)) =>
      if outcome.Ok? { PostAckDelta(c, s, w, item); } else { PostFailureDelta(c, s, w, outcome.code); }
    case _ =>
  }

  lemma WorkerDelta(c: Config, s: State, w: nat, a: Action)
    requires Inv(c, s) && w < |s.workers| && WorkerOf(a) >= 0
    ensures WorkerStep(c, s, w, a) == s || Delta(c, s, WorkerStep(c, s, w, a), w)
  {
    if a.Take? || a.BeginStamp? || a.StampOne? {
      PrepareDelta(c, s, w, a);
    } else if a.Export? || a.Return? {
      RpcDelta(c, s, w, a);
    } else if a.Crash? {
      if Unsettled(s.workers[w]) { CrashDelta(c, s, w); }
    } else {
      PostDelta(c, s, w, a);
    }
  }

  /** Termination of the workers: every step one of them takes lowers the measure. */
  lemma WorkerStepDecreases(c: Config, s: State, w: nat, a: Action)
    requires Reachable(c, s) && PoolShape(c, s.pool) && w < |s.workers| && WorkerOf(a) == w
    requires WorkerStep(c, s, w, a) != s
    ensures Measure(c, WorkerStep(c, s, w, a)) < Measure(c, s)
  {
    ReachableInv(c, s);
    WorkerDelta(c, s, w, a);
    MeasureDrops(c, s, WorkerStep(c, s, w, a), w);
  }

  lemma MeasureDrops(c: Config, s: State, t: State, w: nat)
    requires w < |s.workers| && WorkerFrame(s, t, w) && QueueMove(c, s, t, s.workers[w], t.workers[w])
    ensures Measure(c, t) < Measure(c, s)
  {
    RemainingUpdate(c, s.workers, w, t.workers[w]);
  }

  /** Every step of the schedule is a worker's, and none is idle. */
  ghost predicate WorkersOnly(states: seq<State>, acts: seq<Action>) {
    && |states| == |acts| + 1
    && forall i :: 0 <= i < |acts| ==> WorkerOf(acts[i]) >= 0 && states[i + 1] != states[i]
  }

  lemma OneStepLess(c: Config, s: State, a: Action)
    requires Reachable(c, s) && PoolShape(c, s.pool) && WorkerOf(a) >= 0 && Step(c, s, a) != s
    ensures Measure(c, Step(c, s, a)) < Measure(c, s)
  {
    WorkerStepDecreases(c, s, WorkerOf(a), a);
  }

  /** Left to themselves the workers come to rest: no schedule of theirs is longer than the measure. */
  lemma {:induction false} WorkersComeToRest(c: Config, s: State, states: seq<State>, acts: seq<Action>, t: State,
                                             n: nat)
    requires Reachable(c, s) && Trace(c, s, states, acts, t) && WorkersOnly(states, acts) && n <= |acts|
    ensures n + Measure(c, states[n]) <= Measure(c, s)
  {
    if n > 0 {
      WorkersComeToRest(c, s, states, acts, t, n - 1);
      TraceReachable(c, s, states, acts, t, n - 1);
      TakesOneStep(c, s, states, acts, t, n - 1);
    }
  }

  lemma TakesOneStep(c: Config, s: State, states: seq<State>, acts: seq<Action>, t: State, i: nat)
    requires c.Valid() && Trace(c, s, states, acts, t) && WorkersOnly(states, acts) && i < |acts|
      && Reachable(c, states[i])
    ensures Measure(c, states[i + 1]) < Measure(c, states[i])
  {
    assert Link(c, states, acts, i);
    OneStepLess(c, states[i], acts[i]);
  }

  /** No worker can take a step. */
  ghost predicate Stuck(c: Config, s: State)
    requires c.Valid() && PoolShape(c, s.pool)
  {
    forall a: Action :: WorkerOf(a) >= 0 ==> Step(c, s, a) == s
  }

  function NextAction(c: Config, w: nat, p: Phase): Action {
    match p
    case Held(_) => BeginStamp(w)
    case Stamping(_, k) => if k < c.batch then StampOne(w) else Export(w)
    case InRpc(_, _) => Return(w, Ok)
    case Returned(_, _) => RecordTotals(w)
    case InTotals(_, _) => RecordStep(w)
    case _ => Take(w)
  }

  /** A worker that has an item, or waits at a queue that has an entry, can move. */
  ghost predicate Moves(c: Config, s: State, w: nat)
    requires c.Valid() && PoolShape(c, s.pool) && w < |s.workers|
  {
    |Step(c, s, NextAction(c, w, s.workers[w])).workers| != |s.workers|
    || Step(c, s, NextAction(c, w, s.workers[w])).workers[w] != s.workers[w]
  }

  lemma IdleMoves(c: Config, s: State, w: nat)
    requires c.Valid() && Shape(c, s) && w < |s.workers| && s.workers[w].Idle? && s.queue != []
    ensures Moves(c, s, w)
  {
  }

  lemma HeldMoves(c: Config, s: State, w: nat)
    requires c.Valid() && Shape(c, s) && w < |s.workers| && s.workers[w].Held?
    ensures Moves(c, s, w)
  {
  }

  lemma StampingMoves(c: Config, s: State, w: nat)
    requires c.Valid() && Shape(c, s) && w < |s.workers| && s.workers[w].Stamping?
    ensures Moves(c, s, w)
  {
  }

  lemma CallingMoves(c: Config, s: State, w: nat)
    requires c.Valid() && Shape(c, s) && w < |s.workers| && (s.workers[w].InRpc? || s.workers[w].Returned?)
    ensures Moves(c, s, w)
  {
  }

  lemma PostsEndIdle(c: Config, s: State, w: nat, item: Item, code: Code)
    requires w < |s.workers|
    ensures PostAck(c, s, w, item).workers == s.workers[w := Idle]
    ensures PostFailure(c, s, w, code).workers == s.workers[w := Idle]
  {
  }

  lemma PostingMoves(c: Config, s: State, w: nat)
    requires c.Valid() && Shape(c, s) && w < |s.workers| && s.workers[w].InTotals?
    ensures Moves(c, s, w)
  {
    var p := s.workers[w];
    PostsEndIdle(c, s, w, p.item, if p.outcome.Ok? then ResourceExhausted else p.outcome.code);
    assert WorkerStep(c, s, w, RecordStep(w)).workers == s.workers[w := Idle];
  }

  /** Every worker has exited or waits at an empty queue. */
  ghost predicate AtRest(s: State) {
    forall w :: 0 <= w < |s.workers| ==> s.workers[w].Exited? || (s.workers[w].Idle? && s.queue == [])
  }

  lemma StuckIsAtRest(c: Config, s: State)
    requires c.Valid() && Shape(c, s) && Stuck(c, s)
    ensures AtRest(s)
  {
    forall w | 0 <= w < |s.workers| ensures s.workers[w].Exited? || (s.workers[w].Idle? && s.queue == []) {
      var p := s.workers[w];
      if p.InRpc? || p.Returned? {
        CallingMoves(c, s, w);
      } else if p.InTotals? {
        PostingMoves(c, s, w);
      } else if p.Held? {
        HeldMoves(c, s, w);
      } else if p.Stamping? {
        StampingMoves(c, s, w);
      } else if p.Idle? && s.queue != [] {
        IdleMoves(c, s, w);
      }
    }
  }

  lemma {:induction false} IdleOrExited(ws: seq<Phase>)
    requires forall w :: 0 <= w < |ws| ==> ws[w].Idle? || ws[w].Exited?
    ensures Count(ws, KIdle) + Count(ws, KExited) == |ws|
  {
    if ws != [] {
      IdleOrExited(ws[..|ws| - 1]);
    }
  }

  /** Where the workers end up after `stop`: the queue is empty, nothing is outstanding, and as
      many workers have exited as sentinels went in. So all exit if and only if every one fitted. */
  lemma ShutdownOutcome(c: Config, s: State)
    requires Reachable(c, s) && s.pacer == Finished && AtRest(s) && c.workers > 0
    ensures s.queue == []
    ensures s.taken == |s.enqueued|
    ensures Count(s.workers, KExited) == c.workers - s.dropped
    ensures Outstanding(c, s) == 0
    ensures (forall w :: 0 <= w < |s.workers| ==> s.workers[w].Exited?) <==> s.dropped == 0
  {
    ReachableInv(c, s);
    ExitCounts(c, s);
    EmptyQueueBalance(c, s);
    EmptyHanded(c, s);
  }

  lemma EmptyHanded(c: Config, s: State)
    requires Count(s.workers, KPreparing) == Count(s.workers, KInRpc) == 0
    requires Count(s.workers, KReturnedOk) == Count(s.workers, KReturnedFailed) == 0
    ensures InHand(c, s) == 0
  {
  }

  lemma ExitCounts(c: Config, s: State)
    requires QueueOrder(c, s) && s.pacer == Finished && |s.workers| == c.workers > 0 && AtRest(s)
    ensures s.queue == [] && Count(s.workers, KExited) == c.workers - s.dropped
    ensures (forall w :: 0 <= w < |s.workers| ==> s.workers[w].Exited?) <==> s.dropped == 0
    ensures Count(s.workers, KPreparing) == Count(s.workers, KInRpc) == 0
    ensures Count(s.workers, KReturnedOk) == Count(s.workers, KReturnedFailed) == 0
  {
    CountNone(s.workers, KPreparing);
    CountNone(s.workers, KInRpc);
    CountNone(s.workers, KReturnedOk);
    CountNone(s.workers, KReturnedFailed);
    IdleOrExited(s.workers);
    if forall w :: 0 <= w < |s.workers| ==> s.workers[w].Exited? {
      CountNone(s.workers, KIdle);
    } else {
      var w :| 0 <= w < |s.workers| && s.workers[w].Idle?;
      CountPositive(s.workers, KIdle, w);
    }
  }

  /** With the queue drained, every `put_nowait(None)` finds room: there are no more sentinels than
      `max_inflight`, so none is dropped. */
  lemma SentinelFits(c: Config, s: State)
    requires Reachable(c, s)
    requires s.pacer.Stopping? && s.pacer.sent < c.workers && s.taken == |s.enqueued|
    ensures |s.queue| < c.QueueSize()
  {
    ReachableInv(c, s);
  }
}
