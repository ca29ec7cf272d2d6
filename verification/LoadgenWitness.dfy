/** Runs that every engine with a worker has, in which the accounting goes wrong. */
module LoadgenWitness {
  import opened Basics
  import opened Metrics
  import opened Payload
  import opened Loadgen
  import opened LoadgenInvariant
  import opened LoadgenWorkers
  import opened LoadgenPaths
  import opened LoadgenDrain
  import opened Engine
  import opened EnginePaths

  // -- pieces of a run ------------------------------------------------------------------------

  /** Between two steps, with nothing on its way and nothing stopped. */
  ghost predicate Calm(c: Config, s: State) {
    && c.Valid() && PoolShape(c, s.pool) && |s.workers| == c.workers > 0
    && s.pacer == Between && s.open == [] && s.queue == [] && s.inflight == 0 && !s.stop && !s.aborted
    && s.dropped == 0 && s.credit == multiset{}
    && (forall w :: 0 <= w < |s.workers| ==> s.workers[w] == Idle)
  }

  /** What no action of the main thread before `stop` touches. */
  ghost predicate Untouched(s: State, t: State) {
    && t.pool == s.pool && t.inflight == s.inflight && t.stop == s.stop && t.aborted == s.aborted
    && t.acks == s.acks && t.accepted == s.accepted && t.lostAcks == s.lostAcks && t.dropped == s.dropped
  }

  /** The step begins and the pacer is about to put its first batch. */
  lemma Begins(c: Config, s: State) returns (acts: seq<Action>, t: State)
    requires Calm(c, s)
    ensures Path(c, s, acts, t) && Untouched(s, t) && t.pacer == Putting(Item(s.nextSeq, 0))
      && t.nextSeq == s.nextSeq + c.batch
    ensures t.open == [Blank(s.nextSeq)] && t.steps == s.steps && t.workers == s.workers
    ensures t.queue == [] && t.enqueued == s.enqueued && t.taken == s.taken && t.credit == s.credit && t.past == s.past
  {
    EmptyPath(c, s);
    t := Do(c, s, [], s, BeginStep);
    acts := [] + [BeginStep];
    t := Do(c, s, acts, t, EnterTurn);
    acts := acts + [EnterTurn];
    t := Do(c, s, acts, t, Allocate);
    acts := acts + [Allocate];
    t := Do(c, s, acts, t, TryPut);
    acts := acts + [TryPut];
  }

  /** The batch is put and recorded. */
  lemma Puts(c: Config, s: State, item: Item) returns (acts: seq<Action>, t: State)
    requires c.Valid() && PoolShape(c, s.pool) && s.pacer == Putting(item) && s.queue == [] && |s.open| == 1
      && !s.aborted
    ensures Path(c, s, acts, t) && Untouched(s, t) && t.pacer == Looping && t.nextSeq == s.nextSeq
    ensures t.open == AddToOpen(s.open, c.batch, 0, 0, 0, 0) && t.steps == s.steps && t.workers == s.workers
    ensures t.queue == [Work(item)] && t.enqueued == s.enqueued + [item] && t.credit == s.credit && t.past == s.past
  {
    EmptyPath(c, s);
    t := Do(c, s, [], s, Put);
    acts := [] + [Put];
    t := Do(c, s, acts, t, RecordOffered);
    acts := acts + [RecordOffered];
    t := Do(c, s, acts, t, RecordInStep);
    acts := acts + [RecordInStep];
  }

  /** Then worker 0 takes it. */
  lemma PutsAndTakes(c: Config, s: State, item: Item) returns (acts: seq<Action>, t: State)
    requires c.Valid() && PoolShape(c, s.pool) && s.pacer == Putting(item) && s.queue == [] && |s.open| == 1
      && !s.aborted
    requires |s.workers| > 0 && s.workers[0] == Idle
    ensures Path(c, s, acts, t) && Untouched(s, t) && t.pacer == Looping && t.nextSeq == s.nextSeq
    ensures t.open == AddToOpen(s.open, c.batch, 0, 0, 0, 0) && t.steps == s.steps
      && t.workers == s.workers[0 := Held(item)]
    ensures t.queue == [] && t.enqueued == s.enqueued + [item] && t.credit == s.credit && t.past == s.past
  {
    acts, t := Puts(c, s, item);
    t := Do(c, s, acts, t, Take(0));
    acts := acts + [Take(0)];
  }

  /** A step in which one batch is offered and worker 0 has just taken it. */
  lemma OffersOne(c: Config, s: State) returns (acts: seq<Action>, t: State)
    requires Calm(c, s)
    ensures Path(c, s, acts, t) && Untouched(s, t) && t.pacer == Looping && t.nextSeq == s.nextSeq + c.batch
    ensures t.open == [StepResult(s.nextSeq, 0, c.batch, 0, 0, 0, 0, map[])] && t.steps == s.steps
    ensures t.workers == s.workers[0 := Held(Item(s.nextSeq, 0))]
    ensures t.queue == [] && t.enqueued == s.enqueued + [Item(s.nextSeq, 0)] && t.credit == s.credit && t.past == s.past
  {
    var acts0, u := Begins(c, s);
    var acts1;
    acts1, t := PutsAndTakes(c, u, Item(s.nextSeq, 0));
    PathConcat(c, s, acts0, u, acts1, t);
    acts := acts0 + acts1;
  }

  /** The loop ends and the drain finds an empty queue and nothing in flight. */
  lemma Drains(c: Config, s: State) returns (acts: seq<Action>, t: State)
    requires c.Valid() && PoolShape(c, s.pool) && s.pacer == Looping && s.queue == [] && s.inflight == 0
    ensures Path(c, s, acts, t) && t == s.(pacer := Closing(true))
  {
    EmptyPath(c, s);
    t := Do(c, s, [], s, LeaveLoop);
    acts := [] + [LeaveLoop];
    t := Do(c, s, acts, t, CheckEmpty);
    acts := acts + [CheckEmpty];
    t := Do(c, s, acts, t, CheckInflight);
    acts := acts + [CheckInflight];
  }

  /** After an early return of the drain the step is closed. */
  lemma DrainsAndCloses(c: Config, s: State) returns (acts: seq<Action>, t: State)
    requires c.Valid() && PoolShape(c, s.pool) && s.pacer == Looping && s.queue == [] && s.inflight == 0
    ensures Path(c, s, acts, t)
    ensures t == s.(steps := s.steps + Closed(s.open, s.nextSeq), open := [], past := s.past + s.credit,
                    credit := multiset{}, pacer := Between)
  {
    var before, u := Drains(c, s);
    t := Do(c, s, before, u, CloseStep);
    acts := before + [CloseStep];
  }

  /** What an OK changes beside the fields the threads share. */
  lemma SettledRest(c: Config, s: State, w: nat)
    requires w < |s.workers| && s.workers[w].InRpc?
    ensures var t, item := Settled(c, s, w, Ok), s.workers[w].item;
      && t.pacer == s.pacer && t.steps == s.steps && t.nextSeq == s.nextSeq && t.enqueued == s.enqueued
      && t.accepted == s.accepted + multiset{item} && t.lostAcks == s.lostAcks && t.dropped == s.dropped
      && (if s.open == [] then t.credit == s.credit else t.credit == s.credit + multiset{item})
  {
  }

  /** Worker 0 gets an OK for the item it holds and records it. */
  lemma Succeeds(c: Config, s: State, item: Item) returns (acts: seq<Action>, t: State)
    requires c.Valid() && PoolShape(c, s.pool) && |s.workers| > 0 && s.workers[0] == Held(item)
    ensures Path(c, s, acts, t) && PoolShape(c, t.pool)
    ensures t.workers == s.workers[0 := Idle] && t.acks == s.acks + [Ack(item, WireOf(c, ViewOf(s), 0, item))]
    ensures t.pacer == s.pacer && t.steps == s.steps && t.nextSeq == s.nextSeq && t.enqueued == s.enqueued
    ensures t.queue == s.queue && t.inflight == s.inflight && t.stop == s.stop && t.aborted == s.aborted
    ensures t.open == AddToOpen(s.open, 0, c.batch, 0, 1, 0)
    ensures t.accepted == s.accepted + multiset{item} && t.lostAcks == s.lostAcks && t.dropped == s.dropped
  {
    var acts0, u := CallPath(c, s, 0, item);
    StampedShape(c, ViewOf(s), 0, item);
    acts, t := OutcomePath(c, s, acts0, u, 0, Ok);
    SettledOk(c, u, 0);
    SettledRest(c, u, 0);
    assert t.workers == s.workers[0 := Idle];
  }

  lemma StampedShape(c: Config, v: Shared, w: nat, item: Item)
    requires Usable(c, v)
    ensures PoolShape(c, Engine.Stamped(c, v, w, item).pool)
  {
  }

  /** Worker 0 gets an OK and dies before it is recorded. */
  lemma DiesAfterOk(c: Config, s: State, item: Item) returns (acts: seq<Action>, t: State)
    requires c.Valid() && PoolShape(c, s.pool) && |s.workers| > 0 && s.workers[0] == Held(item)
    ensures Path(c, s, acts, t) && PoolShape(c, t.pool)
    ensures t.workers == s.workers[0 := Idle] && t.acks == s.acks + [Ack(item, WireOf(c, ViewOf(s), 0, item))]
    ensures t.pacer == s.pacer && t.steps == s.steps && t.nextSeq == s.nextSeq && t.enqueued == s.enqueued
    ensures t.queue == s.queue && t.inflight == s.inflight && t.stop == s.stop && t.aborted == s.aborted
    ensures t.open == s.open && t.accepted == s.accepted && t.lostAcks == s.lostAcks + multiset{item}
      && t.dropped == s.dropped
  {
    var acts0, u := CallPath(c, s, 0, item);
    StampedShape(c, ViewOf(s), 0, item);
    var acts1, v := ReturnsOk(c, s, acts0, u, item);
    acts, t := DiesWith(c, s, acts1, v, item);
    assert t.workers == s.workers[0 := Idle];
  }

  lemma ReturnsOk(c: Config, s0: State, acts0: seq<Action>, s: State, item: Item) returns (acts: seq<Action>, t: State)
    requires c.Valid() && Path(c, s0, acts0, s) && PoolShape(c, s.pool)
    requires |s.workers| > 0 && s.workers[0].InRpc? && s.workers[0].item == item
    ensures Path(c, s0, acts, t) && t == ExportReturns(s, 0, item, s.workers[0].wire, Ok)
  {
    t := Do(c, s0, acts0, s, Return(0, Ok));
    acts := acts0 + [Return(0, Ok)];
  }

  lemma DiesWith(c: Config, s0: State, acts0: seq<Action>, s: State, item: Item) returns (acts: seq<Action>, t: State)
    requires c.Valid() && Path(c, s0, acts0, s) && PoolShape(c, s.pool) && |s.workers| > 0
      && s.workers[0] == Returned(item, Ok)
    ensures Path(c, s0, acts, t) && t == EscapeAfterOk(s, 0, item)
  {
    t := Do(c, s0, acts0, s, Crash(0));
    acts := acts0 + [Crash(0)];
  }

  /** A step with one batch, acknowledged and counted. */
  lemma CleanStep(c: Config, s: State) returns (acts: seq<Action>, t: State)
    requires Calm(c, s)
    ensures Path(c, s, acts, t) && Calm(c, t) && t.nextSeq == s.nextSeq + c.batch
    ensures |t.acks| == |s.acks| + 1 && s.acks <= t.acks
    ensures t.accepted == s.accepted + multiset{Item(s.nextSeq, 0)} && t.lostAcks == s.lostAcks
    ensures t.steps ==
      s.steps + [StepResult(s.nextSeq, Max(s.nextSeq, s.nextSeq + c.batch - 1), c.batch, c.batch, 0, 1, 0, map[])]
  {
    var acts0, u := OffersOne(c, s);
    var acts1, v := Succeeds(c, u, Item(s.nextSeq, 0));
    PathConcat(c, s, acts0, u, acts1, v);
    var acts2;
    acts2, t := DrainsAndCloses(c, v);
    PathConcat(c, s, acts0 + acts1, v, acts2, t);
    acts := acts0 + acts1 + acts2;
  }

  /** A step with one batch, acknowledged and lost to an exception after the OK. */
  lemma LossyStep(c: Config, s: State) returns (acts: seq<Action>, t: State)
    requires Calm(c, s)
    ensures Path(c, s, acts, t) && Calm(c, t)
    ensures |t.acks| == |s.acks| + 1 && s.acks <= t.acks
    ensures t.accepted == s.accepted && t.lostAcks == s.lostAcks + multiset{Item(s.nextSeq, 0)}
    ensures t.steps ==
      s.steps + [StepResult(s.nextSeq, Max(s.nextSeq, s.nextSeq + c.batch - 1), c.batch, 0, 0, 0, 0, map[])]
  {
    var acts0, u := OffersOne(c, s);
    var acts1, v := DiesAfterOk(c, u, Item(s.nextSeq, 0));
    PathConcat(c, s, acts0, u, acts1, v);
    var acts2;
    acts2, t := DrainsAndCloses(c, v);
    PathConcat(c, s, acts0 + acts1, v, acts2, t);
    acts := acts0 + acts1 + acts2;
  }

  /** A step that offers nothing. */
  lemma EmptyStep(c: Config, s: State) returns (acts: seq<Action>, t: State)
    requires Calm(c, s)
    ensures Path(c, s, acts, t) && Calm(c, t)
    ensures t.acks == s.acks && t.accepted == s.accepted && t.lostAcks == s.lostAcks
    ensures t.steps == s.steps + [StepResult(s.nextSeq, s.nextSeq, 0, 0, 0, 0, 0, map[])]
  {
    EmptyPath(c, s);
    var u := Do(c, s, [], s, BeginStep);
    var acts1;
    acts1, t := DrainsAndCloses(c, u);
    PathConcat(c, s, [] + [BeginStep], u, acts1, t);
    acts := [] + [BeginStep] + acts1;
  }

  /** The program ends. */
  lemma Ends(c: Config, s: State) returns (acts: seq<Action>, t: State)
    requires Calm(c, s)
    ensures Path(c, s, acts, t) && t.pacer == Finished
    ensures t.steps == s.steps && t.acks == s.acks && t.accepted == s.accepted && t.lostAcks == s.lostAcks
      && t.workers == s.workers
  {
    var acts0, u := SentinelPath(c, s, c.workers);
    t := Do(c, s, acts0, u, Join);
    acts := acts0 + [Join];
  }

  lemma {:induction false} SentinelPath(c: Config, s: State, n: nat) returns (acts: seq<Action>, t: State)
    requires Calm(c, s) && n <= c.workers
    ensures Path(c, s, acts, t) && t.pacer == Stopping(n) && t.pool == s.pool
    ensures t.steps == s.steps && t.acks == s.acks && t.accepted == s.accepted && t.lostAcks == s.lostAcks
      && t.workers == s.workers
  {
    if n == 0 {
      EmptyPath(c, s);
      t := Do(c, s, [], s, BeginStop);
      acts := [] + [BeginStop];
    } else {
      var acts0, u := SentinelPath(c, s, n - 1);
      t := Do(c, s, acts0, u, PutSentinel);
      acts := acts0 + [PutSentinel];
    }
  }

  lemma InitialCalm(c: Config, pool: seq<seq<Slot>>, zero: Totals)
    requires c.Valid() && c.workers > 0 && PoolShape(c, pool) && IsZero(zero)
    ensures Calm(c, Init(c, pool, zero)) && Reachable(c, Init(c, pool, zero))
  {
    InitialReachable(c, pool, zero);
  }

  // -- the drain can return too early -------------------------------------------------------------

  /** The drain's docstring promises that the step's accepted count is real. Whatever the
      configuration, it can return before its timeout and let a step be closed with one batch
      offered and nothing accepted, because the worker that took the batch had not reached
      `record_inflight(1)` when the drain looked. The batch is then acknowledged. */
  lemma DrainCanReturnTooEarly(c: Config, s: State)
    returns (closed: seq<Action>, t: State, later: seq<Action>, u: State)
    requires Calm(c, s)
    ensures Path(c, s, closed, t) && t.pacer == Between && |t.steps| == |s.steps| + 1
    ensures var r := t.steps[|s.steps|];
      r.seqStart == s.nextSeq && r.offered == c.batch && r.accepted == 0 && r.requests == 0
    ensures t.workers != [] && t.workers[0] == Held(Item(s.nextSeq, 0))
    ensures Path(c, t, later, u) && u.steps == t.steps && u.accepted == t.accepted + multiset{Item(s.nextSeq, 0)}
    ensures AcceptedIn(u, s.nextSeq, s.nextSeq + c.batch) > 0
  {
    var acts0, v := OffersOne(c, s);
    var acts1;
    acts1, t := DrainsAndCloses(c, v);
    PathConcat(c, s, acts0, v, acts1, t);
    closed := acts0 + acts1;
    later, u := Succeeds(c, t, Item(s.nextSeq, 0));
    assert u.enqueued[|s.enqueued|] == Item(s.nextSeq, 0);
    InRangeMember(u.enqueued, u.accepted, s.nextSeq, s.nextSeq + c.batch, |s.enqueued|);
  }

  lemma {:induction false} InRangeMember(xs: seq<Item>, m: multiset<Item>, lo: int, hi: int, i: nat)
    requires i < |xs| && lo <= xs[i].start < hi && m[xs[i]] > 0
    ensures InRange(xs, m, lo, hi) > 0
  {
    if i < |xs| - 1 {
      InRangeMember(xs[..|xs| - 1], m, lo, hi, i);
    }
  }

  /** It happens in every engine with a worker, from the start of the program. */
  lemma DrainTooEarlyHappens(c: Config, pool: seq<seq<Slot>>, zero: Totals) returns (t: State, u: State)
    requires c.Valid() && c.workers > 0 && PoolShape(c, pool) && IsZero(zero)
    ensures Reachable(c, t) && t.pacer == Between && |t.steps| == 1
    ensures t.steps[0].seqStart == 0 && t.steps[0].offered == c.batch && t.steps[0].accepted == 0
    ensures Reachable(c, u) && u.steps == t.steps && AcceptedIn(u, 0, c.batch) > 0
  {
    var s := Init(c, pool, zero);
    InitialCalm(c, pool, zero);
    var acts0, acts1;
    acts0, t, acts1, u := DrainCanReturnTooEarly(c, s);
    PathReachable(c, s, acts0, t);
    PathReachable(c, t, acts1, u);
  }

  // -- the tail of a step can be counted in the next one ------------------------------------------

  /** The loop ends and the drain times out. */
  lemma TimesOut(c: Config, s: State) returns (acts: seq<Action>, t: State)
    requires c.Valid() && PoolShape(c, s.pool) && s.pacer == Looping
    ensures Path(c, s, acts, t)
    ensures t == s.(steps := s.steps + Closed(s.open, s.nextSeq), open := [], past := s.past + s.credit,
                    credit := multiset{}, pacer := Between)
  {
    EmptyPath(c, s);
    t := Do(c, s, [], s, LeaveLoop);
    acts := [] + [LeaveLoop];
    t := Do(c, s, acts, t, DrainTimeout);
    acts := acts + [DrainTimeout];
    t := Do(c, s, acts, t, CloseStep);
    acts := acts + [CloseStep];
  }

  /** After a drain that timed out, the next step can count the late ack: it is drained in full, with
      every worker idle when the drain looks, and closed with nothing offered and a batch accepted. */
  lemma TailCountsInNextStep(c: Config, s: State) returns (acts: seq<Action>, t: State)
    requires Calm(c, s)
    ensures Path(c, s, acts, t) && Calm(c, t) && |t.steps| == |s.steps| + 2
    ensures var r := t.steps[|s.steps|]; r.offered == c.batch && r.accepted == 0
    ensures var r := t.steps[|s.steps| + 1]; r.offered == 0 && r.accepted == c.batch
  {
    var acts0, u := OffersOne(c, s);
    var acts1, v := TimesOut(c, u);
    PathConcat(c, s, acts0, u, acts1, v);
    var x := Do(c, s, acts0 + acts1, v, BeginStep);
    var acts2 := acts0 + acts1 + [BeginStep];
    var acts3, y := Succeeds(c, x, Item(s.nextSeq, 0));
    PathConcat(c, s, acts2, x, acts3, y);
    var acts4;
    acts4, t := DrainsAndCloses(c, y);
    PathConcat(c, s, acts2 + acts3, y, acts4, t);
    acts := acts2 + acts3 + acts4;
  }
}
