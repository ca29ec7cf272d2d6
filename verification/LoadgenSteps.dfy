/** The counters of a step result agree with each other in every reachable state. */
module LoadgenSteps {
  import opened Basics
  import opened Sums
  import opened Metrics
  import opened Payload
  import opened Loadgen
  import opened LoadgenInvariant
  import opened LoadgenWorkers

  /** Each request of the step was acknowledged with a whole batch or failed, and a rejection
      rejected a whole batch. */
  ghost predicate Tallied(c: Config, r: StepResult) {
    && 0 <= r.failures <= r.requests
    && r.accepted == Times(r.requests - r.failures, c.batch)
    && 0 <= Rejections(r) <= r.failures
    && r.rejected == Times(Rejections(r), c.batch)
    && MapSum(r.errorsByCode) == r.failures
  }

  function Rejections(r: StepResult): int {
    CountOf(r.errorsByCode, ResourceExhausted)
  }

  ghost predicate AllTallied(c: Config, rs: seq<StepResult>) {
    forall i :: 0 <= i < |rs| ==> Tallied(c, rs[i])
  }

  ghost predicate StepsTallied(c: Config, s: State) {
    AllTallied(c, s.steps) && AllTallied(c, s.open)
  }

  /** The step changes `open` and `steps` in one of the ways that keep the counters in agreement. */
  ghost predicate StepMove(c: Config, s: State, t: State) {
    || (t.steps == s.steps && t.open == s.open)
    || (t.steps == s.steps && |t.open| == 1 && IsBlank(t.open[0]))
    || (t.steps == s.steps && t.open == AddToOpen(s.open, c.batch, 0, 0, 0, 0))
    || (t.steps == s.steps + Closed(s.open, s.nextSeq) && t.open == [])
    || (t.steps == s.steps && t.open == AddToOpen(s.open, 0, c.batch, 0, 1, 0))
    || (t.steps == s.steps && exists code :: t.open == FailInOpen(c, s.open, code))
  }

  predicate IsBlank(r: StepResult) {
    r.accepted == 0 && r.rejected == 0 && r.requests == 0 && r.failures == 0 && r.errorsByCode == map[]
  }

  lemma PacerMoves(c: Config, s: State, a: Action)
    requires c.Valid()
    ensures StepMove(c, s, PacerStep(c, s, a))
  {
  }

  lemma CrashMoves(c: Config, s: State, w: nat)
    requires w < |s.workers|
    ensures StepMove(c, s, CrashStep(s, w))
  {
  }

  /** Only `RecordStep` posts to the step. */
  lemma OthersLeaveSteps(c: Config, s: State, w: nat, a: Action)
    requires c.Valid() && PoolShape(c, s.pool) && w < |s.workers| && !a.Crash? && !a.RecordStep?
    ensures WorkerStep(c, s, w, a).open == s.open && WorkerStep(c, s, w, a).steps == s.steps
  {
  }

  lemma PostMoves(c: Config, s: State, w: nat, item: Item, code: Code)
    requires w < |s.workers|
    ensures StepMove(c, s, PostAck(c, s, w, item)) && StepMove(c, s, PostFailure(c, s, w, code))
  {
  }

  lemma RecordMoves(c: Config, s: State, w: nat, a: Action)
    requires c.Valid() && PoolShape(c, s.pool) && w < |s.workers| && a.RecordStep?
    ensures StepMove(c, s, WorkerStep(c, s, w, a))
  {
    if s.workers[w].InTotals? {
      var p := s.workers[w];
      PostMoves(c, s, w, p.item, if p.outcome.Ok? then ResourceExhausted else p.outcome.code);
    }
  }

  lemma WorkerMoves(c: Config, s: State, w: nat, a: Action)
    requires c.Valid() && PoolShape(c, s.pool) && w < |s.workers|
    ensures StepMove(c, s, WorkerStep(c, s, w, a))
  {
    if a.Crash? {
      CrashMoves(c, s, w);
    } else if a.RecordStep? {
      RecordMoves(c, s, w, a);
    } else {
      OthersLeaveSteps(c, s, w, a);
    }
  }

  lemma FailureKeepsTally(c: Config, open: seq<StepResult>, code: Code)
    requires open != [] && Tallied(c, open[0])
    ensures AllTallied(c, FailInOpen(c, open, code))
  {
    MapSumUpdate(open[0].errorsByCode, code, CountOf(open[0].errorsByCode, code) + 1);
  }

  lemma MoveKeepsTally(c: Config, s: State, t: State)
    requires StepsTallied(c, s) && StepMove(c, s, t)
    ensures StepsTallied(c, t)
  {
    if s.open != [] {
      assert Tallied(c, s.open[0]);
      if code :| t.open == FailInOpen(c, s.open, code) {
        FailureKeepsTally(c, s.open, code);
      }
    }
  }

  lemma StepKeepsTally(c: Config, s: State, a: Action)
    requires c.Valid() && PoolShape(c, s.pool) && StepsTallied(c, s)
    ensures StepsTallied(c, Step(c, s, a))
  {
    var w := WorkerOf(a);
    if w < 0 {
      PacerMoves(c, s, a);
      MoveKeepsTally(c, s, PacerStep(c, s, a));
    } else if w < |s.workers| {
      WorkerMoves(c, s, w, a);
      MoveKeepsTally(c, s, WorkerStep(c, s, w, a));
    }
  }

  lemma LinkKeepsTally(c: Config, states: seq<State>, acts: seq<Action>, i: nat)
    requires c.Valid() && Run(c, states, acts) && i < |acts| && StepsTallied(c, states[i])
    ensures StepsTallied(c, states[i + 1])
  {
    assert Link(c, states, acts, i);
    StepKeepsTally(c, states[i], acts[i]);
  }

  lemma {:induction false} RunTallied(c: Config, states: seq<State>, acts: seq<Action>, n: nat)
    requires c.Valid() && Run(c, states, acts) && n <= |acts|
    ensures StepsTallied(c, states[n])
  {
    if n > 0 {
      RunTallied(c, states, acts, n - 1);
      LinkKeepsTally(c, states, acts, n - 1);
    }
  }

  /** In every reachable state, for every step so far: accepted = (requests - failures) * batch, the
      errors by code sum to the failures, and exactly the batches of the RESOURCE_EXHAUSTED ones were
      rejected. */
  lemma StepCounters(c: Config, s: State, i: nat)
    requires Reachable(c, s) && i < |s.steps + s.open|
    ensures var r := (s.steps + s.open)[i];
      && 0 <= r.failures <= r.requests
      && r.accepted == (r.requests - r.failures) * c.batch
      && MapSum(r.errorsByCode) == r.failures
      && 0 <= Rejections(r) <= r.failures && r.rejected == Rejections(r) * c.batch
  {
    var states, acts :| Run(c, states, acts) && states[|acts|] == s;
    RunTallied(c, states, acts, |acts|);
    var r := (s.steps + s.open)[i];
    assert Tallied(c, r);
    TimesIsProduct(r.requests - r.failures, c.batch);
    TimesIsProduct(Rejections(r), c.batch);
  }
}
