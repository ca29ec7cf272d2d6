/** The methods of `LoadGenerator` as one thread runs them (generator/src/loadgen.py), on the objects
    they mutate. `EnginePaths` shows that each of them, run without interruption, takes the state
    machine of `Loadgen` along a path of its atomic steps. */
module Engine {
  import opened Basics
  import M = Metrics
  import P = Payload
  import opened Loadgen

  /** What the threads share, apart from the main thread's program counter. */
  datatype Shared = Shared(
    queue: seq<Entry>, open: seq<StepResult>, totals: M.Totals, inflight: int,
    consecutive: nat, aborted: bool, stop: bool, pool: seq<seq<P.Slot>>)

  // -- what the methods do to it -------------------------------------------------------------

  ghost predicate Usable(c: Config, v: Shared) {
    c.Valid() && PoolShape(c, v.pool)
  }

  /** Worker w has stamped the item. */
  function Stamped(c: Config, v: Shared, w: nat, item: Item): Shared
    requires Usable(c, v)
  {
    var wire := WireOf(c, v, w, item);
    v.(pool := v.pool[c.Template(w, item) := wire])
  }

  /** The request handed to `export`. */
  function WireOf(c: Config, v: Shared, w: nat, item: Item): seq<P.Slot>
    requires Usable(c, v)
    ensures c.Template(w, item) < |v.pool|
  {
    P.TemplateIndexInPool(c.PoolWorkers(), c.variants, w, item.variant);
    P.Stamped(c.schema, v.pool[c.Template(w, item)], item.start)
  }

  function Acked(c: Config, v: Shared): Shared {
    v.(totals := M.AddSuccess(v.totals, c.batch), consecutive := 0, open := AddToOpen(v.open, 0, c.batch, 0, 1, 0))
  }

  /** A failure other than a rejection counts towards the abort. */
  function Counted(c: Config, v: Shared): Shared {
    var trips := c.abortLimit > 0 && v.consecutive + 1 >= c.abortLimit && !v.aborted;
    v.(consecutive := v.consecutive + 1, aborted := v.aborted || trips, stop := v.stop || trips)
  }

  function Refused(c: Config, v: Shared, code: M.Code): Shared {
    var u := v.(totals := M.AddFailure(v.totals, c.batch, code), open := FailInOpen(c, v.open, code));
    if code.ResourceExhausted? then u else Counted(c, u)
  }

  /** `_send` from start to end; `None` is an export that raises. */
  function Sent(c: Config, v: Shared, w: nat, item: Item, result: Option<Outcome>): Shared
    requires Usable(c, v)
  {
    var u := Stamped(c, v, w, item);
    match result
    case None => u
    case Some(Ok) => Acked(c, u)
    case Some(Failed(code)) => Refused(c, u, code)
  }

  /** The outcomes recorded one after the other, by any workers. */
  function After(c: Config, v: Shared, outcomes: seq<Outcome>): Shared {
    if outcomes == [] then v else
      var u := After(c, v, outcomes[..|outcomes| - 1]);
      match outcomes[|outcomes| - 1]
      case Ok => Acked(c, u)
      case Failed(code) => Refused(c, u, code)
  }

  /** Failures other than rejections since the last OK. */
  function Streak(outcomes: seq<Outcome>): nat {
    if outcomes == [] then 0 else
      var n := Streak(outcomes[..|outcomes| - 1]);
      match outcomes[|outcomes| - 1]
      case Ok => 0
      case Failed(code) => if code.ResourceExhausted? then n else n + 1
  }

  ghost predicate Tripped(c: Config, outcomes: seq<Outcome>) {
    c.abortLimit > 0 && exists n :: 0 < n <= |outcomes| && Streak(outcomes[..n]) >= c.abortLimit
  }

  /** The run aborts, and the stop flag is set, exactly when so many failures in a row have been
      recorded as the limit says. An OK starts the count again; a rejection neither counts nor does. */
  lemma {:induction false} AbortsAtLimit(c: Config, v: Shared, outcomes: seq<Outcome>)
    requires v.consecutive == 0 && !v.aborted
    ensures var u := After(c, v, outcomes);
            u.consecutive == Streak(outcomes) && (u.aborted <==> Tripped(c, outcomes))
              && (u.stop <==> v.stop || u.aborted)
  {
    if outcomes != [] {
      var n := |outcomes| - 1;
      AbortsAtLimit(c, v, outcomes[..n]);
      assert outcomes[..|outcomes|] == outcomes;
      assert forall k :: 0 <= k <= n ==> outcomes[..n][..k] == outcomes[..k];
      StreakGrows(outcomes);
      if Tripped(c, outcomes) && !Tripped(c, outcomes[..n]) {
        var k :| 0 < k <= |outcomes| && Streak(outcomes[..k]) >= c.abortLimit;
        assert k == |outcomes|;
      }
    }
  }

  /** Only a counted failure makes the streak longer. */
  lemma {:induction false} StreakGrows(outcomes: seq<Outcome>)
    requires outcomes != []
    ensures var last := outcomes[|outcomes| - 1];
            Streak(outcomes) > Streak(outcomes[..|outcomes| - 1]) <==> last.Failed? && !last.code.ResourceExhausted?
  {
  }

  function Sentinels(n: nat): seq<Entry> {
    seq(n, _ => Sentinel)
  }

  function Room(c: Config, v: Shared): nat {
    if |v.queue| <= c.QueueSize() then c.QueueSize() - |v.queue| else 0
  }

  /** `stop` after n workers, as many sentinels as there is room for. */
  function Ordered(c: Config, v: Shared, n: nat): Shared {
    v.(stop := true, queue := v.queue + Sentinels(if n < Room(c, v) then n else Room(c, v)))
  }

  // -- the object ---------------------------------------------------------------------------------

  class LoadGenerator {
    const c: Config
    const metrics: M.Metrics
    const factory: P.PayloadFactory
    var queue: seq<Entry>
    var step: seq<StepResult>
    var consecutiveFailures: nat
    var aborted: bool
    var stopped: bool

    ghost predicate Valid()
      reads this, metrics, factory
    {
      && c.Valid() && metrics.Valid() && factory.Valid()
      && factory.schema == c.schema && factory.batch == c.batch
      && factory.workers == c.PoolWorkers() && factory.variants == c.variants
    }

    ghost function View(): (v: Shared)
      requires Valid()
      reads this, metrics, factory, factory.Buffers()
      ensures Usable(c, v)
    {
      Shared(queue, step, metrics.totals, metrics.inflight, consecutiveFailures, aborted, stopped, factory.Pool())
    }

    /** The pool-size check of `__init__` cannot fail for a factory built for these workers. */
    constructor (c: Config, metrics: M.Metrics, factory: P.PayloadFactory)
      requires c.Valid() && metrics.Valid() && factory.Valid()
      requires factory.schema == c.schema && factory.batch == c.batch
      requires factory.workers == c.PoolWorkers() && factory.variants == c.variants
      ensures Valid() && this.c == c && this.metrics == metrics && this.factory == factory
      ensures |factory.templates| >= c.workers * c.variants
      ensures View() == Shared([], [], metrics.totals, metrics.inflight, 0, false, false, factory.Pool())
    {
      this.c, this.metrics, this.factory := c, metrics, factory;
      queue, step, consecutiveFailures, aborted, stopped := [], [], 0, false, false;
      assert c.workers * c.variants <= c.PoolWorkers() * c.variants;
    }

    /** The rest of `_record_failure` after a failure that is not a rejection. */
    method CountFailure()
      requires Valid()
      modifies this`consecutiveFailures, this`aborted, this`stopped
      ensures Valid()
      ensures View() == Counted(c, old(View()))
    {
      consecutiveFailures := consecutiveFailures + 1;
      if c.abortLimit > 0 && consecutiveFailures >= c.abortLimit && !aborted {
        aborted := true;
        stopped := true;
      }
    }

    method RecordFailure(code: M.Code, latencyS: real)
      requires Valid()
      modifies this`step, this`consecutiveFailures, this`aborted, this`stopped, metrics
      ensures Valid()
      ensures View() == Refused(c, old(View()), code)
    {
      metrics.RecordFailure(c.batch, latencyS, code);
      if step != [] {
        var r := step[0];
        step := [r.(requests := r.requests + 1, failures := r.failures + 1,
                    errorsByCode := M.Bumped(r.errorsByCode, code),
                    rejected := if code.ResourceExhausted? then r.rejected + c.batch else r.rejected)];
      }
      if code.ResourceExhausted? {
        return;
      }
      CountFailure();
    }

    /** The rest of `_send` after an OK. */
    method RecordSuccess(latencyS: real)
      requires Valid()
      modifies this`step, this`consecutiveFailures, metrics
      ensures Valid()
      ensures View() == Acked(c, old(View()))
    {
      metrics.RecordSuccess(c.batch, latencyS);
      consecutiveFailures := 0;
      if step != [] {
        var r := step[0];
        step := [r.(accepted := r.accepted + c.batch, requests := r.requests + 1)];
      }
    }

    /** Stamp the worker's own template and hand it to `export`, which counts as in flight meanwhile. */
    method CallExport(w: nat, item: Item) returns (wire: seq<P.Slot>)
      requires Valid() && w < c.workers
      modifies metrics`inflight, factory.TemplateFor(w, item.variant).slots
      ensures Valid()
      ensures View() == Stamped(c, old(View()), w, item)
      ensures wire == WireOf(c, old(View()), w, item)
    {
      var template := factory.TemplateFor(w, item.variant);
      var next := factory.StampFor(w, item.variant, item.start);
      assert factory.Pool()[c.Template(w, item)] == template.slots[..];
      metrics.RecordInflight(1);
      wire := template.slots[..];
      metrics.RecordInflight(-1);
    }

    /** `_send`: stamp, export, and record what came of it. */
    method Send(w: nat, item: Item, result: Option<Outcome>, latencyS: real) returns (wire: seq<P.Slot>)
      requires Valid() && w < c.workers
      modifies this`step, this`consecutiveFailures, this`aborted, this`stopped
      modifies metrics, factory.TemplateFor(w, item.variant).slots
      ensures Valid()
      ensures View() == Sent(c, old(View()), w, item, result)
      ensures wire == WireOf(c, old(View()), w, item)
    {
      wire := CallExport(w, item);
      match result
      case None =>
      case Some(Ok) => RecordSuccess(latencyS);
      case Some(Failed(code)) => RecordFailure(code, latencyS);
    }

    /** `stop`, up to joining the workers: a sentinel for each of them, as far as the queue has room. */
    method Stop()
      requires Valid() && |queue| <= c.QueueSize()
      modifies this`stopped, this`queue
      ensures Valid()
      ensures View() == Ordered(c, old(View()), c.workers)
      ensures |queue| == |old(queue)| + Min(c.workers, Max(1, c.maxInflight) - |old(queue)|)
      ensures old(queue) <= queue && forall i :: |old(queue)| <= i < |queue| ==> queue[i] == Sentinel
    {
      stopped := true;
      for i := 0 to c.workers
        invariant stopped
        invariant queue == old(queue) + Sentinels(if i < Room(c, old(View())) then i else Room(c, old(View())))
      {
        if |queue| < c.QueueSize() {
          queue := queue + [Sentinel];
        }
      }
    }
  }
}
