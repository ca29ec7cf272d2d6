/** The methods of `Engine` are paths of the state machine of `Loadgen`. */
module EnginePaths {
  import opened Basics
  import M = Metrics
  import P = Payload
  import opened Loadgen
  import opened LoadgenPaths
  import opened Engine

  function ViewOf(s: State): Shared {
    Shared(s.queue, s.open, s.totals, s.inflight, s.consecutive, s.aborted, s.stop, s.pool)
  }

  /** A run starts with what the constructor of `Engine.LoadGenerator` leaves: nothing waits, nothing is open
      and no failure was counted. */
  lemma StartsFresh(c: Config, pool: seq<seq<P.Slot>>, zero: M.Totals)
    ensures ViewOf(Init(c, pool, zero)) == Shared([], [], zero, 0, 0, false, false, pool)
    ensures Init(c, pool, zero).nextSeq == 0 && Init(c, pool, zero).steps == [] && Init(c, pool, zero).pacer == Between
  {
  }

  /** The template after its first k records were stamped. */
  function StampedUpTo(schema: P.Schema, slots: seq<P.Slot>, first: int, k: nat): seq<P.Slot> {
    seq(|slots|, j requires 0 <= j < |slots| => if j < k then P.StampSlot(schema, slots[j], first + j) else slots[j])
  }

  lemma OneStamp(c: Config, s: State, w: nat, item: Item, k: nat, slots: seq<P.Slot>)
    requires c.Valid() && PoolShape(c, s.pool) && w < |s.workers| && s.workers[w] == Stamping(item, k) && k < c.batch
    requires c.Template(w, item) < |s.pool| && |slots| == c.batch
    requires s.pool[c.Template(w, item)] == StampedUpTo(c.schema, slots, item.start, k)
    ensures WorkerStep(c, s, w, StampOne(w)) ==
            s.(pool := s.pool[c.Template(w, item) := StampedUpTo(c.schema, slots, item.start, k + 1)],
               workers := s.workers[w := Stamping(item, k + 1)])
  {
    var p := StampedUpTo(c.schema, slots, item.start, k);
    assert p[k := P.StampSlot(c.schema, p[k], item.start + k)] == StampedUpTo(c.schema, slots, item.start, k + 1);
  }

  lemma NothingStamped(c: Config, s: State, i: nat, first: int)
    requires i < |s.pool|
    ensures s.pool[i := StampedUpTo(c.schema, s.pool[i], first, 0)] == s.pool
  {
    assert StampedUpTo(c.schema, s.pool[i], first, 0) == s.pool[i];
  }

  /** The loop of `stamp`. */
  lemma {:induction false} StampPath(c: Config, s: State, w: nat, item: Item, k: nat)
    returns (acts: seq<Action>, t: State)
    requires c.Valid() && PoolShape(c, s.pool) && w < |s.workers| && s.workers[w] == Held(item) && k <= c.batch
    requires c.Template(w, item) < |s.pool|
    ensures t ==
      s.(pool := s.pool[c.Template(w, item) := StampedUpTo(c.schema, s.pool[c.Template(w, item)], item.start, k)],
         workers := s.workers[w := Stamping(item, k)])
    ensures Path(c, s, acts, t)
  {
    var i := c.Template(w, item);
    if k == 0 {
      EmptyPath(c, s);
      t := Do(c, s, [], s, BeginStamp(w));
      acts := [] + [BeginStamp(w)];
      NothingStamped(c, s, i, item.start);
    } else {
      var before, u := StampPath(c, s, w, item, k - 1);
      OneStamp(c, u, w, item, k - 1, s.pool[i]);
      t := Do(c, s, before, u, StampOne(w));
      acts := before + [StampOne(w)];
      StampedTwice(c, s, u, t, w, item, k);
    }
  }

  lemma StampedTwice(c: Config, s: State, u: State, t: State, w: nat, item: Item, k: nat)
    requires c.Valid() && w < |s.workers| && c.Template(w, item) < |s.pool| && k > 0
    requires var i := c.Template(w, item);
             && u == s.(pool := s.pool[i := StampedUpTo(c.schema, s.pool[i], item.start, k - 1)],
                        workers := s.workers[w := Stamping(item, k - 1)])
             && t == u.(pool := u.pool[i := StampedUpTo(c.schema, s.pool[i], item.start, k)],
                        workers := u.workers[w := Stamping(item, k)])
    ensures t ==
      s.(pool := s.pool[c.Template(w, item) := StampedUpTo(c.schema, s.pool[c.Template(w, item)], item.start, k)],
         workers := s.workers[w := Stamping(item, k)])
  {
    assert t.workers == s.workers[w := Stamping(item, k)];
  }

  /** Stamp and call `export`: the request is as `Engine.LoadGenerator.CallExport` returns it. */
  lemma CallPath(c: Config, s: State, w: nat, item: Item) returns (acts: seq<Action>, t: State)
    requires c.Valid() && PoolShape(c, s.pool) && w < |s.workers| && s.workers[w] == Held(item)
    ensures Path(c, s, acts, t)
    ensures var v := ViewOf(s);
            t == s.(pool := Stamped(c, v, w, item).pool, inflight := s.inflight + 1,
                    workers := s.workers[w := InRpc(item, WireOf(c, v, w, item))])
  {
    P.TemplateIndexInPool(c.PoolWorkers(), c.variants, w, item.variant);
    var before, u := StampPath(c, s, w, item, c.batch);
    var i := c.Template(w, item);
    assert StampedUpTo(c.schema, s.pool[i], item.start, c.batch) == WireOf(c, ViewOf(s), w, item);
    t := Do(c, s, before, u, Export(w));
    assert t.workers == s.workers[w := InRpc(item, WireOf(c, ViewOf(s), w, item))];
    acts := before + [Export(w)];
  }

  lemma CrashInRpc(c: Config, s: State, w: nat)
    requires w < |s.workers| && s.workers[w].InRpc?
    ensures var t := CrashStep(s, w);
            ViewOf(t) == ViewOf(s.(inflight := s.inflight - 1)) && t.workers == s.workers[w := Idle] && t.acks == s.acks
  {
  }

  /** What the three steps after `export` do together. */
  function Settled(c: Config, s: State, w: nat, outcome: Outcome): State
    requires w < |s.workers| && s.workers[w].InRpc?
  {
    var item, wire := s.workers[w].item, s.workers[w].wire;
    var u := PostTotals(c, ExportReturns(s, w, item, wire, outcome), w, item, outcome);
    if outcome.Ok? then PostAck(c, u, w, item) else PostFailure(c, u, w, outcome.code)
  }

  lemma SettledOk(c: Config, s: State, w: nat)
    requires w < |s.workers| && s.workers[w].InRpc?
    ensures var t := Settled(c, s, w, Ok);
      && ViewOf(t) == Acked(c, ViewOf(s.(inflight := s.inflight - 1)))
      && t.workers == s.workers[w := Idle]
      && t.acks == s.acks + [Ack(s.workers[w].item, s.workers[w].wire)]
  {
  }

  lemma SettledFailed(c: Config, s: State, w: nat, code: M.Code)
    requires w < |s.workers| && s.workers[w].InRpc?
    ensures var t := Settled(c, s, w, Failed(code));
      && ViewOf(t) == Refused(c, ViewOf(s.(inflight := s.inflight - 1)), code)
      && t.workers == s.workers[w := Idle] && t.acks == s.acks
  {
  }

  lemma ReturnPath(c: Config, s0: State, acts0: seq<Action>, s: State, w: nat, outcome: Outcome) returns (t: State)
    requires c.Valid() && Path(c, s0, acts0, s) && PoolShape(c, s.pool) && w < |s.workers| && s.workers[w].InRpc?
    ensures Path(c, s0, acts0 + [Return(w, outcome)], t) && t.pool == s.pool && |t.workers| == |s.workers|
    ensures t == ExportReturns(s, w, s.workers[w].item, s.workers[w].wire, outcome)
    ensures t.workers[w] == Returned(s.workers[w].item, outcome)
  {
    t := Do(c, s0, acts0, s, Return(w, outcome));
  }

  /** `export` returns and the outcome reaches the totals. */
  lemma TotalsPath(c: Config, s0: State, acts0: seq<Action>, s: State, w: nat, outcome: Outcome)
    returns (acts: seq<Action>, t: State)
    requires c.Valid() && Path(c, s0, acts0, s) && PoolShape(c, s.pool) && w < |s.workers| && s.workers[w].InRpc?
    ensures Path(c, s0, acts, t)
    ensures var item, wire := s.workers[w].item, s.workers[w].wire;
            t == PostTotals(c, ExportReturns(s, w, item, wire, outcome), w, item, outcome)
  {
    var u := ReturnPath(c, s0, acts0, s, w, outcome);
    acts := acts0 + [Return(w, outcome)];
    t := Do(c, s0, acts, u, RecordTotals(w));
    acts := acts + [RecordTotals(w)];
  }

  lemma OutcomePath(c: Config, s0: State, acts0: seq<Action>, s: State, w: nat, outcome: Outcome)
    returns (acts: seq<Action>, t: State)
    requires c.Valid() && Path(c, s0, acts0, s) && PoolShape(c, s.pool) && w < |s.workers| && s.workers[w].InRpc?
    ensures Path(c, s0, acts, t) && t == Settled(c, s, w, outcome)
  {
    var u;
    acts, u := TotalsPath(c, s0, acts0, s, w, outcome);
    TotalsFrame(c, s, w, outcome);
    t := Do(c, s0, acts, u, RecordStep(w));
    acts := acts + [RecordStep(w)];
  }

  lemma TotalsFrame(c: Config, s: State, w: nat, outcome: Outcome)
    requires w < |s.workers| && s.workers[w].InRpc?
    ensures var item, wire := s.workers[w].item, s.workers[w].wire;
            var t := PostTotals(c, ExportReturns(s, w, item, wire, outcome), w, item, outcome);
            t.pool == s.pool && |t.workers| == |s.workers| && t.workers[w] == InTotals(item, outcome)
  {
  }

  lemma CrashPath(c: Config, s0: State, acts0: seq<Action>, s: State, w: nat) returns (acts: seq<Action>, t: State)
    requires c.Valid() && Path(c, s0, acts0, s) && PoolShape(c, s.pool) && w < |s.workers| && s.workers[w].InRpc?
    ensures Path(c, s0, acts, t)
    ensures ViewOf(t) == ViewOf(s.(inflight := s.inflight - 1)) && t.workers == s.workers[w := Idle] && t.acks == s.acks
  {
    t := Do(c, s0, acts0, s, Crash(w));
    acts := acts0 + [Crash(w)];
    CrashInRpc(c, s, w);
  }

  /** `Engine.LoadGenerator.Send` is what the state machine does when a worker runs undisturbed. */
  lemma SendIsAPath(c: Config, s: State, w: nat, item: Item, result: Option<Outcome>)
    returns (acts: seq<Action>, t: State)
    requires c.Valid() && PoolShape(c, s.pool) && w < |s.workers| && s.workers[w] == Held(item)
    ensures Path(c, s, acts, t)
    ensures ViewOf(t) == Sent(c, ViewOf(s), w, item, result)
    ensures t.workers == s.workers[w := Idle]
    ensures t.acks == s.acks + if result == Some(Ok) then [Ack(item, WireOf(c, ViewOf(s), w, item))] else []
  {
    var before, u := CallPath(c, s, w, item);
    assert u.workers[w := Idle] == s.workers[w := Idle];
    match result
    case None =>
      acts, t := CrashPath(c, s, before, u, w);
    case Some(Ok) =>
      acts, t := OutcomePath(c, s, before, u, w, Ok);
      SettledOk(c, u, w);
    case Some(Failed(code)) =>
      acts, t := OutcomePath(c, s, before, u, w, Failed(code));
      SettledFailed(c, u, w, code);
  }

  /** `Engine.LoadGenerator.Stop` is what the main thread does when nothing is taken meanwhile. */
  lemma {:induction false} StopIsAPath(c: Config, s: State, n: nat) returns (acts: seq<Action>, t: State)
    requires c.Valid() && PoolShape(c, s.pool) && s.pacer == Between && |s.queue| <= c.QueueSize() && n <= c.workers
    ensures Path(c, s, acts, t)
    ensures ViewOf(t) == Ordered(c, ViewOf(s), n)
    ensures t.pacer == Stopping(n) && t.workers == s.workers
    ensures t.dropped == s.dropped + n - (|t.queue| - |s.queue|)
  {
    if n == 0 {
      EmptyPath(c, s);
      t := Do(c, s, [], s, BeginStop);
      acts := [] + [BeginStop];
    } else {
      var before, u := StopIsAPath(c, s, n - 1);
      t := Do(c, s, before, u, PutSentinel);
      acts := before + [PutSentinel];
    }
  }
}
