/** The template variants a step uses, one batch after the other. */
module LoadgenVariants {
  import opened Basics
  import opened Metrics
  import opened Payload
  import opened Loadgen
  import opened LoadgenInvariant
  import opened LoadgenWorkers
  import opened LoadgenPaths
  import opened LoadgenStop

  /** The k-th batch of the step that began with b items enqueued has variant k, counted round. */
  ghost predicate Cycling(c: Config, s: State, b: nat)
    requires c.variants > 0
  {
    && InStep(s.pacer) && b <= |s.enqueued|
    && (forall i :: b <= i < |s.enqueued| ==> s.enqueued[i].variant == (i - b) % c.variants)
    && (HoldsRange(s.pacer) ==>
          s.pacer.item.variant == (|s.enqueued| - b) % c.variants && s.variant == (|s.enqueued| - b + 1) % c.variants)
    && (s.pacer.Looping? || s.pacer.InTurn? || s.pacer.Enqueued? || s.pacer.Recorded? ==>
          s.variant == (|s.enqueued| - b) % c.variants)
  }

  lemma NextVariant(k: nat, v: nat)
    requires v > 0
    ensures (k % v + 1) % v == (k + 1) % v
  {
    var q, r := k / v, k % v;
    assert k == q * v + r;
    if r + 1 < v {
      SmallMod(r + 1, v);
      DigitsUnique((k + 1) / v, (k + 1) % v, q, r + 1, v);
    } else {
      assert k + 1 == (q + 1) * v + 0;
      DigitsUnique((k + 1) / v, (k + 1) % v, q + 1, 0, v);
    }
  }

  lemma AllocateCycles(c: Config, s: State, b: nat)
    requires c.Valid() && Cycling(c, s, b)
    ensures Cycling(c, LoopStep(c, s, Allocate), b)
  {
    NextVariant(|s.enqueued| - b, c.variants);
  }

  lemma TurnCycles(c: Config, s: State, a: Action, b: nat)
    requires c.Valid() && Cycling(c, s, b) && !IsBarrier(a) && !a.Allocate? && !EndsTurn(a)
    ensures Cycling(c, LoopStep(c, s, a), b)
  {
  }

  lemma TurnEndCycles(c: Config, s: State, a: Action, b: nat)
    requires c.Valid() && Cycling(c, s, b) && EndsTurn(a)
    ensures Cycling(c, LoopStep(c, s, a), b)
  {
  }

  lemma LoopCycles(c: Config, s: State, a: Action, b: nat)
    requires c.Valid() && Cycling(c, s, b) && !IsBarrier(a)
    ensures Cycling(c, LoopStep(c, s, a), b)
  {
    if a.Allocate? {
      AllocateCycles(c, s, b);
    } else if EndsTurn(a) {
      TurnEndCycles(c, s, a, b);
    } else {
      TurnCycles(c, s, a, b);
    }
  }

  lemma BarrierCycles(c: Config, s: State, a: Action, b: nat)
    requires c.Valid() && Cycling(c, s, b) && IsBarrier(a) && !a.CloseStep?
    ensures Cycling(c, BarrierStep(c, s, a), b)
  {
  }

  lemma WorkerKeepsVariant(c: Config, s: State, w: nat, a: Action)
    requires c.Valid() && PoolShape(c, s.pool) && w < |s.workers|
    ensures WorkerStep(c, s, w, a).variant == s.variant
  {
  }

  lemma StepCycles(c: Config, s: State, a: Action, b: nat)
    requires c.Valid() && PoolShape(c, s.pool) && Cycling(c, s, b) && !a.CloseStep?
    ensures Cycling(c, Step(c, s, a), b)
  {
    var w := WorkerOf(a);
    if w < 0 && IsBarrier(a) {
      BarrierCycles(c, s, a, b);
    } else if w < 0 {
      LoopCycles(c, s, a, b);
    } else if w < |s.workers| {
      WorkerControl(c, s, w, a);
      WorkerKeepsVariant(c, s, w, a);
    }
  }

  /** Each step starts with variant 0 and goes round the variants, batch after batch, whatever the schedule. */
  lemma VariantsGoRound(c: Config, s: State, acts: seq<Action>, t: State)
    requires c.Valid() && s.pacer.Between? && Path(c, PacerStep(c, s, BeginStep), acts, t)
    requires forall i :: 0 <= i < |acts| ==> !acts[i].CloseStep?
    ensures |s.enqueued| <= |t.enqueued|
    ensures forall i :: |s.enqueued| <= i < |t.enqueued| ==> t.enqueued[i].variant == (i - |s.enqueued|) % c.variants
  {
    var u, b := PacerStep(c, s, BeginStep), |s.enqueued|;
    SmallMod(0, c.variants);
    var states :| Trace(c, u, states, acts, t);
    var p := (v: State) => Cycling(c, v, b);
    forall i | 0 <= i < |acts| && p(states[i]) ensures p(states[i + 1]) {
      assert Link(c, states, acts, i);
      StepCycles(c, states[i], acts[i], b);
    }
    AlongTrace(states, |acts|, p);
  }
}
