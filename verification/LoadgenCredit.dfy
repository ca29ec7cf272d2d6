/** Which step an ack is counted in, and when a step's accepted count is the count of its own items. */
module LoadgenCredit {
  import opened Basics
  import opened Metrics
  import opened Payload
  import opened Loadgen
  import opened LoadgenInvariant
  import opened LoadgenWorkers
  import opened LoadgenPaths
  import opened LoadgenRuns
  import opened LoadgenShutdown
  import opened LoadgenSteps

  // -- where every counted ack went -----------------------------------------------------------

  predicate IsPosting(p: Phase, x: Item) {
    p.InTotals? && p.outcome.Ok? && p.item == x
  }

  /** How many workers have counted x in the totals and not yet in the step. */
  function Posting(ws: seq<Phase>, x: Item): nat {
    if ws == [] then 0
    else Posting(ws[..|ws| - 1], x) + if IsPosting(ws[|ws| - 1], x) then 1 else 0
  }

  lemma {:induction false} PostingUpdate(ws: seq<Phase>, i: nat, p: Phase, x: Item)
    requires i < |ws|
    ensures Posting(ws[i := p], x) ==
            Posting(ws, x) - (if IsPosting(ws[i], x) then 1 else 0) + (if IsPosting(p, x) then 1 else 0)
  {
    var n := |ws| - 1;
    if i < n {
      assert ws[i := p][..n] == ws[..n][i := p];
      PostingUpdate(ws[..n], i, p, x);
    } else {
      assert ws[i := p][..n] == ws[..n];
    }
  }

  lemma {:induction false} PostingNone(ws: seq<Phase>, x: Item)
    ensures Posting(ws, x) == 0 <==> forall w :: 0 <= w < |ws| ==> !IsPosting(ws[w], x)
  {
    if ws != [] {
      var n := |ws| - 1;
      PostingNone(ws[..n], x);
      if Posting(ws, x) == 0 {
        forall w | 0 <= w < |ws| ensures !IsPosting(ws[w], x) {
          if w < n {
            assert ws[..n][w] == ws[w];
          }
        }
      }
    }
  }

  /** Every ack in the totals was posted to the open step, was posted before it or while none was
      open, or is about to be posted. */
  ghost predicate CreditOf(s: State, x: Item) {
    s.accepted[x] == s.past[x] + s.credit[x] + Posting(s.workers, x)
  }

  /** The first number that is the open step's own. */
  function Frontier(s: State): int {
    if s.open == [] then EndOf(s.steps) else s.open[0].seqStart
  }

  ghost predicate Credit(c: Config, s: State) {
    && (forall x: Item :: CreditOf(s, x))
    && (if s.open == [] then s.credit == multiset{} else s.open[0].accepted == Times(|s.credit|, c.batch))
    && (forall x: Item :: s.past[x] > 0 ==> x.start < Frontier(s))
  }

  /** Everything enqueued so far is below the next number. */
  ghost predicate Known(c: Config, s: State) {
    && (forall x: Item :: s.accepted[x] > 0 ==> x.start < Times(|s.enqueued|, c.batch))
    && |s.open| <= 1
    && (s.pacer.Between? ==> s.open == [] && s.nextSeq == EndOf(s.steps))
    && (s.pacer.Closing? ==> |s.open| == 1 && s.open[0].seqStart + s.open[0].offered == Times(|s.enqueued|, c.batch))
    && (s.open == [] ==> EndOf(s.steps) == Times(|s.enqueued|, c.batch))
  }

  lemma ReachableKnown(c: Config, s: State)
    requires Reachable(c, s)
    ensures Known(c, s)
  {
    ReachableInv(c, s);
    forall x: Item | s.accepted[x] > 0 ensures x.start < Times(|s.enqueued|, c.batch) {
      AcceptedIsEnqueued(c, s, x);
    }
  }

  lemma AcceptedIsEnqueued(c: Config, s: State, x: Item)
    requires c.Valid() && Tiling(c, s) && Custody(s) && s.accepted[x] > 0
    ensures x in s.enqueued && x.start < Times(|s.enqueued|, c.batch)
  {
    assert CustodyOf(s, x);
    assert x in multiset(s.enqueued[..s.taken]);
    var i :| 0 <= i < s.taken && s.enqueued[i] == x;
    TimesMonotone(i + 1, |s.enqueued|, c.batch);
  }

  // -- the steps keep it --------------------------------------------------------------------------

  /** Nothing about credit changes, or the step is opened or closed. */
  ghost predicate CreditMove(s: State, t: State) {
    || (t.past == s.past && t.credit == s.credit && |t.open| == |s.open| <= 1 && t.steps == s.steps
        && (s.open != [] ==> t.open[0].seqStart == s.open[0].seqStart && t.open[0].accepted == s.open[0].accepted))
    || (s.pacer.Between? && t.past == s.past && t.credit == s.credit && t.steps == s.steps
        && t.open == [Blank(s.nextSeq)])
    || (s.pacer.Closing? && t.past == s.past + s.credit && t.credit == multiset{} && t.open == []
        && t.steps == s.steps + Closed(s.open, s.nextSeq))
  }

  lemma LoopCreditMove(c: Config, s: State, a: Action)
    requires c.Valid() && |s.open| <= 1
    ensures CreditMove(s, LoopStep(c, s, a))
  {
  }

  lemma BarrierCreditMove(c: Config, s: State, a: Action)
    requires c.Valid() && |s.open| <= 1
    ensures CreditMove(s, BarrierStep(c, s, a))
  {
  }

  lemma PacerCreditMove(c: Config, s: State, a: Action)
    requires c.Valid() && |s.open| <= 1
    ensures CreditMove(s, PacerStep(c, s, a))
  {
    LoopCreditMove(c, s, a);
    BarrierCreditMove(c, s, a);
  }

  lemma PacerKeepsCredit(c: Config, s: State, t: State)
    requires Credit(c, s) && Known(c, s) && CreditMove(s, t) && t.accepted == s.accepted && t.workers == s.workers
    ensures Credit(c, t)
  {
    forall x: Item ensures CreditOf(t, x) {
      assert CreditOf(s, x);
    }
    if t.steps != s.steps {
      forall x: Item | t.past[x] > 0 ensures x.start < EndOf(t.steps) {
        assert CreditOf(s, x);
      }
    }
  }

  /** A worker's step that leaves the credit alone. */
  ghost predicate WorkerQuiet(s: State, t: State, w: nat)
    requires w < |s.workers|
  {
    && |t.workers| == |s.workers| && t.workers == s.workers[w := t.workers[w]]
    && t.past == s.past && t.credit == s.credit && t.steps == s.steps
    && |t.open| == |s.open| <= 1
    && (s.open != [] ==> t.open[0].seqStart == s.open[0].seqStart && t.open[0].accepted == s.open[0].accepted)
    && (forall x: Item ::
          t.accepted[x] + Flag(IsPosting(s.workers[w], x)) == s.accepted[x] + Flag(IsPosting(t.workers[w], x)))
  }

  lemma QuietKeepsCredit(c: Config, s: State, t: State, w: nat)
    requires Credit(c, s) && w < |s.workers| && WorkerQuiet(s, t, w)
    ensures Credit(c, t)
  {
    forall x: Item ensures CreditOf(t, x) {
      assert CreditOf(s, x);
      PostingUpdate(s.workers, w, t.workers[w], x);
    }
  }

  lemma PreparingQuiet(c: Config, s: State, w: nat, a: Action)
    requires c.Valid() && PoolShape(c, s.pool) && w < |s.workers| && |s.open| <= 1
    requires a.BeginStamp? || a.StampOne?
    ensures WorkerQuiet(s, WorkerStep(c, s, w, a), w)
  {
  }

  lemma TakingQuiet(c: Config, s: State, w: nat, a: Action)
    requires c.Valid() && PoolShape(c, s.pool) && w < |s.workers| && |s.open| <= 1 && a.Take?
    ensures WorkerQuiet(s, WorkerStep(c, s, w, a), w)
  {
  }

  lemma CallingQuiet(c: Config, s: State, w: nat, a: Action)
    requires c.Valid() && PoolShape(c, s.pool) && w < |s.workers| && |s.open| <= 1
    requires a.Export? || a.Return?
    ensures WorkerQuiet(s, WorkerStep(c, s, w, a), w)
  {
  }

  lemma TotalsQuiet(c: Config, s: State, w: nat)
    requires w < |s.workers| && |s.open| <= 1 && s.workers[w].Returned?
    ensures WorkerQuiet(s, PostTotals(c, s, w, s.workers[w].item, s.workers[w].outcome), w)
  {
  }

  lemma EscapeQuiet(s: State, w: nat, item: Item)
    requires w < |s.workers| && |s.open| <= 1 && !s.workers[w].InTotals?
    ensures WorkerQuiet(s, Escape(s, w, item), w) && WorkerQuiet(s, EscapeAfterOk(s, w, item), w)
    ensures WorkerQuiet(s, Escape(s.(inflight := s.inflight - 1), w, item), w)
  {
  }

  lemma CrashQuiet(s: State, w: nat)
    requires w < |s.workers| && |s.open| <= 1
    ensures WorkerQuiet(s, CrashStep(s, w), w)
  {
    if Unsettled(s.workers[w]) {
      EscapeQuiet(s, w, s.workers[w].item);
    } else {
      assert CrashStep(s, w) == s;
    }
  }

  lemma FailureQuiet(c: Config, s: State, w: nat, code: Code)
    requires w < |s.workers| && |s.open| <= 1 && s.workers[w].InTotals? && !s.workers[w].outcome.Ok?
    ensures WorkerQuiet(s, PostFailure(c, s, w, code), w)
  {
  }

  lemma AckKeepsCredit(c: Config, s: State, w: nat, item: Item)
    requires Credit(c, s) && Known(c, s) && w < |s.workers| && IsPosting(s.workers[w], item)
    ensures Credit(c, PostAck(c, s, w, item))
  {
    var t := PostAck(c, s, w, item);
    forall x: Item ensures CreditOf(t, x) {
      assert CreditOf(s, x);
      PostingUpdate(s.workers, w, Idle, x);
    }
    assert CreditOf(s, item);
    PostingNone(s.workers, item);
    assert s.accepted[item] > 0;
  }

  lemma WorkerKeepsCredit(c: Config, s: State, w: nat, a: Action)
    requires c.Valid() && PoolShape(c, s.pool) && Credit(c, s) && Known(c, s) && w < |s.workers| && WorkerOf(a) >= 0
    ensures Credit(c, WorkerStep(c, s, w, a))
  {
    if a.Crash? {
      CrashQuiet(s, w);
      QuietKeepsCredit(c, s, CrashStep(s, w), w);
    } else if a.RecordStep? {
      var p := s.workers[w];
      if p.InTotals? && p.outcome.Ok? {
        AckKeepsCredit(c, s, w, p.item);
      } else if p.InTotals? {
        FailureQuiet(c, s, w, p.outcome.code);
        QuietKeepsCredit(c, s, PostFailure(c, s, w, p.outcome.code), w);
      }
    } else if a.RecordTotals? {
      if s.workers[w].Returned? {
        TotalsQuiet(c, s, w);
        QuietKeepsCredit(c, s, WorkerStep(c, s, w, a), w);
      }
    } else {
      if a.Take? {
        TakingQuiet(c, s, w, a);
      } else if a.BeginStamp? || a.StampOne? {
        PreparingQuiet(c, s, w, a);
      } else {
        CallingQuiet(c, s, w, a);
      }
      QuietKeepsCredit(c, s, WorkerStep(c, s, w, a), w);
    }
  }

  lemma StepKeepsCredit(c: Config, s: State, a: Action)
    requires c.Valid() && PoolShape(c, s.pool) && Credit(c, s) && Known(c, s)
    ensures Credit(c, Step(c, s, a))
  {
    var w := WorkerOf(a);
    if w < 0 {
      PacerCreditMove(c, s, a);
      PacerHistoryFrames(c, s, a);
      PacerFrames(c, s, a);
      PacerKeepsCredit(c, s, PacerStep(c, s, a));
    } else if w < |s.workers| {
      WorkerKeepsCredit(c, s, w, a);
    }
  }

  lemma InitialCredit(c: Config, s: State)
    requires c.Valid() && Initial(c, s)
    ensures Credit(c, s)
  {
    forall x: Item ensures CreditOf(s, x) {
      PostingNone(s.workers, x);
    }
  }

  lemma ReachableCredit(c: Config, s: State)
    requires Reachable(c, s)
    ensures Credit(c, s)
  {
    var states, acts :| Run(c, states, acts) && states[|acts|] == s;
    InitialCredit(c, states[0]);
    var p := (u: State) => Credit(c, u);
    forall i | 0 <= i < |acts| && p(states[i]) ensures p(states[i + 1]) {
      RunState(c, states, acts, i);
      ReachableKnown(c, states[i]);
      assert Link(c, states, acts, i);
      StepKeepsCredit(c, states[i], acts[i]);
    }
    AlongTrace(states, |acts|, p);
  }

  /** Every state of a run is reachable. */
  lemma RunState(c: Config, states: seq<State>, acts: seq<Action>, n: nat)
    requires c.Valid() && Run(c, states, acts) && n <= |acts|
    ensures Reachable(c, states[n])
  {
    var states', acts' := states[..n + 1], acts[..n];
    forall i | 0 <= i < |acts'| ensures Link(c, states', acts', i) {
      assert Link(c, states, acts, i);
    }
    assert Run(c, states', acts') && states'[|acts'|] == states[n];
  }
}
