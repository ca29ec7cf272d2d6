/** When a step's accepted count is real: what the drain is for, and what it takes. */
module LoadgenDrain {
  import opened Basics
  import opened Metrics
  import opened Payload
  import opened Loadgen
  import opened LoadgenInvariant
  import opened LoadgenWorkers
  import opened LoadgenPaths
  import opened LoadgenRuns
  import opened LoadgenShutdown
  import opened LoadgenSteps
  import opened LoadgenCredit

  // -- own items -----------------------------------------------------------------------------

  /** The item's numbers are in the open step's range. */
  predicate Own(s: State, x: Item)
    requires |s.open| == 1
  {
    x in s.enqueued && x.start >= s.open[0].seqStart
  }

  /** The step's accepted count is real: every item it offered has its outcome, each of its acks in the
      totals is counted in it, and no ack of another step is. */
  ghost predicate StepIsReal(s: State)
    requires |s.open| == 1
  {
    && (forall x: Item :: Own(s, x) ==> s.credit[x] + s.failed[x] + s.crashed[x] + s.lostAcks[x] > 0)
    && (forall x: Item :: s.credit[x] > 0 ==> Own(s, x))
  }

  /** The worker has x and has not posted its outcome where the step would count an ack. */
  predicate Carrying(p: Phase, x: Item) {
    (Unsettled(p) || (p.InTotals? && p.outcome.Ok?)) && p.item == x
  }

  /** None of the step's items waits in the queue or is with a worker. */
  ghost predicate OwnSettled(s: State)
    requires |s.open| == 1
  {
    forall x: Item :: Own(s, x) ==>
      Work(x) !in s.queue && forall w :: 0 <= w < |s.workers| ==> !Carrying(s.workers[w], x)
  }

  /** No earlier item's ack was posted into the step. */
  ghost predicate NoEarlierAck(s: State)
    requires |s.open| == 1
  {
    forall x: Item :: s.credit[x] > 0 ==> x.start >= s.open[0].seqStart
  }

  lemma {:induction false} HoldersNone(ws: seq<Phase>, x: Item)
    ensures Holders(ws, false, x) == 0 <==> forall w :: 0 <= w < |ws| ==> !(Unsettled(ws[w]) && ws[w].item == x)
  {
    if ws != [] {
      var n := |ws| - 1;
      HoldersNone(ws[..n], x);
      if Holders(ws, false, x) == 0 {
        forall w | 0 <= w < |ws| ensures !(Unsettled(ws[w]) && ws[w].item == x) {
          if w < n {
            assert ws[..n][w] == ws[w];
          }
        }
      }
    }
  }

  lemma {:induction false} WaitingNone(queue: seq<Entry>, x: Item)
    ensures Waiting(queue, x) == 0 <==> Work(x) !in queue
  {
    if queue != [] {
      assert queue == [queue[0]] + queue[1..];
      WaitingNone(queue[1..], x);
    }
  }

  lemma {:induction false} CarriedByNone(ws: seq<Phase>, x: Item)
    ensures Holders(ws, false, x) == 0 && Posting(ws, x) == 0 <==> forall w :: 0 <= w < |ws| ==> !Carrying(ws[w], x)
  {
    HoldersNone(ws, x);
    PostingNone(ws, x);
    if forall w :: 0 <= w < |ws| ==> !Carrying(ws[w], x) {
      assert forall w :: 0 <= w < |ws| ==> !IsPosting(ws[w], x);
    }
  }

  /** An own item is in one place, and its ack, once in the totals, is posted here or about to be. */
  lemma {:induction false} OwnPlaces(c: Config, s: State, x: Item)
    requires Reachable(c, s) && s.pacer.Closing? && |s.open| == 1 && Own(s, x)
    ensures s.past[x] == 0 && s.accepted[x] == s.credit[x] + Posting(s.workers, x)
    ensures Waiting(s.queue, x) + Holders(s.workers, false, x) + Posting(s.workers, x)
            + s.credit[x] + s.failed[x] + s.crashed[x] + s.lostAcks[x] == 1
  {
    ReachableCredit(c, s);
    assert CreditOf(s, x);
    var i :| 0 <= i < |s.enqueued| && s.enqueued[i] == x;
    ExactlyOnce(c, s, i);
  }

  lemma OneOpen(c: Config, s: State)
    requires Reachable(c, s) && s.pacer.Closing?
    ensures |s.open| == 1
  {
    ReachableInv(c, s);
  }

  /** At the moment the step is closed, however the drain ended, its accepted count is real if and
      only if none of its items is left in the queue or with a worker, and no earlier item's ack
      was posted into it. */
  lemma DrainExact(c: Config, s: State)
    requires Reachable(c, s) && s.pacer.Closing?
    ensures |s.open| == 1
    ensures StepIsReal(s) <==> OwnSettled(s) && NoEarlierAck(s)
  {
    OneOpen(c, s);
    forall x: Item | Own(s, x)
      ensures s.credit[x] + s.failed[x] + s.crashed[x] + s.lostAcks[x] > 0 <==>
              Work(x) !in s.queue && forall w :: 0 <= w < |s.workers| ==> !Carrying(s.workers[w], x)
    {
      OwnPlaces(c, s, x);
      WaitingNone(s.queue, x);
      CarriedByNone(s.workers, x);
    }
    forall x: Item | s.credit[x] > 0 ensures x in s.enqueued {
      CreditedIsEnqueued(c, s, x);
    }
  }

  lemma CreditedIsEnqueued(c: Config, s: State, x: Item)
    requires Reachable(c, s) && s.credit[x] > 0
    ensures x in s.enqueued && 0 <= x.start < Times(|s.enqueued|, c.batch)
  {
    ReachableCredit(c, s);
    assert CreditOf(s, x);
    ReachableInv(c, s);
    AcceptedIsEnqueued(c, s, x);
    SequenceTiling(c, s);
  }

  // -- counting ----------------------------------------------------------------------------------

  /** How many of the items that start in [lo, hi) are in m. */
  function InRange(xs: seq<Item>, m: multiset<Item>, lo: int, hi: int): nat {
    if xs == [] then 0 else
      var x := xs[|xs| - 1];
      InRange(xs[..|xs| - 1], m, lo, hi) + if lo <= x.start < hi then m[x] else 0
  }

  lemma {:induction false} InRangeSplits(xs: seq<Item>, m: multiset<Item>, lo: int, mid: int, hi: int)
    requires lo <= mid <= hi
    ensures InRange(xs, m, lo, hi) == InRange(xs, m, lo, mid) + InRange(xs, m, mid, hi)
  {
    if xs != [] {
      InRangeSplits(xs[..|xs| - 1], m, lo, mid, hi);
    }
  }

  /** Equal multiplicities of the items in range give equal counts. */
  lemma {:induction false} InRangeSame(xs: seq<Item>, m: multiset<Item>, m': multiset<Item>, lo: int, hi: int)
    requires forall x :: x in xs && lo <= x.start < hi ==> m[x] == m'[x]
    ensures InRange(xs, m, lo, hi) == InRange(xs, m', lo, hi)
  {
    if xs != [] {
      InRangeSame(xs[..|xs| - 1], m, m', lo, hi);
    }
  }

  ghost predicate DistinctItems(xs: seq<Item>) {
    forall i, j :: 0 <= i < j < |xs| ==> xs[i] != xs[j]
  }

  /** A multiset of items of the sequence has as many elements as the sequence counts in it. */
  lemma {:induction false} InRangeAll(xs: seq<Item>, m: multiset<Item>, lo: int, hi: int)
    requires DistinctItems(xs)
    requires forall x :: m[x] > 0 ==> x in xs && lo <= x.start < hi
    ensures |m| == InRange(xs, m, lo, hi)
  {
    if xs == [] {
      assert m == multiset{};
    } else {
      var n := |xs| - 1;
      var rest := m[xs[n] := 0];
      forall x | rest[x] > 0 ensures x in xs[..n] {
        var i :| 0 <= i < |xs| && xs[i] == x;
      }
      InRangeAll(xs[..n], rest, lo, hi);
      InRangeSame(xs[..n], m, rest, lo, hi);
      assert |m| == |rest| + m[xs[n]];
    }
  }

  /** What the totals count of a range of numbers. */
  function AcceptedIn(s: State, lo: int, hi: int): nat {
    InRange(s.enqueued, s.accepted, lo, hi)
  }

  lemma EnqueuedDistinct(c: Config, s: State)
    requires Reachable(c, s)
    ensures DistinctItems(s.enqueued)
    ensures c.batch > 0
  {
    SequenceTiling(c, s);
    ReachableInv(c, s);
  }

  lemma CreditCounts(c: Config, s: State)
    requires Reachable(c, s) && s.pacer.Closing?
    ensures |s.open| == 1 && 0 <= s.open[0].seqStart <= s.open[0].seqStart + s.open[0].offered
    ensures var lo, hi := s.open[0].seqStart, s.open[0].seqStart + s.open[0].offered;
            s.open[0].accepted ==
              (InRange(s.enqueued, s.credit, lo, hi) + InRange(s.enqueued, s.credit, 0, lo)) * c.batch
  {
    ReachableCredit(c, s);
    ReachableKnown(c, s);
    EnqueuedDistinct(c, s);
    StartsInOrder(c, s);
    var lo, hi := s.open[0].seqStart, s.open[0].seqStart + s.open[0].offered;
    forall x: Item | s.credit[x] > 0 ensures x in s.enqueued && 0 <= x.start < hi {
      CreditedIsEnqueued(c, s, x);
    }
    InRangeAll(s.enqueued, s.credit, 0, hi);
    InRangeSplits(s.enqueued, s.credit, 0, lo, hi);
    TimesIsProduct(|s.credit|, c.batch);
  }

  lemma StartsInOrder(c: Config, s: State)
    requires Reachable(c, s) && s.pacer.Closing?
    ensures |s.open| == 1 && 0 <= s.open[0].seqStart && s.open[0].offered >= 0
  {
    ReachableInv(c, s);
    ChainEnd(s.steps);
  }

  lemma {:induction false} ChainEnd(steps: seq<StepResult>)
    requires Chain(steps)
    ensures EndOf(steps) >= 0
  {
    if steps != [] {
      ChainEnd(steps[..|steps| - 1]);
    }
  }

  /** A real count is the batch size times the accepted items of the step's own range. */
  lemma RealCount(c: Config, s: State)
    requires Reachable(c, s) && s.pacer.Closing? && |s.open| == 1 && StepIsReal(s)
    ensures var r := s.open[0]; r.accepted == AcceptedIn(s, r.seqStart, r.seqStart + r.offered) * c.batch
  {
    var lo, hi := s.open[0].seqStart, s.open[0].seqStart + s.open[0].offered;
    CreditCounts(c, s);
    InRangeSame(s.enqueued, s.credit, multiset{}, 0, lo);
    InRangeNothing(s.enqueued, 0, lo);
    forall x | x in s.enqueued && lo <= x.start < hi ensures s.credit[x] == s.accepted[x] {
      OwnPlaces(c, s, x);
      assert Own(s, x);
    }
    InRangeSame(s.enqueued, s.credit, s.accepted, lo, hi);
  }

  lemma {:induction false} InRangeNothing(xs: seq<Item>, lo: int, hi: int)
    ensures InRange(xs, multiset{}, lo, hi) == 0
  {
    if xs != [] {
      InRangeNothing(xs[..|xs| - 1], lo, hi);
    }
  }

  /** The bare number can also be right by accident: it is if and only if as many earlier acks were
      posted into the step as acks of its own are still to be posted. */
  lemma CountRightIff(c: Config, s: State)
    requires Reachable(c, s) && s.pacer.Closing?
    ensures |s.open| == 1
    ensures var r := s.open[0];
      var lo, hi := r.seqStart, r.seqStart + r.offered;
      r.accepted == AcceptedIn(s, lo, hi) * c.batch <==>
      InRange(s.enqueued, s.credit, 0, lo) == AcceptedIn(s, lo, hi) - InRange(s.enqueued, s.credit, lo, hi)
  {
    CreditCounts(c, s);
    EnqueuedDistinct(c, s);
    var r := s.open[0];
    var lo, hi := r.seqStart, r.seqStart + r.offered;
    SameProduct(InRange(s.enqueued, s.credit, lo, hi) + InRange(s.enqueued, s.credit, 0, lo),
                AcceptedIn(s, lo, hi), c.batch);
  }

  lemma SameProduct(a: int, b: int, k: nat)
    requires k > 0
    ensures a * k == b * k <==> a == b
  {
    if a < b {
      assert (a + 1) * k <= b * k;
    } else if b < a {
      assert (b + 1) * k <= a * k;
    }
  }

  // -- for good -----------------------------------------------------------------------------------

  /** Fates are final, steps and items are only added. */
  ghost predicate Later(s: State, t: State) {
    && s.enqueued <= t.enqueued && s.steps <= t.steps
    && s.accepted <= t.accepted && s.failed <= t.failed && s.crashed <= t.crashed && s.lostAcks <= t.lostAcks
  }

  lemma PacerLater(c: Config, s: State, a: Action)
    requires c.Valid()
    ensures Later(s, PacerStep(c, s, a))
  {
    PacerHistoryFrames(c, s, a);
    PacerFrames(c, s, a);
    PacerAddsSteps(c, s, a);
  }

  lemma PacerAddsSteps(c: Config, s: State, a: Action)
    requires c.Valid()
    ensures s.steps <= PacerStep(c, s, a).steps
  {
  }

  lemma TotalsLater(c: Config, s: State, w: nat, item: Item, outcome: Outcome)
    requires w < |s.workers|
    ensures Later(s, PostTotals(c, s, w, item, outcome))
  {
  }

  lemma EscapeLater(s: State, w: nat, item: Item)
    requires w < |s.workers|
    ensures Later(s, Escape(s, w, item)) && Later(s, EscapeAfterOk(s, w, item))
    ensures Later(s, Escape(s.(inflight := s.inflight - 1), w, item))
  {
  }

  lemma CrashLater(s: State, w: nat)
    requires w < |s.workers|
    ensures Later(s, CrashStep(s, w))
  {
    if Unsettled(s.workers[w]) {
      EscapeLater(s, w, s.workers[w].item);
    }
  }

  lemma PreparingLater(c: Config, s: State, w: nat, a: Action)
    requires c.Valid() && PoolShape(c, s.pool) && w < |s.workers| && (a.Take? || a.BeginStamp? || a.StampOne?)
    ensures Later(s, WorkerStep(c, s, w, a))
  {
  }

  lemma CallingLater(c: Config, s: State, w: nat, a: Action)
    requires c.Valid() && PoolShape(c, s.pool) && w < |s.workers| && (a.Export? || a.Return? || a.RecordStep?)
    ensures Later(s, WorkerStep(c, s, w, a))
  {
  }

  lemma StepLater(c: Config, s: State, a: Action)
    requires c.Valid() && PoolShape(c, s.pool)
    ensures Later(s, Step(c, s, a))
  {
    var w := WorkerOf(a);
    if w < 0 {
      PacerLater(c, s, a);
    } else if w < |s.workers| {
      if a.Crash? {
        CrashLater(s, w);
      } else if a.Take? || a.BeginStamp? || a.StampOne? {
        PreparingLater(c, s, w, a);
      } else if !a.RecordTotals? {
        CallingLater(c, s, w, a);
      } else if s.workers[w].Returned? {
        TotalsLater(c, s, w, s.workers[w].item, s.workers[w].outcome);
      }
    }
  }

  lemma PathLater(c: Config, s: State, acts: seq<Action>, t: State)
    requires c.Valid() && Path(c, s, acts, t)
    ensures Later(s, t)
  {
    var states :| Trace(c, s, states, acts, t);
    var p := (u: State) => Later(s, u);
    forall i | 0 <= i < |acts| && p(states[i]) ensures p(states[i + 1]) {
      assert Link(c, states, acts, i);
      StepLater(c, states[i], acts[i]);
    }
    AlongTrace(states, |acts|, p);
  }

  /** An own item of a real step keeps its fate. */
  lemma FateStays(c: Config, s: State, t: State, x: Item)
    requires Reachable(c, s) && s.pacer.Closing? && |s.open| == 1 && StepIsReal(s) && Own(s, x)
    requires Reachable(c, t) && Later(s, t)
    ensures t.accepted[x] == s.accepted[x]
  {
    OwnPlaces(c, s, x);
    var i :| 0 <= i < |s.enqueued| && s.enqueued[i] == x;
    assert t.enqueued[i] == x;
    ExactlyOnce(c, t, i);
    assert s.accepted[x] <= t.accepted[x] && s.failed[x] <= t.failed[x];
    assert s.crashed[x] <= t.crashed[x] && s.lostAcks[x] <= t.lostAcks[x];
  }

  lemma {:induction false} InRangePrefix(xs: seq<Item>, ys: seq<Item>, m: multiset<Item>, lo: int, hi: int)
    requires xs <= ys && forall i :: |xs| <= i < |ys| ==> ys[i].start >= hi
    ensures InRange(ys, m, lo, hi) == InRange(xs, m, lo, hi)
  {
    if ys != xs {
      InRangePrefix(xs, ys[..|ys| - 1], m, lo, hi);
    }
  }

  /** What the totals count of a real step's range does not change any more. */
  lemma RangeStays(c: Config, s: State, t: State)
    requires Reachable(c, s) && s.pacer.Closing? && |s.open| == 1 && StepIsReal(s) && Reachable(c, t) && Later(s, t)
    ensures var lo, hi := s.open[0].seqStart, s.open[0].seqStart + s.open[0].offered;
            AcceptedIn(t, lo, hi) == AcceptedIn(s, lo, hi)
  {
    var lo, hi := s.open[0].seqStart, s.open[0].seqStart + s.open[0].offered;
    LaterStartsAbove(c, s, t);
    InRangePrefix(s.enqueued, t.enqueued, t.accepted, lo, hi);
    forall x | x in s.enqueued && lo <= x.start < hi ensures t.accepted[x] == s.accepted[x] {
      FateStays(c, s, t, x);
    }
    InRangeSame(s.enqueued, t.accepted, s.accepted, lo, hi);
  }

  /** If the count is real when the step is closed it stays so for the rest of the run: whatever
      happens later, the closed step counts exactly the accepted items of its own range. */
  lemma RealForGood(c: Config, s: State, acts: seq<Action>, t: State)
    requires Reachable(c, s) && s.pacer.Closing? && |s.open| == 1 && StepIsReal(s)
    requires Path(c, PacerStep(c, s, CloseStep), acts, t)
    ensures |t.steps| > |s.steps|
    ensures var r := t.steps[|s.steps|];
      && r.seqStart == s.open[0].seqStart && r.offered == s.open[0].offered
      && r.accepted == AcceptedIn(t, r.seqStart, r.seqStart + r.offered) * c.batch
  {
    CloseThenLater(c, s, acts, t);
    RealCount(c, s);
    RangeStays(c, s, t);
  }

  lemma CloseThenLater(c: Config, s: State, acts: seq<Action>, t: State)
    requires Reachable(c, s) && s.pacer.Closing? && |s.open| == 1 && Path(c, PacerStep(c, s, CloseStep), acts, t)
    ensures Reachable(c, t) && Later(s, t) && |t.steps| > |s.steps|
    ensures t.steps[|s.steps|] == s.open[0].(seqEnd := Max(s.open[0].seqStart, s.nextSeq - 1))
  {
    var u := PacerStep(c, s, CloseStep);
    ShapeOf(c, s);
    ClosedAs(c, s);
    ReachableStep(c, s, CloseStep);
    PathReachable(c, u, acts, t);
    PathLater(c, u, acts, t);
  }

  lemma ShapeOf(c: Config, s: State)
    requires Reachable(c, s)
    ensures PoolShape(c, s.pool)
  {
    ReachableInv(c, s);
  }

  lemma ClosedAs(c: Config, s: State)
    requires c.Valid() && s.pacer.Closing? && |s.open| == 1
    ensures var u := PacerStep(c, s, CloseStep);
      && |u.steps| == |s.steps| + 1 && s.steps <= u.steps && u.enqueued == s.enqueued
      && u.accepted == s.accepted && u.failed == s.failed && u.crashed == s.crashed && u.lostAcks == s.lostAcks
      && u.steps[|s.steps|] == s.open[0].(seqEnd := Max(s.open[0].seqStart, s.nextSeq - 1))
  {
  }

  lemma LaterStartsAbove(c: Config, s: State, t: State)
    requires Reachable(c, s) && s.pacer.Closing? && |s.open| == 1 && Reachable(c, t) && s.enqueued <= t.enqueued
    ensures forall i :: |s.enqueued| <= i < |t.enqueued| ==>
      t.enqueued[i].start >= s.open[0].seqStart + s.open[0].offered
  {
    ReachableKnown(c, s);
    ReachableInv(c, t);
    forall i | |s.enqueued| <= i < |t.enqueued| ensures t.enqueued[i].start >= Times(|s.enqueued|, c.batch) {
      TimesMonotone(|s.enqueued|, i, c.batch);
    }
  }

  // -- a clean start -----------------------------------------------------------------------------

  /** Everything still on its way belongs to the open step, whose range starts at lo. */
  ghost predicate OwnOnly(s: State, lo: int) {
    && |s.open| == 1 && s.open[0].seqStart == lo && InStep(s.pacer) && s.nextSeq >= lo
    && (HoldsRange(s.pacer) ==> s.pacer.item.start >= lo)
    && (forall i :: 0 <= i < |s.queue| && s.queue[i].Work? ==> s.queue[i].item.start >= lo)
    && (forall w :: 0 <= w < |s.workers| && CarriesAny(s.workers[w]) ==> s.workers[w].item.start >= lo)
    && (forall x: Item :: s.credit[x] > 0 ==> x.start >= lo)
  }

  predicate CarriesAny(p: Phase) {
    Unsettled(p) || (p.InTotals? && p.outcome.Ok?)
  }

  lemma LoopOwnOnly(c: Config, s: State, a: Action, lo: int)
    requires c.Valid() && OwnOnly(s, lo)
    ensures OwnOnly(LoopStep(c, s, a), lo)
  {
  }

  lemma BarrierOwnOnly(c: Config, s: State, a: Action, lo: int)
    requires c.Valid() && OwnOnly(s, lo) && !a.CloseStep?
    ensures OwnOnly(BarrierStep(c, s, a), lo)
  {
  }

  lemma PacerOwnOnly(c: Config, s: State, a: Action, lo: int)
    requires c.Valid() && OwnOnly(s, lo) && !a.CloseStep? && WorkerOf(a) < 0
    ensures OwnOnly(PacerStep(c, s, a), lo)
  {
    LoopOwnOnly(c, s, a, lo);
    BarrierOwnOnly(c, s, a, lo);
  }

  lemma DequeueOwnOnly(s: State, w: nat, lo: int)
    requires w < |s.workers| && OwnOnly(s, lo)
    ensures OwnOnly(Dequeue(s, w), lo)
  {
  }

  /** A step that only moves an item from one phase to the next. */
  ghost predicate ItemMove(s: State, t: State, w: nat)
    requires w < |s.workers|
  {
    && t.pacer == s.pacer && t.open == s.open && t.nextSeq == s.nextSeq && t.queue == s.queue && t.credit == s.credit
    && |t.workers| == |s.workers| && t.workers == s.workers[w := t.workers[w]]
    && (CarriesAny(t.workers[w]) ==> CarriesAny(s.workers[w]) && t.workers[w].item == s.workers[w].item)
  }

  lemma PrepareMoves(c: Config, s: State, w: nat, a: Action)
    requires c.Valid() && PoolShape(c, s.pool) && w < |s.workers| && (a.BeginStamp? || a.StampOne?)
    ensures ItemMove(s, WorkerStep(c, s, w, a), w)
  {
  }

  lemma CallMoves(c: Config, s: State, w: nat, a: Action)
    requires c.Valid() && PoolShape(c, s.pool) && w < |s.workers| && (a.Export? || a.Return?)
    ensures ItemMove(s, WorkerStep(c, s, w, a), w)
  {
  }

  lemma PrepareOwnOnly(c: Config, s: State, w: nat, a: Action, lo: int)
    requires c.Valid() && PoolShape(c, s.pool) && w < |s.workers| && OwnOnly(s, lo)
    requires a.BeginStamp? || a.StampOne? || a.Export? || a.Return?
    ensures OwnOnly(WorkerStep(c, s, w, a), lo)
  {
    if a.BeginStamp? || a.StampOne? {
      PrepareMoves(c, s, w, a);
    } else {
      CallMoves(c, s, w, a);
    }
    MoveOwnOnly(s, WorkerStep(c, s, w, a), w, lo);
  }

  lemma MoveOwnOnly(s: State, t: State, w: nat, lo: int)
    requires w < |s.workers| && OwnOnly(s, lo) && ItemMove(s, t, w)
    ensures OwnOnly(t, lo)
  {
  }

  lemma TotalsOwnOnly(c: Config, s: State, w: nat, lo: int)
    requires w < |s.workers| && OwnOnly(s, lo) && s.workers[w].Returned?
    ensures OwnOnly(PostTotals(c, s, w, s.workers[w].item, s.workers[w].outcome), lo)
  {
  }

  lemma AckOwnOnly(c: Config, s: State, w: nat, lo: int)
    requires w < |s.workers| && OwnOnly(s, lo) && IsAckPending(s.workers[w])
    ensures OwnOnly(PostAck(c, s, w, s.workers[w].item), lo)
  {
  }

  lemma EscapeOwnOnly(s: State, w: nat, item: Item, lo: int)
    requires w < |s.workers| && OwnOnly(s, lo)
    ensures OwnOnly(Escape(s, w, item), lo) && OwnOnly(EscapeAfterOk(s, w, item), lo)
    ensures OwnOnly(Escape(s.(inflight := s.inflight - 1), w, item), lo)
  {
  }

  lemma CrashOwnOnly(s: State, w: nat, lo: int)
    requires w < |s.workers| && OwnOnly(s, lo)
    ensures OwnOnly(CrashStep(s, w), lo)
  {
    if Unsettled(s.workers[w]) {
      EscapeOwnOnly(s, w, s.workers[w].item, lo);
    }
  }

  predicate IsAckPending(p: Phase) {
    p.InTotals? && p.outcome.Ok?
  }

  lemma FailureOwnOnly(c: Config, s: State, w: nat, code: Code, lo: int)
    requires w < |s.workers| && OwnOnly(s, lo)
    ensures OwnOnly(PostFailure(c, s, w, code), lo)
  {
  }

  lemma StepOwnOnly(c: Config, s: State, a: Action, lo: int)
    requires c.Valid() && PoolShape(c, s.pool) && OwnOnly(s, lo) && !a.CloseStep?
    ensures OwnOnly(Step(c, s, a), lo)
  {
    var w := WorkerOf(a);
    if w < 0 {
      PacerOwnOnly(c, s, a, lo);
    } else if w < |s.workers| {
      if a.Take? {
        DequeueOwnOnly(s, w, lo);
      } else if a.Crash? {
        CrashOwnOnly(s, w, lo);
      } else if a.RecordTotals? {
        if s.workers[w].Returned? { TotalsOwnOnly(c, s, w, lo); }
      } else if !a.RecordStep? {
        PrepareOwnOnly(c, s, w, a, lo);
      } else if IsAckPending(s.workers[w]) {
        AckOwnOnly(c, s, w, lo);
      } else if s.workers[w].InTotals? {
        FailureOwnOnly(c, s, w, s.workers[w].outcome.code, lo);
      }
    }
  }

  /** A step that begins with an empty queue and nobody busy counts no earlier ack. If nobody is
      busy and the queue is empty when it is closed, its accepted count is real. */
  lemma CleanStart(c: Config, s: State, acts: seq<Action>, t: State)
    requires Reachable(c, s) && s.pacer.Between? && s.queue == []
    requires forall w :: 0 <= w < |s.workers| ==> !Busy(s.workers[w])
    requires Path(c, PacerStep(c, s, BeginStep), acts, t) && t.pacer.Closing?
    requires forall i :: 0 <= i < |acts| ==> !acts[i].CloseStep?
    ensures |t.open| == 1 && NoEarlierAck(t)
    ensures StepIsReal(t) <==> OwnSettled(t)
    ensures t.queue == [] && (forall w :: 0 <= w < |t.workers| ==> !Busy(t.workers[w])) ==> StepIsReal(t)
  {
    var u := PacerStep(c, s, BeginStep);
    ShapeOf(c, s);
    ReachableStep(c, s, BeginStep);
    PathReachable(c, u, acts, t);
    BeginsClean(c, s);
    OwnOnlyAlong(c, u, acts, t, s.nextSeq);
    DrainExact(c, t);
  }

  lemma BeginsClean(c: Config, s: State)
    requires Reachable(c, s) && s.pacer.Between? && s.queue == []
    requires forall w :: 0 <= w < |s.workers| ==> !Busy(s.workers[w])
    ensures OwnOnly(PacerStep(c, s, BeginStep), s.nextSeq)
  {
    ReachableCredit(c, s);
    ReachableKnown(c, s);
  }

  lemma OwnOnlyAlong(c: Config, s: State, acts: seq<Action>, t: State, lo: int)
    requires c.Valid() && Path(c, s, acts, t) && OwnOnly(s, lo) && forall i :: 0 <= i < |acts| ==> !acts[i].CloseStep?
    ensures OwnOnly(t, lo)
  {
    var states :| Trace(c, s, states, acts, t);
    var p := (u: State) => OwnOnly(u, lo);
    forall i | 0 <= i < |acts| && p(states[i]) ensures p(states[i + 1]) {
      assert Link(c, states, acts, i);
      StepOwnOnly(c, states[i], acts[i], lo);
    }
    AlongTrace(states, |acts|, p);
  }

  /** The drain goes on, and there is nothing left to wait for. */
  ghost predicate Quiet(s: State) {
    && (s.pacer.Draining? || s.pacer.SawEmpty? || s.pacer.Closing?)
    && s.queue == [] && forall w :: 0 <= w < |s.workers| ==> !Busy(s.workers[w])
  }

  lemma PacerStaysQuiet(c: Config, s: State, a: Action)
    requires c.Valid() && Quiet(s) && !a.CloseStep?
    ensures Quiet(PacerStep(c, s, a))
  {
  }

  lemma FailureStaysQuiet(c: Config, s: State, w: nat, code: Code)
    requires w < |s.workers| && Quiet(s)
    ensures Quiet(PostFailure(c, s, w, code))
  {
  }

  /** All that a worker can still do is to post a failure. */
  lemma WorkerStaysQuiet(c: Config, s: State, w: nat, a: Action)
    requires c.Valid() && PoolShape(c, s.pool) && w < |s.workers| && Quiet(s)
    ensures Quiet(WorkerStep(c, s, w, a))
  {
    assert !Busy(s.workers[w]);
    if s.workers[w].InTotals? && a.RecordStep? {
      FailureStaysQuiet(c, s, w, s.workers[w].outcome.code);
    } else {
      assert WorkerStep(c, s, w, a) == s;
    }
  }

  lemma StepStaysQuiet(c: Config, s: State, a: Action)
    requires c.Valid() && PoolShape(c, s.pool) && Quiet(s) && !a.CloseStep?
    ensures Quiet(Step(c, s, a))
  {
    var w := WorkerOf(a);
    if w < 0 {
      PacerStaysQuiet(c, s, a);
    } else if w < |s.workers| {
      WorkerStaysQuiet(c, s, w, a);
    }
  }

  lemma QuietAlong(c: Config, s: State, acts: seq<Action>, t: State)
    requires c.Valid() && Path(c, s, acts, t) && Quiet(s) && forall i :: 0 <= i < |acts| ==> !acts[i].CloseStep?
    ensures Quiet(t)
  {
    var states :| Trace(c, s, states, acts, t);
    var p := (u: State) => Quiet(u);
    forall i | 0 <= i < |acts| && p(states[i]) ensures p(states[i + 1]) {
      assert Link(c, states, acts, i);
      StepStaysQuiet(c, states[i], acts[i]);
    }
    AlongTrace(states, |acts|, p);
  }

  /** The same seen from the drain: if the step began clean, and nobody is busy when the drain has found
      the queue empty, then the accepted count is real whenever the step is closed. */
  lemma CleanLook(c: Config, s: State, acts: seq<Action>, u: State, acts': seq<Action>, t: State)
    requires Reachable(c, s) && s.pacer.Between? && s.queue == []
    requires forall w :: 0 <= w < |s.workers| ==> !Busy(s.workers[w])
    requires Path(c, PacerStep(c, s, BeginStep), acts, u) && u.pacer == SawEmpty
    requires forall w :: 0 <= w < |u.workers| ==> !Busy(u.workers[w])
    requires Path(c, u, acts', t) && t.pacer.Closing?
    requires forall i :: 0 <= i < |acts + acts'| ==> !(acts + acts')[i].CloseStep?
    ensures |t.open| == 1 && StepIsReal(t)
  {
    var begun := PacerStep(c, s, BeginStep);
    ShapeOf(c, s);
    ReachableStep(c, s, BeginStep);
    PathReachable(c, begun, acts, u);
    QueueAtLook(c, u);
    forall i | 0 <= i < |acts'| ensures !acts'[i].CloseStep? {
      assert !(acts + acts')[|acts| + i].CloseStep?;
    }
    QuietAlong(c, u, acts', t);
    PathConcat(c, begun, acts, u, acts', t);
    CleanStart(c, s, acts + acts', t);
  }

  lemma QueueAtLook(c: Config, s: State)
    requires Reachable(c, s) && s.pacer == SawEmpty
    ensures s.queue == []
  {
    ReachableInv(c, s);
  }
}
