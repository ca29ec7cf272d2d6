/** What every step of the load engine keeps. */
module LoadgenInvariant {
  import opened Basics
  import opened Metrics
  import opened Payload
  import opened Loadgen

  // -- counting workers by phase --------------------------------------------------

  datatype Kind = KIdle | KPreparing | KInRpc | KReturnedOk | KReturnedFailed | KInTotalsOk | KInTotalsFailed | KExited

  function KindOf(p: Phase): Kind {
    match p
    case Idle => KIdle
    case Held(_) => KPreparing
    case Stamping(_, _) => KPreparing
    case InRpc(_, _) => KInRpc
    case Returned(_, outcome) => if outcome.Ok? then KReturnedOk else KReturnedFailed
    case InTotals(_, outcome) => if outcome.Ok? then KInTotalsOk else KInTotalsFailed
    case Exited => KExited
  }

  /** How many workers are of kind k. */
  function Count(ws: seq<Phase>, k: Kind): nat {
    if ws == [] then 0
    else Count(ws[..|ws| - 1], k) + if KindOf(ws[|ws| - 1]) == k then 1 else 0
  }

  /** The item is with this worker and has no fate yet. */
  predicate Unsettled(p: Phase) {
    p.Held? || p.Stamping? || p.InRpc? || p.Returned?
  }

  /** `export` returned OK and `record_success` has not run. */
  predicate OkPending(p: Phase) {
    p.Returned? && p.outcome.Ok?
  }

  /** How many workers carry x unsettled; with `ok`, how many of those have seen the OK. */
  function Holders(ws: seq<Phase>, ok: bool, x: Item): nat {
    if ws == [] then 0
    else Holders(ws[..|ws| - 1], ok, x) + Share(ws[|ws| - 1], ok, x)
  }

  function Share(p: Phase, ok: bool, x: Item): nat {
    if (if ok then OkPending(p) else Unsettled(p)) && p.item == x then 1 else 0
  }

  lemma {:induction false} CountUpdate(ws: seq<Phase>, i: nat, p: Phase, k: Kind)
    requires i < |ws|
    ensures Count(ws[i := p], k) == Count(ws, k) - (if KindOf(ws[i]) == k then 1 else 0)
                                                 + (if KindOf(p) == k then 1 else 0)
  {
    var n := |ws| - 1;
    if i < n {
      assert ws[i := p][..n] == ws[..n][i := p];
      CountUpdate(ws[..n], i, p, k);
    } else {
      assert ws[i := p][..n] == ws[..n];
    }
  }

  lemma {:induction false} HoldersUpdate(ws: seq<Phase>, i: nat, p: Phase, ok: bool, x: Item)
    requires i < |ws|
    ensures Holders(ws[i := p], ok, x) == Holders(ws, ok, x) - Share(ws[i], ok, x) + Share(p, ok, x)
  {
    var n := |ws| - 1;
    if i < n {
      assert ws[i := p][..n] == ws[..n][i := p];
      HoldersUpdate(ws[..n], i, p, ok, x);
    } else {
      assert ws[i := p][..n] == ws[..n];
    }
  }

  lemma {:induction false} CountPositive(ws: seq<Phase>, k: Kind, i: nat)
    requires i < |ws| && KindOf(ws[i]) == k
    ensures Count(ws, k) > 0
  {
    if i < |ws| - 1 {
      CountPositive(ws[..|ws| - 1], k, i);
    }
  }

  lemma {:induction false} CountNone(ws: seq<Phase>, k: Kind)
    requires forall i :: 0 <= i < |ws| ==> KindOf(ws[i]) != k
    ensures Count(ws, k) == 0
  {
    if ws != [] {
      CountNone(ws[..|ws| - 1], k);
    }
  }

  lemma {:induction false} AllIdle(ws: seq<Phase>, k: Kind, ok: bool, x: Item)
    requires forall i :: 0 <= i < |ws| ==> ws[i] == Idle
    ensures Count(ws, k) == if k == KIdle then |ws| else 0
    ensures Holders(ws, ok, x) == 0
  {
    if ws != [] {
      AllIdle(ws[..|ws| - 1], k, ok, x);
    }
  }

  /** Steps a worker still has to take with its item. */
  function Remaining(c: Config, p: Phase): nat {
    match p
    case Held(_) => c.batch + 5
    case Stamping(_, k) => if k < c.batch then c.batch - k + 4 else 4
    case InRpc(_, _) => 3
    case Returned(_, _) => 2
    case InTotals(_, _) => 1
    case _ => 0
  }

  // -- the invariants ---------------------------------------------------------------

  function AckItems(acks: seq<Ack>): seq<Item> {
    seq(|acks|, i requires 0 <= i < |acks| => acks[i].item)
  }

  predicate InStep(p: Pacer) {
    !(p.Between? || p.Stopping? || p.Finished?)
  }

  ghost predicate Shape(c: Config, s: State) {
    && PoolShape(c, s.pool)
    && |s.workers| == c.workers
    && |s.open| == (if InStep(s.pacer) then 1 else 0)
    && (forall w :: 0 <= w < |s.workers| && s.workers[w].Stamping? ==> s.workers[w].k <= c.batch)
    && (s.pacer.Stopping? ==> s.pacer.sent <= c.workers)
  }

  /** The pacer has allocated a range and not put it. */
  predicate HoldsRange(p: Pacer) {
    p.Allocated? || p.Putting? || p.GaveUp?
  }

  /** Sequence allocation: enqueued ranges are consecutive, and the pacer holds at most the next one. */
  ghost predicate Tiling(c: Config, s: State) {
    && (forall i :: 0 <= i < |s.enqueued| ==> s.enqueued[i].start == Times(i, c.batch))
    && (if HoldsRange(s.pacer)
        then s.pacer.item.start == Times(|s.enqueued|, c.batch) && s.nextSeq == s.pacer.item.start + c.batch
        else s.nextSeq == Times(|s.enqueued|, c.batch))
  }

  function SentinelsSent(c: Config, p: Pacer): nat {
    match p
    case Stopping(k) => k
    case Finished => c.workers
    case _ => 0
  }

  /** The queue is what is enqueued and not taken, in order, and then the sentinels. */
  ghost predicate QueueOrder(c: Config, s: State) {
    && s.taken <= |s.enqueued|
    && |s.enqueued| - s.taken <= |s.queue| <= c.QueueSize()
    && (forall i :: 0 <= i < |s.enqueued| - s.taken ==> s.queue[i] == Work(s.enqueued[s.taken + i]))
    && (forall i :: |s.enqueued| - s.taken <= i < |s.queue| ==> s.queue[i] == Sentinel)
    && |s.queue| - (|s.enqueued| - s.taken) + Count(s.workers, KExited) + s.dropped == SentinelsSent(c, s.pacer)
    && (Count(s.workers, KExited) > 0 ==> s.taken == |s.enqueued|)
    && (s.pacer.SawEmpty? || s.pacer == Closing(true) ==> s.taken == |s.enqueued|)
  }

  function FateCount(s: State, x: Item): nat {
    s.accepted[x] + s.failed[x] + s.crashed[x] + s.lostAcks[x]
  }

  /** Every item a worker took is with one worker or has one fate; every OK is accounted for. */
  ghost predicate CustodyOf(s: State, x: Item)
    requires s.taken <= |s.enqueued|
  {
    && multiset(s.enqueued[..s.taken])[x] == Holders(s.workers, false, x) + FateCount(s, x)
    && multiset(AckItems(s.acks))[x] == s.accepted[x] + s.lostAcks[x] + Holders(s.workers, true, x)
  }

  ghost predicate Custody(s: State) {
    s.taken <= |s.enqueued| && forall x: Item :: CustodyOf(s, x)
  }

  /** The same, as numbers of items. */
  ghost predicate Census(s: State) {
    && s.taken == Count(s.workers, KPreparing) + Count(s.workers, KInRpc)
                  + Count(s.workers, KReturnedOk) + Count(s.workers, KReturnedFailed)
                  + |s.accepted| + |s.failed| + |s.crashed| + |s.lostAcks|
    && |s.acks| == |s.accepted| + |s.lostAcks| + Count(s.workers, KReturnedOk)
    && s.inflight == Count(s.workers, KInRpc)
  }

  ghost predicate Ledger(c: Config, s: State) {
    && s.totals.recordsOffered + (if s.pacer.Enqueued? then c.batch else 0) == Times(|s.enqueued|, c.batch)
    && s.totals.bytesSent + (if s.pacer.Enqueued? then c.nbytes else 0) == Times(|s.enqueued|, c.nbytes)
    && s.totals.recordsAccepted == Times(|s.accepted|, c.batch)
    && s.totals.requestsSuccess == |s.accepted|
    && s.totals.requestsFailed == |s.failed|
    && s.totals.recordsRejected == Times(s.totals.failedResourceExhausted, c.batch)
    && Consistent(s.totals)
  }

  /** What a worker's private template holds while it owns it. */
  ghost predicate OwnsStamped(c: Config, s: State, w: nat)
    requires c.Valid() && PoolShape(c, s.pool) && w < |s.workers|
  {
    match s.workers[w]
    case Stamping(item, k) =>
      TemplateIndexInPool(c.PoolWorkers(), c.variants, w, item.variant);
      Carries(c.schema, s.pool[c.Template(w, item)], item.start, k)
    case InRpc(item, wire) =>
      TemplateIndexInPool(c.PoolWorkers(), c.variants, w, item.variant);
      wire == s.pool[c.Template(w, item)] && Carries(c.schema, wire, item.start, c.batch)
    case _ => true
  }

  ghost predicate AckCarries(c: Config, ack: Ack) {
    |ack.wire| == c.batch && Carries(c.schema, ack.wire, ack.item.start, c.batch)
  }

  ghost predicate Wire(c: Config, s: State)
    requires c.Valid() && Shape(c, s)
  {
    && (forall w :: 0 <= w < |s.workers| ==> OwnsStamped(c, s, w))
    && (forall i :: 0 <= i < |s.acks| ==> AckCarries(c, s.acks[i]))
  }

  /** Where the records of the closed steps end. */
  function EndOf(steps: seq<StepResult>): int {
    if steps == [] then 0 else steps[|steps| - 1].seqStart + steps[|steps| - 1].offered
  }

  ghost predicate ClosedStep(r: StepResult) {
    && r.offered >= 0
    && r.seqEnd == Max(r.seqStart, r.seqStart + r.offered - 1)
  }

  /** Each closed step starts where the one before it ended. */
  ghost predicate Chain(steps: seq<StepResult>) {
    steps == [] ||
    (var n := |steps| - 1;
     Chain(steps[..n]) && ClosedStep(steps[n]) && steps[n].seqStart == EndOf(steps[..n]))
  }

  function OpenAccepted(open: seq<StepResult>): int {
    if open == [] then 0 else open[0].accepted
  }

  function Accepted(steps: seq<StepResult>): int {
    if steps == [] then 0 else Accepted(steps[..|steps| - 1]) + steps[|steps| - 1].accepted
  }

  /** What the open step has not been told yet. */
  function Unposted(c: Config, p: Pacer): nat {
    if p.Enqueued? || p.Recorded? then c.batch else 0
  }

  ghost predicate StepBooks(c: Config, s: State)
    requires |s.open| == (if InStep(s.pacer) then 1 else 0)
  {
    && Chain(s.steps)
    && (if InStep(s.pacer)
        then s.open[0].offered >= 0 && s.open[0].seqStart == EndOf(s.steps)
             && s.open[0].seqStart + s.open[0].offered + Unposted(c, s.pacer) == Times(|s.enqueued|, c.batch)
        else EndOf(s.steps) == Times(|s.enqueued|, c.batch))
    && s.totals.recordsAccepted ==
         Accepted(s.steps) + OpenAccepted(s.open) + s.late + Times(Count(s.workers, KInTotalsOk), c.batch)
  }

  ghost predicate AbortFlag(c: Config, s: State) {
    s.aborted ==> s.stop && c.abortLimit > 0
  }

  ghost predicate Inv(c: Config, s: State) {
    && c.Valid()
    && Shape(c, s)
    && Tiling(c, s)
    && QueueOrder(c, s)
    && Custody(s)
    && Census(s)
    && Ledger(c, s)
    && Wire(c, s)
    && StepBooks(c, s)
    && AbortFlag(c, s)
  }

  ghost predicate Initial(c: Config, s: State) {
    exists pool, zero :: PoolShape(c, pool) && IsZero(zero) && s == Init(c, pool, zero)
  }

  lemma InitInv(c: Config, s: State)
    requires c.Valid() && Initial(c, s)
    ensures Inv(c, s)
  {
    forall k: Kind ensures Count(s.workers, k) == if k == KIdle then c.workers else 0 {
      AllIdle(s.workers, k, true, Item(0, 0));
    }
    forall ok: bool, x: Item ensures Holders(s.workers, ok, x) == 0 {
      AllIdle(s.workers, KIdle, ok, x);
    }
    ZeroConsistent(s.totals);
    InitAccounts(c, s);
  }

  lemma InitAccounts(c: Config, s: State)
    requires s.workers == seq(c.workers, _ => Idle) && s.queue == [] && s.enqueued == [] && s.taken == 0 && s.acks == []
    requires s.accepted == s.failed == s.crashed == s.lostAcks == multiset{}
    requires s.inflight == 0 && s.dropped == 0 && s.pacer == Between
    requires forall k: Kind :: Count(s.workers, k) == if k == KIdle then c.workers else 0
    requires forall ok: bool, x: Item :: Holders(s.workers, ok, x) == 0
    ensures Custody(s) && Census(s) && QueueOrder(c, s)
  {
  }

  // -- the main thread keeps them --------------------------------------------------------

  /** The main thread touches nothing the workers own. */
  ghost predicate PacerFrame(s: State, t: State) {
    && t.workers == s.workers && t.pool == s.pool && t.inflight == s.inflight
    && s.enqueued <= t.enqueued
    && t.totals.recordsAccepted == s.totals.recordsAccepted
    && PacerHistoryFrame(s, t)
  }

  ghost predicate PacerHistoryFrame(s: State, t: State) {
    && t.taken == s.taken && t.acks == s.acks && t.late == s.late
    && t.accepted == s.accepted && t.failed == s.failed && t.crashed == s.crashed && t.lostAcks == s.lostAcks
  }

  lemma LoopHistory(c: Config, s: State, a: Action)
    requires c.Valid()
    ensures PacerHistoryFrame(s, LoopStep(c, s, a))
  {
  }

  lemma BarrierHistory(c: Config, s: State, a: Action)
    requires c.Valid()
    ensures PacerHistoryFrame(s, BarrierStep(c, s, a))
  {
  }

  lemma PacerHistoryFrames(c: Config, s: State, a: Action)
    requires c.Valid()
    ensures PacerHistoryFrame(s, PacerStep(c, s, a))
  {
    LoopHistory(c, s, a);
    BarrierHistory(c, s, a);
  }

  lemma PacerFrames(c: Config, s: State, a: Action)
    requires c.Valid()
    ensures PacerFrame(s, PacerStep(c, s, a))
  {
    PacerHistoryFrames(c, s, a);
  }

  lemma StepsOpenAndClose(c: Config, s: State, a: Action)
    requires c.Valid() && |s.open| == (if InStep(s.pacer) then 1 else 0)
      && (a.CloseStep? || a.BeginStep? || a.RecordInStep?)
    ensures var t := PacerStep(c, s, a);
            |t.open| == (if InStep(t.pacer) then 1 else 0) && t.pacer.Stopping? == s.pacer.Stopping?
            && (t.pacer.Stopping? ==> t.pacer == s.pacer)
  {
  }

  lemma SentinelBound(c: Config, s: State, a: Action)
    requires c.Valid() && (s.pacer.Stopping? ==> s.pacer.sent <= c.workers)
    ensures var t := PacerStep(c, s, a); t.pacer.Stopping? ==> t.pacer.sent <= c.workers
  {
  }

  lemma PacerKeepsOpen(c: Config, s: State, a: Action)
    requires c.Valid() && |s.open| == (if InStep(s.pacer) then 1 else 0)
      && (s.pacer.Stopping? ==> s.pacer.sent <= c.workers)
    ensures var t := PacerStep(c, s, a);
            |t.open| == (if InStep(t.pacer) then 1 else 0) && (t.pacer.Stopping? ==> t.pacer.sent <= c.workers)
  {
    SentinelBound(c, s, a);
    if a.CloseStep? || a.BeginStep? || a.RecordInStep? {
      StepsOpenAndClose(c, s, a);
    } else {
      OpenUntouched(c, s, a);
    }
  }

  lemma PacerKeepsShape(c: Config, s: State, a: Action)
    requires c.Valid() && Shape(c, s)
    requires PacerFrame(s, PacerStep(c, s, a))
    ensures Shape(c, PacerStep(c, s, a))
  {
    PacerKeepsOpen(c, s, a);
  }

  lemma PacerKeepsAbortFlag(c: Config, s: State, a: Action)
    requires c.Valid() && AbortFlag(c, s)
    ensures AbortFlag(c, PacerStep(c, s, a))
  {
  }

  lemma TakingKeepsTiling(c: Config, s: State, a: Action)
    requires c.Valid() && Tiling(c, s) && (a.Allocate? || a.Put?)
    ensures Tiling(c, PacerStep(c, s, a))
  {
  }

  lemma ReturningKeepsTiling(c: Config, s: State, a: Action)
    requires c.Valid() && Tiling(c, s) && (a.GiveUp? || a.RollBack?)
    ensures Tiling(c, PacerStep(c, s, a))
  {
  }

  /** Allocating, putting and rolling back move the ranges; nothing else touches them. */
  lemma AllocationKeepsTiling(c: Config, s: State, a: Action)
    requires c.Valid() && Tiling(c, s) && (a.Allocate? || a.Put? || a.GiveUp? || a.RollBack?)
    ensures Tiling(c, PacerStep(c, s, a))
  {
    if a.Allocate? || a.Put? {
      TakingKeepsTiling(c, s, a);
    } else {
      ReturningKeepsTiling(c, s, a);
    }
  }

  lemma ControlLeavesNumbers(c: Config, s: State, a: Action)
    requires c.Valid() && !(a.Allocate? || a.Put? || a.GiveUp? || a.RollBack?)
    ensures PacerStep(c, s, a).enqueued == s.enqueued && PacerStep(c, s, a).nextSeq == s.nextSeq
  {
  }

  ghost predicate SameRange(s: State, t: State) {
    HoldsRange(t.pacer) == HoldsRange(s.pacer) && (HoldsRange(s.pacer) ==> t.pacer.item == s.pacer.item)
  }

  lemma LoopSameRange(c: Config, s: State, a: Action)
    requires c.Valid() && !(a.Allocate? || a.Put? || a.GiveUp? || a.RollBack?)
    ensures SameRange(s, LoopStep(c, s, a))
  {
  }

  lemma BarrierSameRange(c: Config, s: State, a: Action)
    requires c.Valid()
    ensures SameRange(s, BarrierStep(c, s, a))
  {
  }

  lemma ControlKeepsRange(c: Config, s: State, a: Action)
    requires c.Valid() && !(a.Allocate? || a.Put? || a.GiveUp? || a.RollBack?)
    ensures SameRange(s, PacerStep(c, s, a))
  {
    LoopSameRange(c, s, a);
    BarrierSameRange(c, s, a);
  }

  lemma ControlKeepsTiling(c: Config, s: State, a: Action)
    requires c.Valid() && Tiling(c, s) && !(a.Allocate? || a.Put? || a.GiveUp? || a.RollBack?)
    ensures Tiling(c, PacerStep(c, s, a))
  {
    ControlLeavesNumbers(c, s, a);
    ControlKeepsRange(c, s, a);
  }

  lemma PacerKeepsTiling(c: Config, s: State, a: Action)
    requires c.Valid() && Tiling(c, s)
    ensures Tiling(c, PacerStep(c, s, a))
  {
    if a.Allocate? || a.Put? || a.GiveUp? || a.RollBack? {
      AllocationKeepsTiling(c, s, a);
    } else {
      ControlKeepsTiling(c, s, a);
    }
  }

  lemma PutKeepsQueue(c: Config, s: State)
    requires c.Valid() && QueueOrder(c, s)
    ensures QueueOrder(c, PacerStep(c, s, Put))
  {
    var t := PacerStep(c, s, Put);
    if t.queue != s.queue {
      QueuePush(c, s, t);
    }
  }

  lemma SentinelKeepsQueue(c: Config, s: State)
    requires c.Valid() && QueueOrder(c, s) && (s.pacer.Stopping? ==> s.pacer.sent <= c.workers)
    ensures QueueOrder(c, PacerStep(c, s, PutSentinel))
  {
    var t := PacerStep(c, s, PutSentinel);
    if t.queue != s.queue {
      QueuePush(c, s, t);
    }
  }

  /** The other actions of the main thread leave the queue alone. */
  ghost predicate QueueUntouched(c: Config, s: State, t: State) {
    && t.queue == s.queue && t.enqueued == s.enqueued && t.taken == s.taken && t.workers == s.workers
    && t.dropped == s.dropped && SentinelsSent(c, t.pacer) == SentinelsSent(c, s.pacer)
    && (t.pacer.SawEmpty? || t.pacer == Closing(true) ==>
      s.queue == [] || s.pacer.SawEmpty? || s.pacer == Closing(true))
  }

  lemma ControlQueue(c: Config, s: State, a: Action)
    requires c.Valid() && !a.Put? && !a.PutSentinel?
    ensures var t := PacerStep(c, s, a);
            t.queue == s.queue && t.enqueued == s.enqueued && t.taken == s.taken && t.workers == s.workers
            && t.dropped == s.dropped
  {
  }

  lemma ControlCounter(c: Config, s: State, a: Action)
    requires c.Valid() && (s.pacer.Stopping? ==> s.pacer.sent <= c.workers) && !a.Put? && !a.PutSentinel?
    ensures var t := PacerStep(c, s, a);
      && SentinelsSent(c, t.pacer) == SentinelsSent(c, s.pacer)
      && (t.pacer.SawEmpty? || t.pacer == Closing(true) ==>
        s.queue == [] || s.pacer.SawEmpty? || s.pacer == Closing(true))
  {
  }

  lemma ControlFrame(c: Config, s: State, a: Action)
    requires c.Valid() && (s.pacer.Stopping? ==> s.pacer.sent <= c.workers) && !a.Put? && !a.PutSentinel?
    ensures QueueUntouched(c, s, PacerStep(c, s, a))
  {
    ControlQueue(c, s, a);
    ControlCounter(c, s, a);
  }

  lemma QueueFrame(c: Config, s: State, t: State)
    requires QueueOrder(c, s) && QueueUntouched(c, s, t)
    ensures QueueOrder(c, t)
  {
  }

  lemma PacerKeepsQueue(c: Config, s: State, a: Action)
    requires c.Valid() && QueueOrder(c, s) && (s.pacer.Stopping? ==> s.pacer.sent <= c.workers)
    ensures QueueOrder(c, PacerStep(c, s, a))
  {
    if a.Put? {
      PutKeepsQueue(c, s);
    } else if a.PutSentinel? {
      SentinelKeepsQueue(c, s);
    } else {
      ControlFrame(c, s, a);
      QueueFrame(c, s, PacerStep(c, s, a));
    }
  }

  lemma QueuePush(c: Config, s: State, t: State)
    requires QueueOrder(c, s)
    requires t.taken == s.taken && t.workers == s.workers && t.dropped == s.dropped
    requires |s.queue| < c.QueueSize() && (s.pacer.Putting? || s.pacer.Stopping?)
    requires (t.enqueued == s.enqueued && t.queue == s.queue + [Sentinel]
              && s.pacer.Stopping? && t.pacer == Stopping(s.pacer.sent + 1))
          || (t.pacer.Enqueued? && SentinelsSent(c, s.pacer) == 0
              && t.enqueued == s.enqueued + [t.pacer.item] && t.queue == s.queue + [Work(t.pacer.item)])
    ensures QueueOrder(c, t)
  {
  }

  lemma CustodyFrame(s: State, t: State)
    requires PacerFrame(s, t) && Custody(s) && Census(s)
    ensures Custody(t) && Census(t)
  {
    assert t.enqueued[..s.taken] == s.enqueued[..s.taken];
    forall x: Item ensures CustodyOf(t, x) {
      assert CustodyOf(s, x);
    }
  }

  lemma OfferKeepsLedger(c: Config, s: State, t: State)
    requires Ledger(c, s) && s.pacer.Enqueued? && !t.pacer.Enqueued?
      && t.totals == AddOffered(s.totals, c.batch, c.nbytes)
    requires t.enqueued == s.enqueued && t.accepted == s.accepted && t.failed == s.failed
    ensures Ledger(c, t)
  {
  }

  lemma OthersLeaveTotals(c: Config, s: State, a: Action)
    requires c.Valid() && !a.RecordOffered?
    ensures var t := PacerStep(c, s, a);
            t.totals == s.totals && t.accepted == s.accepted && t.failed == s.failed
  {
  }

  /** Enqueued and not yet offered: the window between put and `record_offered`. */
  lemma OthersKeepWindow(c: Config, s: State, a: Action)
    requires c.Valid() && !a.RecordOffered?
    ensures var t := PacerStep(c, s, a);
            Times(|t.enqueued|, c.batch) - (if t.pacer.Enqueued? then c.batch else 0)
            == Times(|s.enqueued|, c.batch) - (if s.pacer.Enqueued? then c.batch else 0)
  {
    if a.Put? && s.pacer.Putting? && |s.queue| < c.QueueSize() {
      assert |PacerStep(c, s, a).enqueued| == |s.enqueued| + 1;
    } else {
      assert PacerStep(c, s, a).enqueued == s.enqueued;
    }
  }

  lemma PacerKeepsLedger(c: Config, s: State, a: Action)
    requires c.Valid() && Ledger(c, s)
    ensures Ledger(c, PacerStep(c, s, a))
  {
    if !a.RecordOffered? {
      OthersLeaveTotals(c, s, a);
      OthersKeepWindow(c, s, a);
    } else if s.pacer.Enqueued? {
      OfferKeepsLedger(c, s, PacerStep(c, s, a));
    }
  }

  lemma WireFrame(c: Config, s: State, t: State)
    requires c.Valid() && Shape(c, s) && Wire(c, s) && Shape(c, t) && PacerFrame(s, t)
    ensures Wire(c, t)
  {
    forall w | 0 <= w < |t.workers| ensures OwnsStamped(c, t, w) {
      assert OwnsStamped(c, s, w);
    }
  }

  lemma PacerKeepsBooks(c: Config, s: State, a: Action)
    requires c.Valid() && Shape(c, s) && Tiling(c, s) && StepBooks(c, s)
    requires Shape(c, PacerStep(c, s, a)) && PacerFrame(s, PacerStep(c, s, a))
    ensures StepBooks(c, PacerStep(c, s, a))
  {
    var t := PacerStep(c, s, a);
    if a.CloseStep? && s.pacer.Closing? {
      BooksClose(c, s, t);
    } else if a.BeginStep? && s.pacer.Between? {
      BooksBegin(c, s, t);
    } else if a.RecordInStep? && s.pacer.Recorded? {
      BooksRecord(c, s, t);
    } else {
      if a.Put? { PutLeavesBooks(c, s, a); } else { PacerLeavesBooks(c, s, a); }
      BooksFrame(c, s, t);
    }
  }

  /** Between posting to the step and closing it, the main thread leaves the books alone. */
  ghost predicate BooksUntouched(c: Config, s: State, t: State) {
    && t.steps == s.steps && t.open == s.open && InStep(t.pacer) == InStep(s.pacer)
    && Times(|t.enqueued|, c.batch) - Unposted(c, t.pacer) == Times(|s.enqueued|, c.batch) - Unposted(c, s.pacer)
  }

  ghost predicate SameStep(s: State, t: State) {
    t.steps == s.steps && t.open == s.open && InStep(t.pacer) == InStep(s.pacer)
  }

  predicate EndsTurn(a: Action) {
    a.Put? || a.GiveUp? || a.RollBack? || a.RecordOffered?
  }

  lemma TurnSameStep(c: Config, s: State, a: Action)
    requires c.Valid() && !a.BeginStep? && !a.RecordInStep? && !EndsTurn(a)
    ensures SameStep(s, LoopStep(c, s, a))
  {
  }

  lemma PutSameStep(c: Config, s: State, a: Action)
    requires c.Valid() && (a.Put? || a.RecordOffered?)
    ensures SameStep(s, LoopStep(c, s, a))
  {
  }

  lemma GiveUpSameStep(c: Config, s: State, a: Action)
    requires c.Valid() && (a.GiveUp? || a.RollBack?)
    ensures SameStep(s, LoopStep(c, s, a))
  {
  }

  lemma LoopSameStep(c: Config, s: State, a: Action)
    requires c.Valid() && !a.BeginStep? && !a.RecordInStep?
    ensures SameStep(s, LoopStep(c, s, a))
  {
    if a.Put? || a.RecordOffered? {
      PutSameStep(c, s, a);
    } else if a.GiveUp? || a.RollBack? {
      GiveUpSameStep(c, s, a);
    } else {
      TurnSameStep(c, s, a);
    }
  }

  lemma BarrierSameStep(c: Config, s: State, a: Action)
    requires c.Valid() && !a.CloseStep?
    ensures SameStep(s, BarrierStep(c, s, a))
  {
  }

  lemma OpenUntouched(c: Config, s: State, a: Action)
    requires c.Valid() && !a.CloseStep? && !a.BeginStep? && !a.RecordInStep?
    ensures SameStep(s, PacerStep(c, s, a))
  {
    LoopSameStep(c, s, a);
    BarrierSameStep(c, s, a);
  }

  ghost predicate SameOffers(c: Config, s: State, t: State) {
    t.enqueued == s.enqueued && Unposted(c, t.pacer) == Unposted(c, s.pacer)
  }

  lemma LoopSameOffers(c: Config, s: State, a: Action)
    requires c.Valid() && !a.Put? && !a.RecordInStep?
    ensures SameOffers(c, s, LoopStep(c, s, a))
  {
  }

  lemma BarrierSameOffers(c: Config, s: State, a: Action)
    requires c.Valid()
    ensures SameOffers(c, s, BarrierStep(c, s, a))
  {
  }

  lemma UnpostedUntouched(c: Config, s: State, a: Action)
    requires c.Valid() && !a.Put? && !a.RecordInStep?
    ensures SameOffers(c, s, PacerStep(c, s, a))
  {
    LoopSameOffers(c, s, a);
    BarrierSameOffers(c, s, a);
  }

  lemma NotEnabled(c: Config, s: State, a: Action)
    requires c.Valid() && (a.CloseStep? || a.BeginStep? || a.RecordInStep?)
    requires !(a.CloseStep? && s.pacer.Closing?) && !(a.BeginStep? && s.pacer.Between?)
    requires !(a.RecordInStep? && s.pacer.Recorded?)
    ensures PacerStep(c, s, a) == s
  {
  }

  lemma PacerLeavesBooks(c: Config, s: State, a: Action)
    requires c.Valid() && !a.Put?
    requires !(a.CloseStep? && s.pacer.Closing?) && !(a.BeginStep? && s.pacer.Between?)
    requires !(a.RecordInStep? && s.pacer.Recorded?)
    ensures BooksUntouched(c, s, PacerStep(c, s, a))
  {
    if a.CloseStep? || a.BeginStep? || a.RecordInStep? {
      NotEnabled(c, s, a);
    } else {
      OpenUntouched(c, s, a);
      UnpostedUntouched(c, s, a);
    }
  }

  lemma PutLeavesBooks(c: Config, s: State, a: Action)
    requires c.Valid() && a.Put?
    ensures BooksUntouched(c, s, PacerStep(c, s, a))
  {
  }

  lemma BooksFrame(c: Config, s: State, t: State)
    requires Shape(c, s) && StepBooks(c, s) && Shape(c, t) && PacerFrame(s, t) && BooksUntouched(c, s, t)
    ensures StepBooks(c, t)
  {
  }

  lemma {:induction false} ChainSnoc(steps: seq<StepResult>, r: StepResult)
    requires Chain(steps) && ClosedStep(r) && r.seqStart == EndOf(steps)
    ensures Chain(steps + [r])
    ensures EndOf(steps + [r]) == r.seqStart + r.offered
    ensures Accepted(steps + [r]) == Accepted(steps) + r.accepted
  {
    assert (steps + [r])[..|steps|] == steps;
  }

  lemma BooksClose(c: Config, s: State, t: State)
    requires c.Valid() && Shape(c, s) && Tiling(c, s) && StepBooks(c, s) && PacerFrame(s, t)
    requires s.pacer.Closing? && t.pacer == Between && t.enqueued == s.enqueued
    requires t.open == [] && t.steps == s.steps + Closed(s.open, s.nextSeq)
    ensures StepBooks(c, t)
  {
    var r := s.open[0].(seqEnd := Max(s.open[0].seqStart, s.nextSeq - 1));
    assert Closed(s.open, s.nextSeq) == [r];
    ChainSnoc(s.steps, r);
  }

  lemma BooksBegin(c: Config, s: State, t: State)
    requires c.Valid() && Shape(c, s) && Tiling(c, s) && StepBooks(c, s) && PacerFrame(s, t)
    requires s.pacer == Between && t.pacer == Looping && t.enqueued == s.enqueued && t.steps == s.steps
    requires t.open == [Blank(s.nextSeq)]
    ensures StepBooks(c, t)
  {
  }

  lemma BooksRecord(c: Config, s: State, t: State)
    requires c.Valid() && Shape(c, s) && StepBooks(c, s) && PacerFrame(s, t)
    requires s.pacer.Recorded? && (t.pacer.Looping? || t.pacer.Draining?)
    requires t.enqueued == s.enqueued && t.steps == s.steps && t.open == AddToOpen(s.open, c.batch, 0, 0, 0, 0)
    ensures StepBooks(c, t)
  {
  }

  lemma PacerKeepsInv(c: Config, s: State, a: Action)
    requires Inv(c, s)
    ensures Inv(c, PacerStep(c, s, a))
  {
    var t := PacerStep(c, s, a);
    PacerFrames(c, s, a);
    PacerKeepsShape(c, s, a);
    PacerKeepsAbortFlag(c, s, a);
    PacerKeepsTiling(c, s, a);
    PacerKeepsQueue(c, s, a);
    PacerKeepsLedger(c, s, a);
    PacerKeepsBooks(c, s, a);
    CustodyFrame(s, t);
    WireFrame(c, s, t);
  }
}
