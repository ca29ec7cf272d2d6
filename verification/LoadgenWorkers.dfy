/** The worker half of the invariant proof. Each atomic step is summarised by the difference it
    makes (`Delta`), and one argument carries the accounts over any such difference, so that the
    recursive counts and the bodies of the steps are never unfolded together. */
module LoadgenWorkers {
  import opened Basics
  import opened Metrics
  import opened Payload
  import opened Loadgen
  import opened LoadgenInvariant

  function Flag(b: bool): int {
    if b then 1 else 0
  }

  function Fates(s: State): nat {
    |s.accepted| + |s.failed| + |s.crashed| + |s.lostAcks|
  }

  /** A worker changes its own phase and nothing of the main thread's. */
  ghost predicate WorkerFrame(s: State, t: State, w: nat)
    requires w < |s.workers|
  {
    && |t.workers| == |s.workers| && t.workers == s.workers[w := t.workers[w]]
    && t.nextSeq == s.nextSeq && t.pacer == s.pacer && t.enqueued == s.enqueued
    && t.steps == s.steps && t.dropped == s.dropped && |t.open| == |s.open|
  }

  /** The numbers, apart from the count of the other workers. */
  ghost predicate CensusMove(s: State, t: State, p: Phase, q: Phase) {
    && t.taken - Fates(t) - Flag(Unsettled(q)) == s.taken - Fates(s) - Flag(Unsettled(p))
    && |t.acks| - |t.accepted| - |t.lostAcks| - Flag(OkPending(q))
       == |s.acks| - |s.accepted| - |s.lostAcks| - Flag(OkPending(p))
    && t.inflight - Flag(q.InRpc?) == s.inflight - Flag(p.InRpc?)
  }

  /** The whereabouts of one item, apart from the other workers. */
  ghost predicate CustodyMove(s: State, t: State, p: Phase, q: Phase, x: Item)
    requires s.taken <= |s.enqueued| && t.taken <= |t.enqueued|
  {
    && multiset(t.enqueued[..t.taken])[x] - FateCount(t, x) - Share(q, false, x)
       == multiset(s.enqueued[..s.taken])[x] - FateCount(s, x) - Share(p, false, x)
    && multiset(AckItems(t.acks))[x] - t.accepted[x] - t.lostAcks[x] - Share(q, true, x)
       == multiset(AckItems(s.acks))[x] - s.accepted[x] - s.lostAcks[x] - Share(p, true, x)
  }

  /** Either the worker gets on with its item, or it takes one entry off the queue. */
  ghost predicate QueueMove(c: Config, s: State, t: State, p: Phase, q: Phase) {
    || (t.queue == s.queue && t.taken == s.taken && p.Exited? == q.Exited? && Remaining(c, q) < Remaining(c, p))
    || (s.queue != [] && t.queue == s.queue[1..] && p == Idle &&
        if s.queue[0].Work? then t.taken == s.taken + 1 && q.Held? else t.taken == s.taken && q == Exited)
  }

  ghost predicate LedgerMove(c: Config, s: State, t: State) {
    || (t.totals == s.totals && t.accepted == s.accepted && t.failed == s.failed)
    || (t.totals == AddSuccess(s.totals, c.batch) && t.failed == s.failed && |t.accepted| == |s.accepted| + 1)
    || (t.accepted == s.accepted && |t.failed| == |s.failed| + 1
        && exists code :: t.totals == AddFailure(s.totals, c.batch, code))
  }

  ghost predicate BooksMove(c: Config, s: State, t: State, p: Phase, q: Phase) {
    && (|s.open| == |t.open| == 1 ==>
      t.open[0].offered == s.open[0].offered && t.open[0].seqStart == s.open[0].seqStart)
    && t.totals.recordsAccepted - OpenAccepted(t.open) - t.late - (if KindOf(q) == KInTotalsOk then c.batch else 0)
       == s.totals.recordsAccepted - OpenAccepted(s.open) - s.late - (if KindOf(p) == KInTotalsOk then c.batch else 0)
  }

  ghost predicate Delta(c: Config, s: State, t: State, w: nat)
    requires w < |s.workers| && s.taken <= |s.enqueued|
  {
    && WorkerFrame(s, t, w)
    && CensusMove(s, t, s.workers[w], t.workers[w])
    && t.taken <= |t.enqueued|
    && (forall x: Item :: CustodyMove(s, t, s.workers[w], t.workers[w], x))
    && QueueMove(c, s, t, s.workers[w], t.workers[w])
    && LedgerMove(c, s, t)
    && BooksMove(c, s, t, s.workers[w], t.workers[w])
    && (AbortFlag(c, s) ==> AbortFlag(c, t))
  }

  // -- a difference keeps the accounts -----------------------------------------------------

  lemma CensusAfter(s: State, t: State, w: nat)
    requires Census(s) && w < |s.workers| && WorkerFrame(s, t, w) && CensusMove(s, t, s.workers[w], t.workers[w])
    ensures Census(t)
  {
    CountUpdate(s.workers, w, t.workers[w], KPreparing);
    CountUpdate(s.workers, w, t.workers[w], KInRpc);
    CountUpdate(s.workers, w, t.workers[w], KReturnedOk);
    CountUpdate(s.workers, w, t.workers[w], KReturnedFailed);
  }

  lemma CustodyAfter(s: State, t: State, w: nat, x: Item)
    requires s.taken <= |s.enqueued| && t.taken <= |t.enqueued| && CustodyOf(s, x)
    requires w < |s.workers| && WorkerFrame(s, t, w) && CustodyMove(s, t, s.workers[w], t.workers[w], x)
    ensures CustodyOf(t, x)
  {
    HoldersUpdate(s.workers, w, t.workers[w], false, x);
    HoldersUpdate(s.workers, w, t.workers[w], true, x);
  }

  lemma QueueAfter(c: Config, s: State, t: State, w: nat)
    requires QueueOrder(c, s) && w < |s.workers| && WorkerFrame(s, t, w)
      && QueueMove(c, s, t, s.workers[w], t.workers[w])
    ensures QueueOrder(c, t)
  {
    CountUpdate(s.workers, w, t.workers[w], KExited);
  }

  lemma LedgerSuccess(c: Config, s: State, t: State)
    requires Ledger(c, s) && t.pacer == s.pacer && t.enqueued == s.enqueued
    requires t.totals == AddSuccess(s.totals, c.batch) && t.failed == s.failed && |t.accepted| == |s.accepted| + 1
    ensures Ledger(c, t)
  {
  }

  lemma LedgerFailure(c: Config, s: State, t: State, code: Code)
    requires Ledger(c, s) && t.pacer == s.pacer && t.enqueued == s.enqueued
    requires t.totals == AddFailure(s.totals, c.batch, code) && t.accepted == s.accepted && |t.failed| == |s.failed| + 1
    ensures Ledger(c, t)
  {
    AddFailureConsistent(s.totals, c.batch, code);
  }

  lemma LedgerAfter(c: Config, s: State, t: State)
    requires Ledger(c, s) && LedgerMove(c, s, t) && t.pacer == s.pacer && t.enqueued == s.enqueued
    ensures Ledger(c, t)
  {
    if t.totals == s.totals && t.accepted == s.accepted && t.failed == s.failed {
    } else if |t.accepted| == |s.accepted| + 1 && t.failed == s.failed {
      LedgerSuccess(c, s, t);
    } else {
      var code :| t.totals == AddFailure(s.totals, c.batch, code);
      LedgerFailure(c, s, t, code);
    }
  }

  lemma BooksAfter(c: Config, s: State, t: State, w: nat)
    requires |s.open| == (if InStep(s.pacer) then 1 else 0) && StepBooks(c, s)
    requires w < |s.workers| && WorkerFrame(s, t, w) && BooksMove(c, s, t, s.workers[w], t.workers[w])
    ensures StepBooks(c, t)
  {
    CountUpdate(s.workers, w, t.workers[w], KInTotalsOk);
  }

  ghost predicate Accounts(c: Config, s: State) {
    && |s.open| == (if InStep(s.pacer) then 1 else 0)
    && Tiling(c, s) && QueueOrder(c, s) && Custody(s) && Census(s) && Ledger(c, s) && StepBooks(c, s) && AbortFlag(c, s)
  }

  lemma DeltaKeepsAccounts(c: Config, s: State, t: State, w: nat)
    requires Accounts(c, s) && w < |s.workers| && Delta(c, s, t, w)
    ensures Accounts(c, t)
  {
    CensusAfter(s, t, w);
    QueueAfter(c, s, t, w);
    LedgerAfter(c, s, t);
    BooksAfter(c, s, t, w);
    forall x: Item ensures CustodyOf(t, x) {
      assert CustodyOf(s, x);
      CustodyAfter(s, t, w, x);
    }
  }

  // -- each step is such a difference ----------------------------------------------------

  lemma TakeDelta(c: Config, s: State, t: State, w: nat)
    requires QueueOrder(c, s) && w < |s.workers| && s.workers[w] == Idle && s.queue != [] && s.queue[0].Work?
    requires t == s.(queue := s.queue[1..], taken := s.taken + 1, workers := s.workers[w := Held(s.queue[0].item)])
    ensures Delta(c, s, t, w)
  {
    assert s.queue[0] == Work(s.enqueued[s.taken]);
    assert s.enqueued[..s.taken + 1] == s.enqueued[..s.taken] + [s.enqueued[s.taken]];
  }

  lemma ExitDelta(c: Config, s: State, t: State, w: nat)
    requires s.taken <= |s.enqueued| && w < |s.workers| && s.workers[w] == Idle && s.queue != [] && s.queue[0].Sentinel?
    requires t == s.(queue := s.queue[1..], workers := s.workers[w := Exited])
    ensures Delta(c, s, t, w)
  {
  }

  lemma DequeueDelta(c: Config, s: State, w: nat)
    requires QueueOrder(c, s) && w < |s.workers| && s.workers[w] == Idle && s.queue != []
    ensures Delta(c, s, Dequeue(s, w), w)
  {
    if s.queue[0].Work? {
      TakeDelta(c, s, Dequeue(s, w), w);
    } else {
      ExitDelta(c, s, Dequeue(s, w), w);
    }
  }

  /** Moves that change a phase, the pool and the in-flight count only. */
  lemma QuietDelta(c: Config, s: State, t: State, w: nat)
    requires w < |s.workers| == |t.workers| && s.taken <= |s.enqueued|
    requires t == s.(workers := s.workers[w := t.workers[w]], pool := t.pool, inflight := t.inflight)
    requires Unsettled(s.workers[w]) && Unsettled(t.workers[w]) && s.workers[w].item == t.workers[w].item
    requires !OkPending(s.workers[w]) && !OkPending(t.workers[w])
    requires t.inflight - Flag(t.workers[w].InRpc?) == s.inflight - Flag(s.workers[w].InRpc?)
    requires Remaining(c, t.workers[w]) < Remaining(c, s.workers[w])
    ensures Delta(c, s, t, w)
  {
  }

  lemma ReturnDelta(c: Config, s: State, w: nat, item: Item, wire: seq<Slot>, outcome: Outcome)
    requires w < |s.workers| && s.workers[w] == InRpc(item, wire) && s.taken <= |s.enqueued|
    ensures Delta(c, s, ExportReturns(s, w, item, wire, outcome), w)
  {
    if outcome.Ok? {
      assert AckItems(s.acks + [Ack(item, wire)]) == AckItems(s.acks) + [item];
    } else {
      QuietDelta(c, s, ExportReturns(s, w, item, wire, outcome), w);
    }
  }

  lemma EscapeDelta(c: Config, s: State, w: nat, item: Item)
    requires w < |s.workers| && s.taken <= |s.enqueued|
    requires Unsettled(s.workers[w]) && s.workers[w].item == item && !OkPending(s.workers[w]) && !s.workers[w].InRpc?
    ensures Delta(c, s, Escape(s, w, item), w)
  {
  }

  lemma EscapeRpcDelta(c: Config, s: State, w: nat, item: Item)
    requires w < |s.workers| && s.taken <= |s.enqueued|
    requires s.workers[w].InRpc? && s.workers[w].item == item
    ensures Delta(c, s, Escape(s.(inflight := s.inflight - 1), w, item), w)
  {
  }

  lemma EscapeAfterOkDelta(c: Config, s: State, w: nat, item: Item)
    requires w < |s.workers| && s.taken <= |s.enqueued|
    requires OkPending(s.workers[w]) && s.workers[w].item == item
    ensures Delta(c, s, EscapeAfterOk(s, w, item), w)
  {
  }

  lemma PostTotalsDelta(c: Config, s: State, w: nat, item: Item, outcome: Outcome)
    requires w < |s.workers| && s.taken <= |s.enqueued| && s.workers[w] == Returned(item, outcome)
    ensures Delta(c, s, PostTotals(c, s, w, item, outcome), w)
  {
  }

  lemma PostAckDelta(c: Config, s: State, w: nat, item: Item)
    requires w < |s.workers| && s.taken <= |s.enqueued| && |s.open| <= 1
    requires KindOf(s.workers[w]) == KInTotalsOk
    ensures Delta(c, s, PostAck(c, s, w, item), w)
  {
  }

  lemma PostFailureDelta(c: Config, s: State, w: nat, code: Code)
    requires w < |s.workers| && s.taken <= |s.enqueued| && |s.open| <= 1
    requires KindOf(s.workers[w]) == KInTotalsFailed
    ensures Delta(c, s, PostFailure(c, s, w, code), w)
  {
    var t := PostFailure(c, s, w, code);
    assert t == s.(workers := s.workers[w := Idle], open := t.open, consecutive := t.consecutive,
                   aborted := t.aborted, stop := t.stop);
  }

  // -- the wire --------------------------------------------------------------------------

  /** Templates, acks and the other workers are as they were. */
  lemma WireFrameWorkers(c: Config, s: State, t: State, w: nat)
    requires c.Valid() && Shape(c, s) && Wire(c, s) && Shape(c, t)
    requires t.pool == s.pool && w < |s.workers| && |t.workers| == |s.workers|
      && t.workers == s.workers[w := t.workers[w]]
    requires OwnsStamped(c, t, w)
    requires t.acks == s.acks
      || (|t.acks| == |s.acks| + 1 && t.acks == s.acks + [t.acks[|s.acks|]] && AckCarries(c, t.acks[|s.acks|]))
    ensures Wire(c, t)
  {
    forall v | 0 <= v < |t.workers| ensures OwnsStamped(c, t, v) {
      if v != w {
        assert OwnsStamped(c, s, v);
      }
    }
  }

  lemma ReturnKeepsWire(c: Config, s: State, w: nat, item: Item, wire: seq<Slot>, outcome: Outcome)
    requires c.Valid() && Shape(c, s) && Wire(c, s) && w < |s.workers| && s.workers[w] == InRpc(item, wire)
    ensures Wire(c, ExportReturns(s, w, item, wire, outcome))
  {
    TemplateIndexInPool(c.PoolWorkers(), c.variants, w, item.variant);
    assert OwnsStamped(c, s, w);
    WireFrameWorkers(c, s, ExportReturns(s, w, item, wire, outcome), w);
  }

  lemma ExportKeepsWire(c: Config, s: State, w: nat, item: Item)
    requires c.Valid() && Shape(c, s) && Wire(c, s) && w < |s.workers| && s.workers[w] == Stamping(item, c.batch)
    ensures Wire(c, CallExport(c, s, w, item))
  {
    assert OwnsStamped(c, s, w);
    WireFrameWorkers(c, s, CallExport(c, s, w, item), w);
  }

  lemma StampKeepsShape(c: Config, s: State, w: nat, item: Item, k: nat)
    requires c.Valid() && Shape(c, s) && w < |s.workers| && k < c.batch
    ensures Shape(c, StampNext(c, s, w, item, k))
  {
    TemplateIndexInPool(c.PoolWorkers(), c.variants, w, item.variant);
    var t := StampNext(c, s, w, item, k);
    assert forall i :: 0 <= i < |t.pool| ==> |t.pool[i]| == |s.pool[i]|;
    assert t == s.(pool := t.pool, workers := s.workers[w := Stamping(item, k + 1)]);
  }

  /** The stamp lands in a template no other worker reaches. */
  lemma StampKeepsWire(c: Config, s: State, w: nat, item: Item, k: nat)
    requires c.Valid() && Shape(c, s) && Wire(c, s) && w < |s.workers| && s.workers[w] == Stamping(item, k)
      && k < c.batch
    requires Shape(c, StampNext(c, s, w, item, k))
    ensures Wire(c, StampNext(c, s, w, item, k))
  {
    var t := StampNext(c, s, w, item, k);
    TemplateIndexInPool(c.PoolWorkers(), c.variants, w, item.variant);
    forall v | 0 <= v < |t.workers| ensures OwnsStamped(c, t, v) {
      assert OwnsStamped(c, s, v);
      var q := s.workers[v];
      if v != w && (q.Stamping? || q.InRpc?) {
        TemplateIndexInjective(c.PoolWorkers(), c.variants, w, item.variant, v, q.item.variant);
        TemplateIndexInPool(c.PoolWorkers(), c.variants, v, q.item.variant);
      }
    }
  }

  /** For the steps that leave every template alone and start no RPC. */
  lemma DeltaKeepsInv(c: Config, s: State, t: State, w: nat)
    requires Inv(c, s) && w < |s.workers| && Delta(c, s, t, w)
    requires t.pool == s.pool && t.acks == s.acks && !t.workers[w].InRpc?
    requires t.workers[w].Stamping? ==> t.workers[w].k == 0
    ensures Inv(c, t)
  {
    DeltaKeepsAccounts(c, s, t, w);
    WireFrameWorkers(c, s, t, w);
  }

  // -- every worker action -----------------------------------------------------------------

  lemma DequeueKeepsInv(c: Config, s: State, w: nat)
    requires Inv(c, s) && w < |s.workers| && s.workers[w] == Idle && s.queue != []
    ensures Inv(c, Dequeue(s, w))
  {
    DequeueDelta(c, s, w);
    DeltaKeepsInv(c, s, Dequeue(s, w), w);
  }

  lemma BeginKeepsInv(c: Config, s: State, w: nat, item: Item)
    requires Inv(c, s) && w < |s.workers| && s.workers[w] == Held(item)
    ensures Inv(c, SetPhase(s, w, Stamping(item, 0)))
  {
    QuietDelta(c, s, SetPhase(s, w, Stamping(item, 0)), w);
    DeltaKeepsInv(c, s, SetPhase(s, w, Stamping(item, 0)), w);
  }

  lemma StampKeepsInv(c: Config, s: State, w: nat, item: Item, k: nat)
    requires Inv(c, s) && w < |s.workers| && s.workers[w] == Stamping(item, k) && k < c.batch
    ensures Inv(c, StampNext(c, s, w, item, k))
  {
    StampKeepsShape(c, s, w, item, k);
    StampKeepsWire(c, s, w, item, k);
    QuietDelta(c, s, StampNext(c, s, w, item, k), w);
    DeltaKeepsAccounts(c, s, StampNext(c, s, w, item, k), w);
  }

  lemma ExportKeepsInv(c: Config, s: State, w: nat, item: Item)
    requires Inv(c, s) && w < |s.workers| && s.workers[w] == Stamping(item, c.batch)
    ensures Inv(c, CallExport(c, s, w, item))
  {
    QuietDelta(c, s, CallExport(c, s, w, item), w);
    ExportKeepsWire(c, s, w, item);
    DeltaKeepsAccounts(c, s, CallExport(c, s, w, item), w);
  }

  lemma ReturnKeepsInv(c: Config, s: State, w: nat, item: Item, wire: seq<Slot>, outcome: Outcome)
    requires Inv(c, s) && w < |s.workers| && s.workers[w] == InRpc(item, wire)
    ensures Inv(c, ExportReturns(s, w, item, wire, outcome))
  {
    ReturnDelta(c, s, w, item, wire, outcome);
    ReturnKeepsWire(c, s, w, item, wire, outcome);
    DeltaKeepsAccounts(c, s, ExportReturns(s, w, item, wire, outcome), w);
  }

  lemma PostTotalsKeepsInv(c: Config, s: State, w: nat, item: Item, outcome: Outcome)
    requires Inv(c, s) && w < |s.workers| && s.workers[w] == Returned(item, outcome)
    ensures Inv(c, PostTotals(c, s, w, item, outcome))
  {
    PostTotalsDelta(c, s, w, item, outcome);
    DeltaKeepsInv(c, s, PostTotals(c, s, w, item, outcome), w);
  }

  lemma PostAckKeepsInv(c: Config, s: State, w: nat, item: Item)
    requires Inv(c, s) && w < |s.workers| && KindOf(s.workers[w]) == KInTotalsOk
    ensures Inv(c, PostAck(c, s, w, item))
  {
    PostAckDelta(c, s, w, item);
    DeltaKeepsInv(c, s, PostAck(c, s, w, item), w);
  }

  lemma PostFailureFrame(c: Config, s: State, w: nat, code: Code)
    requires w < |s.workers|
    ensures var t := PostFailure(c, s, w, code);
            t.workers == s.workers[w := Idle] && t.pool == s.pool && t.acks == s.acks
  {
  }

  lemma PostFailureKeepsInv(c: Config, s: State, w: nat, code: Code)
    requires Inv(c, s) && w < |s.workers| && KindOf(s.workers[w]) == KInTotalsFailed
    ensures Inv(c, PostFailure(c, s, w, code))
  {
    var t := PostFailure(c, s, w, code);
    PostFailureDelta(c, s, w, code);
    PostFailureFrame(c, s, w, code);
    DeltaKeepsInv(c, s, t, w);
  }

  lemma PrepareKeepsInv(c: Config, s: State, w: nat, a: Action)
    requires Inv(c, s) && w < |s.workers| && (a.Take? || a.BeginStamp? || a.StampOne?)
    ensures Inv(c, WorkerStep(c, s, w, a))
  {
    match (a, s.workers[w])
    case (Take(_), Idle) => if s.queue != [] { DequeueKeepsInv(c, s, w); }
    case (BeginStamp(_), Held(item)) => BeginKeepsInv(c, s, w, item);
    case (StampOne(_), Stamping(item, k)) => if k < c.batch { StampKeepsInv(c, s, w, item, k); }
    case _ =>
  }

  lemma RpcKeepsInv(c: Config, s: State, w: nat, a: Action)
    requires Inv(c, s) && w < |s.workers| && (a.Export? || a.Return?)
    ensures Inv(c, WorkerStep(c, s, w, a))
  {
    match (a, s.workers[w])
    case (Export(_), Stamping(item, k)) => if k >= c.batch { ExportKeepsInv(c, s, w, item); }
    case (Return(_, outcome), InRpc(item, wire)) => ReturnKeepsInv(c, s, w, item, wire, outcome);
    case _ =>
  }

  lemma CrashDelta(c: Config, s: State, w: nat)
    requires w < |s.workers| && s.taken <= |s.enqueued| && Unsettled(s.workers[w])
    ensures Delta(c, s, CrashStep(s, w), w)
  {
    var item := s.workers[w].item;
    if s.workers[w].InRpc? {
      EscapeRpcDelta(c, s, w, item);
    } else if OkPending(s.workers[w]) {
      EscapeAfterOkDelta(c, s, w, item);
    } else {
      EscapeDelta(c, s, w, item);
    }
  }

  lemma CrashFrame(s: State, w: nat)
    requires w < |s.workers|
    ensures var t := CrashStep(s, w);
            |t.workers| == |s.workers| && t.pool == s.pool && t.acks == s.acks
              && (Unsettled(s.workers[w]) ==> t.workers[w].Idle?)
  {
  }

  lemma CrashKeepsInv(c: Config, s: State, w: nat)
    requires Inv(c, s) && w < |s.workers|
    ensures Inv(c, CrashStep(s, w))
  {
    if Unsettled(s.workers[w]) {
      CrashDelta(c, s, w);
      CrashFrame(s, w);
      DeltaKeepsInv(c, s, CrashStep(s, w), w);
    } else {
      assert CrashStep(s, w) == s;
    }
  }

  lemma PostKeepsInv(c: Config, s: State, w: nat, a: Action)
    requires Inv(c, s) && w < |s.workers| && (a.RecordTotals? || a.RecordStep?)
    ensures Inv(c, WorkerStep(c, s, w, a))
  {
    match (a, s.workers[w])
    case (RecordTotals(_), Returned(item, outcome)) => PostTotalsKeepsInv(c, s, w, item, outcome);
    case (RecordStep(_), InTotals(item, outcome)) =>
      if outcome.Ok? { PostAckKeepsInv(c, s, w, item); } else { PostFailureKeepsInv(c, s, w, outcome.code); }
    case _ =>
  }

  lemma WorkerKeepsInv(c: Config, s: State, w: nat, a: Action)
    requires Inv(c, s) && w < |s.workers| && WorkerOf(a) >= 0
    ensures Inv(c, WorkerStep(c, s, w, a))
  {
    if a.Take? || a.BeginStamp? || a.StampOne? {
      PrepareKeepsInv(c, s, w, a);
    } else if a.Export? || a.Return? {
      RpcKeepsInv(c, s, w, a);
    } else if a.Crash? {
      CrashKeepsInv(c, s, w);
    } else {
      PostKeepsInv(c, s, w, a);
    }
  }

  lemma StepKeepsInv(c: Config, s: State, a: Action)
    requires Inv(c, s)
    ensures Inv(c, Step(c, s, a))
  {
    var w := WorkerOf(a);
    if w < 0 {
      PacerKeepsInv(c, s, a);
    } else if w < |s.workers| {
      WorkerKeepsInv(c, s, w, a);
    }
  }

  // -- runs ----------------------------------------------------------------------------------

  /** The i-th scheduling decision of a run leads from its i-th state to the next. */
  ghost predicate Link(c: Config, states: seq<State>, acts: seq<Action>, i: nat)
    requires c.Valid() && |states| == |acts| + 1 && i < |acts|
  {
    PoolShape(c, states[i].pool) && states[i + 1] == Step(c, states[i], acts[i])
  }

  /** A run: any schedule of the threads, with any outcomes of the RPCs. */
  ghost predicate Run(c: Config, states: seq<State>, acts: seq<Action>)
    requires c.Valid()
  {
    && |states| == |acts| + 1
    && Initial(c, states[0])
    && forall i :: 0 <= i < |acts| ==> Link(c, states, acts, i)
  }

  ghost predicate Reachable(c: Config, s: State) {
    c.Valid() && exists states, acts :: Run(c, states, acts) && states[|acts|] == s
  }

  lemma LinkKeepsInv(c: Config, s: State, a: Action, t: State)
    requires Inv(c, s) && t == Step(c, s, a)
    ensures Inv(c, t)
  {
    StepKeepsInv(c, s, a);
  }

  ghost predicate Carried(c: Config, states: seq<State>, i: nat) {
    i + 1 < |states| && Inv(c, states[i]) ==> Inv(c, states[i + 1])
  }

  lemma RunCarries(c: Config, states: seq<State>, acts: seq<Action>, i: nat)
    requires c.Valid() && Run(c, states, acts)
    ensures Carried(c, states, i)
  {
    if i < |acts| && Inv(c, states[i]) {
      assert Link(c, states, acts, i);
      LinkKeepsInv(c, states[i], acts[i], states[i + 1]);
    }
  }

  lemma {:induction false} RunInv(c: Config, states: seq<State>, n: nat)
    requires n < |states| && Inv(c, states[0]) && forall i: nat :: Carried(c, states, i)
    ensures Inv(c, states[n])
  {
    if n > 0 {
      RunInv(c, states, n - 1);
      assert Carried(c, states, n - 1);
    }
  }

  /** The invariant holds in every state of every run. */
  lemma ReachableInv(c: Config, s: State)
    requires Reachable(c, s)
    ensures Inv(c, s)
  {
    var states, acts :| Run(c, states, acts) && states[|acts|] == s;
    InitInv(c, states[0]);
    forall i: nat ensures Carried(c, states, i) {
      RunCarries(c, states, acts, i);
    }
    RunInv(c, states, |acts|);
  }

  lemma ReachableStep(c: Config, s: State, a: Action)
    requires Reachable(c, s) && PoolShape(c, s.pool)
    ensures Reachable(c, Step(c, s, a))
  {
    var states, acts :| Run(c, states, acts) && states[|acts|] == s;
    RunExtends(c, states, acts, s, a, Step(c, s, a));
  }

  lemma RunExtends(c: Config, states: seq<State>, acts: seq<Action>, s: State, a: Action, t: State)
    requires c.Valid() && Run(c, states, acts) && states[|acts|] == s && PoolShape(c, s.pool) && t == Step(c, s, a)
    ensures Reachable(c, t)
  {
    var states', acts' := states + [t], acts + [a];
    forall i | 0 <= i < |acts'| ensures Link(c, states', acts', i) {
      if i < |acts| {
        assert Link(c, states, acts, i);
      }
    }
    assert Run(c, states', acts') && states'[|acts'|] == t;
  }

  /** There are runs: the engine can start with any pool of the right shape. */
  lemma InitialReachable(c: Config, pool: seq<seq<Slot>>, zero: Totals)
    requires c.Valid() && PoolShape(c, pool) && IsZero(zero)
    ensures Reachable(c, Init(c, pool, zero))
  {
    var s := Init(c, pool, zero);
    assert Initial(c, s);
    var acts: seq<Action> := [];
    assert Run(c, [s], acts) && [s][|acts|] == s;
  }
}
