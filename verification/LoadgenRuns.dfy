/** What holds of the load engine in every reachable state: for every schedule of the threads and
    every outcome of every RPC. */
module LoadgenRuns {
  import opened Basics
  import opened Metrics
  import opened Payload
  import opened Loadgen
  import opened LoadgenInvariant
  import opened LoadgenWorkers

  // -- conservation ----------------------------------------------------------------------

  /** Records of the items a worker holds at some point between the queue and the totals. */
  function InHand(c: Config, s: State): nat {
    (Count(s.workers, KPreparing) + Count(s.workers, KInRpc) + Count(s.workers, KReturnedOk)
     + Count(s.workers, KReturnedFailed))
    * c.batch
  }

  /** Offered = queued + in hand + accepted + failed + crashed, up to the one batch that is in the
      queue before `record_offered` has run; and `inflight()` counts the workers inside `export`. */
  lemma Conservation(c: Config, s: State)
    requires Reachable(c, s)
    ensures s.taken <= |s.enqueued|
    ensures s.totals.recordsOffered + (if s.pacer.Enqueued? then c.batch else 0) ==
              (|s.enqueued| - s.taken) * c.batch + InHand(c, s) + s.totals.recordsAccepted
              + (|s.failed| + |s.crashed| + |s.lostAcks|) * c.batch
    ensures s.inflight == Count(s.workers, KInRpc)
    ensures s.totals.requestsSent == |s.accepted| + |s.failed|
  {
    ReachableInv(c, s);
    ConservationOf(c, s);
  }

  lemma ConservationOf(c: Config, s: State)
    requires s.taken <= |s.enqueued| && Ledger(c, s) && Census(s)
    ensures s.totals.recordsOffered + (if s.pacer.Enqueued? then c.batch else 0) ==
              (|s.enqueued| - s.taken) * c.batch + InHand(c, s) + s.totals.recordsAccepted
              + (|s.failed| + |s.crashed| + |s.lostAcks|) * c.batch
  {
    TimesIsProduct(|s.enqueued|, c.batch);
    TimesIsProduct(|s.accepted|, c.batch);
    var hand := Count(s.workers, KPreparing) + Count(s.workers, KInRpc) + Count(s.workers, KReturnedOk)
                + Count(s.workers, KReturnedFailed);
    var fates := |s.failed| + |s.crashed| + |s.lostAcks|;
    Distribute(|s.enqueued| - s.taken, hand, |s.accepted|, fates, c.batch);
  }

  lemma Distribute(a: int, b: int, d: int, e: int, n: int)
    ensures (a + b + d + e) * n == a * n + b * n + d * n + e * n
  {
  }

  // -- sequence allocation ------------------------------------------------------------------

  /** The ranges of the enqueued items, and the one the pacer may still hold, tile [0, nextSeq). */
  lemma SequenceTiling(c: Config, s: State)
    requires Reachable(c, s)
    ensures forall i :: 0 <= i < |s.enqueued| ==> s.enqueued[i].start == i * c.batch
    ensures forall i, j :: 0 <= i < j < |s.enqueued| ==> s.enqueued[i].start + c.batch <= s.enqueued[j].start
    ensures if HoldsRange(s.pacer)
            then s.pacer.item.start == |s.enqueued| * c.batch && s.nextSeq == s.pacer.item.start + c.batch
            else s.nextSeq == |s.enqueued| * c.batch
  {
    ReachableInv(c, s);
    TilingOf(c, s);
  }

  lemma TilingOf(c: Config, s: State)
    requires Tiling(c, s)
    ensures Times(|s.enqueued|, c.batch) == |s.enqueued| * c.batch
    ensures forall i :: 0 <= i < |s.enqueued| ==> s.enqueued[i].start == i * c.batch
    ensures forall i, j :: 0 <= i < j < |s.enqueued| ==> s.enqueued[i].start + c.batch <= s.enqueued[j].start
  {
    TimesIsProduct(|s.enqueued|, c.batch);
    forall i | 0 <= i < |s.enqueued| ensures s.enqueued[i].start == i * c.batch {
      TimesIsProduct(i, c.batch);
    }
    forall i, j | 0 <= i < j < |s.enqueued| ensures s.enqueued[i].start + c.batch <= s.enqueued[j].start {
      TimesMonotone(i + 1, j, c.batch);
    }
  }

  lemma {:induction false} TimesMonotone(m: nat, n: nat, b: nat)
    requires m <= n
    ensures Times(m, b) <= Times(n, b)
  {
    if m < n {
      TimesMonotone(m, n - 1, b);
    }
  }

  // -- exactly one place for every item -----------------------------------------------------

  function Waiting(queue: seq<Entry>, x: Item): nat {
    if queue == [] then 0 else (if queue[0] == Work(x) then 1 else 0) + Waiting(queue[1..], x)
  }

  lemma {:induction false} WaitingCounts(queue: seq<Entry>, items: seq<Item>, x: Item)
    requires |items| <= |queue|
    requires forall i :: 0 <= i < |items| ==> queue[i] == Work(items[i])
    requires forall i :: |items| <= i < |queue| ==> queue[i] == Sentinel
    ensures Waiting(queue, x) == multiset(items)[x]
  {
    if items != [] {
      assert items == [items[0]] + items[1..];
      WaitingCounts(queue[1..], items[1..], x);
    } else if queue != [] {
      WaitingCounts(queue[1..], items, x);
    }
  }

  lemma EnqueuedOnce(c: Config, s: State, i: nat)
    requires c.batch > 0 && Tiling(c, s) && i < |s.enqueued|
    ensures multiset(s.enqueued)[s.enqueued[i]] == 1
  {
    var x := s.enqueued[i];
    forall j | 0 <= j < |s.enqueued| && j != i ensures s.enqueued[j] != x {
      if i < j { TimesMonotone(i + 1, j, c.batch); } else { TimesMonotone(j + 1, i, c.batch); }
    }
    assert s.enqueued == s.enqueued[..i] + [x] + s.enqueued[i + 1..];
    assert x !in s.enqueued[..i] && x !in s.enqueued[i + 1..];
  }

  /** An item that was enqueued is, at every moment, in exactly one of: the queue, one worker's
      hands, accepted, failed, crashed. It is dequeued once and its outcome is counted once. */
  lemma ExactlyOnce(c: Config, s: State, i: nat)
    requires Reachable(c, s) && i < |s.enqueued|
    ensures var x := s.enqueued[i];
      Waiting(s.queue, x) + Holders(s.workers, false, x)
      + s.accepted[x] + s.failed[x] + s.crashed[x] + s.lostAcks[x] == 1
  {
    ReachableInv(c, s);
    EnqueuedOnce(c, s, i);
    ExactlyOnceOf(c, s, s.enqueued[i]);
  }

  lemma {:induction false} ExactlyOnceOf(c: Config, s: State, x: Item)
    requires QueueOrder(c, s) && CustodyOf(s, x)
    ensures Waiting(s.queue, x) + Holders(s.workers, false, x) + FateCount(s, x) == multiset(s.enqueued)[x]
  {
    assert s.enqueued == s.enqueued[..s.taken] + s.enqueued[s.taken..];
    WaitingCounts(s.queue, s.enqueued[s.taken..], x);
  }

  // -- the wire ----------------------------------------------------------------------------

  /** While a worker's RPC is out, its template holds the item's range in order on every handle,
      and it is what the RPC was started with: no thread has written to it since. */
  lemma WireSafety(c: Config, s: State, w: nat)
    requires Reachable(c, s) && w < |s.workers| && s.workers[w].InRpc?
    ensures var item := s.workers[w].item; var t := c.Template(w, item);
      && t < |s.pool|
      && s.pool[t] == s.workers[w].wire
      && |s.pool[t]| == c.batch
      && (forall k :: 0 <= k < c.batch ==> s.pool[t][k].bench == item.start + k)
      && (c.schema.AiTxn? ==> forall k :: 0 <= k < c.batch ==> s.pool[t][k].snx == s.pool[t][k].bench)
      && item in s.enqueued
  {
    ReachableInv(c, s);
    WireOf(c, s, w);
    CarriedIsTaken(s, w);
  }

  lemma WireOf(c: Config, s: State, w: nat)
    requires c.Valid() && Shape(c, s) && w < |s.workers| && s.workers[w].InRpc? && OwnsStamped(c, s, w)
    ensures var item := s.workers[w].item; var t := c.Template(w, item);
      && t < |s.pool|
      && s.pool[t] == s.workers[w].wire
      && |s.pool[t]| == c.batch
      && (forall k :: 0 <= k < c.batch ==> s.pool[t][k].bench == item.start + k)
      && (c.schema.AiTxn? ==> forall k :: 0 <= k < c.batch ==> s.pool[t][k].snx == s.pool[t][k].bench)
  {
    var item := s.workers[w].item;
    TemplateIndexInPool(c.PoolWorkers(), c.variants, w, item.variant);
    assert forall k :: 0 <= k < c.batch ==> SlotIs(c.schema, s.pool[c.Template(w, item)][k], item.start + k);
  }

  lemma CarriedIsTaken(s: State, w: nat)
    requires w < |s.workers| && Unsettled(s.workers[w]) && Custody(s)
    ensures s.workers[w].item in s.enqueued
  {
    var item := s.workers[w].item;
    HolderPositive(s.workers, w);
    assert CustodyOf(s, item);
    assert item in multiset(s.enqueued[..s.taken]);
  }

  lemma {:induction false} HolderPositive(ws: seq<Phase>, w: nat)
    requires w < |ws| && Unsettled(ws[w])
    ensures Holders(ws, false, ws[w].item) > 0
  {
    if w < |ws| - 1 {
      HolderPositive(ws[..|ws| - 1], w);
    }
  }

  // -- what was acked -----------------------------------------------------------------------

  function WireSeqs(wire: seq<Slot>): seq<int> {
    seq(|wire|, i requires 0 <= i < |wire| => wire[i].bench)
  }

  /** The record numbers in the requests that were acked. */
  function AckedSeqs(acks: seq<Ack>): multiset<int> {
    if acks == [] then multiset{}
    else AckedSeqs(acks[..|acks| - 1]) + multiset(WireSeqs(acks[|acks| - 1].wire))
  }

  ghost predicate DistinctStarts(b: nat, acks: seq<Ack>) {
    forall i, j :: 0 <= i < j < |acks| ==>
      acks[i].item.start + b <= acks[j].item.start || acks[j].item.start + b <= acks[i].item.start
  }

  function Within(x: int, first: int, n: nat): nat {
    if first <= x < first + n then 1 else 0
  }

  lemma WireSeqsAre(c: Config, ack: Ack)
    requires AckCarries(c, ack)
    ensures forall x :: multiset(WireSeqs(ack.wire))[x] == Within(x, ack.item.start, c.batch)
  {
    var xs := WireSeqs(ack.wire);
    assert forall k :: 0 <= k < c.batch ==> SlotIs(c.schema, ack.wire[k], ack.item.start + k);
    assert forall k :: 0 <= k < c.batch ==> xs[k] == ack.item.start + k;
    forall x ensures multiset(xs)[x] == Within(x, ack.item.start, c.batch) {
      CountRun(xs, ack.item.start, x);
    }
  }

  lemma {:induction false} CountRun(xs: seq<int>, first: int, x: int)
    requires forall k :: 0 <= k < |xs| ==> xs[k] == first + k
    ensures multiset(xs)[x] == Within(x, first, |xs|)
  {
    if xs != [] {
      assert xs == [xs[0]] + xs[1..];
      CountRun(xs[1..], first + 1, x);
    }
  }

  /** Acked record numbers are counted by the batches that carried them. */
  lemma {:induction false} AckedSeqsCount(c: Config, acks: seq<Ack>, x: int)
    requires forall i :: 0 <= i < |acks| ==> AckCarries(c, acks[i])
    requires DistinctStarts(c.batch, acks)
    ensures |AckedSeqs(acks)| == Times(|acks|, c.batch)
    ensures AckedSeqs(acks)[x] <= 1
    ensures x in AckedSeqs(acks) <==>
      exists i :: 0 <= i < |acks| && acks[i].item.start <= x < acks[i].item.start + c.batch
  {
    if acks != [] {
      var n := |acks| - 1;
      AckedSeqsCount(c, acks[..n], x);
      WireSeqsAre(c, acks[n]);
    }
  }

  ghost predicate AcksKnown(s: State) {
    && s.taken <= |s.enqueued|
    && forall i :: 0 <= i < |s.acks| ==>
         s.acks[i].item in s.enqueued
           && multiset(AckItems(s.acks))[s.acks[i].item] <= multiset(s.enqueued)[s.acks[i].item]
  }

  /** An acked item was enqueued, and no more often than it was acked. */
  lemma AcksAreKnown(s: State)
    requires Custody(s)
    ensures AcksKnown(s)
  {
    forall i | 0 <= i < |s.acks|
      ensures s.acks[i].item in s.enqueued
      ensures multiset(AckItems(s.acks))[s.acks[i].item] <= multiset(s.enqueued)[s.acks[i].item]
    {
      var x := s.acks[i].item;
      assert AckItems(s.acks)[i] == x;
      assert x in multiset(AckItems(s.acks));
      assert CustodyOf(s, x);
      OkHoldersAreHolders(s.workers, x);
      assert s.enqueued == s.enqueued[..s.taken] + s.enqueued[s.taken..];
      assert x in multiset(s.enqueued);
    }
  }

  lemma {:induction false} OkHoldersAreHolders(ws: seq<Phase>, x: Item)
    ensures Holders(ws, true, x) <= Holders(ws, false, x)
  {
    if ws != [] {
      OkHoldersAreHolders(ws[..|ws| - 1], x);
    }
  }

  lemma TwiceCounts(items: seq<Item>, i: nat, j: nat)
    requires i < j < |items| && items[i] == items[j]
    ensures multiset(items)[items[i]] >= 2
  {
    assert items == items[..j] + [items[j]] + items[j + 1..];
    assert items[i] in items[..j];
    assert multiset(items[..j])[items[i]] >= 1;
  }

  lemma AcksDistinct(c: Config, s: State)
    requires c.batch > 0 && Tiling(c, s) && AcksKnown(s)
    ensures DistinctStarts(c.batch, s.acks)
  {
    forall i, j | 0 <= i < j < |s.acks|
      ensures s.acks[i].item.start + c.batch <= s.acks[j].item.start
        || s.acks[j].item.start + c.batch <= s.acks[i].item.start
    {
      var a :| 0 <= a < |s.enqueued| && s.enqueued[a] == s.acks[i].item;
      var b :| 0 <= b < |s.enqueued| && s.enqueued[b] == s.acks[j].item;
      if a == b {
        EnqueuedOnce(c, s, a);
        TwiceCounts(AckItems(s.acks), i, j);
        assert false;
      } else if a < b {
        TimesMonotone(a + 1, b, c.batch);
      } else {
        TimesMonotone(b + 1, a, c.batch);
      }
    }
  }

  /** Acked records that are not in the totals: lost to an exception after the OK, or held by a
      worker between the OK and `record_success`. */
  function Uncounted(c: Config, s: State): nat {
    (|s.lostAcks| + Count(s.workers, KReturnedOk)) * c.batch
  }

  /** Every acked request carried records of its own: no number was acked twice, none beyond what
      was enqueued, and the totals count them all except the uncounted. */
  lemma AckedRecords(c: Config, s: State)
    requires Reachable(c, s)
    ensures var acked := AckedSeqs(s.acks);
      && (forall x :: acked[x] <= 1)
      && (forall x :: x in acked ==> 0 <= x < |s.enqueued| * c.batch)
      && |acked| == s.totals.recordsAccepted + Uncounted(c, s)
  {
    ReachableInv(c, s);
    AcksAreKnown(s);
    AcksDistinct(c, s);
    TimesIsProduct(|s.enqueued|, c.batch);
    forall x ensures AckedSeqs(s.acks)[x] <= 1 && (x in AckedSeqs(s.acks) ==> 0 <= x < |s.enqueued| * c.batch) {
      AckedRange(c, s, x);
    }
    AckedSeqsCount(c, s.acks, 0);
    AckedSum(c, s);
  }

  lemma AckedRange(c: Config, s: State, x: int)
    requires Tiling(c, s) && AcksKnown(s) && DistinctStarts(c.batch, s.acks)
    requires forall i :: 0 <= i < |s.acks| ==> AckCarries(c, s.acks[i])
    ensures AckedSeqs(s.acks)[x] <= 1 && (x in AckedSeqs(s.acks) ==> 0 <= x < Times(|s.enqueued|, c.batch))
  {
    AckedSeqsCount(c, s.acks, x);
    if x in AckedSeqs(s.acks) {
      var i :| 0 <= i < |s.acks| && s.acks[i].item.start <= x < s.acks[i].item.start + c.batch;
      var a :| 0 <= a < |s.enqueued| && s.enqueued[a] == s.acks[i].item;
      TimesMonotone(a + 1, |s.enqueued|, c.batch);
    }
  }

  lemma AckedSum(c: Config, s: State)
    requires Census(s) && Ledger(c, s)
    ensures Times(|s.acks|, c.batch) == s.totals.recordsAccepted + Uncounted(c, s)
  {
    TimesIsProduct(|s.acks|, c.batch);
    TimesIsProduct(|s.accepted|, c.batch);
    Distribute(|s.accepted|, |s.lostAcks| + Count(s.workers, KReturnedOk), 0, 0, c.batch);
  }

  // -- the bound on what waits ---------------------------------------------------------------------

  /** No more than max_inflight entries ever wait, and so no more than that many items are enqueued and
      not yet taken. */
  lemma QueueIsBounded(c: Config, s: State)
    requires Reachable(c, s)
    ensures |s.queue| <= Max(1, c.maxInflight)
    ensures 0 <= |s.enqueued| - s.taken <= |s.queue|
  {
    ReachableInv(c, s);
  }

  /** `put` adds the item if and only if fewer than max_inflight entries wait; otherwise it raises Full
      and the pacer goes back to its guard. */
  lemma PutIff(c: Config, s: State)
    requires c.Valid() && s.pacer.Putting?
    ensures var t, item := PacerStep(c, s, Put), s.pacer.item;
      if |s.queue| < Max(1, c.maxInflight)
      then t.queue == s.queue + [Work(item)] && t.enqueued == s.enqueued + [item] && t.pacer == Enqueued(item)
      else t.queue == s.queue && t.enqueued == s.enqueued && t.pacer == Allocated(item)
  {
  }

  /** What the totals count: whole batches. Every offered batch has its bytes, every accepted request its
      records, and exactly the RESOURCE_EXHAUSTED failures reject theirs. */
  lemma TotalsAreBatches(c: Config, s: State)
    requires Reachable(c, s)
    ensures var n := |s.enqueued| - if s.pacer.Enqueued? then 1 else 0;
            n >= 0 && s.totals.recordsOffered == n * c.batch && s.totals.bytesSent == n * c.nbytes
    ensures s.totals.recordsAccepted == s.totals.requestsSuccess * c.batch
    ensures s.totals.recordsRejected == CodeCount(s.totals, ResourceExhausted) * c.batch
  {
    ReachableInv(c, s);
    var n := |s.enqueued|;
    TimesIsProduct(n, c.batch);
    TimesIsProduct(n, c.nbytes);
    TimesIsProduct(|s.accepted|, c.batch);
    TimesIsProduct(s.totals.failedResourceExhausted, c.batch);
    if s.pacer.Enqueued? {
      assert n > 0;
      assert (n - 1) * c.batch == n * c.batch - c.batch && (n - 1) * c.nbytes == n * c.nbytes - c.nbytes;
    }
  }
}
