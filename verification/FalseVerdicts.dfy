/** Runs that every engine with a worker has, and that get the wrong verdict. */
module FalseVerdicts {
  import opened Basics
  import opened Metrics
  import opened Payload
  import L = Loadgen
  import opened LoadgenInvariant
  import opened LoadgenWorkers
  import opened LoadgenPaths
  import opened LoadgenRuns
  import opened LoadgenWitness
  import opened Validator
  import opened Reconciliation
  import opened Runner

  // -- lakes ----------------------------------------------------------------------------------

  /** One row for each number. */
  function RowsFor(gid: string, nums: seq<int>): seq<Row> {
    seq(|nums|, i requires 0 <= i < |nums| => Row(Some(gid), Some(nums[i]), 0, None, None))
  }

  lemma {:induction false} NumsOfRows(gid: string, nums: seq<int>)
    ensures Nums(RowsFor(gid, nums)) == nums
  {
    if nums != [] {
      NumsOfRows(gid, nums[1..]);
      assert RowsFor(gid, nums)[1..] == RowsFor(gid, nums[1..]);
      assert nums == [nums[0]] + nums[1..];
    }
  }

  function AllSeqs(acks: seq<L.Ack>): seq<int> {
    if acks == [] then [] else AllSeqs(acks[..|acks| - 1]) + WireSeqs(acks[|acks| - 1].wire)
  }

  lemma {:induction false} AllSeqsAre(acks: seq<L.Ack>)
    ensures multiset(AllSeqs(acks)) == AckedSeqs(acks)
  {
    if acks != [] {
      AllSeqsAre(acks[..|acks| - 1]);
    }
  }

  /** The lake that holds exactly the acknowledged records. */
  function ExactLake(gid: string, acks: seq<L.Ack>): seq<Row> {
    RowsFor(gid, AllSeqs(acks))
  }

  lemma ExactLakeLanded(gid: string, acks: seq<L.Ack>)
    ensures LandedAsAcked(ExactLake(gid, acks), gid, acks)
  {
    NumsOfRows(gid, AllSeqs(acks));
    AllSeqsAre(acks);
  }

  lemma NoneReturned(c: L.Config, s: L.State)
    requires forall w :: 0 <= w < |s.workers| ==> s.workers[w] == L.Idle
    ensures Count(s.workers, KReturnedOk) == 0
  {
    CountNone(s.workers, KReturnedOk);
  }

  // -- false alarms ---------------------------------------------------------------------------------

  /** A clean run whose last step offers nothing: one batch is acknowledged and counted, exactly its
      records land, and the verdict is FAIL. */
  lemma EmptyLastStepFails(c: L.Config, pool: seq<seq<Slot>>, zero: Totals, gid: string) returns (t: L.State)
    requires c.Valid() && c.workers > 0 && L.PoolShape(c, pool) && IsZero(zero)
    ensures Reachable(c, t) && t.pacer == L.Finished && AcksCounted(t) && |t.acks| == 1 && |t.steps| == 2
    ensures LandedAsAcked(ExactLake(gid, t.acks), gid, t.acks)
    ensures !Passes(ExactLake(gid, t.acks), BuildManifest(gid, t))
  {
    var s := L.Init(c, pool, zero);
    InitialCalm(c, pool, zero);
    var acts0, u := CleanStep(c, s);
    PathReachable(c, s, acts0, u);
    var acts1, v := EmptyStep(c, u);
    PathReachable(c, u, acts1, v);
    var acts2;
    acts2, t := Ends(c, v);
    PathReachable(c, v, acts2, t);
    NoneReturned(c, t);
    ExactLakeLanded(gid, t.acks);
    CleanRunVerdict(c, t, gid, ExactLake(gid, t.acks));
  }

  /** A worker dies between the OK and `record_success`: exactly the acknowledged records land, and the
      verdict is FAIL. */
  lemma LostAckFails(c: L.Config, pool: seq<seq<Slot>>, zero: Totals, gid: string) returns (t: L.State)
    requires c.Valid() && c.workers > 0 && L.PoolShape(c, pool) && IsZero(zero)
    ensures Reachable(c, t) && t.pacer == L.Finished && LastStepOffered(t) && |t.acks| == 1 && |t.lostAcks| == 1
    ensures LandedAsAcked(ExactLake(gid, t.acks), gid, t.acks)
    ensures !Passes(ExactLake(gid, t.acks), BuildManifest(gid, t))
  {
    var s := L.Init(c, pool, zero);
    InitialCalm(c, pool, zero);
    var acts0, u := LossyStep(c, s);
    PathReachable(c, s, acts0, u);
    var acts1;
    acts1, t := Ends(c, u);
    PathReachable(c, u, acts1, t);
    ExactLakeLanded(gid, t.acks);
    CleanRunVerdict(c, t, gid, ExactLake(gid, t.acks));
  }

  // -- hidden loss ----------------------------------------------------------------------------------

  /** One batch is acknowledged and counted and lost from the lake; the ack of another is lost to an
      exception, and its records land. Nothing unacknowledged landed, the verdict is PASS, and an
      acknowledged batch is gone. */
  lemma LostAckHidesLoss(c: L.Config, pool: seq<seq<Slot>>, zero: Totals, gid: string)
    returns (t: L.State, rows: seq<Row>)
    requires c.Valid() && c.workers > 0 && L.PoolShape(c, pool) && IsZero(zero)
    ensures Reachable(c, t) && t.pacer == L.Finished && |t.acks| == 2
    ensures OnlyAcked(rows, AckedKeys(gid, t.acks))
    ensures Passes(rows, BuildManifest(gid, t)) && !Exact(rows, AckedKeys(gid, t.acks))
  {
    var s := L.Init(c, pool, zero);
    InitialCalm(c, pool, zero);
    var acts0, u := CleanStep(c, s);
    PathReachable(c, s, acts0, u);
    var acts1, v := LossyStep(c, u);
    PathReachable(c, u, acts1, v);
    var acts2;
    acts2, t := Ends(c, v);
    PathReachable(c, v, acts2, t);
    rows := RowsFor(gid, WireSeqs(t.acks[1].wire));
    SecondBatchPasses(c, t, gid, rows);
  }

  /** With one batch counted and two acknowledged, the rows of the second are enough. */
  lemma SecondBatchPasses(c: L.Config, t: L.State, gid: string, rows: seq<Row>)
    requires Reachable(c, t) && t.pacer == L.Finished && LastStepOffered(t)
    requires |t.acks| == 2 && |t.accepted| == 1 && |t.lostAcks| == 1
    requires rows == RowsFor(gid, WireSeqs(t.acks[1].wire))
    ensures OnlyAcked(rows, AckedKeys(gid, t.acks))
    ensures Passes(rows, BuildManifest(gid, t)) && !Exact(rows, AckedKeys(gid, t.acks))
  {
    var nums := WireSeqs(t.acks[1].wire);
    var acked := AckedSeqs(t.acks);
    AckedRecords(c, t);
    OneBatchAccepted(c, t);
    assert AckedSeqs(t.acks) == AckedSeqs(t.acks[..1]) + multiset(nums);
    NumsOfRows(gid, nums);
    forall x ensures multiset(nums)[x] <= 1 {
      assert acked[x] <= 1;
    }
    CleanRows(rows, gid, multiset(nums));
    forall i | 0 <= i < |rows| ensures KeyOf(rows[i]) in AckedKeys(gid, t.acks) {
      assert nums[i] in multiset(nums);
      assert nums[i] in acked;
    }
    DeclaredSpan(c, t, gid);
    AcceptedWithinOffered(c, t);
    VerdictOf(rows, BuildManifest(gid, t), gid, 0, true);
    PassMeansExactlyOnce(c, t, gid, rows);
  }

  /** The totals and every request hold one batch. */
  lemma OneBatchAccepted(c: L.Config, t: L.State)
    requires Reachable(c, t) && |t.acks| == 2 && |t.accepted| == 1
    ensures t.totals.recordsAccepted == c.batch && |t.acks[1].wire| == c.batch
  {
    ReachableInv(c, t);
    TimesIsProduct(|t.accepted|, c.batch);
    assert AckCarries(c, t.acks[1]);
  }
}
