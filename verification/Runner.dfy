/** The manifest a run writes (generator/src/main.py), and the verdict it gets: the load engine and
    the validator together. */
module Runner {
  import opened Basics
  import Loadgen
  import Metrics
  import opened LoadgenInvariant
  import opened LoadgenWorkers
  import opened LoadgenPaths
  import opened LoadgenRuns
  import opened LoadgenStop
  import opened Validator
  import opened Reconciliation
  import opened ContiguityCheck

  /** The manifest is assembled from the step results and the snapshot of the totals. */
  function BuildManifest(gid: string, s: Loadgen.State): Manifest {
    var n := |s.steps|;
    Manifest([Generator(Some(gid),
                        if n > 0 then s.steps[0].seqStart else 0,
                        if n > 0 then s.steps[n - 1].seqEnd else -1)],
             s.totals.recordsOffered, s.totals.recordsAccepted, s.totals.recordsRejected)
  }

  lemma {:induction false} ChainStartsAtZero(steps: seq<Loadgen.StepResult>)
    requires Chain(steps) && steps != []
    ensures steps[0].seqStart == 0
  {
    if |steps| > 1 {
      ChainStartsAtZero(steps[..|steps| - 1]);
    } else {
      assert steps[..0] == [];
    }
  }

  /** No step ran, or the last one offered something. */
  predicate LastStepOffered(s: Loadgen.State) {
    s.steps == [] || s.steps[|s.steps| - 1].offered > 0
  }

  /** The declared range is what was offered, or one more when the last step offered nothing. */
  lemma DeclaredSpan(c: Loadgen.Config, s: Loadgen.State, gid: string)
    requires Reachable(c, s) && s.pacer == Loadgen.Finished
    ensures s.totals.recordsOffered == s.nextSeq == EndOf(s.steps)
    ensures s.steps != [] ==> s.steps[0].seqStart == 0
    ensures Span(BuildManifest(gid, s).generators[0]) == s.totals.recordsOffered + (if LastStepOffered(s) then 0 else 1)
  {
    ReachableInv(c, s);
    if s.steps != [] {
      ChainStartsAtZero(s.steps);
    }
  }

  /** What the manifest of a finished run reports: everything enqueued was offered, the requests that
      succeeded were accepted, and those that failed with RESOURCE_EXHAUSTED were rejected. */
  lemma ManifestReports(c: Loadgen.Config, s: Loadgen.State, gid: string)
    requires Reachable(c, s) && s.pacer == Loadgen.Finished
    ensures var m := BuildManifest(gid, s);
      && |m.generators| == 1 && m.generators[0].genId == Some(gid) && m.generators[0].seqMin == 0
      && m.generators[0].seqMax == (if s.steps != [] && !LastStepOffered(s) then m.offered else m.offered - 1)
      && m.offered == |s.enqueued| * c.batch && m.accepted == |s.accepted| * c.batch
      && m.rejected == Metrics.CodeCount(s.totals, Metrics.ResourceExhausted) * c.batch
  {
    ReachableInv(c, s);
    TotalsAreBatches(c, s);
    DeclaredSpan(c, s, gid);
  }

  // -- rows and acks ---------------------------------------------------------------------------

  function Nums(rows: seq<Row>): seq<int> {
    if rows == [] then []
    else (if rows[0].num.Some? then [rows[0].num.value] else []) + Nums(rows[1..])
  }

  /** The lake holds one row for each record of each acked request, and nothing else of this run. */
  ghost predicate LandedAsAcked(rows: seq<Row>, gid: string, acks: seq<Loadgen.Ack>) {
    && (forall i :: 0 <= i < |rows| ==> rows[i].genId == Some(gid) && rows[i].num.Some?)
    && multiset(Nums(rows)) == AckedSeqs(acks)
  }

  lemma {:induction false} NumsAreKeys(rows: seq<Row>, gid: string, k: Key)
    requires forall i :: 0 <= i < |rows| ==> rows[i].genId == Some(gid) && rows[i].num.Some?
    ensures |Nums(rows)| == |rows| && MissingIdentity(rows) == 0
    ensures Occurrences(KeysOf(rows), k) == if k.gen == gid then multiset(Nums(rows))[k.num] else 0
  {
    if rows != [] {
      NumsAreKeys(rows[1..], gid, k);
    }
  }

  lemma {:induction false} AllRowsAreOurs(rows: seq<Row>, gid: string)
    requires forall i :: 0 <= i < |rows| ==> rows[i].genId == Some(gid)
    ensures RowsOf(rows, Some(gid)) == |rows|
  {
    if rows != [] {
      AllRowsAreOurs(rows[1..], gid);
    }
  }

  // -- the verdict -----------------------------------------------------------------------------

  predicate Passes(rows: seq<Row>, m: Manifest) {
    CountsMatch(rows, m) && NoDuplicates(rows) && Contiguous(rows, m)
  }

  /** No ack is missing from the totals: none was lost to an exception after the OK, and no worker
      is between the OK and `record_success`. */
  predicate AcksCounted(s: Loadgen.State) {
    |s.lostAcks| == 0 && Count(s.workers, KReturnedOk) == 0
  }

  /** No false alarm, and exactly when there is one. For every schedule of the threads and every
      outcome of every RPC, if the lake holds the acked records and nothing else, the verdict is
      PASS if and only if all acks were counted and the last step offered at least one batch.
      The second condition is a defect: a step that offers nothing still declares one number. */
  lemma CleanRunVerdict(c: Loadgen.Config, s: Loadgen.State, gid: string, rows: seq<Row>)
    requires Reachable(c, s) && s.pacer == Loadgen.Finished
    requires LandedAsAcked(rows, gid, s.acks)
    ensures Passes(rows, BuildManifest(gid, s)) <==> AcksCounted(s) && LastStepOffered(s)
  {
    AckedRecords(c, s);
    DeclaredSpan(c, s, gid);
    AcceptedWithinOffered(c, s);
    UncountedIsZero(c, s);
    CleanRows(rows, gid, AckedSeqs(s.acks));
    VerdictOf(rows, BuildManifest(gid, s), gid, Uncounted(c, s), LastStepOffered(s));
  }

  lemma VerdictOf(rows: seq<Row>, m: Manifest, gid: string, extra: int, lastOffered: bool)
    requires |m.generators| == 1 && m.generators[0].genId == Some(gid)
    requires |rows| == m.accepted + extra && DistinctOf(rows, Some(gid)) == |rows| && NoDuplicates(rows)
    requires Span(m.generators[0]) == m.offered + (if lastOffered then 0 else 1) && m.accepted <= m.offered
    ensures Passes(rows, m) <==> extra == 0 && lastOffered
  {
    assert Unaccounted(rows, m.generators[0], m.offered, m.accepted)
        == Max(0, Span(m.generators[0]) - |rows| - (m.offered - m.accepted));
  }

  lemma {:induction false} CleanRows(rows: seq<Row>, gid: string, acked: multiset<int>)
    requires forall i :: 0 <= i < |rows| ==> rows[i].genId == Some(gid) && rows[i].num.Some?
    requires multiset(Nums(rows)) == acked && forall x :: acked[x] <= 1
    ensures |rows| == |acked| && NoDuplicates(rows)
    ensures DistinctOf(rows, Some(gid)) == |rows|
  {
    NumsAreKeys(rows, gid, Key(gid, 0));
    assert |multiset(Nums(rows))| == |Nums(rows)|;
    LandedSplits(rows);
    forall k ensures Occurrences(KeysOf(rows), k) <= 1 {
      NumsAreKeys(rows, gid, k);
    }
    AllRowsAreOurs(rows, gid);
    RowsAreDistinct(rows, Some(gid));
  }

  lemma UncountedIsZero(c: Loadgen.Config, s: Loadgen.State)
    requires Reachable(c, s)
    ensures Uncounted(c, s) == 0 <==> AcksCounted(s)
  {
    var n := |s.lostAcks| + Count(s.workers, KReturnedOk);
    TimesIsProduct(n, c.batch);
    assert n > 0 ==> Times(n, c.batch) > 0;
  }

  lemma AcceptedWithinOffered(c: Loadgen.Config, s: Loadgen.State)
    requires Reachable(c, s) && !s.pacer.Enqueued?
    ensures s.totals.recordsAccepted <= s.totals.recordsOffered
  {
    ReachableInv(c, s);
    WithinOffered(c, s);
  }

  lemma WithinOffered(c: Loadgen.Config, s: Loadgen.State)
    requires QueueOrder(c, s) && Census(s) && Ledger(c, s) && !s.pacer.Enqueued?
    ensures s.totals.recordsAccepted <= s.totals.recordsOffered
  {
    TimesMonotone(|s.accepted|, |s.enqueued|, c.batch);
  }

  /** The keys of the acked records. */
  ghost function AckedKeys(gid: string, acks: seq<Loadgen.Ack>): set<Key> {
    set x | x in AckedSeqs(acks) :: Key(gid, x)
  }

  lemma AckedKeysSize(gid: string, acked: multiset<int>, keys: set<Key>)
    requires forall x :: acked[x] <= 1
    requires keys == set x | x in acked :: Key(gid, x)
    ensures |keys| == |acked|
    decreases |acked|
  {
    if x :| x in acked {
      var rest := acked - multiset{x};
      assert |acked| == |rest| + 1;
      AckedKeysSize(gid, rest, keys - {Key(gid, x)});
    } else {
      forall x ensures acked[x] == 0 {
        assert x !in acked;
      }
      assert acked == multiset{};
    }
  }

  lemma {:induction false} SeqsAtMost(rows: seq<Row>, gid: string)
    ensures DistinctOf(rows, Some(gid)) <= |KeysOf(rows)|
  {
    if rows != [] {
      SeqsAtMost(rows[1..], gid);
      var rest := SeqsOf(rows[1..], Some(gid));
      if rows[0].genId == Some(gid) && rows[0].num.Some? {
        assert SeqsOf(rows, Some(gid)) == rest + {rows[0].num.value};
      } else {
        assert SeqsOf(rows, Some(gid)) == rest;
      }
    }
  }

  /** With one generator a PASS leaves no room: no number is declared beyond what was offered, and no
      row lacks its identity. */
  lemma PassLeavesNoRoom(rows: seq<Row>, m: Manifest, gid: string, lastOffered: bool)
    requires |m.generators| == 1 && m.generators[0].genId == Some(gid) && m.accepted <= m.offered
    requires Span(m.generators[0]) == m.offered + (if lastOffered then 0 else 1)
    requires Passes(rows, m)
    ensures lastOffered && MissingIdentity(rows) == 0
  {
    SeqsAtMost(rows, gid);
    IdentitySplits(rows);
    assert Unaccounted(rows, m.generators[0], m.offered, m.accepted) == 0;
  }

  /** What a PASS means, for any lake whatsoever. As many acked records are lost as there are landed
      keys that were not acked and acks missing from the totals; every landed row has an identity,
      and the last step offered something. So after a PASS each acked record landed exactly once, and
      nothing else did, if and only if nothing unacked landed and every ack was counted. */
  lemma {:induction false} PassMeansExactlyOnce(c: Loadgen.Config, s: Loadgen.State, gid: string, rows: seq<Row>)
    requires Reachable(c, s) && s.pacer == Loadgen.Finished
    requires Passes(rows, BuildManifest(gid, s))
    ensures LastStepOffered(s) && MissingIdentity(rows) == 0
    ensures var acked, landed := AckedKeys(gid, s.acks), Elements(KeysOf(rows));
      && |acked - landed| == |landed - acked| + Uncounted(c, s)
      && (Exact(rows, acked) <==> landed <= acked && AcksCounted(s))
  {
    var m := BuildManifest(gid, s);
    AckedRecords(c, s);
    UncountedIsZero(c, s);
    AckedKeysSize(gid, AckedSeqs(s.acks), AckedKeys(gid, s.acks));
    DeclaredSpan(c, s, gid);
    AcceptedWithinOffered(c, s);
    PassLeavesNoRoom(rows, m, gid, LastStepOffered(s));
    PassIsExactIff(rows, m, AckedKeys(gid, s.acks));
  }

  /** The other direction: an exact lake passes if every ack was counted and the last step offered
      something, and only then. */
  lemma ExactPasses(c: Loadgen.Config, s: Loadgen.State, gid: string, rows: seq<Row>)
    requires Reachable(c, s) && s.pacer == Loadgen.Finished && Exact(rows, AckedKeys(gid, s.acks))
    ensures Passes(rows, BuildManifest(gid, s)) <==> AcksCounted(s) && LastStepOffered(s)
  {
    AckedRecords(c, s);
    ExactIsLanded(rows, gid, s.acks);
    CleanRunVerdict(c, s, gid, rows);
  }

  lemma {:induction false} IdentifiedKeys(rows: seq<Row>)
    requires MissingIdentity(rows) == 0
    ensures forall i :: 0 <= i < |rows| ==> Identified(rows[i]) && KeyOf(rows[i]) in KeysOf(rows)
  {
    if rows != [] {
      IdentitySplits(rows[1..]);
      IdentifiedKeys(rows[1..]);
      forall i | 0 <= i < |rows| ensures Identified(rows[i]) && KeyOf(rows[i]) in KeysOf(rows) {
        if i > 0 {
          assert rows[1..][i - 1] == rows[i];
        }
      }
    }
  }

  lemma {:induction false} ExactIsLanded(rows: seq<Row>, gid: string, acks: seq<Loadgen.Ack>)
    requires Exact(rows, AckedKeys(gid, acks))
    requires forall x :: AckedSeqs(acks)[x] <= 1
    ensures LandedAsAcked(rows, gid, acks)
  {
    var acked := AckedKeys(gid, acks);
    IdentifiedKeys(rows);
    forall i | 0 <= i < |rows| ensures rows[i].genId == Some(gid) && rows[i].num.Some? {
      assert KeyOf(rows[i]) in multiset(KeysOf(rows));
      assert KeyOf(rows[i]) in multiset(acked);
      assert KeyOf(rows[i]) in acked;
    }
    forall x ensures multiset(Nums(rows))[x] == AckedSeqs(acks)[x] {
      NumsAreKeys(rows, gid, Key(gid, x));
      assert Key(gid, x) in acked <==> x in AckedSeqs(acks);
    }
  }

  // -- aborts ------------------------------------------------------------------------------------

  /** The abort sets the stop flag. */
  lemma AbortStops(c: Loadgen.Config, s: Loadgen.State)
    requires Reachable(c, s) && s.aborted
    ensures s.stop
  {
    ReachableInv(c, s);
  }

  /** A run that begins another step with the stop flag set declares one number too many, and fails
      although exactly the acked records landed. The step loop looks for an interrupt and for its
      `stop_when` rules, not for the flag, so an abort before the last step ends like this. */
  lemma StoppedRunFails(c: Loadgen.Config, s: Loadgen.State, acts: seq<Loadgen.Action>, t: Loadgen.State, gid: string,
                        rows: seq<Row>)
    requires Reachable(c, s) && s.pacer == Loadgen.Between && s.stop
    requires Path(c, s, acts, t) && t.pacer == Loadgen.Finished && |t.steps| > |s.steps|
    requires LandedAsAcked(rows, gid, t.acks)
    ensures Span(BuildManifest(gid, t).generators[0]) == t.totals.recordsOffered + 1
    ensures !Passes(rows, BuildManifest(gid, t))
  {
    PathReachable(c, s, acts, t);
    NoOpenStep(c, s);
    StoppedStepsAreEmpty(c, s, acts, t);
    DeclaredSpan(c, t, gid);
    CleanRunVerdict(c, t, gid, rows);
  }

  lemma NoOpenStep(c: Loadgen.Config, s: Loadgen.State)
    requires Reachable(c, s) && s.pacer == Loadgen.Between
    ensures s.open == []
  {
    ReachableInv(c, s);
  }

  // -- the pipeline ------------------------------------------------------------------------------

  lemma {:induction false} ScopeIsOurs(rows: seq<Row>, gid: string)
    ensures forall i :: 0 <= i < |RunRows(rows, {gid})| ==> RunRows(rows, {gid})[i].genId == Some(gid)
  {
    if rows != [] {
      ScopeIsOurs(rows[1..], gid);
    }
  }

  /** Write the manifest of a finished run and validate the table against it. */
  method ReconcileRun(ghost c: Loadgen.Config, s: Loadgen.State, gid: string, table: seq<Row>, w: Window,
                      h: Option<Hashes>)
    returns (r: Report)
    requires Reachable(c, s) && s.pacer == Loadgen.Finished && gid != ""
    requires LandedAsAcked(Scope(table, w, BuildManifest(gid, s)), gid, s.acks)
    ensures r.Pass() <==> AcksCounted(s) && LastStepOffered(s)
    ensures r.delta == 0 <==> AcksCounted(s)
    ensures r.duplicateKeys == 0
  {
    var m := BuildManifest(gid, s);
    r := Validate(table, w, m, h);
    CleanRunVerdict(c, s, gid, Scope(table, w, m));
    AckedRecords(c, s);
    UncountedIsZero(c, s);
    CleanRows(Scope(table, w, m), gid, AckedSeqs(s.acks));
  }
}
