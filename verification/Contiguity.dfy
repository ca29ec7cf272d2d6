/** The per-generator contiguity check follows from the other two. */
module ContiguityCheck {
  import opened Basics
  import opened Validator
  import opened Reconciliation

  function SpanTotal(gens: seq<Generator>): nat {
    if gens == [] then 0 else Span(gens[0]) + SpanTotal(gens[1..])
  }

  function RowsTotal(gens: seq<Generator>, rows: seq<Row>): nat {
    if gens == [] then 0 else RowsOf(rows, gens[0].genId) + RowsTotal(gens[1..], rows)
  }

  function IdCount(gens: seq<Generator>, id: Option<string>): nat {
    if gens == [] then 0 else (if gens[0].genId == id then 1 else 0) + IdCount(gens[1..], id)
  }

  ghost predicate DistinctIds(gens: seq<Generator>) {
    && (forall i :: 0 <= i < |gens| ==> gens[i].genId.Some?)
    && (forall i, j :: 0 <= i < j < |gens| ==> gens[i].genId != gens[j].genId)
  }

  /** Every row has an identity inside a declared range. */
  ghost predicate WithinDeclared(rows: seq<Row>, gens: seq<Generator>) {
    forall i :: 0 <= i < |rows| ==> Identified(rows[i]) && DeclaredRange(rows[i], gens)
  }

  ghost predicate DeclaredRange(r: Row, gens: seq<Generator>)
    requires Identified(r)
  {
    exists j :: 0 <= j < |gens| && gens[j].genId == r.genId && gens[j].seqMin <= r.num.value <= gens[j].seqMax
  }

  lemma {:induction false} RowsTotalStep(gens: seq<Generator>, rows: seq<Row>)
    requires rows != [] && forall i :: 0 <= i < |gens| ==> gens[i].genId.Some?
    ensures RowsTotal(gens, rows) == RowsTotal(gens, rows[1..]) + IdCount(gens, rows[0].genId)
  {
    if gens != [] {
      RowsTotalStep(gens[1..], rows);
    }
  }

  lemma {:induction false} NoRows(gens: seq<Generator>)
    ensures RowsTotal(gens, []) == 0
  {
    if gens != [] {
      NoRows(gens[1..]);
    }
  }

  lemma {:induction false} IdOnce(gens: seq<Generator>, id: Option<string>)
    requires forall i, j :: 0 <= i < j < |gens| ==> gens[i].genId != gens[j].genId
    ensures IdCount(gens, id) == if exists i :: 0 <= i < |gens| && gens[i].genId == id then 1 else 0
  {
    if gens != [] {
      IdOnce(gens[1..], id);
      if i :| 0 <= i < |gens| && gens[i].genId == id {
        if i > 0 {
          assert gens[1..][i - 1].genId == id;
        }
      }
    }
  }

  /** The generators partition the rows. */
  lemma {:induction false} RowsPartition(gens: seq<Generator>, rows: seq<Row>)
    requires DistinctIds(gens) && WithinDeclared(rows, gens)
    ensures RowsTotal(gens, rows) == |rows|
  {
    if rows == [] {
      NoRows(gens);
    } else {
      assert forall i :: 0 <= i < |rows[1..]| ==> rows[1..][i] == rows[i + 1];
      RowsPartition(gens, rows[1..]);
      RowsTotalStep(gens, rows);
      assert DeclaredRange(rows[0], gens);
      IdOnce(gens, rows[0].genId);
    }
  }

  /** Without duplicates, one generator has as many distinct numbers as rows. */
  lemma {:induction false} RowsAreDistinct(rows: seq<Row>, gid: Option<string>)
    requires gid.Some? && forall i :: 0 <= i < |rows| ==> Identified(rows[i])
    requires forall k :: Occurrences(KeysOf(rows), k) <= 1
    ensures DistinctOf(rows, gid) == RowsOf(rows, gid)
  {
    if rows == [] {
      assert SeqsOf(rows, gid) == {};
    } else {
      var r := rows[0];
      assert KeysOf(rows) == [KeyOf(r)] + KeysOf(rows[1..]);
      forall k ensures Occurrences(KeysOf(rows[1..]), k) <= 1 {
        assert Occurrences(KeysOf(rows), k) <= 1;
      }
      RowsAreDistinct(rows[1..], gid);
      assert rows == [r] + rows[1..];
      if r.genId == gid {
        assert SeqsOf(rows, gid) == SeqsOf(rows[1..], gid) + {r.num.value};
        if r.num.value in SeqsOf(rows[1..], gid) {
          var r' :| r' in rows[1..] && r'.genId == gid && r'.num == r.num;
          RepeatedKey(rows, r');
        }
      } else {
        assert SeqsOf(rows, gid) == SeqsOf(rows[1..], gid);
      }
    }
  }

  lemma {:induction false} RepeatedKey(rows: seq<Row>, r: Row)
    requires rows != [] && Identified(rows[0]) && r in rows[1..] && Identified(r) && KeyOf(r) == KeyOf(rows[0])
    ensures Occurrences(KeysOf(rows), KeyOf(r)) >= 2
  {
    KeyPresent(rows[1..], r);
    assert KeysOf(rows) == [KeyOf(r)] + KeysOf(rows[1..]);
    assert KeyOf(r) in multiset(KeysOf(rows[1..]));
  }

  lemma {:induction false} KeyPresent(rows: seq<Row>, r: Row)
    requires r in rows && Identified(r)
    ensures KeyOf(r) in KeysOf(rows)
  {
    if rows[0] != r {
      KeyPresent(rows[1..], r);
    }
  }

  lemma {:induction false} RangeSize(s: set<int>, lo: int, hi: int)
    requires forall x :: x in s ==> lo <= x <= hi
    ensures |s| <= Max(0, hi - lo + 1)
    decreases hi - lo + 1
  {
    if hi < lo {
      assert s == {};
    } else {
      RangeSize(s - {hi}, lo, hi - 1);
    }
  }

  lemma DistinctFits(rows: seq<Row>, gens: seq<Generator>, i: nat)
    requires DistinctIds(gens) && WithinDeclared(rows, gens) && i < |gens|
    ensures DistinctOf(rows, gens[i].genId) <= Span(gens[i])
  {
    var g := gens[i];
    forall x | x in SeqsOf(rows, g.genId) ensures g.seqMin <= x <= g.seqMax {
      var r :| r in rows && r.genId == g.genId && r.num == Some(x);
      var n :| 0 <= n < |rows| && rows[n] == r;
      assert DeclaredRange(rows[n], gens);
    }
    RangeSize(SeqsOf(rows, g.genId), g.seqMin, g.seqMax);
  }

  /** The gap of one generator is no larger than the gaps of all. */
  lemma {:induction false} OneGap(gens: seq<Generator>, rows: seq<Row>, i: nat)
    requires i < |gens| && forall j :: 0 <= j < |gens| ==> RowsOf(rows, gens[j].genId) <= Span(gens[j])
    ensures Span(gens[i]) - RowsOf(rows, gens[i].genId) <= SpanTotal(gens) - RowsTotal(gens, rows)
  {
    if i == 0 {
      GapsAreGaps(gens[1..], rows);
    } else {
      OneGap(gens[1..], rows, i - 1);
    }
  }

  lemma {:induction false} GapsAreGaps(gens: seq<Generator>, rows: seq<Row>)
    requires forall j :: 0 <= j < |gens| ==> RowsOf(rows, gens[j].genId) <= Span(gens[j])
    ensures RowsTotal(gens, rows) <= SpanTotal(gens)
  {
    if gens != [] {
      GapsAreGaps(gens[1..], rows);
    }
  }

  /** For any number of generators: when the declared spans add up to what was offered, matching
      counts and unique keys leave no generator with an unexplained gap, although the unacked
      budget is global and each generator may use all of it. */
  lemma ContiguityFollows(rows: seq<Row>, m: Manifest)
    requires DistinctIds(m.generators) && WithinDeclared(rows, m.generators)
    requires SpanTotal(m.generators) == m.offered
    requires CountsMatch(rows, m) && NoDuplicates(rows)
    ensures Contiguous(rows, m)
  {
    var gens := m.generators;
    LandedSplits(rows);
    RowsPartition(gens, rows);
    forall j | 0 <= j < |gens| ensures RowsOf(rows, gens[j].genId) == DistinctOf(rows, gens[j].genId) <= Span(gens[j]) {
      RowsAreDistinct(rows, gens[j].genId);
      DistinctFits(rows, gens, j);
    }
    forall i | 0 <= i < |gens| ensures Unaccounted(rows, gens[i], m.offered, m.accepted) == 0 {
      OneGap(gens, rows, i);
    }
  }
}
