/** What the validator's findings depend on: its own rows, as a multiset. */
module MergeStability {
  import opened Basics
  import opened Sums
  import opened Validator
  import opened Reconciliation

  // -- scoping ---------------------------------------------------------------------------------

  lemma {:induction false} WindowConcat(a: seq<Row>, b: seq<Row>, w: Window)
    ensures WindowRows(a + b, w) == WindowRows(a, w) + WindowRows(b, w)
  {
    if a == [] {
      assert a + b == b;
    } else {
      assert (a + b)[1..] == a[1..] + b;
      WindowConcat(a[1..], b, w);
    }
  }

  lemma {:induction false} RunConcat(a: seq<Row>, b: seq<Row>, ids: set<string>)
    ensures RunRows(a + b, ids) == RunRows(a, ids) + RunRows(b, ids)
  {
    if a == [] {
      assert a + b == b;
    } else {
      assert (a + b)[1..] == a[1..] + b;
      RunConcat(a[1..], b, ids);
    }
  }

  lemma {:induction false} ForeignScope(rows: seq<Row>, w: Window, ids: set<string>)
    requires forall i :: 0 <= i < |rows| ==> !InWindow(rows[i], w) || !Ours(rows[i], ids)
    ensures RunRows(WindowRows(rows, w), ids) == []
  {
    if rows != [] {
      ForeignScope(rows[1..], w, ids);
      if InWindow(rows[0], w) {
        var x := WindowRows(rows, w);
        assert x == [rows[0]] + WindowRows(rows[1..], w);
        assert x[1..] == WindowRows(rows[1..], w) && !Ours(x[0], ids);
      } else {
        assert WindowRows(rows, w) == WindowRows(rows[1..], w);
      }
    }
  }

  /** Outside the window, or of no generator the manifest declares. */
  predicate IsForeign(r: Row, w: Window, m: Manifest) {
    !InWindow(r, w) || r.genId.None? || r.genId.value !in GenIds(m.generators)
  }

  /** Rows outside the window or of undeclared generators change nothing, wherever they lie in the table. */
  lemma ForeignRowsInvisible(before: seq<Row>, foreign: seq<Row>, after: seq<Row>, w: Window, m: Manifest)
    requires GenIds(m.generators) != {}
    requires forall i :: 0 <= i < |foreign| ==> IsForeign(foreign[i], w, m)
    ensures Scope(before + foreign + after, w, m) == Scope(before + after, w, m)
  {
    var ids := GenIds(m.generators);
    WindowConcat(before + foreign, after, w);
    WindowConcat(before, foreign, w);
    WindowConcat(before, after, w);
    RunConcat(WindowRows(before, w) + WindowRows(foreign, w), WindowRows(after, w), ids);
    RunConcat(WindowRows(before, w), WindowRows(foreign, w), ids);
    RunConcat(WindowRows(before, w), WindowRows(after, w), ids);
    ForeignScope(foreign, w, ids);
  }

  lemma ScopePermutes(a: seq<Row>, b: seq<Row>, w: Window, m: Manifest)
    requires multiset(a) == multiset(b)
    ensures multiset(Scope(a, w, m)) == multiset(Scope(b, w, m))
  {
    var ids := GenIds(m.generators);
    forall r ensures multiset(Scope(a, w, m))[r] == multiset(Scope(b, w, m))[r] {
      WindowKeeps(a, w, r);
      WindowKeeps(b, w, r);
      RunKeeps(WindowRows(a, w), ids, r);
      RunKeeps(WindowRows(b, w), ids, r);
    }
  }

  // -- the aggregates ignore the order -------------------------------------------------------------

  lemma {:induction false} KeyCountIsSum(rows: seq<Row>, k: Key, f: Row -> int)
    requires forall r :: f(r) == if Identified(r) && KeyOf(r) == k then 1 else 0
    ensures multiset(KeysOf(rows))[k] == Sum(rows, f)
  {
    if rows != [] {
      KeyCountIsSum(rows[1..], k, f);
    }
  }

  lemma {:induction false} KeysPermute(a: seq<Row>, b: seq<Row>)
    requires multiset(a) == multiset(b)
    ensures multiset(KeysOf(a)) == multiset(KeysOf(b))
  {
    forall k ensures multiset(KeysOf(a))[k] == multiset(KeysOf(b))[k] {
      var f := (r: Row) => if Identified(r) && KeyOf(r) == k then 1 else 0;
      KeyCountIsSum(a, k, f);
      KeyCountIsSum(b, k, f);
      SumPermutation(a, b, f);
    }
  }

  lemma {:induction false} DuplicateKeysIsSum(groups: seq<Key>, keys: seq<Key>, f: Key -> int)
    requires forall k :: f(k) == if Occurrences(keys, k) > 1 then 1 else 0
    ensures DuplicateKeys(groups, keys) == Sum(groups, f)
  {
    if groups != [] {
      DuplicateKeysIsSum(groups[1..], keys, f);
    }
  }

  lemma {:induction false} DuplicatesPermute(a: seq<Key>, b: seq<Key>)
    requires multiset(a) == multiset(b)
    ensures DuplicateKeys(Groups(a), a) == DuplicateKeys(Groups(b), b)
    ensures |Groups(a)| == |Groups(b)|
  {
    GroupsAreTheKeys(a);
    GroupsAreTheKeys(b);
    forall k ensures multiset(Groups(a))[k] == multiset(Groups(b))[k] {
      OnceEach(Groups(a), k);
      OnceEach(Groups(b), k);
      assert k in a <==> k in multiset(a);
      assert k in b <==> k in multiset(b);
    }
    assert multiset(Groups(a)) == multiset(Groups(b));
    var f := (k: Key) => if Occurrences(a, k) > 1 then 1 else 0;
    DuplicateKeysIsSum(Groups(a), a, f);
    DuplicateKeysIsSum(Groups(b), b, f);
    SumPermutation(Groups(a), Groups(b), f);
    assert |multiset(Groups(a))| == |multiset(Groups(b))|;
  }

  lemma {:induction false} RowsOfIsSum(rows: seq<Row>, gid: Option<string>, f: Row -> int)
    requires forall r :: f(r) == if gid.Some? && r.genId == gid then 1 else 0
    ensures RowsOf(rows, gid) == Sum(rows, f)
  {
    if rows != [] {
      RowsOfIsSum(rows[1..], gid, f);
    }
  }

  lemma EntriesPermute(a: seq<Row>, b: seq<Row>, g: Generator, offered: int, accepted: int)
    requires multiset(a) == multiset(b)
    ensures Entry(a, g, offered, accepted) == Entry(b, g, offered, accepted)
  {
    var f := (r: Row) => if g.genId.Some? && r.genId == g.genId then 1 else 0;
    RowsOfIsSum(a, g.genId, f);
    RowsOfIsSum(b, g.genId, f);
    SumPermutation(a, b, f);
    assert forall r :: r in a <==> r in multiset(a);
    assert forall r :: r in b <==> r in multiset(b);
    assert SeqsOf(a, g.genId) == SeqsOf(b, g.genId);
    assert MinSeq(a, g.genId) == MinSeq(b, g.genId) && MaxSeq(a, g.genId) == MaxSeq(b, g.genId);
  }

  /** The findings of `validate` about the rows of the run. */
  ghost predicate SameFindings(a: seq<Row>, b: seq<Row>, m: Manifest, h: Hashes) {
    && |a| == |b|
    && MissingIdentity(a) == MissingIdentity(b)
    && DuplicateKeys(Groups(KeysOf(a)), KeysOf(a)) == DuplicateKeys(Groups(KeysOf(b)), KeysOf(b))
    && Excess(Groups(KeysOf(a)), KeysOf(a)) == Excess(Groups(KeysOf(b)), KeysOf(b))
    && (forall i :: 0 <= i < |m.generators| ==>
          Entry(a, m.generators[i], m.offered, m.accepted) == Entry(b, m.generators[i], m.offered, m.accepted))
    && ChecksumsOf(a, h) == ChecksumsOf(b, h)
  }

  /** A merge that permutes and regroups the rows leaves every count, every check and every checksum
      as they were. */
  lemma MergeChangesNothing(a: seq<Row>, b: seq<Row>, m: Manifest, h: Hashes)
    requires multiset(a) == multiset(b)
    ensures SameFindings(a, b, m, h)
    ensures CountsMatch(a, m) == CountsMatch(b, m)
    ensures NoDuplicates(a) == NoDuplicates(b)
    ensures Contiguous(a, m) == Contiguous(b, m)
  {
    assert |multiset(a)| == |multiset(b)|;
    SumPermutation(a, b, Missing);
    KeysPermute(a, b);
    DuplicatesPermute(KeysOf(a), KeysOf(b));
    LandedSplits(a);
    LandedSplits(b);
    forall i | 0 <= i < |m.generators|
      ensures Entry(a, m.generators[i], m.offered, m.accepted) == Entry(b, m.generators[i], m.offered, m.accepted)
    {
      EntriesPermute(a, b, m.generators[i], m.offered, m.accepted);
    }
    ChecksumsPermute(a, b, h);
    ContiguousByEntries(a, b, m);
  }

  lemma ContiguousByEntries(a: seq<Row>, b: seq<Row>, m: Manifest)
    requires forall i :: 0 <= i < |m.generators| ==>
      Entry(a, m.generators[i], m.offered, m.accepted) == Entry(b, m.generators[i], m.offered, m.accepted)
    ensures Contiguous(a, m) == Contiguous(b, m)
  {
    forall i | 0 <= i < |m.generators|
      ensures Unaccounted(a, m.generators[i], m.offered, m.accepted) ==
        Unaccounted(b, m.generators[i], m.offered, m.accepted)
    {
      assert Entry(a, m.generators[i], m.offered, m.accepted).unaccounted
          == Entry(b, m.generators[i], m.offered, m.accepted).unaccounted;
    }
  }

  lemma ChecksumsPermute(a: seq<Row>, b: seq<Row>, h: Hashes)
    requires multiset(a) == multiset(b)
    ensures ChecksumsOf(a, h) == ChecksumsOf(b, h)
  {
    assert |multiset(a)| == |multiset(b)|;
    SumPermutation(a, b, (r: Row) => h.text(r.genId));
    SumPermutation(a, b, (r: Row) => h.number(r.num));
    SumPermutation(a, b, (r: Row) => h.text(r.body));
    SumPermutation(a, b, (r: Row) => h.text(r.severity));
  }

  /** The verdict is about the run's own rows as a multiset: whatever order a merge leaves them in,
      and whatever foreign traffic shares the table, all findings and all three checks agree. */
  lemma VerdictDependsOnOwnRows(before: seq<Row>, foreign: seq<Row>, after: seq<Row>, merged: seq<Row>,
                                w: Window, m: Manifest, h: Hashes)
    requires GenIds(m.generators) != {}
    requires forall i :: 0 <= i < |foreign| ==> IsForeign(foreign[i], w, m)
    requires multiset(before + after) == multiset(merged)
    ensures var a, b := Scope(before + foreign + after, w, m), Scope(merged, w, m);
      && SameFindings(a, b, m, h)
      && CountsMatch(a, m) == CountsMatch(b, m)
      && NoDuplicates(a) == NoDuplicates(b)
      && Contiguous(a, m) == Contiguous(b, m)
  {
    ForeignRowsInvisible(before, foreign, after, w, m);
    ScopePermutes(before + after, merged, w, m);
    MergeChangesNothing(Scope(before + after, w, m), Scope(merged, w, m), m, h);
  }

  // -- the checksums see a changed value --------------------------------------------------------------

  lemma SumReplace(rows: seq<Row>, i: nat, r: Row, f: Row -> int)
    requires i < |rows|
    ensures Sum(rows[i := r], f) == Sum(rows, f) - f(rows[i]) + f(r)
  {
    var rows' := rows[i := r];
    SumWithout(rows, i, f);
    SumWithout(rows', i, f);
    assert rows'[..i] == rows[..i] && rows'[i + 1..] == rows[i + 1..];
  }

  /** A merge that rewrites one row is reported in exactly the columns whose hash it changed. */
  lemma RewrittenRowIsReported(rows: seq<Row>, i: nat, r: Row, h: Hashes)
    requires i < |rows|
    ensures var d := Differing(Written(ChecksumsOf(rows, h)), Written(ChecksumsOf(rows[i := r], h)));
      && Rows !in d
      && (GenId in d <==> h.text(rows[i].genId) != h.text(r.genId))
      && (Num in d <==> h.number(rows[i].num) != h.number(r.num))
      && (Body in d <==> h.text(rows[i].body) != h.text(r.body))
      && (Severity in d <==> h.text(rows[i].severity) != h.text(r.severity))
  {
    SumReplace(rows, i, r, (r: Row) => h.text(r.genId));
    SumReplace(rows, i, r, (r: Row) => h.number(r.num));
    SumReplace(rows, i, r, (r: Row) => h.text(r.body));
    SumReplace(rows, i, r, (r: Row) => h.text(r.severity));
  }

  /** A baseline without checksums, as a failed query leaves it, compares equal to exactly the result
      that has none either. */
  lemma NothingComparedIsStable(before: Stored, after: Stored)
    requires before == map[]
    ensures Differing(before, after) == [] <==> after == map[]
  {
    DifferingColumns(before, after);
    if k :| k in after {
      assert Get(after, k) == Some(after[k]);
    }
  }

  /** A merge that loses or adds rows is reported in the row count, and one that does neither is not. */
  lemma RowCountIsReported(a: seq<Row>, b: seq<Row>, h: Hashes)
    ensures Rows in Differing(Written(ChecksumsOf(a, h)), Written(ChecksumsOf(b, h))) <==> |a| != |b|
  {
    DifferingColumns(Written(ChecksumsOf(a, h)), Written(ChecksumsOf(b, h)));
  }
}
