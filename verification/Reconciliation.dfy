/** What a PASS of the validator means, and what it depends on. */
module Reconciliation {
  import opened Basics
  import opened Sums
  import opened Validator

  // -- the groups of a GROUP BY ------------------------------------------------------------

  ghost predicate Distinct<T>(xs: seq<T>) {
    forall i, j :: 0 <= i < j < |xs| ==> xs[i] != xs[j]
  }

  lemma {:induction false} GroupsAreTheKeys(keys: seq<Key>)
    ensures Distinct(Groups(keys))
    ensures forall k :: k in Groups(keys) <==> k in keys
  {
    if keys != [] {
      var n := |keys| - 1;
      GroupsAreTheKeys(keys[..n]);
      assert forall k :: k in keys <==> k in keys[..n] || k == keys[n];
    }
  }

  function Total(groups: seq<Key>, keys: seq<Key>): nat {
    if groups == [] then 0 else Occurrences(keys, groups[0]) + Total(groups[1..], keys)
  }

  lemma {:induction false} TotalSnoc(groups: seq<Key>, keys: seq<Key>, k: Key)
    ensures Total(groups, keys + [k]) == Total(groups, keys) + multiset(groups)[k]
  {
    if groups != [] {
      assert groups == [groups[0]] + groups[1..];
      TotalSnoc(groups[1..], keys, k);
    }
  }

  lemma {:induction false} TotalNone(groups: seq<Key>)
    ensures Total(groups, []) == 0
  {
    if groups != [] {
      TotalNone(groups[1..]);
    }
  }

  lemma {:induction false} OnceEach<T>(xs: seq<T>, x: T)
    requires Distinct(xs)
    ensures multiset(xs)[x] == if x in xs then 1 else 0
  {
    if xs != [] {
      assert xs == [xs[0]] + xs[1..];
      OnceEach(xs[1..], x);
    }
  }

  /** The groups partition the rows they group. */
  lemma {:induction false} GroupsCoverAll(groups: seq<Key>, keys: seq<Key>)
    requires Distinct(groups) && forall k :: k in keys ==> k in groups
    ensures Total(groups, keys) == |keys|
  {
    if keys == [] {
      TotalNone(groups);
    } else {
      var n := |keys| - 1;
      GroupsCoverAll(groups, keys[..n]);
      assert keys == keys[..n] + [keys[n]];
      TotalSnoc(groups, keys[..n], keys[n]);
      OnceEach(groups, keys[n]);
    }
  }

  lemma {:induction false} ExcessIsTheRest(groups: seq<Key>, keys: seq<Key>)
    requires forall k :: k in groups ==> k in keys
    ensures Excess(groups, keys) + |groups| == Total(groups, keys)
    ensures DuplicateKeys(groups, keys) == 0 <==> Excess(groups, keys) == 0
    ensures DuplicateKeys(groups, keys) == 0 <==> forall k :: k in groups ==> Occurrences(keys, k) <= 1
  {
    if groups != [] {
      assert groups == [groups[0]] + groups[1..];
      assert groups[0] in keys;
      assert groups[0] in multiset(keys);
      ExcessIsTheRest(groups[1..], keys);
    }
  }

  lemma {:induction false} IdentitySplits(rows: seq<Row>)
    ensures |rows| == |KeysOf(rows)| + MissingIdentity(rows)
    ensures MissingIdentity(rows) >= 0
  {
    if rows != [] {
      IdentitySplits(rows[1..]);
    }
  }

  /** Every landed row is the first of its key, an excess row of its key, or has no identity. */
  lemma {:induction false} LandedSplits(rows: seq<Row>)
    ensures |rows| == |Groups(KeysOf(rows))| + Excess(Groups(KeysOf(rows)), KeysOf(rows)) + MissingIdentity(rows)
    ensures NoDuplicates(rows) <==> forall k :: Occurrences(KeysOf(rows), k) <= 1
    ensures NoDuplicates(rows) <==> Excess(Groups(KeysOf(rows)), KeysOf(rows)) == 0
  {
    var keys := KeysOf(rows);
    IdentitySplits(rows);
    GroupsAreTheKeys(keys);
    GroupsCoverAll(Groups(keys), keys);
    ExcessIsTheRest(Groups(keys), keys);
    if forall k :: k in Groups(keys) ==> Occurrences(keys, k) <= 1 {
      forall k ensures Occurrences(keys, k) <= 1 {
        if k !in keys {
          assert k !in multiset(keys);
        }
      }
    }
  }

  /** The reported number of duplicated keys is the number of keys that more than one row carries. */
  lemma {:induction false} DuplicatesAreCounted(rows: seq<Row>)
    ensures var keys := KeysOf(rows);
      DuplicateKeys(Groups(keys), keys) == |set k | k in keys && multiset(keys)[k] > 1|
  {
    var keys := KeysOf(rows);
    GroupsAreTheKeys(keys);
    RepeatedCount(Groups(keys), keys);
    assert (set k | k in Groups(keys) && multiset(keys)[k] > 1) == set k | k in keys && multiset(keys)[k] > 1;
  }

  lemma {:induction false} RepeatedCount(groups: seq<Key>, keys: seq<Key>)
    requires Distinct(groups)
    ensures DuplicateKeys(groups, keys) == |set k | k in groups && multiset(keys)[k] > 1|
  {
    if groups != [] {
      RepeatedCount(groups[1..], keys);
      var rest := set k | k in groups[1..] && multiset(keys)[k] > 1;
      var all := set k | k in groups && multiset(keys)[k] > 1;
      assert groups[0] !in groups[1..];
      assert all == rest + if multiset(keys)[groups[0]] > 1 then {groups[0]} else {};
    }
  }

  predicate Numbered(r: Row, g: string, n: int) {
    r.genId == Some(g) && r.num == Some(n)
  }

  /** A key is counted once for each row that carries its generator and its number. */
  lemma {:induction false} KeyIsCounted(rows: seq<Row>, g: string, n: int)
    ensures multiset(KeysOf(rows))[Key(g, n)] == |set i | 0 <= i < |rows| && Numbered(rows[i], g, n)|
  {
    if rows != [] {
      var last := |rows| - 1;
      var rest, r := rows[..last], rows[last];
      KeyIsCounted(rest, g, n);
      assert rows == rest + [r];
      KeysSnoc(rest, r);
      NumberedSnoc(rest, r, g, n);
    }
  }

  lemma NumberedSnoc(rows: seq<Row>, r: Row, g: string, n: int)
    ensures |set i | 0 <= i < |rows + [r]| && Numbered((rows + [r])[i], g, n)|
      == |set i | 0 <= i < |rows| && Numbered(rows[i], g, n)| + if Numbered(r, g, n) then 1 else 0
  {
    var a := set i | 0 <= i < |rows| && Numbered(rows[i], g, n);
    var b := set i | 0 <= i < |rows + [r]| && Numbered((rows + [r])[i], g, n);
    assert |rows| !in a;
    assert b == a + if Numbered(r, g, n) then {|rows|} else {};
  }

  lemma {:induction false} KeysSnoc(rows: seq<Row>, r: Row)
    ensures KeysOf(rows + [r]) == KeysOf(rows) + if Identified(r) then [KeyOf(r)] else []
  {
    if rows != [] {
      assert (rows + [r])[1..] == rows[1..] + [r];
      KeysSnoc(rows[1..], r);
    }
  }

  // -- soundness ------------------------------------------------------------------------------------

  /** Every row of the run carries the key of an acked record. */
  ghost predicate OnlyAcked(rows: seq<Row>, acked: set<Key>) {
    forall i :: 0 <= i < |rows| ==> Identified(rows[i]) && KeyOf(rows[i]) in acked
  }

  /** Exactly one row for each acked record and no other. */
  ghost predicate Exact(rows: seq<Row>, acked: set<Key>) {
    MissingIdentity(rows) == 0 && multiset(KeysOf(rows)) == multiset(acked)
  }

  lemma {:induction false} OnlyAckedKeys(rows: seq<Row>, acked: set<Key>)
    requires OnlyAcked(rows, acked)
    ensures MissingIdentity(rows) == 0
    ensures forall k :: k in KeysOf(rows) ==> k in acked
  {
    if rows != [] {
      OnlyAckedKeys(rows[1..], acked);
    }
  }

  function Elements(xs: seq<Key>): set<Key> {
    set x | x in xs
  }

  lemma {:induction false} DistinctSize(xs: seq<Key>)
    requires Distinct(xs)
    ensures |Elements(xs)| == |xs|
  {
    if xs != [] {
      var n := |xs| - 1;
      DistinctSize(xs[..n]);
      assert Elements(xs) == Elements(xs[..n]) + {xs[n]};
    }
  }

  lemma SubsetSize<T>(a: set<T>, b: set<T>)
    requires a <= b
    ensures |b - a| == |b| - |a|
  {
    assert b == (b - a) + a;
  }

  /** count(DISTINCT gen_id, seq) is the number of groups. */
  lemma {:induction false} GroupsCount(keys: seq<Key>)
    ensures |Elements(keys)| == |Groups(keys)|
  {
    GroupsAreTheKeys(keys);
    DistinctSize(Groups(keys));
    assert Elements(Groups(keys)) == Elements(keys);
  }

  /** delta = duplicated rows - lost records. Each alone is caught by the sign of delta; together
      they can cancel, and then the duplicate check sees them. */
  lemma {:induction false} DeltaIsDuplicationMinusLoss(rows: seq<Row>, acked: set<Key>)
    requires OnlyAcked(rows, acked)
    ensures |rows| - |acked| == Excess(Groups(KeysOf(rows)), KeysOf(rows)) - |acked - Elements(KeysOf(rows))|
  {
    LandedSplits(rows);
    OnlyAckedKeys(rows, acked);
    GroupsCount(KeysOf(rows));
    SubsetSize(Elements(KeysOf(rows)), acked);
  }

  lemma {:induction false} MultisetOfDistinct(keys: seq<Key>, acked: set<Key>)
    requires (forall k :: Occurrences(keys, k) <= 1) && Elements(keys) == acked
    ensures multiset(keys) == multiset(acked)
  {
    forall k ensures multiset(keys)[k] == multiset(acked)[k] {
      assert Occurrences(keys, k) <= 1;
      assert k in acked <==> k in Elements(keys);
      assert k in keys <==> k in multiset(keys);
    }
  }

  /** Without duplicates, the landed multiset is exact when the landed keys are the acked ones. */
  lemma {:induction false} ExactWithoutDuplicates(rows: seq<Row>, acked: set<Key>)
    requires MissingIdentity(rows) == 0 && forall k :: Occurrences(KeysOf(rows), k) <= 1
    ensures Exact(rows, acked) <==> Elements(KeysOf(rows)) == acked
  {
    var keys := KeysOf(rows);
    if Elements(keys) == acked {
      MultisetOfDistinct(keys, acked);
    }
    if Exact(rows, acked) {
      forall k ensures k in Elements(keys) <==> k in acked {
        assert k in keys <==> k in multiset(keys);
        assert k in acked <==> k in multiset(acked);
      }
    }
  }

  /** PASS of the row count and the duplicate check is equivalent to "no loss and no duplication". */
  lemma PassIsExact(rows: seq<Row>, m: Manifest, acked: set<Key>)
    requires OnlyAcked(rows, acked) && m.accepted == |acked|
    ensures CountsMatch(rows, m) && NoDuplicates(rows) <==> Exact(rows, acked)
  {
    LandedSplits(rows);
    OnlyAckedKeys(rows, acked);
    DeltaIsDuplicationMinusLoss(rows, acked);
    if NoDuplicates(rows) {
      ExactWithoutDuplicates(rows, acked);
    }
    if Exact(rows, acked) {
      ExactIsClean(rows, acked);
    }
  }

  lemma ExactIsClean(rows: seq<Row>, acked: set<Key>)
    requires Exact(rows, acked)
    ensures NoDuplicates(rows) && |rows| == |acked|
  {
    LandedSplits(rows);
    IdentitySplits(rows);
    assert |multiset(KeysOf(rows))| == |KeysOf(rows)| && |multiset(acked)| == |acked|;
    forall k ensures Occurrences(KeysOf(rows), k) <= 1 {
      assert multiset(acked)[k] <= 1;
    }
  }

  /** Losing k acked rows, with nothing extra, is reported as exactly -k and fails. */
  lemma {:induction false} LossIsReported(rows: seq<Row>, m: Manifest, acked: set<Key>)
    requires OnlyAcked(rows, acked) && m.accepted == |acked| && NoDuplicates(rows)
    ensures |rows| - m.accepted == -|acked - Elements(KeysOf(rows))|
    ensures acked - Elements(KeysOf(rows)) != {} ==> !CountsMatch(rows, m)
  {
    LandedSplits(rows);
    DeltaIsDuplicationMinusLoss(rows, acked);
  }

  lemma {:induction false} OneRow(rows: seq<Row>, k: Key)
    requires |rows| == 1 && Identified(rows[0]) && k == KeyOf(rows[0])
    ensures KeysOf(rows) == [k] && NoDuplicates(rows)
  {
    assert rows[1..] == [];
    assert Groups([k]) == [k] by { assert [k][..0] == []; }
    assert [k][1..] == [];
  }

  /** The premise is needed. A request that timed out but landed is not acked; it can stand in for
      an acked request that was lost, and then all three checks pass on a run that lost data. */
  lemma UnackedRowsCanHideLoss(gid: string, rows: seq<Row>, m: Manifest, acked: set<Key>)
    requires rows == [Row(Some(gid), Some(1), 0, None, None)]
    requires m == Manifest([Generator(Some(gid), 0, 1)], 2, 1, 0) && acked == {Key(gid, 0)}
    ensures CountsMatch(rows, m) && NoDuplicates(rows) && Contiguous(rows, m) && m.accepted == |acked|
    ensures !Exact(rows, acked)
  {
    var k := Key(gid, 1);
    OneRow(rows, k);
    assert SeqsOf(rows, Some(gid)) == {1} by { assert rows[0] in rows; }
    assert k in multiset(KeysOf(rows)) && k !in multiset(acked);
  }

  lemma DifferenceSizes<T>(a: set<T>, b: set<T>)
    ensures |a - b| - |b - a| == |a| - |b|
    ensures a <= b && |a| == |b| ==> a == b
  {
    SubsetSize(a * b, a);
    SubsetSize(a * b, b);
    assert a - a * b == a - b && b - a * b == b - a;
    if a <= b && |a| == |b| {
      assert a - b == {};
      assert |b - a| == 0;
      assert b - a == {};
      assert a == b;
    }
  }

  /** A row without a sequence number is counted, and none of the three checks looks at it. It can
      stand in for a lost record too, when the manifest declares more than one generator. */
  lemma {:induction false} UnidentifiedRowsCanHideLoss(a: string, b: string, rows: seq<Row>, m: Manifest,
                                                       acked: set<Key>)
    requires a != b
    requires rows == [Row(Some(a), Some(0), 0, None, None), Row(Some(b), None, 0, None, None)]
    requires m == Manifest([Generator(Some(a), 0, 1), Generator(Some(b), 0, 1)], 4, 2, 0)
      && acked == {Key(a, 0), Key(b, 0)}
    ensures CountsMatch(rows, m) && NoDuplicates(rows) && Contiguous(rows, m) && m.accepted == |acked|
    ensures Elements(KeysOf(rows)) <= acked && !Exact(rows, acked)
  {
    OneRow(rows[..1], Key(a, 0));
    assert KeysOf(rows[1..]) == [] by { assert rows[1..][1..] == []; }
    assert KeysOf(rows) == [Key(a, 0)];
    assert NoDuplicates(rows) by { assert KeysOf(rows[..1]) == KeysOf(rows); }
    assert Key(b, 0) in multiset(acked) && Key(b, 0) !in multiset(KeysOf(rows));
  }

  /** The general case. Matching counts and no duplicates leave as many acked records lost as there are
      landed keys that were not acked, rows without identity, and acked records missing from the
      manifest's total. So the landed rows are exact if and only if there are none of the three. */
  lemma {:induction false} PassIsExactIff(rows: seq<Row>, m: Manifest, acked: set<Key>)
    requires CountsMatch(rows, m) && NoDuplicates(rows)
    ensures var landed := Elements(KeysOf(rows));
            |acked - landed| == |landed - acked| + MissingIdentity(rows) + (|acked| - m.accepted)
    ensures Exact(rows, acked) <==>
            MissingIdentity(rows) == 0 && Elements(KeysOf(rows)) <= acked && m.accepted == |acked|
  {
    var landed := Elements(KeysOf(rows));
    LandedSplits(rows);
    GroupsCount(KeysOf(rows));
    DifferenceSizes(landed, acked);
    if MissingIdentity(rows) == 0 {
      ExactWithoutDuplicates(rows, acked);
    }
    if Exact(rows, acked) {
      ExactIsClean(rows, acked);
    }
  }

  // -- the entry of one generator ------------------------------------------------------------------

  /** What an entry says: the numbers the manifest declared, the rows and the distinct numbers that landed
      for the generator, and how many declared numbers exceed both what landed and what was never
      acknowledged. */
  lemma EntrySays(rows: seq<Row>, g: Generator, offered: int, accepted: int)
    requires g.genId.Some?
    ensures var e := Entry(rows, g, offered, accepted);
      && e.genId == g.genId && e.expectedMin == g.seqMin && e.expectedMax == g.seqMax
      && e.span == (if g.seqMax < g.seqMin then 0 else g.seqMax - g.seqMin + 1)
      && e.rows == |set i | 0 <= i < |rows| && rows[i].genId == g.genId|
      && e.distinct == |set r | r in rows && r.genId == g.genId && r.num.Some? :: r.num.value|
      && (e.unaccounted == 0 <==> e.span <= e.distinct || e.span - e.distinct <= offered - accepted)
      && (e.unaccounted > 0 ==>
            e.span == e.distinct + e.unaccounted + if accepted < offered then offered - accepted else 0)
  {
    RowsAreCounted(rows, g.genId);
    assert SeqsOf(rows, g.genId) == set r | r in rows && r.genId == g.genId && r.num.Some? :: r.num.value;
  }

  lemma {:induction false} RowsAreCounted(rows: seq<Row>, gid: Option<string>)
    requires gid.Some?
    ensures RowsOf(rows, gid) == |set i | 0 <= i < |rows| && rows[i].genId == gid|
  {
    if rows != [] {
      var last := |rows| - 1;
      RowsAreCounted(rows[..last], gid);
      assert rows == rows[..last] + [rows[last]];
      RowsOfSnoc(rows[..last], rows[last], gid);
      var a := set i | 0 <= i < last && rows[..last][i].genId == gid;
      var b := set i | 0 <= i < |rows| && rows[i].genId == gid;
      assert last !in a;
      assert b == a + if rows[last].genId == gid then {last} else {};
    }
  }

  lemma {:induction false} RowsOfSnoc(rows: seq<Row>, r: Row, gid: Option<string>)
    ensures RowsOf(rows + [r], gid) == RowsOf(rows, gid) + if gid.Some? && r.genId == gid then 1 else 0
  {
    if rows != [] {
      assert (rows + [r])[1..] == rows[1..] + [r];
      RowsOfSnoc(rows[1..], r, gid);
    }
  }
}
