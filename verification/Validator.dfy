/** Reconciling landed rows with the manifest (bench/validate_correctness.py). A table is the
    sequence of its rows in scan order; each SQL query is a fold over it. */
module Validator {
  import opened Basics
  import opened Sums

  datatype Key = Key(gen: string, num: int)

  /** A row as `window_rows` selects it; NULLs are None. */
  datatype Row = Row(genId: Option<string>, num: Option<int>, timestamp: int, severity: Option<string>,
                     body: Option<string>)

  datatype Generator = Generator(genId: Option<string>, seqMin: int, seqMax: int)

  datatype Manifest = Manifest(generators: seq<Generator>, offered: int, accepted: int, rejected: int)

  datatype Window = Window(start: int, end: int)

  // -- build_view -------------------------------------------------------------------------

  predicate InWindow(r: Row, w: Window) {
    w.start <= r.timestamp <= w.end
  }

  function WindowRows(table: seq<Row>, w: Window): seq<Row> {
    if table == [] then []
    else (if InWindow(table[0], w) then [table[0]] else []) + WindowRows(table[1..], w)
  }

  /** The ids the manifest declares; missing and empty ones are skipped. */
  function GenIds(gens: seq<Generator>): set<string> {
    set g | g in gens && g.genId.Some? && g.genId.value != "" :: g.genId.value
  }

  /** `gen_id IN (...)`, or TRUE when the manifest declares no generator. */
  predicate Ours(r: Row, ids: set<string>) {
    ids == {} || (r.genId.Some? && r.genId.value in ids)
  }

  function RunRows(rows: seq<Row>, ids: set<string>): seq<Row> {
    if rows == [] then []
    else (if Ours(rows[0], ids) then [rows[0]] else []) + RunRows(rows[1..], ids)
  }

  // -- the aggregates -----------------------------------------------------------------------

  predicate Identified(r: Row) {
    r.genId.Some? && r.num.Some?
  }

  function KeyOf(r: Row): Key
    requires Identified(r)
  {
    Key(r.genId.value, r.num.value)
  }

  /** The (gen_id, seq) of the rows that have both, in scan order. */
  function KeysOf(rows: seq<Row>): seq<Key> {
    if rows == [] then []
    else (if Identified(rows[0]) then [KeyOf(rows[0])] else []) + KeysOf(rows[1..])
  }

  function Missing(r: Row): int {
    if Identified(r) then 0 else 1
  }

  function MissingIdentity(rows: seq<Row>): int {
    Sum(rows, Missing)
  }

  function Occurrences(keys: seq<Key>, k: Key): nat {
    multiset(keys)[k]
  }

  /** GROUP BY gen_id, seq: one entry for each key, at its first occurrence. */
  function Groups(keys: seq<Key>): seq<Key> {
    if keys == [] then [] else
      var n := |keys| - 1;
      var g := Groups(keys[..n]);
      if keys[n] in g then g else g + [keys[n]]
  }

  /** HAVING count(*) > 1 */
  function DuplicateKeys(groups: seq<Key>, keys: seq<Key>): nat {
    if groups == [] then 0
    else (if Occurrences(keys, groups[0]) > 1 then 1 else 0) + DuplicateKeys(groups[1..], keys)
  }

  /** sum(c - 1) over the groups with more than one row */
  function Excess(groups: seq<Key>, keys: seq<Key>): nat {
    if groups == [] then 0
    else (if Occurrences(keys, groups[0]) > 1 then Occurrences(keys, groups[0]) - 1 else 0) + Excess(groups[1..], keys)
  }

  /** count(*) WHERE gen_id = ?; the comparison with NULL holds for no row. */
  function RowsOf(rows: seq<Row>, gid: Option<string>): nat {
    if rows == [] then 0
    else (if gid.Some? && rows[0].genId == gid then 1 else 0) + RowsOf(rows[1..], gid)
  }

  /** count(DISTINCT seq) WHERE gen_id = ? */
  function DistinctOf(rows: seq<Row>, gid: Option<string>): nat {
    |SeqsOf(rows, gid)|
  }

  function SeqsOf(rows: seq<Row>, gid: Option<string>): set<int> {
    set r | r in rows && gid.Some? && r.genId == gid && r.num.Some? :: r.num.value
  }

  /** min(seq) WHERE gen_id = ?; it is NULL when there is none. */
  function MinSeq(rows: seq<Row>, gid: Option<string>): (r: Option<int>)
    ensures r.None? <==> SeqsOf(rows, gid) == {}
    ensures r.Some? ==> r.value in SeqsOf(rows, gid) && forall x :: x in SeqsOf(rows, gid) ==> r.value <= x
  {
    if rows == [] then None else
      SeqsSplit(rows, gid);
      var rest := MinSeq(rows[1..], gid);
      if SeqsOf(rows[..1], gid) == {} then rest
      else if rest.None? then rows[0].num
      else Some(Min(rows[0].num.value, rest.value))
  }

  /** max(seq) WHERE gen_id = ? */
  function MaxSeq(rows: seq<Row>, gid: Option<string>): (r: Option<int>)
    ensures r.None? <==> SeqsOf(rows, gid) == {}
    ensures r.Some? ==> r.value in SeqsOf(rows, gid) && forall x :: x in SeqsOf(rows, gid) ==> r.value >= x
  {
    if rows == [] then None else
      SeqsSplit(rows, gid);
      var rest := MaxSeq(rows[1..], gid);
      if SeqsOf(rows[..1], gid) == {} then rest
      else if rest.None? then rows[0].num
      else Some(Max(rows[0].num.value, rest.value))
  }

  lemma SeqsSplit(rows: seq<Row>, gid: Option<string>)
    requires rows != []
    ensures SeqsOf(rows, gid) == SeqsOf(rows[..1], gid) + SeqsOf(rows[1..], gid)
    ensures SeqsOf(rows[..1], gid) ==
      if gid.Some? && rows[0].genId == gid && rows[0].num.Some? then {rows[0].num.value} else {}
  {
    assert rows == rows[..1] + rows[1..];
  }

  function Span(g: Generator): nat {
    Max(0, g.seqMax - g.seqMin + 1)
  }

  /** Sequence numbers of one generator that neither landed nor fit the unacked budget. */
  function Unaccounted(rows: seq<Row>, g: Generator, offered: int, accepted: int): nat {
    Max(0, Span(g) - DistinctOf(rows, g.genId) - Max(0, offered - accepted))
  }

  // -- checksums --------------------------------------------------------------------------------

  /** DuckDB's hash, one function for each column type. */
  datatype Hashes = Hashes(text: Option<string> -> int, number: Option<int> -> int)

  datatype Checksums = Checksums(rows: int, genId: int, num: int, body: int, severity: int)

  function ChecksumsOf(rows: seq<Row>, h: Hashes): Checksums {
    Checksums(|rows|,
              Sum(rows, (r: Row) => h.text(r.genId)),
              Sum(rows, (r: Row) => h.number(r.num)),
              Sum(rows, (r: Row) => h.text(r.body)),
              Sum(rows, (r: Row) => h.text(r.severity)))
  }

  datatype Column = Rows | GenId | Num | Body | Severity

  /** The checksums as they are written: a failed query leaves none, and a baseline may hold any. */
  type Stored = map<Column, int>

  function Written(c: Checksums): Stored {
    map[Rows := c.rows, GenId := c.genId, Num := c.num, Body := c.body, Severity := c.severity]
  }

  function Get(m: Stored, k: Column): Option<int> {
    if k in m then Some(m[k]) else None
  }

  /** The columns whose checksum changed since the baseline; a missing one equals a missing one. */
  function Differing(before: Stored, after: Stored): seq<Column> {
    (if Get(before, Rows) != Get(after, Rows) then [Rows] else [])
    + (if Get(before, GenId) != Get(after, GenId) then [GenId] else [])
    + (if Get(before, Num) != Get(after, Num) then [Num] else [])
    + (if Get(before, Body) != Get(after, Body) then [Body] else [])
    + (if Get(before, Severity) != Get(after, Severity) then [Severity] else [])
  }

  // -- validate ------------------------------------------------------------------------------------

  datatype Check = RowCount | Duplicates | Contiguity | ChecksumsStable

  datatype PerGenerator = PerGenerator(
    genId: Option<string>, expectedMin: int, expectedMax: int, span: nat,
    rows: nat, distinct: nat, observedMin: Option<int>, observedMax: Option<int>, unaccounted: nat)

  function Entry(rows: seq<Row>, g: Generator, offered: int, accepted: int): PerGenerator {
    PerGenerator(g.genId, g.seqMin, g.seqMax, Span(g),
                 RowsOf(rows, g.genId), DistinctOf(rows, g.genId), MinSeq(rows, g.genId), MaxSeq(rows, g.genId),
                 Unaccounted(rows, g, offered, accepted))
  }

  datatype Report = Report(
    offered: int, accepted: int, rejected: int,
    landed: nat, foreign: int, missingIdentity: int, delta: int,
    duplicateKeys: nat, excessRows: nat, perGenerator: seq<PerGenerator>,
    checksums: Stored, failed: seq<Check>)
  {
    predicate Pass() {
      failed == []
    }
  }

  /** The three hard checks. */
  predicate CountsMatch(rows: seq<Row>, m: Manifest) {
    |rows| == m.accepted
  }

  predicate NoDuplicates(rows: seq<Row>) {
    DuplicateKeys(Groups(KeysOf(rows)), KeysOf(rows)) == 0
  }

  predicate Contiguous(rows: seq<Row>, m: Manifest) {
    forall i :: 0 <= i < |m.generators| ==> Unaccounted(rows, m.generators[i], m.offered, m.accepted) == 0
  }

  /** The rows the verdict is about. */
  function Scope(table: seq<Row>, w: Window, m: Manifest): seq<Row> {
    RunRows(WindowRows(table, w), GenIds(m.generators))
  }

  // -- which rows these are --------------------------------------------------------------------------

  /** The manifest has a generator with this id. */
  ghost predicate Declares(m: Manifest, id: Option<string>) {
    id.Some? && id.value != "" && exists i :: 0 <= i < |m.generators| && m.generators[i].genId == id
  }

  /** The manifest names no generator at all. */
  ghost predicate DeclaresNone(m: Manifest) {
    forall i :: 0 <= i < |m.generators| ==> m.generators[i].genId.None? || m.generators[i].genId.value == ""
  }

  lemma IdsAreDeclared(m: Manifest, r: Row)
    ensures GenIds(m.generators) == {} <==> DeclaresNone(m)
    ensures Ours(r, GenIds(m.generators)) <==> DeclaresNone(m) || Declares(m, r.genId)
  {
    var ids := GenIds(m.generators);
    if DeclaresNone(m) {
      assert forall g :: g in m.generators ==> g.genId.None? || g.genId.value == "";
    } else {
      var i :| 0 <= i < |m.generators| && m.generators[i].genId.Some? && m.generators[i].genId.value != "";
      assert m.generators[i] in m.generators && m.generators[i].genId.value in ids;
    }
    if r.genId.Some? && r.genId.value in ids {
      var g :| g in m.generators && g.genId.Some? && g.genId.value != "" && g.genId.value == r.genId.value;
      var i :| 0 <= i < |m.generators| && m.generators[i] == g;
    }
    if Declares(m, r.genId) {
      var i :| 0 <= i < |m.generators| && m.generators[i].genId == r.genId;
      assert m.generators[i] in m.generators;
    }
  }

  /** The window keeps every row of the table stamped from its start to its end, and no other. */
  lemma {:induction false} WindowKeeps(table: seq<Row>, w: Window, r: Row)
    ensures multiset(WindowRows(table, w))[r] == if w.start <= r.timestamp <= w.end then multiset(table)[r] else 0
  {
    if table != [] {
      assert table == [table[0]] + table[1..];
      WindowKeeps(table[1..], w, r);
    }
  }

  lemma {:induction false} RunKeeps(rows: seq<Row>, ids: set<string>, r: Row)
    ensures multiset(RunRows(rows, ids))[r] == if Ours(r, ids) then multiset(rows)[r] else 0
  {
    if rows != [] {
      assert rows == [rows[0]] + rows[1..];
      RunKeeps(rows[1..], ids, r);
    }
  }

  /** The scope keeps those of a declared generator; if none is declared, the whole window. */
  lemma ScopeKeeps(table: seq<Row>, w: Window, m: Manifest, r: Row)
    ensures multiset(Scope(table, w, m))[r] ==
      if w.start <= r.timestamp <= w.end && (DeclaresNone(m) || Declares(m, r.genId)) then multiset(table)[r] else 0
  {
    WindowKeeps(table, w, r);
    RunKeeps(WindowRows(table, w), GenIds(m.generators), r);
    IdsAreDeclared(m, r);
  }

  lemma {:induction false} WindowSnoc(rows: seq<Row>, r: Row, w: Window)
    ensures WindowRows(rows + [r], w) == WindowRows(rows, w) + if InWindow(r, w) then [r] else []
  {
    if rows != [] {
      assert (rows + [r])[1..] == rows[1..] + [r];
      WindowSnoc(rows[1..], r, w);
    }
  }

  lemma {:induction false} RunSnoc(rows: seq<Row>, r: Row, ids: set<string>)
    ensures RunRows(rows + [r], ids) == RunRows(rows, ids) + if Ours(r, ids) then [r] else []
  {
    if rows != [] {
      assert (rows + [r])[1..] == rows[1..] + [r];
      RunSnoc(rows[1..], r, ids);
    }
  }

  /** Stamped from the start of the window to its end; and of a declared generator, if there is any. */
  ghost predicate OwnRow(r: Row, w: Window, m: Manifest) {
    w.start <= r.timestamp <= w.end && (DeclaresNone(m) || Declares(m, r.genId))
  }

  /** The positions in the table of the rows in the window, and of those of the run. */
  ghost function Within(table: seq<Row>, w: Window): set<int> {
    set i | 0 <= i < |table| && w.start <= table[i].timestamp <= w.end
  }

  ghost function Own(table: seq<Row>, w: Window, m: Manifest): set<int> {
    set i | 0 <= i < |table| && OwnRow(table[i], w, m)
  }

  lemma WithinSnoc(rows: seq<Row>, r: Row, w: Window)
    ensures Within(rows + [r], w) == Within(rows, w) + if InWindow(r, w) then {|rows|} else {}
    ensures |Within(rows + [r], w)| == |Within(rows, w)| + if InWindow(r, w) then 1 else 0
  {
    assert |rows| !in Within(rows, w);
  }

  lemma OwnSnoc(rows: seq<Row>, r: Row, w: Window, m: Manifest, own: bool)
    requires own == OwnRow(r, w, m)
    ensures |Own(rows + [r], w, m)| == |Own(rows, w, m)| + if own then 1 else 0
  {
    var a, b := Own(rows, w, m), Own(rows + [r], w, m);
    forall i ensures i in b <==> i in a || (i == |rows| && own) {
      if 0 <= i < |rows| {
        assert (rows + [r])[i] == rows[i];
      }
    }
    assert |rows| !in a;
    assert b == a + if own then {|rows|} else {};
  }

  /** How many rows that is. */
  lemma {:induction false} CountsRows(table: seq<Row>, w: Window, m: Manifest)
    ensures |WindowRows(table, w)| == |Within(table, w)| && |Scope(table, w, m)| == |Own(table, w, m)|
  {
    if table != [] {
      var n, ids := |table| - 1, GenIds(m.generators);
      var r, rest := table[n], table[..n];
      CountsRows(rest, w, m);
      assert table == rest + [r];
      IdsAreDeclared(m, r);
      WithinSnoc(rest, r, w);
      OwnSnoc(rest, r, w, m, InWindow(r, w) && Ours(r, ids));
      ScopeSnoc(rest, r, w, m);
    }
  }

  lemma {:induction false} ScopeSnoc(rows: seq<Row>, r: Row, w: Window, m: Manifest)
    ensures |WindowRows(rows + [r], w)| == |WindowRows(rows, w)| + if InWindow(r, w) then 1 else 0
    ensures |Scope(rows + [r], w, m)| ==
      |Scope(rows, w, m)| + if InWindow(r, w) && Ours(r, GenIds(m.generators)) then 1 else 0
  {
    WindowSnoc(rows, r, w);
    if InWindow(r, w) {
      RunSnoc(WindowRows(rows, w), r, GenIds(m.generators));
    } else {
      assert WindowRows(rows + [r], w) == WindowRows(rows, w);
    }
  }

  /** The loop over the manifest's generators. */
  method CheckGenerators(rows: seq<Row>, m: Manifest) returns (entries: seq<PerGenerator>, allContiguous: bool)
    ensures |entries| == |m.generators|
    ensures forall i :: 0 <= i < |m.generators| ==> entries[i] == Entry(rows, m.generators[i], m.offered, m.accepted)
    ensures allContiguous <==> Contiguous(rows, m)
  {
    allContiguous := true;
    entries := [];
    for i := 0 to |m.generators|
      invariant |entries| == i
      invariant forall j :: 0 <= j < i ==> entries[j] == Entry(rows, m.generators[j], m.offered, m.accepted)
      invariant allContiguous <==> forall j :: 0 <= j < i ==> entries[j].unaccounted == 0
    {
      var g := m.generators[i];
      var distinct := DistinctOf(rows, g.genId);
      var span := Max(0, g.seqMax - g.seqMin + 1);
      var budget := Max(0, m.offered - m.accepted);
      var unaccounted := Max(0, span - distinct - budget);
      entries := entries + [PerGenerator(g.genId, g.seqMin, g.seqMax, span, RowsOf(rows, g.genId), distinct,
                                         MinSeq(rows, g.genId), MaxSeq(rows, g.genId), unaccounted)];
      if unaccounted > 0 {
        allContiguous := false;
      }
    }
    assert forall i :: 0 <= i < |m.generators| ==>
      entries[i].unaccounted == Unaccounted(rows, m.generators[i], m.offered, m.accepted);
  }

  method Validate(table: seq<Row>, w: Window, m: Manifest, h: Option<Hashes>) returns (r: Report)
    ensures var rows := Scope(table, w, m);
      && r.offered == m.offered && r.accepted == m.accepted && r.rejected == m.rejected
      && r.landed == |rows|
      && r.foreign == |WindowRows(table, w)| - |rows|
      && r.missingIdentity == MissingIdentity(rows)
      && r.delta == |rows| - m.accepted
      && r.duplicateKeys == DuplicateKeys(Groups(KeysOf(rows)), KeysOf(rows))
      && r.excessRows == Excess(Groups(KeysOf(rows)), KeysOf(rows))
      && r.checksums == (if h.Some? then Written(ChecksumsOf(rows, h.value)) else map[])
      && |r.perGenerator| == |m.generators|
      && (forall i :: 0 <= i < |m.generators| ==>
            r.perGenerator[i] == Entry(rows, m.generators[i], m.offered, m.accepted))
    ensures r.landed == |Own(table, w, m)| && r.foreign == |Within(table, w) - Own(table, w, m)|
    ensures var rows := Scope(table, w, m);
      && (RowCount in r.failed <==> !CountsMatch(rows, m))
      && (Duplicates in r.failed <==> !NoDuplicates(rows))
      && (Contiguity in r.failed <==> !Contiguous(rows, m))
      && (r.Pass() <==> CountsMatch(rows, m) && NoDuplicates(rows) && Contiguous(rows, m))
    ensures ChecksumsStable !in r.failed
    ensures forall i, j :: 0 <= i < j < |r.failed| ==> CheckOrder(r.failed[i]) < CheckOrder(r.failed[j])
  {
    CountsRows(table, w, m);
    assert Own(table, w, m) <= Within(table, w);
    var window := WindowRows(table, w);
    var rows := RunRows(window, GenIds(m.generators));
    var keys := KeysOf(rows);
    var groups := Groups(keys);
    var entries, allContiguous := CheckGenerators(rows, m);
    var duplicateKeys := DuplicateKeys(groups, keys);
    var failed := FailedChecks(|rows| - m.accepted, duplicateKeys, allContiguous);
    r := Report(m.offered, m.accepted, m.rejected,
                |rows|, |window| - |rows|, MissingIdentity(rows), |rows| - m.accepted,
                duplicateKeys, Excess(groups, keys), entries,
                if h.Some? then Written(ChecksumsOf(rows, h.value)) else map[], failed);
  }

  function CheckOrder(c: Check): nat {
    match c
    case RowCount => 0
    case Duplicates => 1
    case Contiguity => 2
    case ChecksumsStable => 3
  }

  /** The hard failures, in the order they are reported. */
  method FailedChecks(delta: int, duplicateKeys: nat, allContiguous: bool) returns (failed: seq<Check>)
    ensures RowCount in failed <==> delta != 0
    ensures Duplicates in failed <==> duplicateKeys != 0
    ensures Contiguity in failed <==> !allContiguous
    ensures failed == [] <==> delta == 0 && duplicateKeys == 0 && allContiguous
    ensures forall i, j :: 0 <= i < j < |failed| ==> CheckOrder(failed[i]) < CheckOrder(failed[j])
    ensures ChecksumsStable !in failed
  {
    failed := [];
    if delta != 0 { failed := failed + [RowCount]; }
    if duplicateKeys != 0 { failed := failed + [Duplicates]; }
    if !allContiguous { failed := failed + [Contiguity]; }
  }

  /** The comparison with `--baseline` in `main`. */
  method CompareBaseline(r: Report, baseline: Stored) returns (r': Report, differing: seq<Column>)
    ensures forall k :: k in differing <==> Get(baseline, k) != Get(r.checksums, k)
    ensures forall i, j :: 0 <= i < j < |differing| ==> ColumnOrder(differing[i]) < ColumnOrder(differing[j])
    ensures r' == if differing == [] then r else r.(failed := r.failed + [ChecksumsStable])
    ensures r'.Pass() <==> r.Pass() && forall k :: Get(baseline, k) == Get(r.checksums, k)
    ensures ChecksumsStable !in r.failed ==>
      (ChecksumsStable in r'.failed <==> exists k :: Get(baseline, k) != Get(r.checksums, k))
  {
    differing := Differing(baseline, r.checksums);
    DifferingColumns(baseline, r.checksums);
    DifferingInOrder(baseline, r.checksums);
    r' := r;
    if differing != [] {
      assert differing[0] in differing;
      r' := r.(failed := r.failed + [ChecksumsStable]);
    }
  }

  lemma DifferingColumns(before: Stored, after: Stored)
    ensures forall k :: k in Differing(before, after) <==> Get(before, k) != Get(after, k)
  {
    forall k ensures k in Differing(before, after) <==> Get(before, k) != Get(after, k) {
      match k
      case Rows =>
      case GenId =>
      case Num =>
      case Body =>
      case Severity =>
    }
  }

  function ColumnOrder(k: Column): nat {
    match k
    case Rows => 0
    case GenId => 1
    case Num => 2
    case Body => 3
    case Severity => 4
  }

  /** Each column is named once, in the order in which they are compared. */
  lemma DifferingInOrder(before: Stored, after: Stored)
    ensures var d := Differing(before, after);
            forall i, j :: 0 <= i < j < |d| ==> ColumnOrder(d[i]) < ColumnOrder(d[j])
  {
  }
}
