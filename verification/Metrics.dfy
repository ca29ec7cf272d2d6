/** Counters, windows and percentiles (generator/src/metrics.py). */
module Metrics {
  import opened Basics
  import opened Sums

  /** The status codes `record_failure` tells apart. */
  datatype Code = ResourceExhausted | DeadlineExceeded | Unavailable | Unauthenticated | Other(name: string)

  datatype Totals = Totals(
    requestsSent: nat,
    requestsSuccess: nat,
    requestsFailed: nat,
    recordsOffered: nat,
    recordsAccepted: nat,
    recordsRejected: nat,
    failedResourceExhausted: nat,
    failedDeadline: nat,
    failedUnavailable: nat,
    failedUnauthenticated: nat,
    failedOther: nat,
    bytesSent: nat,
    stalledMs: real,
    errorsByCode: map<Code, int>)

  const ZERO: Totals := Totals(0, 0, 0, 0, 0, 0, 0, 0, 0, 0, 0, 0, 0.0, map[])

  /** A fresh `Totals()`, field by field. */
  ghost predicate IsZero(t: Totals) {
    && t.requestsSent == t.requestsSuccess == t.requestsFailed == 0
    && t.recordsOffered == t.recordsAccepted == t.recordsRejected == 0
    && t.failedResourceExhausted == t.failedDeadline == t.failedUnavailable == 0
    && t.failedUnauthenticated == t.failedOther == t.bytesSent == 0
    && t.stalledMs == 0.0
    && t.errorsByCode == map[]
  }

  method NewTotals() returns (t: Totals)
    ensures IsZero(t)
  {
    t := ZERO;
  }

  function AddOffered(t: Totals, records: nat, nbytes: nat): Totals {
    t.(recordsOffered := t.recordsOffered + records, bytesSent := t.bytesSent + nbytes)
  }

  function AddStall(t: Totals, ms: real): Totals {
    t.(stalledMs := t.stalledMs + ms)
  }

  function AddSuccess(t: Totals, records: nat): Totals {
    t.(requestsSent := t.requestsSent + 1,
       requestsSuccess := t.requestsSuccess + 1,
       recordsAccepted := t.recordsAccepted + records)
  }

  function CountOf(errors: map<Code, int>, code: Code): int {
    if code in errors then errors[code] else 0
  }

  /** One more error with this code. */
  function Bumped(errors: map<Code, int>, code: Code): map<Code, int> {
    errors[code := CountOf(errors, code) + 1]
  }

  /** What `record_failure` does to the cumulative counters. */
  function AddFailure(t: Totals, records: nat, code: Code): Totals {
    var u := t.(requestsSent := t.requestsSent + 1,
                requestsFailed := t.requestsFailed + 1,
                errorsByCode := Bumped(t.errorsByCode, code));
    match code
    case ResourceExhausted =>
      u.(recordsRejected := u.recordsRejected + records, failedResourceExhausted := u.failedResourceExhausted + 1)
    case DeadlineExceeded => u.(failedDeadline := u.failedDeadline + 1)
    case Unavailable => u.(failedUnavailable := u.failedUnavailable + 1)
    case Unauthenticated => u.(failedUnauthenticated := u.failedUnauthenticated + 1)
    case Other(_) => u.(failedOther := u.failedOther + 1)
  }

  /** What `record_failure` does to the current window: only the RESOURCE_EXHAUSTED class is kept. */
  function AddFailureToWindow(w: Totals, records: nat, code: Code): Totals {
    var u := w.(requestsSent := w.requestsSent + 1, requestsFailed := w.requestsFailed + 1);
    if code.ResourceExhausted? then
      u.(recordsRejected := u.recordsRejected + records, failedResourceExhausted := u.failedResourceExhausted + 1)
    else u
  }

  /** The part of the counters that windows and totals share. */
  datatype Flow = Flow(
    offered: int, accepted: int, rejected: int,
    sent: int, success: int, failed: int, exhausted: int,
    bytes: int, stalledMs: real)

  function FlowOf(t: Totals): Flow {
    Flow(t.recordsOffered, t.recordsAccepted, t.recordsRejected,
         t.requestsSent, t.requestsSuccess, t.requestsFailed, t.failedResourceExhausted,
         t.bytesSent, t.stalledMs)
  }

  /** Everything the windows written so far add up to. */
  function Flushed(windows: seq<Totals>): Flow {
    if windows == [] then Flow(0, 0, 0, 0, 0, 0, 0, 0, 0.0) else
      var f := Flushed(windows[..|windows| - 1]);
      var w := FlowOf(windows[|windows| - 1]);
      Flow(f.offered + w.offered, f.accepted + w.accepted, f.rejected + w.rejected,
           f.sent + w.sent, f.success + w.success, f.failed + w.failed, f.exhausted + w.exhausted,
           f.bytes + w.bytes, f.stalledMs + w.stalledMs)
  }

  /** Sample conservation: nothing recorded is lost between the windows and the totals. */
  ghost predicate Balanced(windows: seq<Totals>, current: Totals, totals: Totals) {
    var f, w, t := Flushed(windows), FlowOf(current), FlowOf(totals);
    && t.offered == f.offered + w.offered
    && t.accepted == f.accepted + w.accepted
    && t.rejected == f.rejected + w.rejected
    && t.sent == f.sent + w.sent
    && t.success == f.success + w.success
    && t.failed == f.failed + w.failed
    && t.exhausted == f.exhausted + w.exhausted
    && t.bytes == f.bytes + w.bytes
    && t.stalledMs == f.stalledMs + w.stalledMs
  }

  lemma {:induction false} FlushKeepsBalance(windows: seq<Totals>, current: Totals, totals: Totals)
    requires Balanced(windows, current, totals)
    ensures FlowOf(totals) == Flushed(windows + [current])
    ensures Balanced(windows + [current], ZERO, totals)
  {
    assert (windows + [current])[..|windows|] == windows;
  }

  /** The identities between the cumulative counters. */
  ghost predicate Consistent(t: Totals) {
    && t.requestsSent == t.requestsSuccess + t.requestsFailed
    && t.requestsFailed == MapSum(t.errorsByCode)
    && t.requestsFailed == t.failedResourceExhausted + t.failedDeadline + t.failedUnavailable
                           + t.failedUnauthenticated + t.failedOther
    && CodeCount(t, ResourceExhausted) == t.failedResourceExhausted
    && CodeCount(t, DeadlineExceeded) == t.failedDeadline
    && CodeCount(t, Unavailable) == t.failedUnavailable
    && CodeCount(t, Unauthenticated) == t.failedUnauthenticated
  }

  function CodeCount(t: Totals, code: Code): int {
    CountOf(t.errorsByCode, code)
  }

  lemma ZeroConsistent(t: Totals)
    requires IsZero(t)
    ensures Consistent(t) && Balanced([], t, t)
  {
  }

  lemma AddFailureConsistent(t: Totals, records: nat, code: Code)
    requires Consistent(t)
    ensures Consistent(AddFailure(t, records, code))
  {
    MapSumUpdate(t.errorsByCode, code, CodeCount(t, code) + 1);
  }

  /** The windows forget which of the other codes a request failed with: two histories with the same
      windows can have different totals. */
  lemma WindowsForgetTheCode(t: Totals, w: Totals, records: nat, code: Code, code': Code)
    requires code != code'
    ensures AddFailureToWindow(w, records, code) == AddFailureToWindow(w, records, code')
            <==> !code.ResourceExhausted? && !code'.ResourceExhausted?
    ensures AddFailure(t, records, code) != AddFailure(t, records, code')
  {
    var a, b := AddFailure(t, records, code), AddFailure(t, records, code');
    assert CodeCount(a, code) == CodeCount(t, code) + 1;
    assert CodeCount(b, code) == CodeCount(t, code);
  }

  datatype Sample = Sample(
    window: Totals, inflight: int,
    p50: real, p95: real, p99: real, max: real,
    cumOffered: int, cumAccepted: int, cumRejected: int)

  /** The accumulator. Each method is one critical section of `Metrics._lock`, so every
      interleaving of the threads is a sequence of calls. */
  class Metrics {
    var totals: Totals
    var window: Totals
    var windowLatencies: seq<real>
    var allLatencies: seq<real>
    var inflight: int
    ghost var flushed: seq<Totals>

    ghost predicate Valid()
      reads this
    {
      && Balanced(flushed, window, totals)
      && Consistent(totals)
      && totals.requestsSent == |allLatencies|
      && window.requestsSent == |windowLatencies|
    }

    constructor ()
      ensures Valid() && IsZero(totals) && IsZero(window) && inflight == 0 && flushed == []
    {
      var zero := NewTotals();
      totals, window := zero, zero;
      windowLatencies, allLatencies := [], [];
      inflight := 0;
      flushed := [];
      new;
      ZeroConsistent(zero);
    }

    method RecordOffered(records: nat, nbytes: nat)
      requires Valid()
      modifies this`totals, this`window
      ensures Valid()
      ensures totals == AddOffered(old(totals), records, nbytes)
      ensures window == AddOffered(old(window), records, nbytes)
    {
      totals := totals.(recordsOffered := totals.recordsOffered + records, bytesSent := totals.bytesSent + nbytes);
      window := window.(recordsOffered := window.recordsOffered + records, bytesSent := window.bytesSent + nbytes);
    }

    method RecordInflight(delta: int)
      requires Valid()
      modifies this`inflight
      ensures Valid() && inflight == old(inflight) + delta
    {
      inflight := inflight + delta;
    }

    method RecordStall(seconds: real)
      requires Valid()
      modifies this`totals, this`window
      ensures Valid()
      ensures totals == AddStall(old(totals), seconds * 1000.0)
      ensures window == AddStall(old(window), seconds * 1000.0)
    {
      var ms := seconds * 1000.0;
      totals := totals.(stalledMs := totals.stalledMs + ms);
      window := window.(stalledMs := window.stalledMs + ms);
    }

    method RecordSuccess(records: nat, latencyS: real)
      requires Valid()
      modifies this`totals, this`window, this`windowLatencies, this`allLatencies
      ensures Valid()
      ensures totals == AddSuccess(old(totals), records)
      ensures window == AddSuccess(old(window), records)
      ensures windowLatencies == old(windowLatencies) + [latencyS * 1000.0]
      ensures allLatencies == old(allLatencies) + [latencyS * 1000.0]
    {
      var ms := latencyS * 1000.0;
      totals := AddSuccess(totals, records);
      window := AddSuccess(window, records);
      windowLatencies := windowLatencies + [ms];
      allLatencies := allLatencies + [ms];
    }

    method RecordFailure(records: nat, latencyS: real, code: Code)
      requires Valid()
      modifies this`totals, this`window, this`windowLatencies, this`allLatencies
      ensures Valid()
      ensures totals == AddFailure(old(totals), records, code)
      ensures window == AddFailureToWindow(old(window), records, code)
      ensures windowLatencies == old(windowLatencies) + [latencyS * 1000.0]
      ensures allLatencies == old(allLatencies) + [latencyS * 1000.0]
    {
      var ms := latencyS * 1000.0;
      AddFailureConsistent(totals, records, code);
      totals := AddFailure(totals, records, code);
      window := AddFailureToWindow(window, records, code);
      windowLatencies := windowLatencies + [ms];
      allLatencies := allLatencies + [ms];
    }

    /** `_flush_sample`: swap the window out and describe it. */
    method FlushSample() returns (s: Sample)
      requires Valid()
      modifies this`window, this`windowLatencies, this`flushed
      ensures Valid()
      ensures flushed == old(flushed) + [old(window)]
      ensures window == ZERO && windowLatencies == []
      ensures s.window == old(window) && s.inflight == inflight
      ensures var latencies := Sorted(old(windowLatencies));
              (s.p50, s.p95, s.p99)
              == (Percentile(latencies, 0.50), Percentile(latencies, 0.95), Percentile(latencies, 0.99))
      ensures s.p50 <= s.p95 <= s.p99 <= s.max
      ensures s.max in old(windowLatencies) || (old(windowLatencies) == [] && s.max == 0.0)
      ensures forall x :: x in old(windowLatencies) ==> x <= s.max
      ensures (s.cumOffered, s.cumAccepted, s.cumRejected)
           == (Flushed(flushed).offered, Flushed(flushed).accepted, Flushed(flushed).rejected)
    {
      var latencies := Sorted(windowLatencies);
      PercentilesOrdered(latencies);
      SortedSame(windowLatencies);
      FlushKeepsBalance(flushed, window, totals);
      s := Sample(window, inflight,
                  Percentile(latencies, 0.50), Percentile(latencies, 0.95), Percentile(latencies, 0.99),
                  Last(latencies),
                  totals.recordsOffered, totals.recordsAccepted, totals.recordsRejected);
      flushed := flushed + [window];
      window, windowLatencies := ZERO, [];
    }

    /** The run is over: after the final flush the written windows account for the whole run. */
    method StopSampler() returns (s: Sample)
      requires Valid()
      modifies this`window, this`windowLatencies, this`flushed
      ensures Valid() && FlowOf(totals) == Flushed(flushed)
      ensures flushed == old(flushed) + [s.window] && s.window == old(window)
    {
      s := FlushSample();
    }
  }

  // -- percentile ---------------------------------------------------------------

  /** Python's `round` on reals: to the nearest integer, ties to even. */
  function RoundHalfEven(x: real): int {
    var f := x.Floor;
    var d := x - f as real;
    if d < 0.5 then f
    else if d > 0.5 then f + 1
    else if f % 2 == 0 then f else f + 1
  }

  function Clamp(lo: int, x: int, hi: int): int {
    var y := if x < hi then x else hi;
    if lo < y then y else lo
  }

  /** The rank for the position x = q * n. */
  function RankAt(x: real, n: nat): int {
    Clamp(1, RoundHalfEven(x + 0.5), n)
  }

  function Rank(q: real, n: nat): int {
    RankAt(q * n as real, n)
  }

  /** `percentile`, on a list that is already sorted. */
  function Percentile(sorted: seq<real>, q: real): real {
    if sorted == [] then 0.0
    else if |sorted| == 1 then sorted[0]
    else sorted[Rank(q, |sorted|) - 1]
  }

  ghost predicate Increasing(s: seq<real>) {
    forall i, j :: 0 <= i <= j < |s| ==> s[i] <= s[j]
  }

  /** The rank is the textbook nearest rank except for one family of ties. */
  lemma RankExact(q: real, n: nat)
    requires 0.0 < q <= 1.0 && n >= 1
    ensures 1 <= Rank(q, n) <= n
    ensures var x := q * n as real;
            Rank(q, n) == if x == x.Floor as real && x.Floor % 2 == 1 && x.Floor < n
                          then Ceil(x) + 1 else Ceil(x)
  {
    var x := q * n as real;
    assert 0.0 < x <= n as real by { ScaleBounds(q, n as real); }
    assert (-x).Floor == if x == x.Floor as real then -x.Floor else -x.Floor - 1;
    var y := x + 0.5;
    if x == x.Floor as real {
      assert y.Floor == x.Floor;
    } else {
      var d := x - x.Floor as real;
      assert y.Floor == if d < 0.5 then x.Floor else x.Floor + 1;
    }
  }

  lemma ScaleBounds(q: real, n: real)
    requires 0.0 < q <= 1.0 && n > 0.0
    ensures 0.0 < q * n <= n
  {
    assert q * n <= 1.0 * n;
  }

  lemma RankAtMonotone(x: real, y: real, n: nat)
    requires x <= y
    ensures RankAt(x, n) <= RankAt(y, n)
  {
    assert (x + 0.5).Floor == (y + 0.5).Floor || (x + 0.5).Floor + 1 <= (y + 0.5).Floor;
  }

  lemma ScaleMonotone(q: real, q': real, n: real)
    requires q <= q' && n >= 0.0
    ensures q * n <= q' * n
  {
  }

  lemma RankMonotone(q: real, q': real, n: nat)
    requires q <= q'
    ensures Rank(q, n) <= Rank(q', n)
  {
    var x, y := q * n as real, q' * n as real;
    assert x <= y by { ScaleMonotone(q, q', n as real); }
    assert Rank(q, n) == RankAt(x, n) && Rank(q', n) == RankAt(y, n);
    RankAtMonotone(x, y, n);
  }

  lemma RankReaches(q: real, n: nat)
    requires 0.0 < q <= 1.0 && n >= 1
    ensures Ceil(q * n as real) <= Rank(q, n) && 1 <= Rank(q, n) <= n
  {
    RankExact(q, n);
  }

  lemma SplitsAt(s: seq<real>, low: int, rank: int)
    requires Increasing(s) && low <= rank && 1 <= rank <= |s|
    ensures s[rank - 1] in s
    ensures forall i :: 0 <= i < low ==> s[i] <= s[rank - 1]
    ensures forall i :: rank - 1 <= i < |s| ==> s[rank - 1] <= s[i]
  {
  }

  /** At least ceil(q * n) values are at or below the percentile, and it is one of the values. */
  lemma PercentileSplits(s: seq<real>, q: real)
    requires s != [] && Increasing(s) && 0.0 < q <= 1.0
    ensures Percentile(s, q) in s
    ensures Ceil(q * |s| as real) <= |s|
    ensures forall i :: 0 <= i < Ceil(q * |s| as real) ==> s[i] <= Percentile(s, q)
    ensures forall i :: Rank(q, |s|) - 1 <= i < |s| ==> Percentile(s, q) <= s[i]
  {
    RankReaches(q, |s|);
    SplitsAt(s, Ceil(q * |s| as real), Rank(q, |s|));
  }

  function Last(s: seq<real>): real {
    if s == [] then 0.0 else s[|s| - 1]
  }

  lemma PercentilesOrdered(s: seq<real>)
    requires Increasing(s)
    ensures Percentile(s, 0.50) <= Percentile(s, 0.95) <= Percentile(s, 0.99) <= Last(s)
  {
    if s != [] {
      RankExact(0.50, |s|);
      RankExact(0.95, |s|);
      RankExact(0.99, |s|);
      RankMonotone(0.50, 0.95, |s|);
      RankMonotone(0.95, 0.99, |s|);
    }
  }

  function Insert(x: real, s: seq<real>): seq<real> {
    if s == [] || x <= s[0] then [x] + s else [s[0]] + Insert(x, s[1..])
  }

  function Sorted(s: seq<real>): (r: seq<real>)
    ensures Increasing(r) && |r| == |s|
  {
    if s == [] then [] else
      InsertIncreasing(s[0], Sorted(s[1..]));
      Insert(s[0], Sorted(s[1..]))
  }

  lemma {:induction false} InsertIncreasing(x: real, s: seq<real>)
    requires Increasing(s)
    ensures Increasing(Insert(x, s))
    ensures multiset(Insert(x, s)) == multiset(s) + multiset{x}
    ensures |Insert(x, s)| == |s| + 1
  {
    if s == [] || x <= s[0] {
    } else {
      InsertIncreasing(x, s[1..]);
      assert s == [s[0]] + s[1..];
      var r := Insert(x, s[1..]);
      forall i | 0 <= i < |r| ensures s[0] <= r[i] {
        assert r[i] in multiset(r);
        assert r[i] in multiset(s[1..]) + multiset{x};
      }
    }
  }

  lemma {:induction false} SortedSame(s: seq<real>)
    ensures multiset(Sorted(s)) == multiset(s)
    ensures forall x :: x in s ==> x <= Last(Sorted(s))
    ensures s != [] ==> Last(Sorted(s)) in s
  {
    if s != [] {
      SortedSame(s[1..]);
      InsertIncreasing(s[0], Sorted(s[1..]));
      assert s == [s[0]] + s[1..];
      var r := Sorted(s);
      forall x | x in s ensures x <= Last(r) {
        assert x in multiset(s);
        assert x in multiset(r);
        var i :| 0 <= i < |r| && r[i] == x;
      }
      assert Last(r) in multiset(r);
      assert Last(r) in multiset(s);
    }
  }
}
