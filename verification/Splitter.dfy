/** Splitting SQL text into statements (scripts/lib/duckdb_exec.py, lines 37 to 66). */
module Splitter {

  // -- where the text is cut --------------------------------------------------------------

  function Quotes(s: string): nat {
    if s == [] then 0 else Quotes(s[..|s| - 1]) + if s[|s| - 1] == '\'' then 1 else 0
  }

  predicate Balanced(s: string) {
    Quotes(s) % 2 == 0
  }

  /** A semicolon with an even number of quotes before it ends a statement. */
  predicate IsCut(s: string, i: nat)
    requires i < |s|
  {
    s[i] == ';' && Balanced(s[..i])
  }

  predicate Unsplittable(s: string) {
    forall i :: 0 <= i < |s| ==> !IsCut(s, i)
  }

  /** The text between the cuts. */
  function Pieces(s: string): (ps: seq<string>)
    ensures ps != []
  {
    if s == [] then [""] else
      var n := |s| - 1;
      var ps := Pieces(s[..n]);
      if IsCut(s, n) then ps + [""] else Grow(ps, s[n])
  }

  function Grow(ps: seq<string>, c: char): (r: seq<string>)
    requires ps != []
    ensures r != []
  {
    ps[..|ps| - 1] + [ps[|ps| - 1] + [c]]
  }

  /** ";".join(ps) */
  function Join(ps: seq<string>): string {
    if ps == [] then ""
    else if |ps| == 1 then ps[0]
    else Join(ps[..|ps| - 1]) + ";" + ps[|ps| - 1]
  }

  /** Nothing is left to cut, and no piece but the last leaves a quote open. */
  ghost predicate Parsed(ps: seq<string>) {
    && (forall k :: 0 <= k < |ps| ==> Unsplittable(ps[k]))
    && (forall k :: 0 <= k < |ps| - 1 ==> Balanced(ps[k]))
  }

  lemma {:induction false} QuotesConcat(a: string, b: string)
    ensures Quotes(a + b) == Quotes(a) + Quotes(b)
  {
    if b == [] {
      assert a + b == a;
    } else {
      var n := |b| - 1;
      assert (a + b)[..|a| + n] == a + b[..n];
      QuotesConcat(a, b[..n]);
    }
  }

  lemma {:induction false} QuotesAround(a: string, t: string)
    ensures Quotes(a + ";" + t) == Quotes(a) + Quotes(t)
    ensures Balanced(a) ==> (Balanced(a + ";" + t) <==> Balanced(t))
  {
    QuotesConcat(a + ";", t);
    QuotesConcat(a, ";");
    assert Quotes(";") == 0;
    EvenSum(Quotes(a), Quotes(t));
  }

  lemma EvenSum(m: nat, n: nat)
    ensures m % 2 == 0 ==> ((m + n) % 2 == 0 <==> n % 2 == 0)
  {
  }

  lemma Prefixes(s: string, n: nat)
    requires n <= |s|
    ensures forall i :: 0 <= i < n ==> s[..n][..i] == s[..i]
  {
  }

  lemma UnsplittableSnoc(s: string, c: char)
    ensures Unsplittable(s + [c]) <==> Unsplittable(s) && !IsCut(s + [c], |s|)
  {
    assert (s + [c])[..|s|] == s;
    Prefixes(s + [c], |s|);
    if Unsplittable(s + [c]) {
      forall i | 0 <= i < |s| ensures !IsCut(s, i) {
        assert !IsCut(s + [c], i);
      }
    } else if Unsplittable(s) && !IsCut(s + [c], |s|) {
      forall i | 0 <= i < |s + [c]| ensures !IsCut(s + [c], i) {
        if i < |s| {
          assert !IsCut(s, i);
        }
      }
    }
  }

  /** Quotes before position i of a tail, when what comes before the tail is balanced. */
  lemma CutInTail(a: string, t: string, c: char)
    requires Balanced(a)
    ensures IsCut(a + ";" + t + [c], |a| + 1 + |t|) <==> IsCut(t + [c], |t|)
  {
    var s := a + ";" + t;
    assert (s + [c])[..|a| + 1 + |t|] == s;
    assert (t + [c])[..|t|] == t;
    QuotesAround(a, t);
  }

  /** One uncut statement after balanced text and a semicolon is one more piece. */
  lemma {:induction false} PiecesTail(a: string, t: string)
    requires Balanced(a) && Unsplittable(t)
    ensures Pieces(a + ";" + t) == Pieces(a) + [t]
  {
    var s := a + ";" + t;
    var n := |s| - 1;
    if t == [] {
      assert s[..n] == a;
    } else {
      var m := |t| - 1;
      assert t == t[..m] + [t[m]];
      UnsplittableSnoc(t[..m], t[m]);
      CutInTail(a, t[..m], t[m]);
      assert s == a + ";" + t[..m] + [t[m]];
      assert s[..n] == a + ";" + t[..m];
      PiecesTail(a, t[..m]);
    }
  }

  lemma {:induction false} PiecesUncut(t: string)
    requires Unsplittable(t)
    ensures Pieces(t) == [t]
  {
    if t != [] {
      var m := |t| - 1;
      assert t == t[..m] + [t[m]];
      UnsplittableSnoc(t[..m], t[m]);
      PiecesUncut(t[..m]);
    }
  }

  lemma {:induction false} JoinBalanced(ps: seq<string>)
    requires forall k :: 0 <= k < |ps| ==> Balanced(ps[k])
    ensures Balanced(Join(ps))
  {
    if |ps| > 1 {
      var n := |ps| - 1;
      JoinBalanced(ps[..n]);
      QuotesAround(Join(ps[..n]), ps[n]);
    }
  }

  /** The pieces are the only way to write the text as statements joined by semicolons. */
  lemma {:induction false} PiecesOfJoin(ps: seq<string>)
    requires ps != [] && Parsed(ps)
    ensures Pieces(Join(ps)) == ps
  {
    var n := |ps| - 1;
    if n == 0 {
      PiecesUncut(ps[0]);
    } else {
      JoinBalanced(ps[..n]);
      PiecesOfJoin(ps[..n]);
      PiecesTail(Join(ps[..n]), ps[n]);
    }
  }

  lemma {:induction false} JoinGrow(ps: seq<string>, c: char)
    requires ps != []
    ensures Join(Grow(ps, c)) == Join(ps) + [c]
  {
    var n := |ps| - 1;
    assert Grow(ps, c)[..n] == ps[..n];
  }

  lemma {:induction false} BalancedButLast(ps: seq<string>)
    requires ps != [] && Parsed(ps)
    ensures Balanced(Join(ps)) <==> Balanced(ps[|ps| - 1])
  {
    var n := |ps| - 1;
    if n > 0 {
      JoinBalanced(ps[..n]);
      QuotesAround(Join(ps[..n]), ps[n]);
    }
  }

  lemma ParsedGrow(ps: seq<string>, c: char)
    requires ps != [] && Parsed(ps)
    requires c == ';' ==> !Balanced(ps[|ps| - 1])
    ensures Parsed(Grow(ps, c))
  {
    var last := ps[|ps| - 1];
    assert (last + [c])[..|last|] == last;
    UnsplittableSnoc(last, c);
  }

  lemma {:induction false} JoinEmpty(ps: seq<string>)
    requires ps != []
    ensures Join(ps + [""]) == Join(ps) + ";"
  {
    assert (ps + [""])[..|ps|] == ps;
  }

  /** Cutting loses nothing: joined again the pieces are the text, and they are all uncut. */
  lemma {:induction false} PiecesSound(s: string)
    ensures Join(Pieces(s)) == s && Parsed(Pieces(s))
  {
    if s != [] {
      var n := |s| - 1;
      var ps := Pieces(s[..n]);
      PiecesSound(s[..n]);
      BalancedButLast(ps);
      assert s == s[..n] + [s[n]];
      if IsCut(s, n) {
        JoinEmpty(ps);
      } else {
        JoinGrow(ps, s[n]);
        ParsedGrow(ps, s[n]);
      }
    }
  }

  /** There is exactly one way to write a text as uncut statements joined by semicolons. */
  lemma {:induction false} PiecesUnique(s: string, ps: seq<string>)
    requires ps != [] && Parsed(ps)
    ensures Join(ps) == s <==> ps == Pieces(s)
  {
    PiecesOfJoin(ps);
    PiecesSound(s);
  }

  // -- strip ------------------------------------------------------------------------------------

  /** What `str.strip()` removes. */
  predicate IsSpace(c: char) {
    var n := c as int;
    || 0x09 <= n <= 0x0d || 0x1c <= n <= 0x20 || n == 0x85 || n == 0xa0 || n == 0x1680
    || 0x2000 <= n <= 0x200a || n == 0x2028 || n == 0x2029 || n == 0x202f || n == 0x205f || n == 0x3000
  }

  /** These are the blank, tab to carriage return, the four separators, and 19 characters beyond ASCII. */
  lemma SpacesAre(c: char)
    ensures IsSpace(c) <==>
      (c in [' ', '\t', '\n', '\r']
       || c as int in [0x0b, 0x0c, 0x1c, 0x1d, 0x1e, 0x1f]
       || c as int in [0x85, 0xa0, 0x1680, 0x2000, 0x2001, 0x2002, 0x2003, 0x2004, 0x2005, 0x2006, 0x2007, 0x2008,
                       0x2009, 0x200a, 0x2028, 0x2029, 0x202f, 0x205f, 0x3000])
  {
  }

  function StripLeft(s: string): string {
    if s != [] && IsSpace(s[0]) then StripLeft(s[1..]) else s
  }

  function StripRight(s: string): string {
    if s != [] && IsSpace(s[|s| - 1]) then StripRight(s[..|s| - 1]) else s
  }

  function Strip(s: string): string {
    StripRight(StripLeft(s))
  }

  predicate Trimmed(s: string) {
    s == [] || (!IsSpace(s[0]) && !IsSpace(s[|s| - 1]))
  }

  predicate Blank(s: string) {
    forall i :: 0 <= i < |s| ==> IsSpace(s[i])
  }

  lemma {:induction false} StripLeftSplits(s: string) returns (a: string)
    ensures s == a + StripLeft(s) && Blank(a)
    ensures StripLeft(s) == [] || !IsSpace(StripLeft(s)[0])
  {
    if s != [] && IsSpace(s[0]) {
      var b := StripLeftSplits(s[1..]);
      a := [s[0]] + b;
    } else {
      a := [];
    }
  }

  lemma {:induction false} StripRightSplits(s: string) returns (b: string)
    ensures s == StripRight(s) + b && Blank(b)
    ensures StripRight(s) == [] || !IsSpace(StripRight(s)[|StripRight(s)| - 1])
  {
    if s != [] && IsSpace(s[|s| - 1]) {
      var n := |s| - 1;
      var a := StripRightSplits(s[..n]);
      b := a + [s[n]];
    } else {
      b := [];
    }
  }

  /** Stripping removes blanks at both ends and nothing else. */
  lemma StripSplits(s: string) returns (a: string, b: string)
    ensures s == a + Strip(s) + b && Blank(a) && Blank(b)
    ensures Trimmed(Strip(s)) && (Trimmed(s) ==> Strip(s) == s)
  {
    a := StripLeftSplits(s);
    b := StripRightSplits(StripLeft(s));
    if Strip(s) != [] {
      assert Strip(s)[0] == StripLeft(s)[0];
    }
  }

  lemma {:induction false} BlankHasNoQuotes(s: string)
    requires Blank(s)
    ensures Quotes(s) == 0
  {
    if s != [] {
      BlankHasNoQuotes(s[..|s| - 1]);
    }
  }

  /** Blanks carry no quote and no semicolon, so stripping changes neither parity nor cuts. */
  lemma StripKeepsParse(s: string)
    ensures Unsplittable(s) ==> Unsplittable(Strip(s))
    ensures Balanced(s) <==> Balanced(Strip(s))
  {
    var t := Strip(s);
    var a, b := StripSplits(s);
    BlankHasNoQuotes(a);
    BlankHasNoQuotes(b);
    QuotesConcat(a + t, b);
    QuotesConcat(a, t);
    if Unsplittable(s) {
      forall i | 0 <= i < |t| ensures !IsCut(t, i) {
        assert !IsCut(s, |a| + i);
        assert s[..|a| + i] == a + t[..i];
        QuotesConcat(a, t[..i]);
      }
    }
  }

  // -- statements ---------------------------------------------------------------------------------

  /** The pieces that are not blank, stripped. */
  function Kept(ps: seq<string>): seq<string> {
    if ps == [] then [] else
      var t := Strip(ps[|ps| - 1]);
      Kept(ps[..|ps| - 1]) + if t == [] then [] else [t]
  }

  function Statements(sql: string): seq<string> {
    Kept(Pieces(sql))
  }

  /** Before position i there are the finished pieces `done`, then the one in `buf`. */
  ghost predicate At(sql: string, i: nat, done: seq<string>, buf: string, inQuote: bool) {
    i <= |sql| && Pieces(sql[..i]) == done + [buf] && (inQuote <==> !Balanced(sql[..i]))
  }

  /** One more character. */
  lemma NextPiece(sql: string, i: nat, done: seq<string>, buf: string, inQuote: bool)
    requires i < |sql| && At(sql, i, done, buf, inQuote)
    ensures var ch := sql[i];
            if ch == ';' && !inQuote then At(sql, i + 1, done + [buf], "", inQuote)
            else At(sql, i + 1, done, buf + [ch], if ch == '\'' then !inQuote else inQuote)
  {
    assert sql[..i + 1][..i] == sql[..i];
  }

  lemma {:induction false} KeptSnoc(ps: seq<string>, p: string)
    ensures Kept(ps + [p]) == Kept(ps) + if Strip(p) == [] then [] else [Strip(p)]
  {
    assert (ps + [p])[..|ps|] == ps;
  }

  /** The loop is the parity rule: its special case for a doubled quote changes nothing. */
  method SplitStatements(sql: string) returns (out: seq<string>)
    ensures out == Statements(sql)
  {
    out := [];
    var buf := "";
    var inQuote := false;
    var i := 0;
    ghost var done: seq<string> := [];
    while i < |sql|
      invariant 0 <= i <= |sql|
      invariant At(sql, i, done, buf, inQuote)
      invariant out == Kept(done)
    {
      var ch := sql[i];
      NextPiece(sql, i, done, buf, inQuote);
      if ch == '\'' {
        if inQuote && i + 1 < |sql| && sql[i + 1] == '\'' {
          NextPiece(sql, i + 1, done, buf + [ch], !inQuote);
          assert buf + "''" == buf + [ch] + [ch];
          buf := buf + "''";
          i := i + 2;
          continue;
        }
        inQuote := !inQuote;
        buf := buf + [ch];
      } else if ch == ';' && !inQuote {
        var stmt := Strip(buf);
        if stmt != "" {
          out := out + [stmt];
        }
        KeptSnoc(done, buf);
        done := done + [buf];
        buf := "";
      } else {
        buf := buf + [ch];
      }
      i := i + 1;
    }
    assert sql[..i] == sql;
    KeptSnoc(done, buf);
    var tail := Strip(buf);
    if tail != "" {
      out := out + [tail];
    }
  }

  /** What a list of statements looks like. */
  ghost predicate WellFormed(stmts: seq<string>) {
    Parsed(stmts) && forall k :: 0 <= k < |stmts| ==> stmts[k] != [] && Trimmed(stmts[k])
  }

  lemma {:induction false} KeptIsWellFormed(ps: seq<string>)
    requires Parsed(ps)
    ensures WellFormed(Kept(ps))
    ensures (forall k :: 0 <= k < |ps| ==> Balanced(ps[k])) ==>
      forall k :: 0 <= k < |Kept(ps)| ==> Balanced(Kept(ps)[k])
  {
    if ps != [] {
      var n := |ps| - 1;
      KeptIsWellFormed(ps[..n]);
      StripKeepsParse(ps[n]);
      var a, b := StripSplits(ps[n]);
    }
  }

  lemma {:induction false} KeptTrimmed(ps: seq<string>)
    requires forall k :: 0 <= k < |ps| ==> ps[k] != [] && Trimmed(ps[k])
    ensures Kept(ps) == ps
  {
    if ps != [] {
      var n := |ps| - 1;
      KeptTrimmed(ps[..n]);
      var a, b := StripSplits(ps[n]);
      assert ps == ps[..n] + [ps[n]];
    }
  }

  /** Well-formed statements survive being joined and split. */
  lemma {:induction false} SplitOfJoin(stmts: seq<string>)
    requires WellFormed(stmts)
    ensures Statements(Join(stmts)) == stmts
  {
    if stmts == [] {
      assert Kept([""]) == [] by {
        assert Strip("") == "";
      }
    } else {
      PiecesOfJoin(stmts);
      KeptTrimmed(stmts);
    }
  }

  /** Splitting yields well-formed statements, and splitting what it yields changes nothing. */
  lemma SplitIsStable(sql: string)
    ensures WellFormed(Statements(sql))
    ensures Statements(Join(Statements(sql))) == Statements(sql)
  {
    PiecesSound(sql);
    KeptIsWellFormed(Pieces(sql));
    SplitOfJoin(Statements(sql));
  }
}
