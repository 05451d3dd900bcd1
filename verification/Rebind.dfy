/** Translation of SQLite-flavoured query text for Postgres: `rebindSQL`. */
module Rebind {
  import opened Common
  import opened Text

  const QUOTE := '\''

  function Rewritten(query: string): string {
    ReplaceAll(ReplaceAll(query, "datetime('now')", "now()"), " LIKE ", " ILIKE ")
  }

  /** Placeholders outside string literals become `$n+1`, `$n+2`, and so on. */
  function Numbered(q: string, inString: bool, n: nat): string {
    if q == "" then ""
    else if q[0] == QUOTE then [QUOTE] + Numbered(q[1..], !inString, n)
    else if q[0] == '?' && !inString then ['$'] + Itoa(n + 1) + Numbered(q[1..], inString, n + 1)
    else [q[0]] + Numbered(q[1..], inString, n)
  }

  function Rebound(backend: string, query: string): string {
    if backend == "postgres" then Numbered(Rewritten(query), false, 0) else query
  }

  method RebindSQL(backend: string, query: string) returns (out: string)
    ensures out == Rebound(backend, query)
  {
    if backend != "postgres" {
      return query;
    }
    var q := ReplaceAll(query, "datetime('now')", "now()");
    q := ReplaceAll(q, " LIKE ", " ILIKE ");
    if '?' !in q {
      NothingToNumber(q, false, 0);
      return q;
    }
    out := NumberPlaceholders(q);
  }

  /** What one byte of the query becomes. */
  function Token(c: char, inString: bool, n: nat): string {
    if c == '?' && !inString then ['$'] + Itoa(n + 1) else [c]
  }

  lemma ScanStep(b: string, q: string, i: nat, inString: bool, n: nat)
    requires i < |q|
    ensures var rest := Numbered(q[i + 1..], if q[i] == QUOTE then !inString else inString,
                                 if q[i] == '?' && !inString then n + 1 else n);
            b + Numbered(q[i..], inString, n) == b + Token(q[i], inString, n) + rest
  {
    assert q[i..][1..] == q[i + 1..];
  }

  method NumberPlaceholders(q: string) returns (b: string)
    ensures b == Numbered(q, false, 0)
  {
    b := "";
    var n, inString := 0, false;
    for i := 0 to |q|
      invariant n >= 0 && b + Numbered(q[i..], inString, n) == Numbered(q, false, 0)
    {
      var c := q[i];
      ScanStep(b, q, i, inString, n);
      if c == QUOTE {
        inString := !inString;
        b := b + [c];
      } else if c == '?' && !inString {
        n := n + 1;
        Regroup(b, ['$'], Itoa(n));
        b := b + ['$'];
        b := b + Itoa(n);
      } else {
        b := b + [c];
      }
    }
  }

  lemma {:induction false} NothingToNumber(q: string, inString: bool, n: nat)
    requires '?' !in q
    ensures Numbered(q, inString, n) == q
  {
    if q != "" {
      assert q == [q[0]] + q[1..];
      NothingToNumber(q[1..], if q[0] == QUOTE then !inString else inString, n);
    }
  }

  // ---------- Positions, counted independently of the scan ----------

  ghost function Quotes(s: string): nat {
    if s == "" then 0 else Quotes(s[..|s| - 1]) + if s[|s| - 1] == QUOTE then 1 else 0
  }

  ghost predicate Quoted(q: string, i: nat)
    requires i <= |q|
  {
    Quotes(q[..i]) % 2 == 1
  }

  ghost predicate IsPlaceholder(q: string, i: nat)
    requires i < |q|
  {
    q[i] == '?' && !Quoted(q, i)
  }

  /** How many placeholders stand before position `i`. */
  ghost function Rank(q: string, i: nat): nat
    requires i <= |q|
  {
    if i == 0 then 0 else Rank(q, i - 1) + if IsPlaceholder(q, i - 1) then 1 else 0
  }

  ghost function Piece(q: string, i: nat): string
    requires i < |q|
  {
    if IsPlaceholder(q, i) then ['$'] + Itoa(Rank(q, i) + 1) else [q[i]]
  }

  ghost function Pieces(q: string, i: nat): string
    requires i <= |q|
  {
    if i == 0 then "" else Pieces(q, i - 1) + Piece(q, i - 1)
  }

  lemma QuotedStep(q: string, i: nat)
    requires i < |q|
    ensures Quoted(q, i + 1) == if q[i] == QUOTE then !Quoted(q, i) else Quoted(q, i)
  {
    assert q[..i + 1][..i] == q[..i];
  }

  lemma {:induction false} ScanFrom(q: string, i: nat)
    requires i <= |q|
    ensures Pieces(q, i) + Numbered(q[i..], Quoted(q, i), Rank(q, i)) == Numbered(q, false, 0)
  {
    if i == 0 {
      assert q[0..] == q && q[..0] == "";
    } else {
      ScanFrom(q, i - 1);
      QuotedStep(q, i - 1);
      ScanStep(Pieces(q, i - 1), q, i - 1, Quoted(q, i - 1), Rank(q, i - 1));
      assert Piece(q, i - 1) == Token(q[i - 1], Quoted(q, i - 1), Rank(q, i - 1));
    }
  }

  /** Byte for byte: the k-th `?` outside a literal becomes `$k`, everything else is copied. */
  lemma NumberedByPosition(q: string)
    ensures Numbered(q, false, 0) == Pieces(q, |q|)
  {
    ScanFrom(q, |q|);
    assert Pieces(q, |q|) + "" == Pieces(q, |q|);
  }

  // ---------- The text rewrites leave the placeholders alone ----------

  ghost function After(s: string, inString: bool): bool {
    if s == "" then inString else After(s[1..], if s[0] == QUOTE then !inString else inString)
  }

  ghost function Count(s: string, inString: bool): nat {
    if s == "" then 0
    else if s[0] == QUOTE then Count(s[1..], !inString)
    else (if s[0] == '?' && !inString then 1 else 0) + Count(s[1..], inString)
  }

  lemma {:induction false} CountConcat(a: string, b: string, inString: bool)
    ensures Count(a + b, inString) == Count(a, inString) + Count(b, After(a, inString))
    ensures After(a + b, inString) == After(b, After(a, inString))
  {
    if a == "" {
      assert a + b == b;
    } else {
      assert (a + b)[1..] == a[1..] + b;
      CountConcat(a[1..], b, if a[0] == QUOTE then !inString else inString);
    }
  }

  /** `r` may stand for `s` wherever the scan is: same effect on quoting, no placeholder in either. */
  ghost predicate Neutral(s: string, r: string) {
    forall inString :: Count(s, inString) == Count(r, inString) && After(s, inString) == After(r, inString)
  }

  lemma {:induction false} ReplaceKeepsCount(q: string, s: string, r: string, inString: bool)
    requires s != "" && Neutral(s, r)
    ensures Count(ReplaceAll(q, s, r), inString) == Count(q, inString)
    ensures After(ReplaceAll(q, s, r), inString) == After(q, inString)
    decreases |q|
  {
    var i := IndexOf(q, s);
    if i >= 0 {
      var rest := q[i + |s|..];
      ReplaceKeepsCount(rest, s, r, After(s, After(q[..i], inString)));
      ExchangeKeepsCount(q[..i], s, r, rest, ReplaceAll(rest, s, r), inString);
      assert q == q[..i] + s + rest;
    }
  }

  lemma ThreeParts(a: string, b: string, c: string, inString: bool)
    ensures Count(a + b + c, inString) ==
            Count(a, inString) + Count(b, After(a, inString)) + Count(c, After(b, After(a, inString)))
    ensures After(a + b + c, inString) == After(c, After(b, After(a, inString)))
  {
    CountConcat(a + b, c, inString);
    CountConcat(a, b, inString);
  }

  lemma ExchangeKeepsCount(a: string, s: string, r: string, rest: string, more: string, inString: bool)
    requires Neutral(s, r)
    requires var here := After(s, After(a, inString));
             Count(more, here) == Count(rest, here) && After(more, here) == After(rest, here)
    ensures Count(a + r + more, inString) == Count(a + s + rest, inString)
    ensures After(a + r + more, inString) == After(a + s + rest, inString)
  {
    ThreeParts(a, r, more, inString);
    ThreeParts(a, s, rest, inString);
  }

  lemma {:induction false} PlainText(s: string, inString: bool)
    requires '?' !in s
    ensures Count(s, inString) == 0
    ensures QUOTE !in s ==> After(s, inString) == inString
  {
    if s != "" {
      PlainText(s[1..], if s[0] == QUOTE then !inString else inString);
    }
  }

  lemma QuoteFlips(inString: bool)
    ensures Count([QUOTE], inString) == 0 && After([QUOTE], inString) == !inString
  {
    assert [QUOTE][1..] == "";
  }

  /** Text with one quoted piece in it leaves the scan as it was. */
  lemma OneQuotedPiece(a: string, b: string, c: string, inString: bool)
    requires '?' !in a + b + c && QUOTE !in a + b + c
    ensures var s := a + [QUOTE] + b + [QUOTE] + c; Count(s, inString) == 0 && After(s, inString) == inString
  {
    PlainText(a, inString);
    PlainText(b, !inString);
    PlainText(c, inString);
    QuoteFlips(inString);
    QuoteFlips(!inString);
    ThreeParts(a, [QUOTE], b, inString);
    ThreeParts(a + [QUOTE] + b, [QUOTE], c, inString);
  }

  lemma DatetimeNeutral()
    ensures Neutral("datetime('now')", "now()")
  {
    forall inString
      ensures Count("datetime('now')", inString) == Count("now()", inString) == 0
      ensures After("datetime('now')", inString) == After("now()", inString)
    {
      PlainText("now()", inString);
      OneQuotedPiece("datetime(", "now", ")", inString);
      assert "datetime('now')" == "datetime(" + [QUOTE] + "now" + [QUOTE] + ")";
    }
  }

  lemma {:induction false} CountIsRank(q: string, i: nat)
    requires i <= |q|
    ensures Count(q[..i], false) == Rank(q, i) && After(q[..i], false) == Quoted(q, i)
  {
    if i > 0 {
      CountIsRank(q, i - 1);
      assert q[..i] == q[..i - 1] + [q[i - 1]];
      CountConcat(q[..i - 1], [q[i - 1]], false);
      assert q[..i][..i - 1] == q[..i - 1];
      assert [q[i - 1]][1..] == "";
    }
  }

  /** The rewritten query asks for as many arguments as the original. */
  lemma RewritesKeepArity(query: string)
    ensures Rank(Rewritten(query), |Rewritten(query)|) == Rank(query, |query|)
  {
    var q := ReplaceAll(query, "datetime('now')", "now()");
    DatetimeNeutral();
    ReplaceKeepsCount(query, "datetime('now')", "now()", false);
    forall inString
      ensures Count(" LIKE ", inString) == Count(" ILIKE ", inString)
      ensures After(" LIKE ", inString) == After(" ILIKE ", inString)
    {
      PlainText(" LIKE ", inString);
      PlainText(" ILIKE ", inString);
    }
    ReplaceKeepsCount(q, " LIKE ", " ILIKE ", false);
    CountIsRank(query, |query|);
    CountIsRank(Rewritten(query), |Rewritten(query)|);
    assert query[..|query|] == query && Rewritten(query)[..|Rewritten(query)|] == Rewritten(query);
  }

  // ---------- Reading the placeholders back ----------

  ghost function DropDigits(s: string): (r: string)
    ensures |r| <= |s|
    ensures s != "" && IsDigit(s[0]) ==> |r| < |s|
    ensures r != "" ==> !IsDigit(r[0])
  {
    if s != "" && IsDigit(s[0]) then DropDigits(s[1..]) else s
  }

  /** Inverse scan: outside literals, `$` and the digits after it stand for one placeholder. */
  ghost function Unnumbered(s: string, inString: bool): string
    decreases |s|
  {
    if s == "" then ""
    else if s[0] == QUOTE then [QUOTE] + Unnumbered(s[1..], !inString)
    else if s[0] == '$' && !inString && |s| > 1 && IsDigit(s[1]) then
      ['?'] + Unnumbered(DropDigits(s[1..]), inString)
    else [s[0]] + Unnumbered(s[1..], inString)
  }

  /** No `?` or `$` outside a literal runs into a digit. */
  ghost predicate Readable(q: string) {
    forall i | 0 <= i < |q| - 1 && (q[i] == '?' || q[i] == '$') && !Quoted(q, i) :: !IsDigit(q[i + 1])
  }

  ghost predicate Clear(q: string, inString: bool) {
    q == "" ||
    (&& (!inString && (q[0] == '?' || q[0] == '$') && |q| > 1 ==> !IsDigit(q[1]))
     && Clear(q[1..], if q[0] == QUOTE then !inString else inString))
  }

  lemma {:induction false} DigitsDropped(d: string, rest: string)
    requires forall i | 0 <= i < |d| :: IsDigit(d[i])
    ensures DropDigits(d + rest) == DropDigits(rest)
  {
    if d == "" {
      assert d + rest == rest;
    } else {
      assert (d + rest)[1..] == d[1..] + rest;
      DigitsDropped(d[1..], rest);
    }
  }

  lemma {:induction false} LeadingDigits(q: string, inString: bool, n: nat)
    ensures DropDigits(Numbered(q, inString, n)) == Numbered(DropDigits(q), inString, n)
  {
    if q != "" && IsDigit(q[0]) {
      LeadingDigits(q[1..], inString, n);
      assert Numbered(q, inString, n)[1..] == Numbered(q[1..], inString, n);
    }
  }

  lemma {:induction false} ScanBack(q: string, inString: bool, n: nat)
    ensures |Unnumbered(Numbered(q, inString, n), inString)| <= |q|
    ensures Clear(q, inString) ==> Unnumbered(Numbered(q, inString, n), inString) == q
    ensures !Clear(q, inString) ==> |Unnumbered(Numbered(q, inString, n), inString)| < |q|
    decreases |q|
  {
    if q != "" {
      var tail := q[1..];
      assert q == [q[0]] + tail;
      var out := Numbered(q, inString, n);
      if q[0] == QUOTE {
        ScanBack(tail, !inString, n);
        assert out[1..] == Numbered(tail, !inString, n);
      } else if !inString && q[0] == '?' {
        var rest := Numbered(tail, inString, n + 1);
        assert out[1..] == Itoa(n + 1) + rest;
        DigitsDropped(Itoa(n + 1), rest);
        LeadingDigits(tail, inString, n + 1);
        ScanBack(DropDigits(tail), inString, n + 1);
      } else if !inString && q[0] == '$' {
        var rest := Numbered(tail, inString, n);
        assert out[1..] == rest;
        LeadingDigits(tail, inString, n);
        ScanBack(DropDigits(tail), inString, n);
        ScanBack(tail, inString, n);
      } else {
        ScanBack(tail, inString, n);
        assert out[1..] == Numbered(tail, inString, n);
      }
    }
  }

  lemma {:induction false} ClearFrom(q: string, i: nat)
    requires i <= |q|
    ensures Clear(q[i..], Quoted(q, i)) <==>
            forall k | i <= k < |q| - 1 && (q[k] == '?' || q[k] == '$') && !Quoted(q, k) :: !IsDigit(q[k + 1])
    decreases |q| - i
  {
    if i < |q| {
      ClearFrom(q, i + 1);
      assert q[i..][1..] == q[i + 1..];
      assert q[..i + 1][..i] == q[..i];
    }
  }

  /** The original text is recovered from the numbered one exactly when no placeholder and no
      `$` outside a literal is directly followed by a digit. */
  lemma RoundTripExactlyWhen(q: string)
    ensures Unnumbered(Numbered(q, false, 0), false) == q <==> Readable(q)
  {
    ScanBack(q, false, 0);
    ClearFrom(q, 0);
    assert q[0..] == q && q[..0] == "";
  }
}
