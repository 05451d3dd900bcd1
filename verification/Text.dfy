/** String operations the Go code takes from its standard library, and the facts about them
    that more than one component needs. Strings are sequences of bytes written as `char`. */
module Text {

  predicate OccursAt(t: string, s: string, i: nat) {
    i <= |t| && s <= t[i..]
  }

  predicate Contains(t: string, s: string) {
    exists i | 0 <= i <= |t| :: OccursAt(t, s, i)
  }

  predicate HasPrefix(t: string, p: string) {
    p <= t
  }

  predicate HasSuffix(t: string, p: string) {
    |p| <= |t| && t[|t| - |p|..] == p
  }

  function FirstFrom(t: string, s: string, i: nat): (r: nat)
    requires exists j :: i <= j <= |t| && OccursAt(t, s, j)
    ensures i <= r <= |t| && OccursAt(t, s, r) && forall j: nat | i <= j < r :: !OccursAt(t, s, j)
    decreases |t| - i
  {
    if OccursAt(t, s, i) then i else FirstFrom(t, s, i + 1)
  }

  /** Index of the first occurrence of `s` in `t`, or -1. */
  function IndexOf(t: string, s: string): (r: int)
    ensures -1 <= r <= |t|
    ensures r >= 0 ==> OccursAt(t, s, r) && forall j: nat | j < r :: !OccursAt(t, s, j)
    ensures r < 0 <==> !Contains(t, s)
  {
    if Contains(t, s) then FirstFrom(t, s, 0) else -1
  }

  /** Leftmost, non-overlapping replacement. */
  function ReplaceAll(t: string, s: string, r: string): string
    requires s != ""
  {
    var i := IndexOf(t, s);
    if i < 0 then t else t[..i] + r + ReplaceAll(t[i + |s|..], s, r)
  }

  /** The pieces of `t` between leftmost, non-overlapping occurrences of `sep`. */
  function Split(t: string, sep: string): (pieces: seq<string>)
    requires sep != ""
    ensures |pieces| > 0
  {
    var i := IndexOf(t, sep);
    if i < 0 then [t] else [t[..i]] + Split(t[i + |sep|..], sep)
  }

  predicate IsSpace(c: char) {
    c == ' ' || c == '\t' || c == '\n' || c == '\r' || c == 11 as char || c == 12 as char
  }

  function TrimLeft(t: string): (r: string)
    ensures |r| <= |t|
  {
    if t != "" && IsSpace(t[0]) then TrimLeft(t[1..]) else t
  }

  function TrimRight(t: string): (r: string)
    ensures |r| <= |t|
  {
    if t != "" && IsSpace(t[|t| - 1]) then TrimRight(t[..|t| - 1]) else t
  }

  function Trim(t: string): (r: string)
    ensures |r| <= |t|
  {
    TrimRight(TrimLeft(t))
  }

  function Lower(t: string): (r: string)
    ensures |r| == |t|
  {
    seq(|t|, i requires 0 <= i < |t| => if 'A' <= t[i] <= 'Z' then t[i] - 'A' + 'a' else t[i])
  }

  predicate IsDigit(c: char) {
    '0' <= c <= '9'
  }

  function Digit(d: nat): (c: char)
    requires d < 10
    ensures IsDigit(c)
  {
    '0' + (d as char)
  }

  /** Decimal notation. */
  function Itoa(n: nat): (r: string)
    ensures r != "" && forall i | 0 <= i < |r| :: IsDigit(r[i])
  {
    if n < 10 then [Digit(n)] else Itoa(n / 10) + [Digit(n % 10)]
  }

  lemma {:induction false} ItoaInjective(m: nat, n: nat)
    requires Itoa(m) == Itoa(n)
    ensures m == n
  {
    var a, b := Itoa(m), Itoa(n);
    assert a[|a| - 1] == Digit(m % 10) && b[|b| - 1] == Digit(n % 10);
    if m >= 10 && n >= 10 {
      assert a[..|a| - 1] == Itoa(m / 10) && b[..|b| - 1] == Itoa(n / 10);
      ItoaInjective(m / 10, n / 10);
    }
  }
}
