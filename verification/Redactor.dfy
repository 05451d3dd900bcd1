/** Masking of secret values in log lines: `SecretRedactor.Scrub`. */
module Redactor {
  import opened Text

  const MASK := "***REDACTED***"

  /** The secrets that are actually searched for: trimmed, and longer than five bytes. */
  predicate Effective(secret: string) {
    |Trim(secret)| > 5
  }

  function ScrubOne(secret: string, line: string): string {
    if Effective(secret) then ReplaceAll(line, Trim(secret), MASK) else line
  }

  function Scrubbed(secrets: seq<string>, line: string): string {
    if secrets == [] then line else Scrubbed(secrets[1..], ScrubOne(secrets[0], line))
  }

  class SecretRedactor {
    const secrets: seq<string>

    constructor (secrets: seq<string>)
      ensures this.secrets == secrets
    {
      this.secrets := secrets;
    }

    static method Scrub(sr: SecretRedactor?, line: string) returns (result: string)
      ensures result == if sr == null then line else Scrubbed(sr.secrets, line)
    {
      result := line;
      if sr == null {
        return;
      }
      for k := 0 to |sr.secrets|
        invariant Scrubbed(sr.secrets[k..], result) == Scrubbed(sr.secrets, line)
      {
        var s := Trim(sr.secrets[k]);
        if |s| > 5 {
          result := ReplaceAll(result, s, MASK);
        }
      }
    }
  }

  /** No searched secret is left in the line. */
  ghost predicate Clean(secrets: seq<string>, line: string) {
    forall s | s in secrets && Effective(s) :: !Contains(line, Trim(s))
  }

  /** `t` can be laid over `mask`, shifted by `k`, so that the two agree where they meet. */
  ghost predicate AgreesAt(t: string, mask: string, k: int) {
    forall i | 0 <= i < |t| && 0 <= k + i < |mask| :: t[i] == mask[k + i]
  }

  ghost predicate Overlaps(t: string, mask: string) {
    exists k :: -|t| < k < |mask| && AgreesAt(t, mask, k)
  }

  ghost predicate StarFree(t: string) {
    '*' !in t
  }

  // ---------- One replacement ----------

  /** Text that cannot meet the mask appears around a mask only if it already appeared beside it. */
  lemma OccursBesideMask(a: string, mask: string, b: string, t: string)
    requires Contains(a + mask + b, t)
    ensures Contains(a, t) || Contains(b, t) || Overlaps(t, mask)
  {
    var whole := a + mask + b;
    var p: nat :| p <= |whole| && OccursAt(whole, t, p);
    assert forall i | 0 <= i < |t| :: t[i] == whole[p..][i] == whole[p + i];
    if p + |t| <= |a| {
      assert a[p..] == whole[p..|a|] && t <= a[p..];
      assert OccursAt(a, t, p);
    } else if |a| + |mask| <= p {
      assert b[p - |a| - |mask|..] == whole[p..];
      assert OccursAt(b, t, p - |a| - |mask|);
    } else {
      assert AgreesAt(t, mask, p - |a|);
    }
  }

  lemma OccursInPart(t: string, lo: nat, hi: nat, s: string)
    requires lo <= hi <= |t| && Contains(t[lo..hi], s)
    ensures Contains(t, s)
  {
    var i: nat :| i <= hi - lo && OccursAt(t[lo..hi], s, i);
    assert t[lo..hi][i..] == t[lo + i..hi] <= t[lo + i..];
    assert OccursAt(t, s, lo + i);
  }

  lemma {:induction false} NothingNew(line: string, s: string, mask: string, t: string)
    requires s != "" && !Overlaps(t, mask) && Contains(ReplaceAll(line, s, mask), t)
    ensures Contains(line, t)
    decreases |line|
  {
    var i := IndexOf(line, s);
    if i >= 0 {
      var rest := line[i + |s|..];
      OccursBesideMask(line[..i], mask, ReplaceAll(rest, s, mask), t);
      if Contains(line[..i], t) {
        OccursInPart(line, 0, i, t);
      } else {
        NothingNew(rest, s, mask, t);
        assert rest == line[i + |s|..|line|];
        OccursInPart(line, i + |s|, |line|, t);
      }
    }
  }

  lemma BeforeFirst(line: string, s: string)
    requires s != "" && Contains(line, s)
    ensures !Contains(line[..IndexOf(line, s)], s)
  {
    var i := IndexOf(line, s);
    forall j: nat | j <= i ensures !OccursAt(line[..i], s, j) {
      if OccursAt(line[..i], s, j) {
        assert line[..i][j..] <= line[j..];
        assert OccursAt(line, s, j);
      }
    }
  }

  lemma {:induction false} ReplacedIsGone(line: string, s: string, mask: string)
    requires s != "" && !Overlaps(s, mask)
    ensures !Contains(ReplaceAll(line, s, mask), s)
    decreases |line|
  {
    var i := IndexOf(line, s);
    if i >= 0 {
      var rest := ReplaceAll(line[i + |s|..], s, mask);
      ReplacedIsGone(line[i + |s|..], s, mask);
      BeforeFirst(line, s);
      if Contains(line[..i] + mask + rest, s) {
        OccursBesideMask(line[..i], mask, rest, s);
      }
    }
  }

  lemma ReplacedAround(line: string, s: string, mask: string) returns (a: string, b: string)
    requires s != "" && Contains(line, s)
    ensures ReplaceAll(line, s, mask) == a + mask + b
  {
    a, b := line[..IndexOf(line, s)], ReplaceAll(line[IndexOf(line, s) + |s|..], s, mask);
  }

  lemma ReplacedShowsMask(line: string, s: string, mask: string)
    requires s != "" && Contains(line, s)
    ensures Contains(ReplaceAll(line, s, mask), mask)
  {
    var a, b := ReplacedAround(line, s, mask);
    MiddleOccurs(a, mask, b);
  }

  lemma MiddleOccurs(a: string, m: string, b: string)
    ensures Contains(a + m + b, m)
  {
    var t := a + m + b;
    assert forall k | 0 <= k < |m| :: t[|a|..][k] == m[k];
    assert OccursAt(t, m, |a|);
  }

  lemma MaskPersists(secret: string, line: string)
    ensures Contains(line, MASK) ==> Contains(ScrubOne(secret, line), MASK)
    ensures Effective(secret) && Contains(line, Trim(secret)) ==> Contains(ScrubOne(secret, line), MASK)
  {
    if Effective(secret) && Contains(line, Trim(secret)) {
      ReplacedShowsMask(line, Trim(secret), MASK);
    }
  }

  // ---------- The whole list ----------

  lemma {:induction false} AbsentStaysAbsent(secrets: seq<string>, line: string, t: string)
    requires !Overlaps(t, MASK) && !Contains(line, t)
    ensures !Contains(Scrubbed(secrets, line), t)
  {
    if secrets != [] {
      var next := ScrubOne(secrets[0], line);
      if Effective(secrets[0]) && Contains(next, t) {
        NothingNew(line, Trim(secrets[0]), MASK, t);
      }
      AbsentStaysAbsent(secrets[1..], next, t);
    }
  }

  /** A searched secret that cannot meet the mask is gone, whatever the other secrets are. */
  lemma {:induction false} SecretIsGone(secrets: seq<string>, line: string, s: string)
    requires s in secrets && Effective(s) && !Overlaps(Trim(s), MASK)
    ensures !Contains(Scrubbed(secrets, line), Trim(s))
  {
    var next := ScrubOne(secrets[0], line);
    if s == secrets[0] {
      ReplacedIsGone(line, Trim(s), MASK);
      AbsentStaysAbsent(secrets[1..], next, Trim(s));
    } else {
      SecretIsGone(secrets[1..], next, s);
    }
  }

  /** If no searched secret can meet the mask, none is left, whatever their order or nesting. */
  lemma ScrubIsComplete(secrets: seq<string>, line: string)
    requires forall s | s in secrets && Effective(s) :: !Overlaps(Trim(s), MASK)
    ensures Clean(secrets, Scrubbed(secrets, line))
  {
    forall s | s in secrets && Effective(s) ensures !Contains(Scrubbed(secrets, line), Trim(s)) {
      SecretIsGone(secrets, line, s);
    }
  }

  lemma ContainsThrough(a: string, b: string, c: string)
    requires Contains(a, b) && Contains(b, c)
    ensures Contains(a, c)
  {
    var i: nat :| i <= |a| && OccursAt(a, b, i);
    var j: nat :| j <= |b| && OccursAt(b, c, j);
    assert a[i..][..|b|] == b;
    assert a[i + j..][..|c|] == b[j..][..|c|];
    assert OccursAt(a, c, i + j);
  }

  /** The secret holds a searched one, itself perhaps, that cannot meet the mask. */
  ghost predicate Safe(secrets: seq<string>, s: string) {
    exists u :: u in secrets && Effective(u) && !Overlaps(Trim(u), MASK) && Contains(Trim(s), Trim(u))
  }

  lemma SafeIsGone(secrets: seq<string>, line: string, s: string)
    requires Safe(secrets, s)
    ensures !Contains(Scrubbed(secrets, line), Trim(s))
  {
    var u :| u in secrets && Effective(u) && !Overlaps(Trim(u), MASK) && Contains(Trim(s), Trim(u));
    SecretIsGone(secrets, line, u);
    if Contains(Scrubbed(secrets, line), Trim(s)) {
      ContainsThrough(Scrubbed(secrets, line), Trim(s), Trim(u));
    }
  }

  /** Nor does a secret that can meet the mask do any harm if it holds one that cannot. */
  lemma SafeListIsComplete(secrets: seq<string>, line: string)
    requires forall s | s in secrets && Effective(s) :: Safe(secrets, s)
    ensures Clean(secrets, Scrubbed(secrets, line))
  {
    forall s | s in secrets && Effective(s) ensures !Contains(Scrubbed(secrets, line), Trim(s)) {
      SafeIsGone(secrets, line, s);
    }
  }

  lemma {:induction false} MaskSurvivesList(secrets: seq<string>, line: string)
    requires Contains(line, MASK) || exists s :: s in secrets && Effective(s) && Contains(line, Trim(s))
    ensures Contains(Scrubbed(secrets, line), MASK)
  {
    if secrets == [] {
    } else {
      var next := ScrubOne(secrets[0], line);
      MaskPersists(secrets[0], line);
      if !Contains(next, MASK) {
        var s :| s in secrets && Effective(s) && Contains(line, Trim(s));
        assert next == line && s in secrets[1..];
      }
      MaskSurvivesList(secrets[1..], next);
    }
  }

  lemma StarFreeOverlap(t: string)
    requires StarFree(t) && t != ""
    ensures Overlaps(t, MASK) <==> Contains("REDACTED", t)
  {
    if Overlaps(t, MASK) {
      var k :| -|t| < k < |MASK| && AgreesAt(t, MASK, k);
      StarFreeInside(t, MASK, 3, 11, k);
    }
    if Contains(MASK[3..11], t) {
      var p: nat :| p <= 8 && OccursAt(MASK[3..11], t, p);
      assert MASK[3..11][p..] == MASK[3 + p..11];
      assert forall i | 0 <= i < |t| :: t[i] == MASK[3 + p..11][i] == MASK[3 + p + i];
      assert AgreesAt(t, MASK, 3 + p);
    }
    assert MASK[3..11] == "REDACTED";
  }

  lemma StarFreeInside(t: string, mask: string, lo: nat, hi: nat, k: int)
    requires StarFree(t) && t != "" && -|t| < k < |mask| && AgreesAt(t, mask, k)
    requires 0 < lo <= hi < |mask| && forall i | 0 <= i < |mask| && !(lo <= i < hi) :: mask[i] == '*'
    ensures Contains(mask[lo..hi], t)
  {
    var first, last := if k < 0 then -k else 0, if k + |t| > |mask| then |mask| - 1 - k else |t| - 1;
    assert t[first] == mask[k + first] && t[first] in t;
    assert t[last] == mask[k + last] && t[last] in t;
    assert lo <= k && k + |t| <= hi;
    assert t == mask[k..k + |t|];
    assert mask[lo..hi][k - lo..] == mask[k..hi] && t <= mask[k..hi];
    assert OccursAt(mask[lo..hi], t, k - lo);
  }

  ghost predicate CompleteOn(secrets: seq<string>, line: string) {
    Clean(secrets, Scrubbed(secrets, line))
  }

  /** For secrets without '*', redaction is complete on every line exactly when no searched
      secret is a piece of the word the mask itself contains. */
  lemma CompleteExactlyWhen(secrets: seq<string>)
    requires forall s | s in secrets && Effective(s) :: StarFree(Trim(s))
    ensures (forall line :: CompleteOn(secrets, line))
       <==> (forall s | s in secrets && Effective(s) :: !Contains("REDACTED", Trim(s)))
  {
    if forall s | s in secrets && Effective(s) :: !Contains("REDACTED", Trim(s)) {
      forall s | s in secrets && Effective(s) ensures !Overlaps(Trim(s), MASK) {
        StarFreeOverlap(Trim(s));
      }
      forall line ensures CompleteOn(secrets, line) {
        ScrubIsComplete(secrets, line);
      }
    } else {
      var s :| s in secrets && Effective(s) && Contains("REDACTED", Trim(s));
      WordIsNeverHidden(secrets, s);
      assert !CompleteOn(secrets, Trim(s));
    }
  }

  /** A secret that is a piece of "REDACTED" is still legible after its own line is scrubbed. */
  lemma WordIsNeverHidden(secrets: seq<string>, s: string)
    requires s in secrets && Effective(s) && Contains("REDACTED", Trim(s))
    ensures Contains(Scrubbed(secrets, Trim(s)), Trim(s))
  {
    var line := Trim(s);
    assert line[0..] == line;
    assert OccursAt(line, Trim(s), 0);
    MaskSurvivesList(secrets, line);
    MaskedLineHolds(Scrubbed(secrets, line), Trim(s));
  }

  lemma MaskedLineHolds(line: string, t: string)
    requires Contains(line, MASK) && Contains("REDACTED", t)
    ensures Contains(line, t)
  {
    assert MASK[3..11] == "REDACTED";
    OccursInPart(MASK, 3, 11, t);
    var i: nat :| i <= |line| && OccursAt(line, MASK, i);
    assert line[i..i + |MASK|] == MASK;
    OccursInPart(line, i, i + |MASK|, t);
  }

  /** With '*' in a secret the order of the list matters: once "abc***" has been searched for in
      "abcsecret2", masking "secret2" rebuilds it. */
  lemma StarredSecretCanReappear(a: string, s: string)
    requires |a| >= 3 && !IsSpace(a[0]) && StarFree(a)
    requires |s| > 5 && !IsSpace(s[0]) && !IsSpace(s[|s| - 1]) && StarFree(s) && s[0] !in a
    ensures !Clean([a + "***", s], Scrubbed([a + "***", s], a + s))
  {
    var starred := a + "***";
    assert starred[0] == a[0] && starred[|starred| - 1] == starred[|a|] == '*';
    TrimIsIdentity(starred);
    TrimIsIdentity(s);
    FirstSecretMissed(starred, a + s, |a|);
    MaskedAtTheEnd(a, s, MASK);
    TwoSecrets(starred, s, a + s);
    StarredShows(a);
    assert [starred, s][0] == starred;
  }

  lemma FirstSecretMissed(starred: string, line: string, k: nat)
    requires k < |starred| && starred[k] == '*' && '*' !in line && Trim(starred) == starred
    ensures ScrubOne(starred, line) == line
  {
    var j := IndexOf(line, starred);
    if j >= 0 {
      CharacterOccurs(line, starred, k, j);
    }
  }

  lemma StarredShows(a: string)
    ensures Contains(a + MASK, a + "***")
  {
    MiddleOccurs("", a + "***", MASK[3..]);
    assert "" + (a + "***") + MASK[3..] == a + MASK;
  }

  lemma TwoSecrets(s1: string, s2: string, line: string)
    ensures Scrubbed([s1, s2], line) == ScrubOne(s2, ScrubOne(s1, line))
  {
    assert [s1, s2][1..] == [s2] && [s2][1..] == [];
    assert Scrubbed([s2], ScrubOne(s1, line)) == Scrubbed([], ScrubOne(s2, ScrubOne(s1, line)));
  }

  lemma CharacterOccurs(line: string, s: string, k: nat, j: nat)
    requires k < |s| && OccursAt(line, s, j)
    ensures s[k] in line
  {
    assert s[k] == line[j..][k] == line[j + k];
  }

  lemma TrimIsIdentity(s: string)
    requires s != "" && !IsSpace(s[0]) && !IsSpace(s[|s| - 1])
    ensures Trim(s) == s
  {
  }

  lemma MaskedAtTheEnd(a: string, s: string, mask: string)
    requires s != "" && s[0] !in a
    ensures ReplaceAll(a + s, s, mask) == a + mask
  {
    var line := a + s;
    assert line[|a|..] == s;
    assert OccursAt(line, s, |a|);
    forall j: nat | j < |a| ensures !OccursAt(line, s, j) {
      assert line[j..][0] == line[j] == a[j];
    }
    assert IndexOf(line, s) == |a|;
    assert line[..|a|] == a && line[|a| + |s|..] == "";
    assert a + mask + "" == a + mask;
  }

  // ---------- One secret, starred or not ----------

  function RestFrom(t: string, n: nat): string {
    if n < |t| then t[n..] else ""
  }

  lemma ReplacedOnce(line: string, t: string, mask: string, i: nat)
    requires t != "" && IndexOf(line, t) == i && i + |t| <= |line| < i + 2 * |t|
    ensures ReplaceAll(line, t, mask) == line[..i] + mask + line[i + |t|..]
  {
    var rest := line[i + |t|..];
    assert IndexOf(rest, t) < 0 by {
      if Contains(rest, t) {
        var j: nat :| j <= |rest| && OccursAt(rest, t, j);
        assert |rest[j..]| < |t|;
      }
    }
  }

  lemma OccursByIndex(whole: string, t: string, p: nat)
    requires p + |t| <= |whole| && forall i | 0 <= i < |t| :: whole[p + i] == t[i]
    ensures Contains(whole, t)
  {
    assert forall i | 0 <= i < |t| :: whole[p..][i] == t[i];
    assert OccursAt(whole, t, p);
  }

  lemma PrefixReplaced(t: string, post: string, mask: string)
    requires |post| < |t|
    ensures ReplaceAll(t + post, t, mask) == mask + post
  {
    var line := t + post;
    assert line[0..] == line && OccursAt(line, t, 0);
    ReplacedOnce(line, t, mask, 0);
    assert line[..0] + mask + line[|t|..] == mask + post;
  }

  /** `t` begins inside the mask: after `t` itself, the part of `t` that the mask does not cover. */
  lemma ReturnsAfterMask(t: string, mask: string, k: nat)
    requires t != "" && k < |mask| && AgreesAt(t, mask, k)
    ensures Contains(ReplaceAll(t + RestFrom(t, |mask| - k), t, mask), t)
  {
    PrefixReplaced(t, RestFrom(t, |mask| - k), mask);
    OccursByIndex(mask + RestFrom(t, |mask| - k), t, k);
  }

  /** `t` begins before the mask: what comes before it, the mask, and what comes after it spell `t`. */
  lemma MaskSpells(t: string, mask: string, m: int, i: nat)
    requires 0 < m < |t| && AgreesAt(t, mask, -m) && i < |t|
    ensures i < |t[..m] + mask + RestFrom(t, m + |mask|)|
    ensures (t[..m] + mask + RestFrom(t, m + |mask|))[i] == t[i]
  {
    if m <= i < m + |mask| {
      assert t[i] == mask[-m + i];
    }
  }

  lemma MaskHolds(t: string, mask: string, m: int)
    requires 0 < m < |t| && AgreesAt(t, mask, -m)
    ensures Contains(t[..m] + mask + RestFrom(t, m + |mask|), t)
  {
    var whole := t[..m] + mask + RestFrom(t, m + |mask|);
    MaskSpells(t, mask, m, |t| - 1);
    forall i | 0 <= i < |t| ensures whole[0 + i] == t[i] {
      MaskSpells(t, mask, m, i);
    }
    OccursByIndex(whole, t, 0);
  }

  lemma ReplacedInMiddle(a: string, t: string, b: string, mask: string)
    requires IndexOf(a + t + b, t) == |a| && |b| < |t|
    ensures ReplaceAll(a + t + b, t, mask) == a + mask + b
  {
    ReplacedOnce(a + t + b, t, mask, |a|);
    MiddleReplaced(a, t, b);
  }

  lemma MiddleReplaced(a: string, t: string, b: string)
    ensures (a + t + b)[..|a|] == a && (a + t + b)[|a| + |t|..] == b
  {
  }

  /** `t` found earlier than where it was put repeats itself, so it begins as the mask does. */
  lemma EarlierMeansRepeating(t: string, mask: string, m: int, post: string, j: nat)
    requires 0 < m < |t| && mask != "" && AgreesAt(t, mask, -m) && j < m && OccursAt(t[..m] + t + post, t, j)
    ensures t[0] == mask[0]
  {
    var line := t[..m] + t + post;
    assert t[0] == line[j..][0] == line[j] == t[j];
    assert t[m] == line[j..][m] == line[m + j] == t[j];
    assert t[m] == mask[-m + m];
  }

  lemma OccursSecond(a: string, t: string, b: string)
    ensures OccursAt(a + t + b, t, |a|)
  {
    assert (a + t + b)[|a|..] == t + b;
  }

  /** Beginning with the mask's last character is one way to meet the mask. */
  lemma LastCharacterMeets(t: string, mask: string)
    requires t != "" && mask != "" && t[0] == mask[|mask| - 1]
    ensures AgreesAt(t, mask, |mask| - 1)
  {
  }

  lemma ReturnsFromBefore(t: string, mask: string, m: int) returns (line: string)
    requires mask != "" && mask[0] == mask[|mask| - 1] && 0 < m < |t| && AgreesAt(t, mask, -m)
    ensures Contains(ReplaceAll(line, t, mask), t)
  {
    line := t[..m] + t + RestFrom(t, m + |mask|);
    OccursSecond(t[..m], t, RestFrom(t, m + |mask|));
    var first := IndexOf(line, t);
    if first == m {
      ReplacedInMiddle(t[..m], t, RestFrom(t, m + |mask|), mask);
      MaskHolds(t, mask, m);
    } else {
      EarlierMeansRepeating(t, mask, m, RestFrom(t, m + |mask|), first);
      LastCharacterMeets(t, mask);
      line := t + RestFrom(t, |mask| - (|mask| - 1));
      ReturnsAfterMask(t, mask, |mask| - 1);
    }
  }

  /** A secret that can meet the mask shows again on some line once that line is scrubbed. */
  lemma OverlapReturns(t: string, mask: string) returns (line: string)
    requires t != "" && mask != "" && mask[0] == mask[|mask| - 1] && Overlaps(t, mask)
    ensures Contains(ReplaceAll(line, t, mask), t)
  {
    var k :| -|t| < k < |mask| && AgreesAt(t, mask, k);
    if k >= 0 {
      line := t + RestFrom(t, |mask| - k);
      ReturnsAfterMask(t, mask, k);
    } else {
      line := ReturnsFromBefore(t, mask, -k);
    }
  }

  lemma OneSecret(s: string, line: string)
    requires Effective(s)
    ensures CompleteOn([s], line) <==> !Contains(ReplaceAll(line, Trim(s), MASK), Trim(s))
  {
    assert [s][1..] == [] && s in [s];
    assert Scrubbed([s], line) == ReplaceAll(line, Trim(s), MASK);
  }

  /** One secret, with any characters in it, is hidden on every line exactly when it cannot be laid
      over the mask so that the two agree. */
  lemma SingleSecretExactlyWhen(s: string)
    requires Effective(s)
    ensures (forall line :: CompleteOn([s], line)) <==> !Overlaps(Trim(s), MASK)
  {
    if Overlaps(Trim(s), MASK) {
      var line := OverlapReturns(Trim(s), MASK);
      OneSecret(s, line);
      assert !CompleteOn([s], line);
    } else {
      forall line ensures CompleteOn([s], line) {
        ScrubIsComplete([s], line);
      }
    }
  }

  /** A line that holds no searched secret is passed through untouched. */
  lemma {:induction false} CleanLineUntouched(secrets: seq<string>, line: string)
    requires Clean(secrets, line)
    ensures Scrubbed(secrets, line) == line
  {
    if secrets != [] {
      assert secrets[0] in secrets;
      assert ScrubOne(secrets[0], line) == line;
      CleanLineUntouched(secrets[1..], line);
    }
  }
}
