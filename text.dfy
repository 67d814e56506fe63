/** Python string operations the generator relies on: `startswith`, the
    pieces of `split`, and the decimal rendering of an `int` in an f-string. */
module Text {
  import opened Values

  predicate StartsWith(s: string, prefix: string) {
    |prefix| <= |s| && s[..|prefix|] == prefix
  }

  /** `pat` occurs in `s` starting at index `i`. */
  predicate OccursAt(s: string, pat: string, i: int) {
    0 <= i && i + |pat| <= |s| && s[i..i + |pat|] == pat
  }

  /** `pat` occurs nowhere in `s` at or after `from`. */
  predicate NoneFrom(s: string, pat: string, from: nat) {
    forall k :: from <= k <= |s| ==> !OccursAt(s, pat, k)
  }

  /** `s.find(pat, from)`: the first occurrence of a non-empty pattern at or
      after `from`. */
  function Find(s: string, pat: string, from: nat): (r: Option<nat>)
    requires |pat| > 0
    decreases |s| - from
    ensures r.Some? ==> from <= r.value && OccursAt(s, pat, r.value)
    ensures r.Some? ==> forall k :: from <= k < r.value ==> !OccursAt(s, pat, k)
    ensures r.None? ==> NoneFrom(s, pat, from)
  {
    if from + |pat| > |s| then None
    else if s[from..from + |pat|] == pat then Some(from)
    else Find(s, pat, from + 1)
  }

  /** `s.split(pat)[0]`: everything before the first occurrence, or all of
      `s` when the pattern does not occur. */
  function SplitFirst(s: string, pat: string): (r: string)
    requires |pat| > 0
    ensures |r| <= |s| && r == s[..|r|]
    ensures forall k :: 0 <= k < |r| ==> !OccursAt(s, pat, k)
    ensures Find(s, pat, 0).Some? ==> OccursAt(s, pat, |r|)
    ensures Find(s, pat, 0).None? ==> r == s
  {
    match Find(s, pat, 0)
    case Some(i) => s[..i]
    case None => s
  }

  /** `s.split(pat)[1]`: the text between the first and second occurrences
      (or up to the end); the caller knows there is a first occurrence. */
  function SplitSecond(s: string, pat: string): (r: string)
    requires |pat| > 0 && Find(s, pat, 0).Some?
    ensures var i := Find(s, pat, 0).value + |pat|;
      && i + |r| <= |s| && r == s[i..i + |r|]
      && (forall k :: i <= k < i + |r| ==> !OccursAt(s, pat, k))
      && (i + |r| == |s| || OccursAt(s, pat, i + |r|))
  {
    var i := Find(s, pat, 0).value;
    var j := Find(s, pat, i + |pat|).GetOr(|s|);
    s[i + |pat|..j]
  }

  /** A pattern that is known to occur first at `i` is what Find returns. */
  lemma {:induction false} FindIs(s: string, pat: string, from: nat, i: nat)
    requires |pat| > 0 && from <= i && OccursAt(s, pat, i)
    requires forall k :: from <= k < i ==> !OccursAt(s, pat, k)
    ensures Find(s, pat, from) == Some(i)
    decreases i - from
  {
    if from < i {
      assert !OccursAt(s, pat, from);
      FindIs(s, pat, from + 1, i);
    }
  }

  /** Positions without an occurrence can be skipped by the search. */
  lemma {:induction false} FindSkip(s: string, pat: string, from: nat, to: nat)
    requires |pat| > 0 && from <= to
    requires forall k :: from <= k < to ==> !OccursAt(s, pat, k)
    ensures Find(s, pat, from) == Find(s, pat, to)
    decreases (to as int) - (from as int)
  {
    if from < to {
      assert !OccursAt(s, pat, from);
      FindSkip(s, pat, from + 1, to);
    }
  }

  /** An occurrence fixes each character it covers. */
  lemma OccursAtChar(s: string, pat: string, i: int, k: nat)
    requires k < |pat|
    ensures OccursAt(s, pat, i) ==> s[i + k] == pat[k]
  {
    if OccursAt(s, pat, i) {
      assert s[i..i + |pat|][k] == s[i + k];
    }
  }

  /** A string starting with `pat` has its first occurrence at 0. */
  lemma FindAtStart(s: string, pat: string)
    requires |pat| > 0 && StartsWith(s, pat)
    ensures Find(s, pat, 0) == Some(0)
  {
    FindIs(s, pat, 0, 0);
  }

  predicate IsDigit(c: char) { '0' <= c <= '9' }

  function DigitChar(d: nat): (c: char)
    requires d < 10
    ensures IsDigit(c)
  {
    "0123456789"[d]
  }

  function DigitValue(c: char): (d: nat)
    requires IsDigit(c)
    ensures d < 10
  {
    (c as int - '0' as int) as nat
  }

  /** `str(n)` for a natural number: the shortest decimal rendering. */
  function NatToString(n: nat): (s: string)
    decreases n
  {
    if n < 10 then [DigitChar(n)] else NatToString(n / 10) + [DigitChar(n % 10)]
  }

  predicate AllDigits(s: string) {
    forall i :: 0 <= i < |s| ==> IsDigit(s[i])
  }

  /** `int(s)` for a string of decimal digits. */
  function ParseDigits(s: string): nat
    requires AllDigits(s)
  {
    if s == [] then 0 else 10 * ParseDigits(s[..|s| - 1]) + DigitValue(s[|s| - 1])
  }

  /** The rendering is made of digits, is never empty, and reads back as n. */
  lemma {:induction false} NatToStringRoundTrip(n: nat)
    ensures |NatToString(n)| > 0 && AllDigits(NatToString(n))
    ensures ParseDigits(NatToString(n)) == n
    decreases n
  {
    var s := NatToString(n);
    if n < 10 {
      assert DigitValue(DigitChar(n)) == n;
    } else {
      NatToStringRoundTrip(n / 10);
      var p := NatToString(n / 10);
      assert s[..|s| - 1] == p;
      assert DigitValue(DigitChar(n % 10)) == n % 10;
    }
  }

  /** Numbers from 1000 to 9999 have exactly four digits. */
  lemma FourDigits(n: nat)
    requires 1000 <= n <= 9999
    ensures |NatToString(n)| == 4
  {
    assert n / 10 / 10 / 10 == n / 1000 < 10;
    assert |NatToString(n / 10 / 10)| == 2;
    assert |NatToString(n / 10)| == 3;
  }

  /** Distinct numbers have distinct renderings. */
  lemma NatToStringInjective(a: nat, b: nat)
    requires NatToString(a) == NatToString(b)
    ensures a == b
  {
    NatToStringRoundTrip(a);
    NatToStringRoundTrip(b);
  }
}
