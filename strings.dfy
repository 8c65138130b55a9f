/** String primitives the client relies on: Python's `str.index`, `str.strip`,
    `str.lstrip` and `str(int)`. */
module Strings {
  import opened Wrappers

  newtype byte = x: int | 0 <= x < 256

  /** `pat` occurs in `s` starting at position `i`. */
  predicate OccursAt(s: string, pat: string, i: int) {
    0 <= i && i + |pat| <= |s| && s[i..i + |pat|] == pat
  }

  /** The first position at or after `from` where `pat` occurs in `s`
      (Python's `s.index(pat, from)`, with `None` for its ValueError). */
  function IndexFrom(s: string, pat: string, from: nat): (r: Option<nat>)
    ensures r.Some? ==> from <= r.value && OccursAt(s, pat, r.value)
    ensures r.Some? ==> forall j :: from <= j < r.value ==> !OccursAt(s, pat, j)
    ensures r.None? ==> forall j :: from <= j ==> !OccursAt(s, pat, j)
    decreases |s| - from
  {
    if from + |pat| > |s| then None
    else if s[from..from + |pat|] == pat then Some(from)
    else IndexFrom(s, pat, from + 1)
  }

  /** Python's `s.index(pat)`: the first occurrence of `pat`, if any. */
  function IndexOf(s: string, pat: string): (r: Option<nat>)
    ensures r.Some? ==> OccursAt(s, pat, r.value) && r.value + |pat| <= |s|
    ensures r.Some? ==> forall j :: 0 <= j < r.value ==> !OccursAt(s, pat, j)
    ensures r.None? ==> forall j :: !OccursAt(s, pat, j)
  {
    IndexFrom(s, pat, 0)
  }

  /** If `pat` occurs at `i` and nowhere before, `s.index(pat)` is `i`. */
  lemma IndexOfIsFirst(s: string, pat: string, i: nat)
    requires OccursAt(s, pat, i)
    requires forall j :: 0 <= j < i ==> !OccursAt(s, pat, j)
    ensures IndexOf(s, pat) == Some(i)
  {
  }

  /** If `pat` occurs nowhere in `s`, `s.index(pat)` fails. */
  lemma IndexOfAbsent(s: string, pat: string)
    requires forall j :: !OccursAt(s, pat, j)
    ensures IndexOf(s, pat) == None
  {
  }

  /** The first position of the character `c` in `s` (Python's `s.index(c)`
      for a one-character pattern). */
  function IndexOfChar(s: string, c: char): (r: Option<nat>)
    ensures r.Some? ==> r.value < |s| && s[r.value] == c
    ensures r.Some? ==> forall k :: 0 <= k < r.value ==> s[k] != c
    ensures r.None? ==> forall k :: 0 <= k < |s| ==> s[k] != c
  {
    if s == [] then None
    else if s[0] == c then Some(0)
    else match IndexOfChar(s[1..], c)
         case None => None
         case Some(i) => Some(i + 1)
  }

  /** Searching for a one-character string is searching for its character. */
  lemma IndexOfSingle(s: string, c: char)
    ensures IndexOf(s, [c]) == IndexOfChar(s, c)
  {
    forall j | 0 <= j < |s| ensures OccursAt(s, [c], j) <==> s[j] == c {
      assert s[j..j + 1] == [s[j]];
    }
    match IndexOfChar(s, c)
    case None =>
      IndexOfAbsent(s, [c]);
    case Some(i) =>
      IndexOfIsFirst(s, [c], i);
  }

  // ----- decimal integers -----

  predicate IsDigit(c: char) { '0' <= c <= '9' }

  function DigitChar(d: nat): (c: char)
    requires d < 10
    ensures IsDigit(c) && c as int - '0' as int == d
  {
    ('0' as int + d) as char
  }

  /** The decimal digits of `n`, most significant first, without leading zeros. */
  function NatDigits(n: nat): (r: string)
    ensures |r| > 0 && forall k :: 0 <= k < |r| ==> IsDigit(r[k])
    ensures |r| > 1 ==> r[0] != '0'
    decreases n
  {
    if n < 10 then [DigitChar(n)] else NatDigits(n / 10) + [DigitChar(n % 10)]
  }

  /** Python's `str(i)` for an int. */
  function DecimalString(i: int): (r: string)
    ensures |r| > 0
    ensures i >= 0 ==> forall k :: 0 <= k < |r| ==> IsDigit(r[k])
    ensures i < 0 ==> r[0] == '-' && forall k :: 1 <= k < |r| ==> IsDigit(r[k])
  {
    if i < 0 then "-" + NatDigits(-i) else NatDigits(i)
  }

  /** Python's `int(s)` for a string of digits (the inverse of `NatDigits`). */
  function ParseNat(s: string): nat
  {
    if s == [] then 0
    else
      var d := s[|s| - 1] as int - '0' as int;
      ParseNat(s[..|s| - 1]) * 10 + (if 0 <= d < 10 then d else 0)
  }

  /** Python's `int(s)` for an optionally signed decimal string. */
  function ParseDecimal(s: string): int
  {
    if |s| > 0 && s[0] == '-' then var n: int := ParseNat(s[1..]); -n else ParseNat(s)
  }

  lemma {:induction false} ParseNatDigits(n: nat)
    ensures ParseNat(NatDigits(n)) == n
    decreases n
  {
    if n >= 10 {
      var front := NatDigits(n / 10);
      var s := front + [DigitChar(n % 10)];
      assert s[..|s| - 1] == front;
      ParseNatDigits(n / 10);
    }
  }

  /** `int(str(i)) == i`: the decimal rendering loses nothing. */
  lemma DecimalRoundTrip(i: int)
    ensures ParseDecimal(DecimalString(i)) == i
  {
    if i < 0 {
      var s := DecimalString(i);
      assert s[1..] == NatDigits(-i);
      ParseNatDigits(-i);
    } else {
      ParseNatDigits(i);
    }
  }

  /** Distinct integers have distinct decimal renderings. */
  lemma DecimalInjective(i: int, j: int)
    requires DecimalString(i) == DecimalString(j)
    ensures i == j
  {
    DecimalRoundTrip(i);
    DecimalRoundTrip(j);
  }

  // ----- stripping a character -----

  /** Python's `s.lstrip(c)`. */
  function LStrip(s: string, c: char): (r: string)
    ensures |r| <= |s| && r == s[|s| - |r|..]
    ensures forall k :: 0 <= k < |s| - |r| ==> s[k] == c
    ensures |r| > 0 ==> r[0] != c
  {
    if |s| > 0 && s[0] == c then LStrip(s[1..], c) else s
  }

  /** Python's `s.rstrip(c)`. */
  function RStrip(s: string, c: char): (r: string)
    ensures |r| <= |s| && r == s[..|r|]
    ensures forall k :: |r| <= k < |s| ==> s[k] == c
    ensures |r| > 0 ==> r[|r| - 1] != c
  {
    if |s| > 0 && s[|s| - 1] == c then RStrip(s[..|s| - 1], c) else s
  }

  /** Python's `s.strip(c)`. */
  function Strip(s: string, c: char): (r: string)
    ensures |r| > 0 ==> r[0] != c && r[|r| - 1] != c
  {
    RStrip(LStrip(s, c), c)
  }

  /** `strip` removes exactly the leading and trailing run of `c`: the input
      is some copies of `c`, the result, and some more copies of `c`. */
  lemma StripRemovesOnlyEnds(s: string, c: char)
    ensures exists a, b :: 0 <= a <= b <= |s| && Strip(s, c) == s[a..b]
                        && (forall k :: 0 <= k < a ==> s[k] == c)
                        && (forall k :: b <= k < |s| ==> s[k] == c)
  {
    var l := LStrip(s, c);
    var r := RStrip(l, c);
    var a := |s| - |l|;
    var b := a + |r|;
    assert r == s[a..b];
    assert forall k :: b <= k < |s| ==> s[k] == l[k - a];
  }

  /** Stripping twice is stripping once. */
  lemma StripIdempotent(s: string, c: char)
    ensures Strip(Strip(s, c), c) == Strip(s, c)
  {
    var r := Strip(s, c);
    assert LStrip(r, c) == r;
    assert RStrip(r, c) == r;
  }
}
