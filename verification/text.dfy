/**
 * String rules shared by the app and the backend: whitespace, blankness,
 * trimming, and the decimal text of integers (Kotlin's `Long.toString`,
 * `toIntOrNull`, `toLong`).
 */
module Text {
  import opened Wrappers

  const INT_MIN: int := -0x8000_0000
  const INT_MAX: int := 0x7FFF_FFFF
  const LONG_MIN: int := -0x8000_0000_0000_0000
  const LONG_MAX: int := 0x7FFF_FFFF_FFFF_FFFF

  /** A Kotlin `Long` / SQLite INTEGER value. */
  type Long = i: int | LONG_MIN <= i <= LONG_MAX

  /**
   * Whitespace: the ASCII and C0 characters that both Kotlin's
   * `Char.isWhitespace` and Python's regex class `\s` accept
   * (space, TAB, LF, VT, FF, CR and the four separators FS..US).
   */
  predicate IsSpace(c: char) {
    var n := c as int;
    n == 32 || 9 <= n <= 13 || 28 <= n <= 31
  }

  /** Kotlin's `CharSequence.isBlank`: empty or whitespace only. */
  predicate IsBlank(s: string) {
    forall i | 0 <= i < |s| :: IsSpace(s[i])
  }

  /** The first index at or after `i` that does not hold whitespace. */
  function SkipSpaces(s: string, i: nat): (j: nat)
    requires i <= |s|
    ensures i <= j <= |s|
    ensures forall k | i <= k < j :: IsSpace(s[k])
    ensures j < |s| ==> !IsSpace(s[j])
    decreases |s| - i
  {
    if i == |s| || !IsSpace(s[i]) then i else SkipSpaces(s, i + 1)
  }

  /** The end of `s[lo..hi]` once its trailing whitespace is dropped. */
  function TrimmedEnd(s: string, lo: nat, hi: nat): (e: nat)
    requires lo <= hi <= |s|
    ensures lo <= e <= hi
    ensures forall k | e <= k < hi :: IsSpace(s[k])
    ensures e > lo ==> !IsSpace(s[e - 1])
    decreases hi - lo
  {
    if hi == lo || !IsSpace(s[hi - 1]) then hi else TrimmedEnd(s, lo, hi - 1)
  }

  /**
   * Kotlin's `String.trim()`: the longest infix of `s` that neither starts
   * nor ends with whitespace, everything around it being whitespace.
   */
  function Trim(s: string): (r: string)
    ensures var i := SkipSpaces(s, 0);
            i + |r| <= |s| && r == s[i..i + |r|] && IsBlank(s[..i]) && IsBlank(s[i + |r|..])
    ensures r != [] ==> !IsSpace(r[0]) && !IsSpace(r[|r| - 1])
    ensures r == [] <==> IsBlank(s)
  {
    var i := SkipSpaces(s, 0);
    var e := TrimmedEnd(s, i, |s|);
    assert IsBlank(s) ==> i == |s|;
    s[i..e]
  }

  /** Trimming is idempotent. */
  lemma TrimIdempotent(s: string)
    ensures Trim(Trim(s)) == Trim(s)
  {
    var r := Trim(s);
    if r != [] {
      assert SkipSpaces(r, 0) == 0;
      assert TrimmedEnd(r, 0, |r|) == |r|;
    }
  }

  // ---------------------------------------------------------------------
  // Decimal text of integers

  predicate IsDigit(c: char) {
    '0' <= c <= '9'
  }

  predicate AllDigits(s: string) {
    forall i | 0 <= i < |s| :: IsDigit(s[i])
  }

  function DigitChar(d: nat): (c: char)
    requires d < 10
    ensures IsDigit(c)
  {
    (48 + d) as char
  }

  function DigitValue(c: char): nat
    requires IsDigit(c)
  {
    c as int - 48
  }

  /** The decimal numeral of `n`, without leading zeros. */
  function NatText(n: nat): (s: string)
    ensures |s| >= 1 && AllDigits(s)
    ensures |s| > 1 ==> s[0] != '0'
  {
    if n < 10 then [DigitChar(n)] else NatText(n / 10) + [DigitChar(n % 10)]
  }

  /** The value of a non-empty run of decimal digits. */
  function DigitsValue(s: string): nat
    requires AllDigits(s)
  {
    if s == [] then 0 else DigitsValue(s[..|s| - 1]) * 10 + DigitValue(s[|s| - 1])
  }

  /** Kotlin's `Long.toString()`: a minus sign for negatives, then the numeral. */
  function IntText(i: int): string {
    if i < 0 then "-" + NatText(-i) else NatText(i)
  }

  /**
   * Kotlin's `toIntOrNull` / `toLongOrNull` (and Java's `Long.parseLong`
   * returning an error instead of throwing): an optional `+` or `-`, then
   * one or more ASCII digits, and a value inside the target type's range.
   */
  function ParseInteger(s: string, lo: int, hi: int): (r: Option<int>)
    ensures r.Some? ==> lo <= r.value <= hi
    ensures s == [] ==> r == None
  {
    if s == [] then None
    else
      var neg := s[0] == '-';
      var body := if s[0] == '-' || s[0] == '+' then s[1..] else s;
      if body == [] || !AllDigits(body) then None
      else
        var m: int := DigitsValue(body);
        var v := if neg then -m else m;
        if lo <= v <= hi then Some(v) else None
  }

  lemma {:induction false} NatTextValue(n: nat)
    ensures DigitsValue(NatText(n)) == n
  {
    if n >= 10 {
      var s := NatText(n);
      NatTextValue(n / 10);
      assert s[..|s| - 1] == NatText(n / 10);
    }
  }

  /** Reading back the text of an in-range integer gives the integer. */
  lemma IntTextRoundTrip(i: int, lo: int, hi: int)
    requires lo <= i <= hi
    ensures ParseInteger(IntText(i), lo, hi) == Some(i)
  {
    var s := IntText(i);
    if i < 0 {
      NatTextValue(-i);
      assert s[0] == '-' && s[1..] == NatText(-i);
      assert DigitsValue(s[1..]) == -i;
    } else {
      NatTextValue(i);
      assert s == NatText(i) && IsDigit(s[0]);
      assert s[0] != '-' && s[0] != '+';
    }
  }

  /** The text of an integer is never blank and holds no whitespace. */
  lemma IntTextHasNoSpace(i: int)
    ensures |IntText(i)| >= 1
    ensures forall k | 0 <= k < |IntText(i)| :: !IsSpace(IntText(i)[k])
  {
    var n := NatText(if i < 0 then -i else i);
    assert forall k | 0 <= k < |n| :: IsDigit(n[k]);
  }
}
