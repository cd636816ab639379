/**
 * The few ECMAScript string operations the panel relies on:
 * `String.prototype.startsWith`, `String.prototype.includes` and
 * `String.prototype.trim`. Strings are sequences of Unicode scalar values.
 */
module JsStrings {

  /** `s.startsWith(prefix)`. */
  predicate StartsWith(s: string, prefix: string) {
    |prefix| <= |s| && s[..|prefix|] == prefix
  }

  /** `sub` occurs in `s` starting at index `i`. */
  predicate OccursAt(s: string, sub: string, i: nat) {
    i + |sub| <= |s| && s[i..i + |sub|] == sub
  }

  /** `sub` occurs somewhere in `s`. */
  ghost predicate Mentions(s: string, sub: string) {
    exists i: nat :: OccursAt(s, sub, i)
  }

  /** `s.includes(sub)`, written as the left-to-right scan an engine performs. */
  function Includes(s: string, sub: string): (found: bool)
    ensures found <==> Mentions(s, sub)
    decreases |s|
  {
    if StartsWith(s, sub) then
      assert OccursAt(s, sub, 0);
      true
    else if |s| == 0 then
      assert forall i: nat :: !OccursAt(s, sub, i);
      false
    else
      var found := Includes(s[1..], sub);
      assert forall i: nat :: OccursAt(s[1..], sub, i) ==> OccursAt(s, sub, i + 1);
      assert forall i: nat :: OccursAt(s, sub, i) ==> i > 0 && OccursAt(s[1..], sub, i - 1);
      found
  }

  /** WhiteSpace and LineTerminator code points of ECMA-262 (sections 12.2 and 12.3):
      exactly the characters `trim` removes. */
  predicate IsJsSpace(c: char) {
    || c == '\t' || c == '\n' || c == '\U{B}' || c == '\U{C}' || c == '\r'
    || c == ' ' || c == '\U{A0}' || c == '\U{1680}'
    || ('\U{2000}' <= c <= '\U{200A}')
    || c == '\U{2028}' || c == '\U{2029}' || c == '\U{202F}' || c == '\U{205F}'
    || c == '\U{3000}' || c == '\U{FEFF}'
  }

  /** `s[lo..hi]` is white space only. */
  predicate SpaceBetween(s: string, lo: nat, hi: nat) {
    forall k :: lo <= k < hi && k < |s| ==> IsJsSpace(s[k])
  }

  predicate AllSpace(s: string) {
    SpaceBetween(s, 0, |s|)
  }

  /** The first index from `i` on that does not hold white space (or `|s|`). */
  function SkipSpace(s: string, i: nat): (j: nat)
    requires i <= |s|
    ensures i <= j <= |s| && SpaceBetween(s, i, j) && (j < |s| ==> !IsJsSpace(s[j]))
    decreases |s| - i
  {
    if i < |s| && IsJsSpace(s[i]) then SkipSpace(s, i + 1) else i
  }

  /** The end of `s[lo..hi]` without its trailing white space. */
  function SkipSpaceBack(s: string, lo: nat, hi: nat): (m: nat)
    requires lo <= hi <= |s|
    ensures lo <= m <= hi && SpaceBetween(s, m, hi) && (m > lo ==> !IsJsSpace(s[m - 1]))
    decreases hi - lo
  {
    if hi > lo && IsJsSpace(s[hi - 1]) then SkipSpaceBack(s, lo, hi - 1) else hi
  }

  /** `r` is `s[i..i + |r|]`, with white space only before and after it. */
  predicate TrimmedAt(s: string, r: string, i: nat) {
    i + |r| <= |s| && s[i..i + |r|] == r && SpaceBetween(s, 0, i) && SpaceBetween(s, i + |r|, |s|)
  }

  /** `s.trim()`: the leading and the trailing white space go. */
  function Trim(s: string): (r: string)
    ensures exists i: nat :: TrimmedAt(s, r, i)
    ensures r == [] || (!IsJsSpace(r[0]) && !IsJsSpace(r[|r| - 1]))
    ensures r == [] <==> AllSpace(s)
  {
    var i := SkipSpace(s, 0);
    var m := SkipSpaceBack(s, i, |s|);
    assert TrimmedAt(s, s[i..m], i);
    if m == i then
      []
    else
      assert s[i..m][0] == s[i] && s[i..m][m - i - 1] == s[m - 1];
      s[i..m]
  }

  /** Trimming is determined by the characterisation in `Trim`'s contract: any
      infix with space-only margins and non-space ends is the trimmed string. */
  lemma TrimUnique(s: string, r: string, i: nat)
    requires TrimmedAt(s, r, i)
    requires r == [] || (!IsJsSpace(r[0]) && !IsJsSpace(r[|r| - 1]))
    ensures Trim(s) == r
  {
    if r == [] {
      assert AllSpace(s);
    } else {
      var j := SkipSpace(s, 0);
      assert s[i] == r[0] && s[i + |r| - 1] == r[|r| - 1];
      assert j == i;
      var m := SkipSpaceBack(s, i, |s|);
      assert m == i + |r|;
    }
  }

  /** A string with no white space at either end is its own trim. */
  lemma TrimFixed(s: string)
    requires s == [] || (!IsJsSpace(s[0]) && !IsJsSpace(s[|s| - 1]))
    ensures Trim(s) == s
  {
    assert TrimmedAt(s, s, 0) by {
      assert s[0..0 + |s|] == s;
      assert s[..0] == [];
      assert s[|s|..] == [];
    }
    TrimUnique(s, s, 0);
  }

  /** Trimming twice is trimming once. */
  lemma TrimIdempotent(s: string)
    ensures Trim(Trim(s)) == Trim(s)
  {
    TrimFixed(Trim(s));
  }

  // ---------------------------------------------------------------------------
  // Numbers as text

  predicate IsDigit(c: char) {
    '0' <= c <= '9'
  }

  function DigitChar(d: nat): (c: char)
    requires d < 10
    ensures IsDigit(c) && c as int - '0' as int == d
  {
    ('0' as int + d) as char
  }

  /** The decimal numeral of `n`, as `Number.prototype.toString` writes it below 10^21. */
  function Decimal(n: nat): (s: string)
    ensures s != [] && forall k :: 0 <= k < |s| ==> IsDigit(s[k])
    ensures s[0] == '0' ==> n == 0 && s == "0"
    decreases n
  {
    if n < 10 then [DigitChar(n)] else Decimal(n / 10) + [DigitChar(n % 10)]
  }

  /** The value a numeral denotes. */
  function DigitsValue(s: string): nat
    requires forall k :: 0 <= k < |s| ==> IsDigit(s[k])
    decreases |s|
  {
    if s == [] then 0
    else
      assert IsDigit(s[|s| - 1]);
      10 * DigitsValue(s[..|s| - 1]) + (s[|s| - 1] as int - '0' as int)
  }

  /** The numeral reads back as the number it was written from. */
  lemma {:induction false} DecimalRoundTrip(n: nat)
    ensures DigitsValue(Decimal(n)) == n
    decreases n
  {
    if n >= 10 {
      DecimalRoundTrip(n / 10);
      var s := Decimal(n);
      assert s[..|s| - 1] == Decimal(n / 10);
    }
  }

  /** `String(n)` for an integer: a '-' before the numeral of a negative number. */
  function IntString(n: int): (s: string)
    ensures s != []
    ensures n < 0 <==> s[0] == '-'
    ensures n >= 0 ==> s == Decimal(n)
    ensures n < 0 ==> s[1..] == Decimal(-n)
  {
    if n < 0 then "-" + Decimal(-n) else Decimal(n)
  }
}
