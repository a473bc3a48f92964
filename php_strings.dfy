/**
 * The PHP string built-ins the module relies on: `(string)` of a
 * string-or-null, truthiness, `trim`/`rtrim`, ASCII case conversion, and the
 * `(int)` / `(float) > 0` conversions of numeric strings.
 *
 * A Dafny `string` stands for the text a PHP string holds (stored as UTF-8);
 * every function here only ever looks at ASCII characters, which is exactly
 * what the PHP built-ins do byte by byte.
 */
module PhpStrings {
  import opened Wrappers

  /** `(string)$v` for a value that is either a string or `null`. */
  function Str(v: Option<string>): (r: string)
    ensures v.None? ==> r == ""
    ensures v.Some? ==> r == v.value
  {
    v.GetOr("")
  }

  /** PHP truthiness of a string-or-null: `null`, `''` and `'0'` are false. */
  predicate Truthy(v: Option<string>) {
    v.Some? && v.value != "" && v.value != "0"
  }

  // ---------------------------------------------------------------------------
  // trim / rtrim
  // ---------------------------------------------------------------------------

  /** The characters `trim` removes by default: space, \t, \n, \r, \0 and \x0B. */
  predicate IsTrimChar(c: char) {
    c == ' ' || c == '\t' || c == '\n' || c == '\r' || c == '\0' || c as int == 11
  }

  /** `rtrim($s, $c)` for a single character `$c`. */
  function RTrim(s: string, c: char): string {
    if |s| > 0 && s[|s| - 1] == c then RTrim(s[..|s| - 1], c) else s
  }

  /** `rtrim` keeps a prefix of `s` that does not end in `c`, and drops only copies of `c`. */
  lemma {:induction false} RTrimStripsTrailing(s: string, c: char)
    ensures var r := RTrim(s, c);
            && |r| <= |s| && r == s[..|r|]
            && (r == [] || r[|r| - 1] != c)
            && (forall i :: |r| <= i < |s| ==> s[i] == c)
  {
    if |s| > 0 && s[|s| - 1] == c {
      var init := s[..|s| - 1];
      RTrimStripsTrailing(init, c);
      var r := RTrim(init, c);
      assert s[..|r|] == init[..|r|];
    }
  }

  /** `k` copies of `c`. */
  function Repeat(c: char, k: nat): (r: string)
    ensures |r| == k
    ensures forall i :: 0 <= i < k ==> r[i] == c
  {
    if k == 0 then [] else Repeat(c, k - 1) + [c]
  }

  /** Any number of extra trailing `c` make no difference to `rtrim($s, $c)`. */
  lemma {:induction false} RTrimIgnoresTrailing(s: string, c: char, k: nat)
    ensures RTrim(s + Repeat(c, k), c) == RTrim(s, c)
  {
    if k > 0 {
      var t := s + Repeat(c, k);
      assert t[..|t| - 1] == s + Repeat(c, k - 1);
      RTrimIgnoresTrailing(s, c, k - 1);
    } else {
      assert s + Repeat(c, k) == s;
    }
  }

  /** Right half of `trim`: drops trailing whitespace. */
  function TrimEnd(s: string): (r: string)
    ensures |r| <= |s| && r == s[..|r|]
    ensures r == [] || !IsTrimChar(r[|r| - 1])
    ensures forall i :: |r| <= i < |s| ==> IsTrimChar(s[i])
  {
    if |s| > 0 && IsTrimChar(s[|s| - 1]) then TrimEnd(s[..|s| - 1]) else s
  }

  /** Number of whitespace characters `trim` strips from the start of `s`. */
  function LeadingTrimCount(s: string): (n: nat)
    ensures n <= |s|
    ensures forall i :: 0 <= i < n ==> IsTrimChar(s[i])
    ensures n < |s| ==> !IsTrimChar(s[n])
  {
    if s != [] && IsTrimChar(s[0]) then 1 + LeadingTrimCount(s[1..]) else 0
  }

  /**
   * `trim($s)`: the piece of `s` that starts at its first non-whitespace
   * character, does not end with whitespace, and after which `s` holds only
   * whitespace.
   */
  function Trim(s: string): (r: string)
    ensures r == [] || (!IsTrimChar(r[0]) && !IsTrimChar(r[|r| - 1]))
    ensures LeadingTrimCount(s) + |r| <= |s|
    ensures r == s[LeadingTrimCount(s)..LeadingTrimCount(s) + |r|]
    ensures forall i :: LeadingTrimCount(s) + |r| <= i < |s| ==> IsTrimChar(s[i])
  {
    var n := LeadingTrimCount(s);
    var e := TrimEnd(s);
    var m := |e|;
    if n < m then
      assert s[m - 1] == e[m - 1];
      s[n..m]
    else []
  }

  // ---------------------------------------------------------------------------
  // ASCII case conversion (strtoupper / strtolower)
  // ---------------------------------------------------------------------------

  function UpperChar(c: char): char {
    if 'a' <= c <= 'z' then (c as int - 32) as char else c
  }

  function LowerChar(c: char): char {
    if 'A' <= c <= 'Z' then (c as int + 32) as char else c
  }

  /** `strtoupper`: every ASCII lower-case letter is upper-cased, nothing else changes. */
  function ToUpper(s: string): (r: string)
    ensures |r| == |s|
    ensures forall i :: 0 <= i < |s| ==> r[i] == UpperChar(s[i])
  {
    if s == [] then [] else [UpperChar(s[0])] + ToUpper(s[1..])
  }

  /** `strtolower`: every ASCII upper-case letter is lower-cased, nothing else changes. */
  function ToLower(s: string): (r: string)
    ensures |r| == |s|
    ensures forall i :: 0 <= i < |s| ==> r[i] == LowerChar(s[i])
  {
    if s == [] then [] else [LowerChar(s[0])] + ToLower(s[1..])
  }

  /** Lower-casing forgets any earlier upper-casing: case does not matter to `strtolower`. */
  lemma LowerOfUpper(s: string)
    ensures ToLower(ToUpper(s)) == ToLower(s)
  {
    forall i | 0 <= i < |s|
      ensures ToLower(ToUpper(s))[i] == ToLower(s)[i]
    {
      assert LowerChar(UpperChar(s[i])) == LowerChar(s[i]);
    }
  }

  // ---------------------------------------------------------------------------
  // Decimal integers: (string)$int and (int)$string
  // ---------------------------------------------------------------------------

  predicate IsDigit(c: char) {
    '0' <= c <= '9'
  }

  predicate AllDigits(s: string) {
    forall i :: 0 <= i < |s| ==> IsDigit(s[i])
  }

  function DigitChar(d: nat): (c: char)
    requires d < 10
    ensures IsDigit(c)
  {
    ('0' as int + d) as char
  }

  function DigitValue(c: char): nat
    requires IsDigit(c)
  {
    c as int - '0' as int
  }

  /** The decimal digits of `n`, without sign or leading zeros. */
  function NatToString(n: nat): (r: string)
    ensures r != [] && AllDigits(r)
    ensures |r| > 1 ==> r[0] != '0'
    decreases n
  {
    if n < 10 then [DigitChar(n)] else NatToString(n / 10) + [DigitChar(n % 10)]
  }

  /** `(string)$i` for a PHP integer. */
  function IntToString(i: int): string {
    if i < 0 then "-" + NatToString(-i) else NatToString(i)
  }

  /** The number a run of decimal digits denotes. */
  function DigitsValue(s: string): nat
    requires AllDigits(s)
  {
    if s == [] then 0 else DigitsValue(s[..|s| - 1]) * 10 + DigitValue(s[|s| - 1])
  }

  /** Length of the longest run of digits at the start of `s`. */
  function DigitRun(s: string): (n: nat)
    ensures n <= |s|
  {
    if s != [] && IsDigit(s[0]) then 1 + DigitRun(s[1..]) else 0
  }

  /** The run is made of digits and cannot be extended. */
  lemma {:induction false} DigitRunIsMaximal(s: string)
    ensures AllDigits(s[..DigitRun(s)])
    ensures DigitRun(s) < |s| ==> !IsDigit(s[DigitRun(s)])
  {
    if s != [] && IsDigit(s[0]) {
      DigitRunIsMaximal(s[1..]);
      var n := DigitRun(s);
      assert s[..n] == [s[0]] + s[1..][..n - 1];
    }
  }

  /** The whitespace PHP skips before a numeric string: space, \t, \n, \r, \v, \f. */
  predicate IsNumericSpace(c: char) {
    c == ' ' || c == '\t' || c == '\n' || c == '\r' || c as int == 11 || c as int == 12
  }

  function SkipNumericSpace(s: string): (r: string)
    ensures |r| <= |s| && r == s[|s| - |r|..]
    ensures r == [] || !IsNumericSpace(r[0])
  {
    if s != [] && IsNumericSpace(s[0]) then SkipNumericSpace(s[1..]) else s
  }

  /** The value of the leading digit run of `s`, 0 when there is none. */
  function LeadingDigitsValue(s: string): nat {
    var n := DigitRun(s);
    DigitRunIsMaximal(s);
    DigitsValue(s[..n])
  }

  /**
   * `(int)$s` for strings without an exponent: optional leading whitespace,
   * an optional sign, then the longest run of decimal digits; anything that
   * does not start that way is 0. PHP 7.1 and later read a numeric prefix
   * with an exponent (`"1e3"`) as a float first and give 1000; this
   * function stops at the `e` and gives 1.
   */
  function ToInt(s: string): int {
    var t := SkipNumericSpace(s);
    if t != [] && t[0] == '-' then -(LeadingDigitsValue(t[1..]) as int)
    else if t != [] && t[0] == '+' then LeadingDigitsValue(t[1..])
    else LeadingDigitsValue(t)
  }

  lemma {:induction false} DigitsValueOfNatToString(n: nat)
    ensures DigitsValue(NatToString(n)) == n
    decreases n
  {
    var r := NatToString(n);
    if n >= 10 {
      DigitsValueOfNatToString(n / 10);
      assert r[..|r| - 1] == NatToString(n / 10);
    }
  }

  lemma {:induction false} DigitRunOfDigits(s: string)
    requires AllDigits(s)
    ensures DigitRun(s) == |s|
    decreases |s|
  {
    if s != [] {
      DigitRunOfDigits(s[1..]);
    }
  }

  /** A run of digits read by `(int)` gives the number the digits denote. */
  lemma LeadingDigitsOfDigits(d: string)
    requires AllDigits(d)
    ensures LeadingDigitsValue(d) == DigitsValue(d)
  {
    DigitRunOfDigits(d);
    assert d[..|d|] == d;
  }

  /** `(int)` of a non-empty digit string, with or without a leading minus. */
  lemma ToIntOfDigits(d: string)
    requires d != [] && AllDigits(d)
    ensures ToInt(d) == DigitsValue(d)
    ensures ToInt("-" + d) == -(DigitsValue(d) as int)
  {
    LeadingDigitsOfDigits(d);
    assert !IsNumericSpace(d[0]);
    assert SkipNumericSpace(d) == d;
    var m := "-" + d;
    assert m[0] == '-' && !IsNumericSpace(m[0]);
    assert SkipNumericSpace(m) == m;
    assert m[1..] == d;
  }

  /** `(int)(string)$i == $i`: rendering an integer and casting it back is the identity. */
  lemma ToIntOfIntToString(i: int)
    ensures ToInt(IntToString(i)) == i
  {
    var n: nat := if i < 0 then -i else i;
    ToIntOfDigits(NatToString(n));
    DigitsValueOfNatToString(n);
  }

  /** `s` is written the way PHP writes an integer: no `+`, no leading zeros, no `-0`. */
  predicate IsCanonicalInt(s: string) {
    || (s != [] && AllDigits(s) && (s[0] != '0' || |s| == 1))
    || (|s| > 1 && s[0] == '-' && AllDigits(s[1..]) && s[1] != '0')
  }

  lemma {:induction false} LeadingNonZeroIsPositive(d: string)
    requires d != [] && AllDigits(d) && d[0] != '0'
    ensures DigitsValue(d) >= 1
    decreases |d|
  {
    if |d| > 1 {
      LeadingNonZeroIsPositive(d[..|d| - 1]);
    }
  }

  lemma {:induction false} NatToStringOfDigits(d: string)
    requires d != [] && AllDigits(d) && (d[0] != '0' || |d| == 1)
    ensures NatToString(DigitsValue(d)) == d
    decreases |d|
  {
    if |d| > 1 {
      var p := d[..|d| - 1];
      NatToStringOfDigits(p);
      LeadingNonZeroIsPositive(p);
      var v := DigitsValue(d);
      assert v / 10 == DigitsValue(p) && v % 10 == DigitValue(d[|d| - 1]);
      assert d == p + [d[|d| - 1]];
    }
  }

  /** `(string)(int)$s == $s` exactly for the strings PHP itself writes for integers. */
  lemma CanonicalIntRoundTrip(s: string)
    requires IsCanonicalInt(s)
    ensures IntToString(ToInt(s)) == s
  {
    if s[0] == '-' {
      var d := s[1..];
      assert s == "-" + d;
      ToIntOfDigits(d);
      LeadingNonZeroIsPositive(d);
      NatToStringOfDigits(d);
    } else {
      ToIntOfDigits(s);
      NatToStringOfDigits(s);
    }
  }

  // ---------------------------------------------------------------------------
  // (float)$s > 0
  // ---------------------------------------------------------------------------

  /**
   * The decimal mantissa `ddd[.ddd]` at the start of `s` has a non-zero
   * digit; `seenPoint` says whether its point has been passed already.
   */
  predicate PositiveMantissa(s: string, seenPoint: bool) {
    if s == [] then false
    else if IsDigit(s[0]) then s[0] != '0' || PositiveMantissa(s[1..], seenPoint)
    else if s[0] == '.' && !seenPoint then PositiveMantissa(s[1..], true)
    else false
  }

  /**
   * `(float)$s > 0`: after leading whitespace and an optional sign, the leading
   * decimal mantissa is non-zero and the sign is not `-`.
   */
  predicate IsPositiveNumber(s: string) {
    var t := SkipNumericSpace(s);
    if t != [] && t[0] == '-' then false
    else if t != [] && t[0] == '+' then PositiveMantissa(t[1..], false)
    else PositiveMantissa(t, false)
  }

  /** A string that does not start (after whitespace and sign) with a digit or point is 0.0, never positive. */
  lemma NonNumericIsNotPositive(s: string)
    requires var t := SkipNumericSpace(s);
             t == [] || (t[0] != '+' && t[0] != '-' && t[0] != '.' && !IsDigit(t[0]))
    ensures !IsPositiveNumber(s)
  {
  }

  /** The decimal rendering of a positive integer is a positive number. */
  lemma PositiveIntIsPositiveNumber(n: nat)
    requires n > 0
    ensures IsPositiveNumber(NatToString(n))
  {
    var d := NatToString(n);
    assert SkipNumericSpace(d) == d by {
      assert !IsNumericSpace(d[0]);
    }
    assert '1' <= d[0] <= '9' by {
      if |d| == 1 {
        assert d[0] == DigitChar(n);
      }
    }
  }


}
