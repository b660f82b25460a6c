/** JavaScript values and string operations that the storefront relies on:
    optional values, promise outcomes, truthiness of strings, `trim`,
    ASCII `toLowerCase`, `includes`, `startsWith` and number-to-string. */
module Js {

  /** `undefined`/`null` versus a present value. */
  datatype Option<+T> = None | Some(value: T)

  /** A settled promise: fulfilled with a value or rejected with an `Error` message. */
  datatype Result<+T> = Ok(value: T) | Err(message: string)

  /** A settled promise whose value is ignored. */
  datatype Outcome = Done | Failed(message: string)

  /** A string-valued property is truthy exactly when it is present and non-empty. */
  predicate Truthy(s: Option<string>) {
    s.Some? && s.value != ""
  }

  /** `s || fallback` for a string-valued property. */
  function Or(s: Option<string>, fallback: string): string {
    if Truthy(s) then s.value else fallback
  }

  /** `xs || []` for an array-valued property. */
  function OrEmpty<T>(xs: Option<seq<T>>): seq<T> {
    if xs.Some? then xs.value else []
  }

  /** The characters `String.prototype.trim` removes: WhiteSpace and LineTerminator. */
  const WHITE_SPACE: set<char> := {
    0x09 as char, 0x0A as char, 0x0B as char, 0x0C as char, 0x0D as char, 0x20 as char,
    0xA0 as char, 0x1680 as char,
    0x2000 as char, 0x2001 as char, 0x2002 as char, 0x2003 as char, 0x2004 as char, 0x2005 as char,
    0x2006 as char, 0x2007 as char, 0x2008 as char, 0x2009 as char, 0x200A as char,
    0x2028 as char, 0x2029 as char, 0x202F as char, 0x205F as char, 0x3000 as char, 0xFEFF as char
  }

  predicate IsSpace(c: char) {
    c in WHITE_SPACE
  }

  /** Every character of `s` is white space. */
  predicate AllSpace(s: string) {
    forall i :: 0 <= i < |s| ==> IsSpace(s[i])
  }

  /** `s[lo..hi]` is white space. */
  predicate SpaceBetween(s: string, lo: int, hi: int) {
    0 <= lo <= hi <= |s| && forall i :: lo <= i < hi ==> IsSpace(s[i])
  }

  function TrimStart(s: string): (r: string)
    ensures |r| <= |s| && r == s[|s| - |r|..]
    ensures r == [] || !IsSpace(r[0])
    ensures SpaceBetween(s, 0, |s| - |r|)
  {
    if s == [] || !IsSpace(s[0]) then s
    else
      var r := TrimStart(s[1..]);
      assert forall i :: 1 <= i < |s| - |r| ==> s[i] == s[1..][i - 1];
      r
  }

  function TrimEnd(s: string): (r: string)
    ensures |r| <= |s| && r == s[..|r|]
    ensures r == [] || !IsSpace(r[|r| - 1])
    ensures SpaceBetween(s, |r|, |s|)
  {
    if s == [] || !IsSpace(s[|s| - 1]) then s else TrimEnd(s[..|s| - 1])
  }

  /** A leading white-space character is cut off. */
  lemma TrimStartSpace(c: char, s: string)
    requires IsSpace(c)
    ensures TrimStart([c] + s) == TrimStart(s)
  {
    assert ([c] + s)[1..] == s;
  }

  /** `s` is white space, then `r` from index `a` on, then white space again. */
  predicate PaddedBy(s: string, r: string, a: int) {
    && OccursAt(s, r, a)
    && SpaceBetween(s, 0, a)
    && SpaceBetween(s, a + |r|, |s|)
  }

  /** `s.trim()`: white space removed from both ends of `s`, and only there. */
  function Trim(s: string): (r: string)
    ensures r == [] || (!IsSpace(r[0]) && !IsSpace(r[|r| - 1]))
    ensures exists a :: PaddedBy(s, r, a)
  {
    TrimPadding(s);
    TrimEnd(TrimStart(s))
  }

  lemma TrimPadding(s: string)
    ensures PaddedBy(s, TrimEnd(TrimStart(s)), |s| - |TrimStart(s)|)
  {
    var t := TrimStart(s);
    var r := TrimEnd(t);
    assert SpaceBetween(s, 0, |s| - |t|);
    TrimOccurs(s, t, r);
    SpaceAfterTrim(s, t, r);
  }

  lemma TrimOccurs(s: string, t: string, r: string)
    requires |t| <= |s| && t == s[|s| - |t|..]
    requires |r| <= |t| && r == t[..|r|]
    ensures OccursAt(s, r, |s| - |t|)
  {
    var a := |s| - |t|;
    assert s[a..a + |r|] == s[a..][..|r|];
  }

  lemma SpaceAfterTrim(s: string, t: string, r: string)
    requires |t| <= |s| && t == s[|s| - |t|..]
    requires |r| <= |t| && SpaceBetween(t, |r|, |t|)
    ensures SpaceBetween(s, |s| - |t| + |r|, |s|)
  {
    var a := |s| - |t|;
    forall i | a + |r| <= i < |s| ensures IsSpace(s[i]) {
      assert s[i] == t[i - a];
    }
  }

  /** Trimming twice is trimming once. */
  lemma TrimIdempotent(s: string)
    ensures Trim(Trim(s)) == Trim(s)
  {
    TrimOfUnpadded(Trim(s));
  }

  lemma {:induction false} TrimStartOfBlank(s: string)
    requires AllSpace(s)
    ensures TrimStart(s) == []
    decreases |s|
  {
    if s != [] {
      assert IsSpace(s[0]);
      TrimStartOfBlank(s[1..]);
    }
  }

  /** A string made only of white space trims to nothing. */
  lemma TrimOfBlank(s: string)
    requires AllSpace(s)
    ensures Trim(s) == []
  {
    TrimStartOfBlank(s);
  }

  /** ASCII part of `toLowerCase`. */
  function LowerChar(c: char): char {
    if 'A' <= c <= 'Z' then (c as int + 32) as char else c
  }

  function ToLower(s: string): (r: string)
    ensures |r| == |s|
    ensures forall i :: 0 <= i < |s| ==> r[i] == LowerChar(s[i])
  {
    if s == [] then [] else [LowerChar(s[0])] + ToLower(s[1..])
  }

  /** `needle` occurs in `hay` starting at index `i`. */
  predicate OccursAt(hay: string, needle: string, i: int) {
    0 <= i && i + |needle| <= |hay| && hay[i..i + |needle|] == needle
  }

  /** `hay.includes(needle)`. */
  predicate Contains(hay: string, needle: string) {
    exists i | 0 <= i <= |hay| :: OccursAt(hay, needle, i)
  }

  /** `s.startsWith(prefix)`. */
  predicate StartsWith(s: string, prefix: string) {
    |prefix| <= |s| && s[..|prefix|] == prefix
  }

  predicate IsDigit(c: char) {
    '0' <= c <= '9'
  }

  function DigitChar(d: nat): (c: char)
    requires d < 10
    ensures IsDigit(c) && c as int - '0' as int == d
  {
    ('0' as int + d) as char
  }

  /** Decimal digits of a natural number, no leading zeros. */
  function NatToString(n: nat): (s: string)
    ensures |s| >= 1 && forall i :: 0 <= i < |s| ==> IsDigit(s[i])
    ensures |s| > 1 ==> s[0] != '0'
    decreases n
  {
    if n < 10 then [DigitChar(n)] else NatToString(n / 10) + [DigitChar(n % 10)]
  }

  /** `String(n)` for an integer. */
  function IntToString(n: int): string {
    if n < 0 then "-" + NatToString(-n) else NatToString(n)
  }

  predicate AllDigits(s: string) {
    forall i :: 0 <= i < |s| ==> IsDigit(s[i])
  }

  /** The value of a string of decimal digits. */
  function DigitsValue(s: string): nat
    requires AllDigits(s)
    decreases |s|
  {
    if s == [] then 0 else DigitsValue(s[..|s| - 1]) * 10 + (s[|s| - 1] as int - '0' as int)
  }

  /** `Number(s)` for the strings that denote integers in decimal: white space around,
      an optional sign, and digits; the empty (or blank) string is 0. Any other string
      is `NaN`, here `None`. */
  function ToNumber(s: string): (r: Option<int>)
    ensures Trim(s) == [] ==> r == Some(0)
    ensures r.Some? && AllDigits(Trim(s)) ==> r.value >= 0
    ensures Trim(s) != [] && AllDigits(Trim(s)) ==> r == Some(DigitsValue(Trim(s)))
  {
    NumberOfTrimmed(Trim(s))
  }

  /** `Number` once the white space around has been cut off. */
  function NumberOfTrimmed(t: string): (r: Option<int>)
    ensures t == [] ==> r == Some(0)
    ensures r.Some? && AllDigits(t) ==> r.value >= 0
    ensures t != [] && AllDigits(t) ==> r == Some(DigitsValue(t))
  {
    var signed := |t| >= 1 && (t[0] == '-' || t[0] == '+');
    var digits := if signed then t[1..] else t;
    if AllDigits(digits) && (!signed || digits != []) then
      var v: int := DigitsValue(digits);
      Some(if signed && t[0] == '-' then -v else v)
    else None
  }

  lemma {:induction false} DigitsOfNat(n: nat)
    ensures AllDigits(NatToString(n)) && DigitsValue(NatToString(n)) == n
    decreases n
  {
    var s := NatToString(n);
    if n >= 10 {
      DigitsOfNat(n / 10);
      assert s[..|s| - 1] == NatToString(n / 10);
    }
  }

  /** A string without white space at either end is its own trim. */
  lemma TrimOfUnpadded(s: string)
    requires s != [] ==> !IsSpace(s[0]) && !IsSpace(s[|s| - 1])
    ensures Trim(s) == s
  {
  }

  /** Digits and the minus sign are not white space. */
  lemma SignOrDigitNotSpace(c: char)
    requires IsDigit(c) || c == '-'
    ensures !IsSpace(c)
  {
  }

  /** An unsigned or a `-`-prefixed run of digits reads as its value. */
  lemma NumberOfDigits(d: string)
    requires d != [] && AllDigits(d)
    ensures NumberOfTrimmed(d) == Some(DigitsValue(d))
    ensures NumberOfTrimmed("-" + d) == Some(-(DigitsValue(d) as int))
  {
    assert IsDigit(d[0]);
    assert ("-" + d)[1..] == d;
  }

  /** `String(n)` begins and ends with a digit or the sign, never with white space. */
  lemma IntToStringUnpadded(n: int)
    ensures var s := IntToString(n); s != [] && !IsSpace(s[0]) && !IsSpace(s[|s| - 1])
  {
    var s := IntToString(n);
    var d := NatToString(if n < 0 then -n else n);
    assert s[|s| - 1] == d[|d| - 1];
    SignOrDigitNotSpace(s[0]);
    SignOrDigitNotSpace(s[|s| - 1]);
  }

  /** `Number(String(n)) === n`. */
  lemma ToNumberOfIntToString(n: int)
    ensures ToNumber(IntToString(n)) == Some(n)
  {
    var s := IntToString(n);
    DigitsOfNat(if n < 0 then -n else n);
    NumberOfDigits(NatToString(if n < 0 then -n else n));
    IntToStringUnpadded(n);
    TrimOfUnpadded(s);
  }
}
