/** The string operations the JavaScript code relies on, over `seq<char>`:
    `toLowerCase` (ASCII letters only), `includes`, the `<`/`<=` and
    `localeCompare` order (lexicographic on characters), `trim`,
    `Number.prototype.toString`, `padStart` and `Number.parseInt`. */
module Strings {

  // ---------------------------------------------------------------------
  // Case

  predicate IsUpper(c: char) { 'A' <= c <= 'Z' }

  function LowerChar(c: char): char {
    if IsUpper(c) then (c as int + 32) as char else c
  }

  /** `s.toLowerCase()`, restricted to the ASCII letters. */
  function Lower(s: string): (r: string)
    ensures |r| == |s|
    ensures forall i :: 0 <= i < |s| ==> r[i] == LowerChar(s[i])
  {
    if s == [] then [] else [LowerChar(s[0])] + Lower(s[1..])
  }

  /** Lowering twice is lowering once, and a lowered string has no
      upper-case letter left. */
  lemma LowerIdempotent(s: string)
    ensures Lower(Lower(s)) == Lower(s)
    ensures forall i :: 0 <= i < |s| ==> !IsUpper(Lower(s)[i])
  {
  }

  // ---------------------------------------------------------------------
  // Substring search

  predicate OccursAt(s: string, q: string, i: int) {
    0 <= i <= |s| - |q| && s[i..i + |q|] == q
  }

  /** `s.includes(q)`. */
  predicate Contains(s: string, q: string) {
    exists i | 0 <= i <= |s| - |q| :: OccursAt(s, q, i)
  }

  /** `s.toLowerCase().includes(q.toLowerCase())`. */
  predicate ContainsIgnoreCase(s: string, q: string) {
    Contains(Lower(s), Lower(q))
  }

  /** The empty query occurs in every string, with or without case folding. */
  lemma ContainsEmpty(s: string)
    ensures Contains(s, "")
    ensures ContainsIgnoreCase(s, "")
  {
    assert OccursAt(s, "", 0);
    assert OccursAt(Lower(s), Lower(""), 0);
  }

  /** A string occurs in itself, and case differences do not stop a match. */
  lemma ContainsIgnoreCaseSelf(s: string, t: string)
    requires Lower(s) == Lower(t)
    ensures ContainsIgnoreCase(s, t)
  {
    assert OccursAt(Lower(s), Lower(t), 0);
  }

  // ---------------------------------------------------------------------
  // Lexicographic order (string `<`, `<=` and `localeCompare`)

  /** The sign of the comparison of `a` with `b`, character by character,
      a proper prefix coming first. */
  function LexCompare(a: string, b: string): (r: int)
    ensures -1 <= r <= 1
    decreases |a|
  {
    if |a| == 0 then (if |b| == 0 then 0 else -1)
    else if |b| == 0 then 1
    else if a[0] < b[0] then -1
    else if a[0] > b[0] then 1
    else LexCompare(a[1..], b[1..])
  }

  predicate LexLe(a: string, b: string) {
    LexCompare(a, b) <= 0
  }

  lemma {:induction false} LexCompareAntisymmetric(a: string, b: string)
    ensures LexCompare(b, a) == -LexCompare(a, b)
    decreases |a|
  {
    if |a| > 0 && |b| > 0 && a[0] == b[0] {
      LexCompareAntisymmetric(a[1..], b[1..]);
    }
  }

  lemma {:induction false} LexCompareZero(a: string, b: string)
    ensures LexCompare(a, b) == 0 <==> a == b
    decreases |a|
  {
    if |a| > 0 && |b| > 0 && a[0] == b[0] {
      LexCompareZero(a[1..], b[1..]);
      if a[1..] == b[1..] {
        assert a == [a[0]] + a[1..] && b == [b[0]] + b[1..];
      }
    }
  }

  lemma LexLeTotal(a: string, b: string)
    ensures LexLe(a, b) || LexLe(b, a)
  {
    LexCompareAntisymmetric(a, b);
  }

  lemma LexLeAntisymmetric(a: string, b: string)
    requires LexLe(a, b) && LexLe(b, a)
    ensures a == b
  {
    LexCompareAntisymmetric(a, b);
    LexCompareZero(a, b);
  }

  lemma {:induction false} LexLeTransitive(a: string, b: string, c: string)
    requires LexLe(a, b) && LexLe(b, c)
    ensures LexLe(a, c)
    decreases |a|
  {
    if |a| > 0 && |b| > 0 && |c| > 0 && a[0] == b[0] == c[0] {
      LexLeTransitive(a[1..], b[1..], c[1..]);
    }
  }

  // ---------------------------------------------------------------------
  // Trimming

  /** The ASCII white space and line terminators, no-break space and the
      byte-order mark, all of which JavaScript's `trim` removes. */
  predicate IsSpace(c: char) {
    c == ' ' || c == '\t' || c == '\n' || c == '\r' || c == '\U{000B}' ||
    c == '\U{000C}' || c == '\U{00A0}' || c == '\U{FEFF}'
  }

  /** The number of white-space characters `s` starts with. */
  function LeadingSpaces(s: string): (k: nat)
    ensures k <= |s|
    ensures forall i :: 0 <= i < k ==> IsSpace(s[i])
    ensures k < |s| ==> !IsSpace(s[k])
  {
    if s == [] || !IsSpace(s[0]) then 0 else 1 + LeadingSpaces(s[1..])
  }

  /** The number of white-space characters `s` ends with. */
  function TrailingSpaces(s: string): (k: nat)
    ensures k <= |s|
    ensures forall i :: |s| - k <= i < |s| ==> IsSpace(s[i])
    ensures k < |s| ==> !IsSpace(s[|s| - k - 1])
  {
    if s == [] || !IsSpace(s[|s| - 1]) then 0 else 1 + TrailingSpaces(s[..|s| - 1])
  }

  /** `s.trimStart()`. */
  function TrimStart(s: string): string {
    s[LeadingSpaces(s)..]
  }

  /** `s.trim()`: the middle slice of `s` left once the white space at both
      ends is gone; it neither starts nor ends with white space. */
  function Trim(s: string): (r: string)
    ensures exists i, j :: (0 <= i <= j <= |s| && r == s[i..j] &&
      (forall k :: 0 <= k < i ==> IsSpace(s[k])) &&
      (forall k :: j <= k < |s| ==> IsSpace(s[k])))
    ensures r != [] ==> !IsSpace(r[0]) && !IsSpace(r[|r| - 1])
  {
    var t := TrimStart(s);
    var r := t[..|t| - TrailingSpaces(t)];
    var i, j := LeadingSpaces(s), LeadingSpaces(s) + |r|;
    assert r == s[i..j];
    r
  }

  /** Trimming twice trims no more than trimming once. */
  lemma TrimIdempotent(s: string)
    ensures Trim(Trim(s)) == Trim(s)
  {
    var r := Trim(s);
    if r != [] {
      assert LeadingSpaces(r) == 0;
      assert TrimStart(r) == r;
      assert TrailingSpaces(r) == 0;
    }
  }

  // ---------------------------------------------------------------------
  // Printing numbers

  predicate IsDigit(c: char) { '0' <= c <= '9' }

  function DigitChar(d: nat): char
    requires d < 10
  {
    ('0' as int + d) as char
  }

  /** `n.toString()` for a non-negative integer: its decimal digits, with no
      leading zero. */
  function NatToString(n: nat): (r: string)
    ensures |r| >= 1
    ensures forall i :: 0 <= i < |r| ==> IsDigit(r[i])
    ensures n >= 10 ==> r[0] != '0'
    decreases n
  {
    if n < 10 then [DigitChar(n)] else NatToString(n / 10) + [DigitChar(n % 10)]
  }

  /** `i.toString()` for an integer. */
  function IntToString(i: int): string {
    if i < 0 then "-" + NatToString(-i) else NatToString(i)
  }

  /** `s.padStart(width, c)` with a one-character filler. */
  function PadStart(s: string, width: nat, c: char): (r: string)
    ensures |r| == if |s| >= width then |s| else width
    ensures r[|r| - |s|..] == s
    ensures forall i :: 0 <= i < |r| - |s| ==> r[i] == c
  {
    if |s| >= width then s else seq(width - |s|, _ => c) + s
  }

  // ---------------------------------------------------------------------
  // Parsing numbers

  /** A JavaScript number as `parseInt` can produce it. */
  datatype ParsedInt = NaN | Int(value: int)

  /** The value of a digit in radix up to 36, or -1 for a non-digit. */
  function DigitValue(c: char): int {
    if '0' <= c <= '9' then c as int - '0' as int
    else if 'a' <= c <= 'z' then c as int - 'a' as int + 10
    else if 'A' <= c <= 'Z' then c as int - 'A' as int + 10
    else -1
  }

  predicate IsRadixDigit(c: char, radix: nat) {
    0 <= DigitValue(c) < radix
  }

  /** The length of the longest prefix of `s` made of digits of `radix`. */
  function DigitRun(s: string, radix: nat): (k: nat)
    ensures k <= |s|
    ensures forall i :: 0 <= i < k ==> IsRadixDigit(s[i], radix)
    ensures k < |s| ==> !IsRadixDigit(s[k], radix)
  {
    if s == [] || !IsRadixDigit(s[0], radix) then 0 else 1 + DigitRun(s[1..], radix)
  }

  lemma MulNonNegative(a: nat, b: nat)
    ensures a * b >= 0
  {
  }

  /** The number a string of digits of `radix` denotes. */
  function DigitsValue(ds: string, radix: nat): nat
    requires forall i :: 0 <= i < |ds| ==> IsRadixDigit(ds[i], radix)
  {
    if ds == [] then 0
    else
      var init := ds[..|ds| - 1];
      assert forall i :: 0 <= i < |init| ==> IsRadixDigit(init[i], radix) by {
        forall i | 0 <= i < |init| ensures IsRadixDigit(init[i], radix) {
          assert init[i] == ds[i];
        }
      }
      var high := DigitsValue(init, radix);
      assert IsRadixDigit(ds[|ds| - 1], radix);
      var low: nat := DigitValue(ds[|ds| - 1]);
      MulNonNegative(high, radix);
      high * radix + low
  }

  /** The unsigned part of `Number.parseInt`: a `0x`/`0X` prefix switches to
      hexadecimal when `hexAllowed`, then the longest run of digits of the
      radix is read; no digit at all gives NaN. */
  function ParseMagnitude(u: string, radix: nat, hexAllowed: bool): ParsedInt {
    var hex := hexAllowed && |u| >= 2 && u[0] == '0' && (u[1] == 'x' || u[1] == 'X');
    var r := if hex then 16 else radix;
    var v := if hex then u[2..] else u;
    var z := v[..DigitRun(v, r)];
    if z == [] then NaN else Int(DigitsValue(z, r))
  }

  /** `Number.parseInt(s, radix)`, with radix 0 standing for an absent radix:
      leading white space is skipped, one sign is read, a `0x`/`0X` prefix
      switches to hexadecimal when no radix or radix 16 is given, and the
      longest run of digits is read; no digit at all gives NaN. */
  function ParseInt(s: string, radix: nat): ParsedInt {
    var t := TrimStart(s);
    var negative := |t| > 0 && t[0] == '-';
    var u := if |t| > 0 && (t[0] == '-' || t[0] == '+') then t[1..] else t;
    if radix != 0 && (radix < 2 || radix > 36) then NaN
    else
      match ParseMagnitude(u, if radix == 0 then 10 else radix, radix == 0 || radix == 16)
      case NaN => NaN
      case Int(n) => Int(if negative then -n else n)
  }

  lemma DigitCharValue(d: nat)
    requires d < 10
    ensures IsDigit(DigitChar(d)) && DigitValue(DigitChar(d)) == d
  {
  }

  /** The decimal digits of `n` denote `n`. */
  lemma {:induction false} NatToStringValue(n: nat)
    ensures forall i :: 0 <= i < |NatToString(n)| ==> IsRadixDigit(NatToString(n)[i], 10)
    ensures DigitsValue(NatToString(n), 10) == n
    decreases n
  {
    var s := NatToString(n);
    assert forall i :: 0 <= i < |s| ==> IsRadixDigit(s[i], 10);
    if n < 10 {
      DigitCharValue(n);
      assert s[..|s| - 1] == [];
    } else {
      NatToStringValue(n / 10);
      DigitCharValue(n % 10);
      assert s[..|s| - 1] == NatToString(n / 10);
    }
  }

  /** Leading zeros do not change the value of a string of digits. */
  lemma {:induction false} LeadingZeroValue(ds: string, radix: nat)
    requires radix >= 2
    requires forall i :: 0 <= i < |ds| ==> IsRadixDigit(ds[i], radix)
    ensures forall i :: 0 <= i < |['0'] + ds| ==> IsRadixDigit((['0'] + ds)[i], radix)
    ensures DigitsValue(['0'] + ds, radix) == DigitsValue(ds, radix)
    decreases |ds|
  {
    var z := ['0'] + ds;
    assert forall i :: 0 <= i < |z| ==> IsRadixDigit(z[i], radix);
    if ds == [] {
      assert z[..|z| - 1] == [];
    } else {
      LeadingZeroValue(ds[..|ds| - 1], radix);
      assert z[..|z| - 1] == ['0'] + ds[..|ds| - 1];
    }
  }

  /** The decimal digits of a natural number parse back to it. */
  lemma ParseMagnitudeOfNat(n: nat, hexAllowed: bool)
    ensures ParseMagnitude(NatToString(n), 10, hexAllowed) == Int(n)
  {
    var d := NatToString(n);
    NatToStringValue(n);
    assert d[..DigitRun(d, 10)] == d;
  }

  /** A whole string of digits of `radix`, with no hexadecimal prefix to
      look for, is read entirely. */
  lemma ParseMagnitudeDigits(d: string, radix: nat)
    requires |d| > 0
    requires forall i :: 0 <= i < |d| ==> IsRadixDigit(d[i], radix)
    ensures ParseMagnitude(d, radix, false) == Int(DigitsValue(d, radix))
  {
    assert d[..DigitRun(d, radix)] == d;
  }

  /** A non-empty string of decimal digits parses, in radix 10, to the
      number it denotes. */
  lemma ParseDigitString(d: string)
    requires |d| > 0
    requires forall i :: 0 <= i < |d| ==> IsRadixDigit(d[i], 10)
    ensures ParseInt(d, 10) == Int(DigitsValue(d, 10))
  {
    assert IsRadixDigit(d[0], 10);
    assert !IsSpace(d[0]) && d[0] != '-' && d[0] != '+';
    assert LeadingSpaces(d) == 0;
    assert TrimStart(d) == d;
    ParseMagnitudeDigits(d, 10);
  }

  /** Parsing the decimal rendering of an integer, with radix 10 or with no
      radix, gives that integer back. */
  lemma ParseIntToString(i: int, radix: nat)
    requires radix == 0 || radix == 10
    ensures ParseInt(IntToString(i), radix) == Int(i)
  {
    var n: nat := if i < 0 then -i else i;
    ParseMagnitudeOfNat(n, radix == 0);
    var s := IntToString(i);
    assert LeadingSpaces(s) == 0;
    assert TrimStart(s) == s;
    if i < 0 {
      assert s[1..] == NatToString(n);
    }
  }
}
