/**
 * The few ECMAScript string primitives the modelled code relies on:
 * `trim`, `slice`, `parseInt` (without a radix), `split(' ')` and `join(' ')`.
 */
module Text {
  import opened Common

  predicate IsDigit(c: char) { '0' <= c <= '9' }

  /**
   * ECMAScript white space and line terminators (tab to carriage return, the
   * space separators of Unicode category Zs, U+2028, U+2029 and U+FEFF): what
   * `trim` removes and what `parseInt` skips.
   */
  predicate IsSpace(c: char) {
    ('\t' <= c <= '\r') || c == ' ' || c == '\U{00A0}' || c == '\U{1680}'
    || ('\U{2000}' <= c <= '\U{200A}') || c == '\U{2028}' || c == '\U{2029}' || c == '\U{202F}'
    || c == '\U{205F}' || c == '\U{3000}' || c == '\U{FEFF}'
  }

  predicate AllDigits(s: string) {
    forall i :: 0 <= i < |s| ==> IsDigit(s[i])
  }

  predicate NoSpace(s: string) {
    forall i :: 0 <= i < |s| ==> !IsSpace(s[i])
  }

  /** `trimStart`: drops the leading white space. */
  function TrimStart(s: string): string {
    if |s| > 0 && IsSpace(s[0]) then TrimStart(s[1..]) else s
  }

  /** `trimEnd`: drops the trailing white space. */
  function TrimEnd(s: string): string {
    if |s| > 0 && IsSpace(s[|s| - 1]) then TrimEnd(s[..|s| - 1]) else s
  }

  /** `trimStart` keeps a suffix that does not start with white space, and drops only white space. */
  lemma {:induction false} TrimStartShape(s: string)
    ensures var r := TrimStart(s);
      |r| <= |s| && r == s[|s| - |r|..] && (r == [] || !IsSpace(r[0]))
      && forall i :: 0 <= i < |s| - |r| ==> IsSpace(s[i])
  {
    if |s| > 0 && IsSpace(s[0]) {
      TrimStartShape(s[1..]);
    }
  }

  /** `trimEnd` keeps a prefix that does not end with white space, and drops only white space. */
  lemma {:induction false} TrimEndShape(s: string)
    ensures var r := TrimEnd(s);
      |r| <= |s| && r == s[..|r|] && (r == [] || !IsSpace(r[|r| - 1]))
      && forall i :: |r| <= i < |s| ==> IsSpace(s[i])
  {
    if |s| > 0 && IsSpace(s[|s| - 1]) {
      TrimEndShape(s[..|s| - 1]);
    }
  }

  function Trim(s: string): string {
    TrimEnd(TrimStart(s))
  }

  /** A string that neither starts nor ends with white space is its own trim. */
  lemma TrimmedAlready(s: string)
    requires s == [] || (!IsSpace(s[0]) && !IsSpace(s[|s| - 1]))
    ensures Trim(s) == s
  {
    assert TrimStart(s) == s;
  }

  /** `s.slice(a, b)` for non-negative bounds: both are clamped to the length. */
  function Slice(s: string, a: nat, b: nat): (r: string)
    ensures |r| <= |s|
  {
    var lo := if a < |s| then a else |s|;
    var hi := if b < |s| then b else |s|;
    if lo < hi then s[lo..hi] else []
  }

  /** The value of a digit character (meaningful for digits only). */
  function DigitValue(c: char): int {
    c as int - '0' as int
  }

  function DigitChar(d: nat): (c: char)
    requires d < 10
    ensures IsDigit(c) && DigitValue(c) == d
  {
    ('0' as int + d) as char
  }

  /** The decimal value of a string of digits (meaningful for digits only). */
  function DigitsValue(s: string): int {
    if s == [] then 0 else DigitsValue(s[..|s| - 1]) * 10 + DigitValue(s[|s| - 1])
  }

  /** A hexadecimal digit, in either case. */
  predicate IsHexDigit(c: char) {
    IsDigit(c) || 'a' <= c <= 'f' || 'A' <= c <= 'F'
  }

  /** A digit of base 16 when `hex`, of base 10 otherwise. */
  predicate IsDigitOf(c: char, hex: bool) {
    if hex then IsHexDigit(c) else IsDigit(c)
  }

  /** The value of a hexadecimal digit, in either case (a decimal digit's own value). */
  function HexDigitValue(c: char): int {
    if IsDigit(c) then DigitValue(c)
    else if 'a' <= c <= 'f' then c as int - 'a' as int + 10
    else c as int - 'A' as int + 10
  }

  /** The longest prefix of `s` made of digits of the base. */
  function LeadingRun(s: string, hex: bool): string {
    if |s| > 0 && IsDigitOf(s[0], hex) then [s[0]] + LeadingRun(s[1..], hex) else []
  }

  /** The value of a run of digits in base 16 when `hex`, in base 10 otherwise. */
  function RunValue(s: string, hex: bool): int {
    if s == [] then 0 else RunValue(s[..|s| - 1], hex) * (if hex then 16 else 10) + HexDigitValue(s[|s| - 1])
  }

  /** The `0x` or `0X` prefix that switches `parseInt` without a radix to base 16. */
  predicate HexPrefixed(s: string) {
    |s| >= 2 && s[0] == '0' && (s[1] == 'x' || s[1] == 'X')
  }

  /**
   * `parseInt(s)` without a radix: leading white space, an optional sign, then
   * the longest run of hexadecimal digits after a `0x`/`0X` prefix, or else the
   * longest run of decimal digits; `None` stands for `NaN` (no digit at all).
   */
  function ParseInt(s: string): Option<int> {
    ParseSigned(TrimStart(s))
  }

  /** `parseInt` after the white space: a `-` negates, a `+` is skipped. */
  function ParseSigned(t: string): Option<int> {
    if |t| > 0 && t[0] == '-' then
      match ParseUnsigned(t[1..])
      case None => None
      case Some(n) => Some(-n)
    else if |t| > 0 && t[0] == '+' then ParseUnsigned(t[1..])
    else ParseUnsigned(t)
  }

  /** `parseInt` after the sign: base 16 behind `0x`/`0X`, base 10 otherwise. */
  function ParseUnsigned(u: string): Option<int> {
    if HexPrefixed(u) then ParseRun(u[2..], true) else ParseRun(u, false)
  }

  /** The value of the longest leading run of digits of the base; `None` when there is none. */
  function ParseRun(w: string, hex: bool): Option<int> {
    var digits := LeadingRun(w, hex);
    if digits == [] then None else Some(RunValue(digits, hex))
  }

  lemma {:induction false} LeadingOfDigits(s: string)
    requires AllDigits(s)
    ensures LeadingRun(s, false) == s
  {
    if s != [] {
      LeadingOfDigits(s[1..]);
    }
  }

  /** In base 10 a run's value is its decimal value. */
  lemma {:induction false} DecimalRun(s: string)
    requires AllDigits(s)
    ensures RunValue(s, false) == DigitsValue(s)
  {
    if s != [] {
      DecimalRun(s[..|s| - 1]);
    }
  }

  /** A non-empty run of digits parses to its decimal value. */
  lemma ParseDigits(s: string)
    requires s != [] && AllDigits(s)
    ensures ParseInt(s) == Some(DigitsValue(s))
  {
    assert TrimStart(s) == s;
    assert !HexPrefixed(s) by {
      assert |s| >= 2 ==> IsDigit(s[1]);
    }
    LeadingOfDigits(s);
    DecimalRun(s);
  }

  /** A non-empty run of hexadecimal digits behind `0x` parses to its hexadecimal value. */
  lemma ParseHex(s: string, x: char)
    requires s != [] && (forall i :: 0 <= i < |s| ==> IsHexDigit(s[i])) && (x == 'x' || x == 'X')
    ensures ParseInt(['0', x] + s) == Some(RunValue(s, true))
  {
    var t := ['0', x] + s;
    assert TrimStart(t) == t;
    assert t[2..] == s;
    LeadingOfHex(s);
  }

  lemma {:induction false} LeadingOfHex(s: string)
    requires forall i :: 0 <= i < |s| ==> IsHexDigit(s[i])
    ensures LeadingRun(s, true) == s
  {
    if s != [] {
      LeadingOfHex(s[1..]);
    }
  }

  /** `0x1F` reads as 31, while `0x` alone has no digit and is `NaN`. */
  lemma HexPrefixRead()
    ensures ParseInt("0x1F") == Some(31) && ParseInt("0x") == None
  {
    ParseHex("1F", 'x');
    assert "1F"[..1] == "1" && "1"[..0] == [];
    assert ['0', 'x'] + "1F" == "0x1F";
    assert TrimStart("0x") == "0x";
    assert "0x"[2..] == [];
  }

  /** Two-digit zero padding, as in `"07"`. */
  function Pad2(n: nat): (r: string)
    requires n < 100
    ensures |r| == 2 && AllDigits(r) && DigitsValue(r) == n
  {
    var r := [DigitChar(n / 10), DigitChar(n % 10)];
    assert r[..1][..0] == [];
    assert DigitsValue(r[..1]) == n / 10;
    r
  }

  /** Four-digit zero padding, as in `"2024"`: two two-digit halves. */
  function Pad4(n: nat): (r: string)
    requires n < 10000
    ensures |r| == 4 && AllDigits(r) && DigitsValue(r) == n
  {
    var r := Pad2(n / 100) + Pad2(n % 100);
    DigitsAppend2(Pad2(n / 100), Pad2(n % 100));
    r
  }

  /** Appending two digits multiplies the value by a hundred and adds theirs. */
  lemma DigitsAppend2(x: string, y: string)
    requires |y| == 2
    ensures DigitsValue(x + y) == DigitsValue(x) * 100 + DigitsValue(y)
  {
    var y0, y1 := DigitValue(y[0]), DigitValue(y[1]);
    assert (x + y)[..|x + y| - 1] == x + y[..1];
    assert (x + y[..1])[..|x|] == x;
    assert DigitsValue(x + y[..1]) == DigitsValue(x) * 10 + y0;
    assert DigitsValue(x + y) == DigitsValue(x + y[..1]) * 10 + y1;
    assert y[..1][..0] == [];
    assert DigitsValue(y[..1]) == y0;
    assert y[..|y| - 1] == y[..1];
    assert DigitsValue(y) == y0 * 10 + y1;
  }

  /** Two digits are the zero-padded form of their value. */
  lemma PadOfDigits2(s: string)
    requires |s| == 2 && AllDigits(s)
    ensures 0 <= DigitsValue(s) < 100 && Pad2(DigitsValue(s)) == s
  {
    assert s[..1][..0] == [];
    assert DigitsValue(s[..1]) == DigitValue(s[0]);
    var n := DigitsValue(s);
    assert n == DigitValue(s[0]) * 10 + DigitValue(s[1]);
    assert n / 10 == DigitValue(s[0]) && n % 10 == DigitValue(s[1]);
  }

  /** Four digits are the zero-padded form of their value. */
  lemma PadOfDigits4(s: string)
    requires |s| == 4 && AllDigits(s)
    ensures 0 <= DigitsValue(s) < 10000 && Pad4(DigitsValue(s)) == s
  {
    var hi, lo := s[..2], s[2..];
    assert s == hi + lo;
    DigitsAppend2(hi, lo);
    PadOfDigits2(hi);
    PadOfDigits2(lo);
    var n := DigitsValue(s);
    assert n / 100 == DigitsValue(hi) && n % 100 == DigitsValue(lo);
  }

  /** Cutting a slice around one of its characters. */
  lemma Cut(s: string, a: nat, k: nat, b: nat)
    requires a <= k < b <= |s|
    ensures s[a..b] == s[a..k] + [s[k]] + s[k + 1..b]
  {
  }

  /** A slice inside the left operand of a concatenation. */
  lemma SliceLeft(x: string, y: string, i: nat, j: nat)
    requires i <= j <= |x|
    ensures (x + y)[i..j] == x[i..j]
  {
  }

  /** A slice inside the right operand of a concatenation. */
  lemma SliceRight(x: string, y: string, i: nat, j: nat)
    requires |x| <= i <= j <= |x| + |y|
    ensures (x + y)[i..j] == y[i - |x|..j - |x|]
  {
  }

  /** A slice of a slice is a slice of the whole. */
  lemma SliceOfSlice(s: string, a: nat, b: nat, i: nat, j: nat)
    requires a <= b <= |s| && i <= j <= b - a
    ensures s[a..b][i..j] == s[a + i..a + j]
  {
    forall k | 0 <= k < j - i
      ensures s[a..b][i..j][k] == s[a + i..a + j][k]
    {
      assert s[a..b][i..j][k] == s[a..b][i + k] == s[a + i + k];
    }
  }

  /** `s.split(sep)` for a one-character separator: always at least one piece. */
  function Split(s: string, sep: char): (r: seq<string>)
    ensures |r| >= 1
  {
    if |s| == 0 then [""]
    else if s[0] == sep then [""] + Split(s[1..], sep)
    else
      var rest := Split(s[1..], sep);
      [[s[0]] + rest[0]] + rest[1..]
  }

  /** `xs.join(sep)`: the pieces with one separator between neighbours. */
  function Join(xs: seq<string>, sep: char): string {
    if |xs| == 0 then ""
    else if |xs| == 1 then xs[0]
    else xs[0] + [sep] + Join(xs[1..], sep)
  }

  /** A piece without the separator is split off whole. */
  lemma {:induction false} SplitAfter(a: string, b: string, sep: char)
    requires sep !in a
    ensures Split(a + [sep] + b, sep) == [a] + Split(b, sep)
    ensures Split(a, sep) == [a]
  {
    if a == [] {
      assert (a + [sep] + b)[1..] == b;
    } else {
      SplitAfter(a[1..], b, sep);
      assert a[0] != sep;
      assert (a + [sep] + b)[0] == a[0];
      assert (a + [sep] + b)[1..] == a[1..] + [sep] + b;
      assert [a[0]] + a[1..] == a;
    }
  }

  /** Splitting undoes joining when no piece contains the separator. */
  lemma {:induction false} SplitJoin(xs: seq<string>, sep: char)
    requires |xs| >= 1
    requires forall k :: 0 <= k < |xs| ==> sep !in xs[k]
    ensures Split(Join(xs, sep), sep) == xs
  {
    if |xs| == 1 {
      SplitAfter(xs[0], [], sep);
    } else {
      SplitJoin(xs[1..], sep);
      SplitAfter(xs[0], Join(xs[1..], sep), sep);
    }
  }

  /** The first piece of a join is its first element, followed by the separator or the end. */
  lemma {:induction false} JoinStartsWith(xs: seq<string>, sep: char)
    requires |xs| >= 1
    ensures Join(xs, sep)[..|xs[0]|] == xs[0]
    ensures |Join(xs, sep)| == |xs[0]| || Join(xs, sep)[|xs[0]|] == sep
  {
  }
}
