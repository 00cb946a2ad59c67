// Shared vocabulary: the JavaScript values the application passes around,
// JavaScript truthiness and the handful of built-in string and number
// conversions (String(), parseInt, Number(), trim, /\D/ filtering) that the
// user-management code relies on.

module Js {

  datatype Option<T> = None | Some(value: T)

  /** A computation that either returns a value or throws an `Error` with a message. */
  datatype Result<T> = Ok(value: T) | Err(message: string)

  /** The message of the RangeError `new Date(d).toISOString()` throws for an invalid date. */
  const InvalidTimeValue: string := "Invalid time value"

  /** A JavaScript scalar. Numbers are integers; NaN is its own case. */
  datatype JsVal = Undefined | Null | Bool(b: bool) | Num(n: int) | NaN | Str(s: string)

  /** An object built key by key (a plain JavaScript object of scalars). */
  type Record = map<string, JsVal>

  /** A browser File object, as far as the application inspects it. */
  datatype FileInfo = FileInfo(mime: string, size: int)

  /** A picture field: a scalar (usually a path or URL), a File, or some other object. */
  datatype Picture = Scalar(v: JsVal) | File(f: FileInfo) | OtherObject

  predicate TruthyPicture(p: Picture)
  {
    !p.Scalar? || Truthy(p.v)
  }

  /** JavaScript truthiness: "", 0, NaN, null, undefined and false are falsy. */
  predicate Truthy(v: JsVal)
  {
    match v
    case Bool(b) => b
    case Num(n) => n != 0
    case Str(s) => s != ""
    case _ => false
  }

  predicate IsNullish(v: JsVal)
  {
    v.Undefined? || v.Null?
  }

  /** `a === b`: NaN is not equal to itself. */
  predicate StrictEquals(a: JsVal, b: JsVal)
  {
    a == b && !a.NaN?
  }

  /** `a || b` */
  function Or(a: JsVal, b: JsVal): (r: JsVal)
    ensures Truthy(a) ==> r == a
    ensures !Truthy(a) ==> r == b
  {
    if Truthy(a) then a else b
  }

  /** `a ?? b` */
  function Coalesce(a: JsVal, b: JsVal): (r: JsVal)
    ensures IsNullish(a) ==> r == b
    ensures !IsNullish(a) ==> r == a
  {
    if IsNullish(a) then b else a
  }

  /** Reading a property of a plain object: a missing key reads as undefined. */
  function Get(r: Record, k: string): JsVal
  {
    if k in r then r[k] else Undefined
  }

  /** `xs.map(f)` */
  function MapSeq<A, B>(xs: seq<A>, f: A -> B): (r: seq<B>)
    ensures |r| == |xs|
    ensures forall i :: 0 <= i < |xs| ==> r[i] == f(xs[i])
  {
    seq(|xs|, i requires 0 <= i < |xs| => f(xs[i]))
  }

  // ---------------------------------------------------------------------
  // Characters and strings

  predicate IsDigit(c: char)
  {
    '0' <= c <= '9'
  }

  predicate AllDigits(s: string)
  {
    forall i :: 0 <= i < |s| ==> IsDigit(s[i])
  }

  /** The characters JavaScript's `\s` and `trim` treat as white space or line terminators. */
  predicate IsJsSpace(c: char)
  {
    c == ' ' || c == '\t' || c == '\n' || c == '\r' || c == '\U{000B}' || c == '\U{000C}'
    || c == '\U{00A0}' || c == '\U{1680}' || ('\U{2000}' <= c <= '\U{200A}')
    || c == '\U{2028}' || c == '\U{2029}' || c == '\U{202F}' || c == '\U{205F}'
    || c == '\U{3000}' || c == '\U{FEFF}'
  }

  /** The characters a regular-expression `.` does not match. */
  predicate IsLineTerminator(c: char)
  {
    c == '\n' || c == '\r' || c == '\U{2028}' || c == '\U{2029}'
  }

  predicate StartsWith(s: string, p: string)
  {
    |p| <= |s| && s[..|p|] == p
  }

  predicate EndsWith(s: string, p: string)
  {
    |p| <= |s| && s[|s| - |p|..] == p
  }

  /** `s.includes(sub)` */
  predicate Contains(s: string, sub: string)
    decreases |s|
  {
    StartsWith(s, sub) || (|s| > 0 && Contains(s[1..], sub))
  }

  /** `s.replace(c, "")` with a one-character pattern: only the first occurrence goes. */
  function RemoveFirst(s: string, c: char): (r: string)
    decreases |s|
  {
    if |s| == 0 then s
    else if s[0] == c then s[1..]
    else [s[0]] + RemoveFirst(s[1..], c)
  }

  lemma {:induction false} RemoveFirstAfterDigits(a: string, b: string)
    requires AllDigits(a)
    ensures RemoveFirst(a + "-" + b, '-') == a + b
    decreases |a|
  {
    if |a| == 0 {
      assert a + "-" + b == "-" + b;
    } else {
      assert (a + "-" + b)[1..] == a[1..] + "-" + b;
      RemoveFirstAfterDigits(a[1..], b);
      assert a + b == [a[0]] + (a[1..] + b);
    }
  }

  /** `s.replace(/\D/g, "")`: the digits of `s`, in order. */
  function Digits(s: string): (r: string)
    ensures AllDigits(r)
    ensures |r| <= |s|
    decreases |s|
  {
    if |s| == 0 then ""
    else if IsDigit(s[0]) then [s[0]] + Digits(s[1..])
    else Digits(s[1..])
  }

  lemma {:induction false} DigitsOfDigits(s: string)
    requires AllDigits(s)
    ensures Digits(s) == s
    decreases |s|
  {
    if |s| > 0 {
      DigitsOfDigits(s[1..]);
    }
  }

  lemma {:induction false} DigitsConcat(a: string, b: string)
    ensures Digits(a + b) == Digits(a) + Digits(b)
    decreases |a|
  {
    if |a| > 0 {
      assert (a + b)[1..] == a[1..] + b;
      DigitsConcat(a[1..], b);
    } else {
      assert a + b == b;
    }
  }

  /** Digits of a string built from digits and separator characters. */
  lemma DigitsOfSeparator(c: char)
    requires !IsDigit(c)
    ensures Digits([c]) == ""
  {
  }

  function TrimStart(s: string): (r: string)
    ensures |r| <= |s| && EndsWith(s, r)
    ensures |r| > 0 ==> !IsJsSpace(r[0])
    decreases |s|
  {
    if |s| > 0 && IsJsSpace(s[0]) then TrimStart(s[1..]) else s
  }

  function TrimEnd(s: string): (r: string)
    ensures |r| <= |s| && StartsWith(s, r)
    ensures |r| > 0 ==> !IsJsSpace(r[|r| - 1])
    decreases |s|
  {
    if |s| > 0 && IsJsSpace(s[|s| - 1]) then TrimEnd(s[..|s| - 1]) else s
  }

  /** `s.trim()` */
  function Trim(s: string): (r: string)
    ensures |r| <= |s|
    ensures |r| > 0 ==> !IsJsSpace(r[0]) && !IsJsSpace(r[|r| - 1])
  {
    TrimEnd(TrimStart(s))
  }

  function LowerAsciiChar(c: char): char
  {
    if 'A' <= c <= 'Z' then (c as int + 32) as char else c
  }

  /** `toLowerCase()` on the ASCII letters. */
  function ToLowerAscii(s: string): (r: string)
    ensures |r| == |s|
    ensures forall i :: 0 <= i < |s| ==> r[i] == LowerAsciiChar(s[i])
  {
    seq(|s|, i requires 0 <= i < |s| => LowerAsciiChar(s[i]))
  }

  /** A JavaScript string's `length`: the UTF-16 code units, two for a character above U+FFFF. */
  function Utf16Length(s: string): (n: nat)
    ensures |s| <= n <= 2 * |s|
    decreases |s|
  {
    if |s| == 0 then 0 else (if s[0] > '\U{FFFF}' then 2 else 1) + Utf16Length(s[1..])
  }

  /** Without characters above U+FFFF, `length` is the number of characters. */
  lemma {:induction false} Utf16LengthOfBmp(s: string)
    requires forall i :: 0 <= i < |s| ==> s[i] <= '\U{FFFF}'
    ensures Utf16Length(s) == |s|
    decreases |s|
  {
    if |s| > 0 {
      Utf16LengthOfBmp(s[1..]);
    }
  }

  function Repeat(c: char, n: nat): (r: string)
    ensures |r| == n
    ensures forall i :: 0 <= i < n ==> r[i] == c
  {
    seq(n, _ => c)
  }

  /** `s.padStart(n, c)` with a one-character filler. */
  function PadStart(s: string, n: nat, c: char): (r: string)
    ensures |s| >= n ==> r == s
    ensures |s| < n ==> |r| == n && r[n - |s|..] == s && forall i :: 0 <= i < n - |s| ==> r[i] == c
  {
    if |s| >= n then s else Repeat(c, n - |s|) + s
  }

  // ---------------------------------------------------------------------
  // Decimal numerals

  function DigitChar(d: nat): (c: char)
    requires d < 10
    ensures IsDigit(c)
  {
    ('0' as int + d) as char
  }

  function CharValue(c: char): (d: nat)
    requires IsDigit(c)
    ensures d < 10
  {
    c as int - '0' as int
  }

  /** The value of a decimal numeral (leading zeros allowed). */
  function DecimalValue(s: string): nat
    requires AllDigits(s)
    decreases |s|
  {
    if |s| == 0 then 0 else 10 * DecimalValue(s[..|s| - 1]) + CharValue(s[|s| - 1])
  }

  /** The shortest decimal numeral of `n`. */
  function NatToDecimal(n: nat): (r: string)
    ensures AllDigits(r) && |r| >= 1
    decreases n
  {
    if n < 10 then [DigitChar(n)] else NatToDecimal(n / 10) + [DigitChar(n % 10)]
  }

  lemma {:induction false} DecimalRoundTrip(n: nat)
    ensures DecimalValue(NatToDecimal(n)) == n
    decreases n
  {
    var s := NatToDecimal(n);
    if n >= 10 {
      DecimalRoundTrip(n / 10);
      assert s[..|s| - 1] == NatToDecimal(n / 10);
    }
  }

  function Pow10(k: nat): (r: nat)
    ensures r >= 1
  {
    if k == 0 then 1 else 10 * Pow10(k - 1)
  }

  lemma Pow10Values()
    ensures Pow10(1) == 10 && Pow10(2) == 100 && Pow10(7) == 10000000
    ensures Pow10(8) == 100000000 && Pow10(9) == 1000000000
  {
    assert Pow10(3) == 1000;
    assert Pow10(5) == 100000;
    assert Pow10(7) == 10000000;
  }

  /** A number with exactly `k` decimal digits is written with `k` characters. */
  lemma {:induction false} DecimalLength(n: nat, k: nat)
    requires k >= 1 && Pow10(k - 1) <= n < Pow10(k)
    ensures |NatToDecimal(n)| == k
    decreases k
  {
    if k > 1 {
      assert Pow10(k - 1) == 10 * Pow10(k - 2);
      assert Pow10(k - 2) <= n / 10 < Pow10(k - 1);
      DecimalLength(n / 10, k - 1);
    } else {
      assert n < 10;
    }
  }

  /** `String(v)` */
  function ToJsString(v: JsVal): string
  {
    match v
    case Undefined => "undefined"
    case Null => "null"
    case Bool(b) => if b then "true" else "false"
    case Num(n) => if n < 0 then "-" + NatToDecimal(-n) else NatToDecimal(n)
    case NaN => "NaN"
    case Str(s) => s
  }

  // ---------------------------------------------------------------------
  // parseInt and Number()

  /** The longest prefix of `s` made of decimal digits. */
  function DigitPrefix(s: string): (r: string)
    ensures AllDigits(r) && StartsWith(s, r)
    ensures |r| < |s| ==> !IsDigit(s[|r|])
    decreases |s|
  {
    if |s| > 0 && IsDigit(s[0]) then [s[0]] + DigitPrefix(s[1..]) else ""
  }

  predicate IsHexDigit(c: char)
  {
    IsDigit(c) || ('a' <= c <= 'f') || ('A' <= c <= 'F')
  }

  function HexValue(c: char): (d: nat)
    requires IsHexDigit(c)
    ensures d < 16
  {
    if IsDigit(c) then CharValue(c)
    else if 'a' <= c <= 'f' then c as int - 'a' as int + 10
    else c as int - 'A' as int + 10
  }

  /** The longest prefix of `s` made of hexadecimal digits. */
  function HexPrefix(s: string): (r: string)
    ensures |r| <= |s|
    ensures forall i :: 0 <= i < |r| ==> IsHexDigit(r[i])
    decreases |s|
  {
    if |s| > 0 && IsHexDigit(s[0]) then [s[0]] + HexPrefix(s[1..]) else ""
  }

  function HexNumeralValue(s: string): nat
    requires forall i :: 0 <= i < |s| ==> IsHexDigit(s[i])
    decreases |s|
  {
    if |s| == 0 then 0 else 16 * HexNumeralValue(s[..|s| - 1]) + HexValue(s[|s| - 1])
  }

  /** Leading sign handling shared by parseInt: (is negative, rest after the sign). */
  function SplitSign(s: string): (r: (bool, string))
    ensures |r.1| <= |s|
  {
    if |s| > 0 && (s[0] == '-' || s[0] == '+') then (s[0] == '-', s[1..]) else (false, s)
  }

  /** `n`, negated when `neg`. */
  function Signed(neg: bool, n: nat): int
  {
    if neg then -(n as int) else n
  }

  /** `s` starts with a `0x` or `0X` prefix, which makes `parseInt` without a radix read base 16. */
  predicate HexPrefixed(s: string)
  {
    |s| >= 2 && s[0] == '0' && (s[1] == 'x' || s[1] == 'X')
  }

  /** The longest run of digits at the head of `rest`, signed; NaN when there is none. */
  function SignedDigitRun(neg: bool, rest: string): (r: JsVal)
    ensures r.Num? || r.NaN?
    ensures r.NaN? <==> (|rest| == 0 || !IsDigit(rest[0]))
    ensures r.Num? ==> r.n == Signed(neg, DecimalValue(DigitPrefix(rest)))
  {
    var d := DigitPrefix(rest);
    if d == "" then NaN else Num(Signed(neg, DecimalValue(d)))
  }

  /**
   * `parseInt(s, 10)`: after leading blanks and at most one sign, the
   * longest run of digits, with the sign applied; NaN when no digit follows.
   */
  function ParseIntDecimal(s: string): (r: JsVal)
    ensures r.Num? || r.NaN?
    ensures |s| > 0 && IsDigit(s[0]) ==> r == Num(DecimalValue(DigitPrefix(s)))
    ensures |s| > 1 && (s[0] == '-' || s[0] == '+') && IsDigit(s[1]) ==>
      r == Num(Signed(s[0] == '-', DecimalValue(DigitPrefix(s[1..]))))
    ensures |s| > 0 && (s[0] == '-' || s[0] == '+') && (|s| == 1 || !IsDigit(s[1])) ==> r.NaN?
    ensures |s| > 0 && !IsJsSpace(s[0]) && !IsDigit(s[0]) && s[0] != '-' && s[0] != '+' ==> r.NaN?
  {
    var t := TrimStart(s);
    assert |s| > 0 && !IsJsSpace(s[0]) ==> t == s;
    assert |s| > 0 && (s[0] == '-' || s[0] == '+') ==> SplitSign(t) == (s[0] == '-', s[1..]);
    var (neg, rest) := SplitSign(t);
    SignedDigitRun(neg, rest)
  }

  /**
   * `parseInt(s)` with no radix: as `parseInt(s, 10)`, except that a `0x` or
   * `0X` after the blanks and the sign selects base 16.
   */
  function ParseIntAuto(s: string): (r: JsVal)
    ensures r.Num? || r.NaN?
    ensures |s| > 0 && IsDigit(s[0]) && !HexPrefixed(s) ==> r == Num(DecimalValue(DigitPrefix(s)))
    ensures |s| > 1 && (s[0] == '-' || s[0] == '+') && IsDigit(s[1]) && !HexPrefixed(s[1..]) ==>
      r == Num(Signed(s[0] == '-', DecimalValue(DigitPrefix(s[1..]))))
    ensures |s| > 0 && (s[0] == '-' || s[0] == '+') && (|s| == 1 || !IsDigit(s[1])) ==> r.NaN?
    ensures |s| > 0 && !IsJsSpace(s[0]) && !IsDigit(s[0]) && s[0] != '-' && s[0] != '+' ==> r.NaN?
    ensures HexPrefixed(s) && (|s| == 2 || !IsHexDigit(s[2])) ==> r.NaN?
    ensures HexPrefixed(s) && |s| > 2 && IsHexDigit(s[2]) ==> r == Num(HexNumeralValue(HexPrefix(s[2..])))
  {
    var t := TrimStart(s);
    assert |s| > 0 && !IsJsSpace(s[0]) ==> t == s;
    assert |s| > 0 && (s[0] == '-' || s[0] == '+') ==> SplitSign(t) == (s[0] == '-', s[1..]);
    assert |s| > 0 && !IsJsSpace(s[0]) && s[0] != '-' && s[0] != '+' ==> SplitSign(t) == (false, s);
    var (neg, rest) := SplitSign(t);
    if HexPrefixed(rest) then
      var h := HexPrefix(rest[2..]);
      if h == "" then NaN else Num(Signed(neg, HexNumeralValue(h)))
    else
      SignedDigitRun(neg, rest)
  }

  /** Leading blanks are skipped by both forms of `parseInt`. */
  lemma ParseIntSkipsBlank(s: string)
    requires |s| > 0 && IsJsSpace(s[0])
    ensures ParseIntDecimal(s) == ParseIntDecimal(s[1..])
    ensures ParseIntAuto(s) == ParseIntAuto(s[1..])
  {
    var t := TrimStart(s);
    assert t == TrimStart(s[1..]);
    var (neg, rest) := SplitSign(t);
    assert ParseIntDecimal(s) == SignedDigitRun(neg, rest) == ParseIntDecimal(s[1..]);
  }

  /** The sign is applied once: `parseInt("-5")` is -5. */
  lemma ParseIntNegativeExample()
    ensures ParseIntAuto("-5") == Num(-5) && ParseIntDecimal("-5") == Num(-5)
  {
    assert "-5"[1..] == "5";
    assert DigitPrefix("5") == "5" by { assert "5"[1..] == ""; }
    assert DecimalValue("5") == 5 by { assert "5"[..0] == ""; }
  }

  /** A second sign is not read: `parseInt("+-5")` and `parseInt("- 5")` are NaN. */
  lemma ParseIntSignTwiceExample()
    ensures ParseIntAuto("+-5").NaN? && ParseIntAuto("- 5").NaN?
    ensures ParseIntDecimal("+-5").NaN? && ParseIntDecimal("- 5").NaN?
  {
    var p, q := "+-5", "- 5";
    assert p[0] == '+' && !IsDigit(p[1]);
    assert q[0] == '-' && !IsDigit(q[1]);
  }

  /** A hexadecimal zip code: `parseInt("-0x10")` is -16. */
  lemma ParseIntHexExample()
    ensures ParseIntAuto("-0x10") == Num(-16)
  {
    var s := "-0x10";
    assert !IsJsSpace(s[0]);
    assert TrimStart(s) == s;
    assert SplitSign(s) == (true, "0x10");
    assert "0x10"[2..] == "10";
    assert HexPrefix("10") == "10" by {
      assert "10"[1..] == "0";
      assert "0"[1..] == "";
    }
    assert HexNumeralValue("10") == 16 by {
      assert "10"[..1] == "1";
      assert HexNumeralValue("1") == 1 by { assert "1"[..0] == ""; }
    }
  }

  /** `parseInt(String(n))` gives `n` back, in both forms. */
  lemma ParseIntOfNumber(n: int)
    ensures ParseIntAuto(ToJsString(Num(n))) == Num(n)
    ensures ParseIntDecimal(ToJsString(Num(n))) == Num(n)
  {
    var m: nat := if n < 0 then -n else n;
    var d := NatToDecimal(m);
    NumeralParses(d);
    NegativeNumeralParses(d);
    DecimalRoundTrip(m);
    if n < 0 {
      var t := "-" + d;
      assert ToJsString(Num(n)) == t;
      assert t[1..] == d;
    } else {
      assert ToJsString(Num(n)) == d;
    }
  }

  /** A numeral parses to its value. */
  lemma NumeralParses(d: string)
    requires |d| > 0 && AllDigits(d)
    ensures ParseIntAuto(d) == Num(DecimalValue(d)) && ParseIntDecimal(d) == Num(DecimalValue(d))
  {
    DigitPrefixOfDigits(d);
    assert IsDigit(d[0]);
    assert !HexPrefixed(d) by {
      if |d| > 1 { assert IsDigit(d[1]); }
    }
  }

  /** A numeral after a minus sign parses to its value negated. */
  lemma NegativeNumeralParses(d: string)
    requires |d| > 0 && AllDigits(d)
    ensures ParseIntAuto("-" + d) == Num(Signed(true, DecimalValue(d)))
    ensures ParseIntDecimal("-" + d) == Num(Signed(true, DecimalValue(d)))
  {
    DigitPrefixOfDigits(d);
    assert !HexPrefixed(d) by {
      if |d| > 1 { assert IsDigit(d[1]); }
    }
    var t := "-" + d;
    assert t[1..] == d;
    assert t[0] == '-' && IsDigit(t[1]);
  }

  /** parseInt of a numeral gives its value back. */
  lemma ParseIntDecimalOfDigits(s: string)
    requires |s| > 0 && AllDigits(s)
    ensures ParseIntDecimal(s) == Num(DecimalValue(s))
  {
    assert !IsJsSpace(s[0]);
    assert TrimStart(s) == s;
    assert SplitSign(s) == (false, s);
    DigitPrefixOfDigits(s);
  }

  lemma {:induction false} DigitPrefixOfDigits(s: string)
    requires AllDigits(s)
    ensures DigitPrefix(s) == s
    decreases |s|
  {
    if |s| > 0 {
      DigitPrefixOfDigits(s[1..]);
    }
  }

  /** `Number(s)` for a string: blank is 0, a signed decimal integer or a hex integer is its value. */
  function StringToNumber(s: string): (r: JsVal)
    ensures r.Num? || r.NaN?
  {
    var t := Trim(s);
    if t == "" then Num(0)
    else if (StartsWith(t, "0x") || StartsWith(t, "0X")) && |t| > 2
            && (forall i :: 2 <= i < |t| ==> IsHexDigit(t[i])) then
      Num(HexNumeralValue(t[2..]))
    else
      var (neg, rest) := SplitSign(t);
      if rest != "" && AllDigits(rest) then Num(Signed(neg, DecimalValue(rest))) else NaN
  }

  /** `Number(v)` */
  function ToNumber(v: JsVal): (r: JsVal)
    ensures r.Num? || r.NaN?
  {
    match v
    case Undefined => NaN
    case Null => Num(0)
    case Bool(b) => Num(if b then 1 else 0)
    case Num(n) => Num(n)
    case NaN => NaN
    case Str(s) => StringToNumber(s)
  }

  // ---------------------------------------------------------------------
  // Leftmost digit-run search (the regular expressions of the masks are
  // sequences of `\d{k}` groups, so they match at the leftmost position
  // where enough consecutive digits start)

  /** `k` consecutive digits start at position `p` of `s`. */
  predicate DigitRunAt(s: string, k: nat, p: nat)
  {
    p + k <= |s| && AllDigits(s[p..p + k])
  }

  /** The leftmost position `p >= from` at which `k` consecutive digits start. */
  function FindDigitRun(s: string, k: nat, from: nat): (r: Option<nat>)
    requires from <= |s|
    ensures r.Some? ==> from <= r.value && DigitRunAt(s, k, r.value)
    ensures r.Some? ==> forall p :: from <= p < r.value ==> !DigitRunAt(s, k, p)
    ensures r.None? ==> forall p :: from <= p ==> !DigitRunAt(s, k, p)
    decreases |s| - from
  {
    if from + k > |s| then None
    else if DigitRunAt(s, k, from) then Some(from)
    else
      assert k > 0;
      FindDigitRun(s, k, from + 1)
  }

  /** On a string of digits the leftmost run is at 0 whenever it fits. */
  lemma FindDigitRunOnDigits(s: string, k: nat)
    requires AllDigits(s)
    ensures k <= |s| ==> FindDigitRun(s, k, 0) == Some(0)
    ensures k > |s| ==> FindDigitRun(s, k, 0) == None
  {
    if k <= |s| {
      assert DigitRunAt(s, k, 0);
    }
  }

  /** `s.includes(sub)` holds whenever `sub` occurs literally inside `s`. */
  lemma {:induction false} ContainsInfix(a: string, sub: string, b: string)
    ensures Contains(a + sub + b, sub)
    decreases |a|
  {
    if |a| == 0 {
      assert a + sub + b == sub + b;
      assert (sub + b)[..|sub|] == sub;
    } else {
      assert (a + sub + b)[1..] == a[1..] + sub + b;
      ContainsInfix(a[1..], sub, b);
    }
  }

  /** `s.split(c)[0]`: the text before the first `c`, or all of `s`. */
  function BeforeFirst(s: string, c: char): (r: string)
    ensures StartsWith(s, r) && c !in r
    ensures |r| < |s| ==> s[|r|] == c
    decreases |s|
  {
    if |s| == 0 || s[0] == c then "" else [s[0]] + BeforeFirst(s[1..], c)
  }

  // ---------------------------------------------------------------------
  // Lists

  /** `a` is `b` with some elements left out and the rest in order. */
  predicate IsSubsequence<T(==)>(a: seq<T>, b: seq<T>)
    decreases |b|
  {
    |a| == 0 || (|b| > 0 && ((a[0] == b[0] && IsSubsequence(a[1..], b[1..])) || IsSubsequence(a, b[1..])))
  }

  /** `xs.filter(p)` */
  function Filter<T>(xs: seq<T>, p: T -> bool): (r: seq<T>)
    ensures |r| <= |xs|
    ensures forall i :: 0 <= i < |r| ==> p(r[i])
    decreases |xs|
  {
    if |xs| == 0 then [] else (if p(xs[0]) then [xs[0]] else []) + Filter(xs[1..], p)
  }

  lemma {:induction false} FilterMembers<T>(xs: seq<T>, p: T -> bool)
    ensures forall x :: x in Filter(xs, p) <==> x in xs && p(x)
    decreases |xs|
  {
    if |xs| > 0 {
      FilterMembers(xs[1..], p);
      assert xs == [xs[0]] + xs[1..];
    }
  }

  lemma {:induction false} FilterIsSubsequence<T>(xs: seq<T>, p: T -> bool)
    ensures IsSubsequence(Filter(xs, p), xs)
    decreases |xs|
  {
    if |xs| > 0 {
      FilterIsSubsequence(xs[1..], p);
      var rest := Filter(xs[1..], p);
      if p(xs[0]) {
        assert Filter(xs, p) == [xs[0]] + rest;
        assert ([xs[0]] + rest)[1..] == rest;
      } else {
        assert Filter(xs, p) == rest;
      }
    }
  }

  /** `xs.join(sep)` */
  function Join(xs: seq<string>, sep: string): (r: string)
    ensures |xs| == 0 ==> r == ""
    ensures |xs| == 1 ==> r == xs[0]
    decreases |xs|
  {
    if |xs| == 0 then ""
    else if |xs| == 1 then xs[0]
    else xs[0] + sep + Join(xs[1..], sep)
  }

  /** `xs.filter(y => y !== x)` */
  function RemoveAll<T(==,!new)>(xs: seq<T>, x: T): (r: seq<T>)
    ensures x !in r
    ensures forall y :: y != x ==> (y in r <==> y in xs)
    ensures x !in xs ==> r == xs
    decreases |xs|
  {
    if |xs| == 0 then []
    else if xs[0] == x then RemoveAll(xs[1..], x)
    else [xs[0]] + RemoveAll(xs[1..], x)
  }

  lemma {:induction false} RemoveAllAppended<T(!new)>(xs: seq<T>, x: T)
    ensures RemoveAll(xs + [x], x) == RemoveAll(xs, x)
    decreases |xs|
  {
    if |xs| == 0 {
      assert xs + [x] == [x];
      assert [x][1..] == [];
    } else {
      assert (xs + [x])[1..] == xs[1..] + [x];
      RemoveAllAppended(xs[1..], x);
    }
  }

  /** `xs.includes(x) ? xs.filter(y => y !== x) : [...xs, x]` */
  function ToggleMember<T(==,!new)>(xs: seq<T>, x: T): (r: seq<T>)
    ensures x in r <==> x !in xs
    ensures forall y :: y != x ==> (y in r <==> y in xs)
    ensures x !in xs ==> r == xs + [x]
  {
    if x in xs then RemoveAll(xs, x) else xs + [x]
  }

  /** Toggling an absent element twice gives the list back. */
  lemma ToggleTwice<T(!new)>(xs: seq<T>, x: T)
    requires x !in xs
    ensures ToggleMember(ToggleMember(xs, x), x) == xs
  {
    RemoveAllAppended(xs, x);
  }
}
