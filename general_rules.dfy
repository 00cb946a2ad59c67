// The Brazilian CPF and telephone input masks
// (src/businnes/indivisibleRules/generalRules.js).

module GeneralRules {
  import opened Js
  import UserSchema

  // ---------------------------------------------------------------------
  // CPF mask: a chain of replaces and a slice

  /** The digits the CPF mask keeps: the first eleven digits of the input. */
  function CpfDigits(value: string): (c: string)
    ensures AllDigits(c) && |c| <= 11
    ensures c == if |Digits(value)| <= 11 then Digits(value) else Digits(value)[..11]
  {
    var d := Digits(value);
    if |d| > 11 then d[..11] else d
  }

  /** `.replace(/(\d{3})(\d)/, "$1.$2")`: a dot after the first three of the leftmost four digits. */
  function DotAfterFirstTriple(s: string): string
  {
    match FindDigitRun(s, 4, 0)
    case Some(p) => s[..p + 3] + "." + s[p + 3..]
    case None => s
  }

  /** `(\d{3})(\d{1,2})$` matches starting at `p`. */
  predicate CpfTailAt(s: string, p: nat)
  {
    p + 4 <= |s| <= p + 5 && AllDigits(s[p..])
  }

  /** `.replace(/(\d{3})(\d{1,2})$/, "$1-$2")`: the leftmost match is the longer tail. */
  function HyphenBeforeCpfTail(s: string): string
  {
    if |s| >= 5 && CpfTailAt(s, |s| - 5) then s[..|s| - 2] + "-" + s[|s| - 2..]
    else if |s| >= 4 && CpfTailAt(s, |s| - 4) then s[..|s| - 1] + "-" + s[|s| - 1..]
    else s
  }

  /** `applyCPFMask` */
  function ApplyCpfMask(value: string): string
  {
    HyphenBeforeCpfTail(DotAfterFirstTriple(DotAfterFirstTriple(CpfDigits(value))))
  }

  /** The layout the mask produces, by number of digits kept. */
  function CpfLayout(c: string): string
    requires AllDigits(c) && |c| <= 11
  {
    if |c| <= 3 then c
    else if |c| <= 6 then c[..3] + "." + c[3..]
    else if |c| <= 9 then c[..3] + "." + c[3..6] + "." + c[6..]
    else c[..3] + "." + c[3..6] + "." + c[6..9] + "-" + c[9..]
  }

  /** `/^\d{3}\.\d{3}\.\d{3}-\d{2}$/`, the CPF pattern of src/schemas/userSchema.js. */
  predicate CpfPattern(s: string)
  {
    |s| == 14 && AllDigits(s[..3]) && s[3] == '.' && AllDigits(s[4..7]) && s[7] == '.'
    && AllDigits(s[8..11]) && s[11] == '-' && AllDigits(s[12..])
  }

  lemma LeftmostRun(s: string, k: nat, q: nat)
    requires DigitRunAt(s, k, q)
    requires forall p: nat :: p < q ==> !DigitRunAt(s, k, p)
    ensures FindDigitRun(s, k, 0) == Some(q)
  {
  }

  lemma NoRunAcrossDot(s: string, dot: nat, upTo: nat)
    requires dot < |s| && s[dot] == '.'
    requires upTo <= dot
    ensures forall p: nat :: p <= upTo && dot < p + 4 ==> !DigitRunAt(s, 4, p)
  {
    forall p: nat | p <= upTo && dot < p + 4
      ensures !DigitRunAt(s, 4, p)
    {
      assert p + 4 <= |s| ==> s[p..p + 4][dot - p] == s[dot];
    }
  }

  /** The replace chain lays the kept digits out as `CpfLayout` says. */
  lemma {:induction false} CpfMaskLayout(value: string)
    ensures ApplyCpfMask(value) == CpfLayout(CpfDigits(value))
  {
    var c := CpfDigits(value);
    FindDigitRunOnDigits(c, 4);
    var s1 := DotAfterFirstTriple(c);
    if |c| <= 3 {
      assert s1 == c;
      assert DotAfterFirstTriple(s1) == c;
      assert HyphenBeforeCpfTail(c) == c;
    } else {
      assert s1 == c[..3] + "." + c[3..];
      assert s1[3] == '.';
      NoRunAcrossDot(s1, 3, 3);
      var s2 := DotAfterFirstTriple(s1);
      if |c| <= 6 {
        assert forall p: nat :: 4 <= p ==> !DigitRunAt(s1, 4, p);
        assert FindDigitRun(s1, 4, 0) == None;
        assert s2 == s1;
        TailFailsAcrossDot(s1, 3);
      } else {
        assert s1[4..8] == c[3..7];
        LeftmostRun(s1, 4, 4);
        assert s2 == s1[..7] + "." + s1[7..];
        assert s2 == c[..3] + "." + c[3..6] + "." + c[6..];
        assert s2[7] == '.';
        if |c| <= 9 {
          TailFailsAcrossDot(s2, 7);
        } else if |c| == 10 {
          assert !CpfTailAt(s2, |s2| - 5) by { assert s2[|s2| - 5..][0] == s2[7]; }
          assert s2[8..] == c[6..];
          assert CpfTailAt(s2, 8);
          assert s2[..|s2| - 1] + "-" + s2[|s2| - 1..] == c[..3] + "." + c[3..6] + "." + c[6..9] + "-" + c[9..];
        } else {
          assert s2[8..] == c[6..];
          assert CpfTailAt(s2, 8);
          assert s2[..|s2| - 2] + "-" + s2[|s2| - 2..] == c[..3] + "." + c[3..6] + "." + c[6..9] + "-" + c[9..];
        }
      }
    }
  }

  lemma TailFailsAcrossDot(s: string, dot: nat)
    requires dot < |s| && s[dot] == '.' && |s| <= dot + 4
    ensures HyphenBeforeCpfTail(s) == s
  {
    if |s| >= 5 {
      DotBreaksTail(s, |s| - 5, dot);
    }
    if |s| >= 4 {
      DotBreaksTail(s, |s| - 4, dot);
    }
  }

  lemma DotBreaksTail(s: string, p: nat, dot: nat)
    requires p <= dot < |s| && s[dot] == '.'
    ensures !CpfTailAt(s, p)
  {
    assert s[p..][dot - p] == '.';
  }

  /** The digits of a masked CPF are exactly the kept digits: only "." and "-" are inserted. */
  lemma CpfMaskKeepsDigits(value: string)
    ensures Digits(ApplyCpfMask(value)) == CpfDigits(value)
  {
    CpfMaskLayout(value);
    CpfLayoutDigits(CpfDigits(value));
  }

  lemma CpfLayoutDigits(c: string)
    requires AllDigits(c) && |c| <= 11
    ensures Digits(CpfLayout(c)) == c
  {
    DigitsOfDigits(c);
    if 3 < |c| {
      var a, b := c[..3], c[3..];
      assert c == a + b;
      DigitsOfDigits(a);
      if |c| <= 6 {
        DigitsOfDigits(b);
        DigitsSep(a, '.', b);
      } else {
        var b1, b2 := c[3..6], c[6..];
        DigitsOfDigits(b1);
        DigitsSep(a, '.', b1);
        var x := a + "." + b1;
        assert Digits(x) == c[..6];
        if |c| <= 9 {
          DigitsOfDigits(b2);
          DigitsSep(x, '.', b2);
          assert c == c[..6] + b2;
        } else {
          var m, t := c[6..9], c[9..];
          DigitsOfDigits(m);
          DigitsOfDigits(t);
          DigitsSep(x, '.', m);
          var y := x + "." + m;
          assert Digits(y) == c[..9];
          DigitsSep(y, '-', t);
          assert c == c[..9] + t;
        }
      }
    }
  }

  lemma DigitsSep(a: string, sep: char, b: string)
    requires !IsDigit(sep)
    ensures Digits(a + [sep] + b) == Digits(a) + Digits(b)
  {
    DigitsConcat(a + [sep], b);
    DigitsConcat(a, [sep]);
    assert Digits([sep]) == [];
  }

  /** Masking an already masked CPF changes nothing. */
  lemma CpfMaskIdempotent(value: string)
    ensures ApplyCpfMask(ApplyCpfMask(value)) == ApplyCpfMask(value)
  {
    var m := ApplyCpfMask(value);
    CpfMaskKeepsDigits(value);
    CpfMaskLayout(m);
    CpfMaskLayout(value);
    assert CpfDigits(m) == CpfDigits(value);
  }

  /** Eleven digits give `DDD.DDD.DDD-DD`, the registration schema's CPF pattern. */
  lemma CpfMaskElevenDigits(value: string)
    requires |Digits(value)| >= 11
    ensures CpfPattern(ApplyCpfMask(value))
  {
    CpfMaskLayout(value);
    CpfLayoutPattern(CpfDigits(value));
  }

  lemma CpfLayoutPattern(c: string)
    requires AllDigits(c) && |c| == 11
    ensures CpfPattern(CpfLayout(c))
  {
    var r := CpfLayout(c);
    assert r == c[..3] + "." + c[3..6] + "." + c[6..9] + "-" + c[9..];
    assert r[..3] == c[..3];
    assert r[4..7] == c[3..6];
    assert r[8..11] == c[6..9];
    assert r[12..] == c[9..];
  }

  /** Three or fewer digits come back bare. */
  lemma CpfMaskShort(value: string)
    requires |Digits(value)| <= 3
    ensures ApplyCpfMask(value) == Digits(value)
  {
    CpfMaskLayout(value);
  }

  // ---------------------------------------------------------------------
  // Telephone mask: locals reassigned step by step

  /** The digits the telephone mask keeps: drop one leading "55", keep at most eleven. */
  function NationalDigits(value: string): (d: string)
    ensures AllDigits(d) && |d| <= 11
  {
    var all := Digits(value);
    var national := if StartsWith(all, "55") then all[2..] else all;
    if |national| > 10 then national[..11] else national
  }

  /** The local number with a hyphen after its first `split` digits, when it is longer than that. */
  function HyphenAt(rest: string, split: nat): string
  {
    if |rest| > split then rest[..split] + "-" + rest[split..] else rest
  }

  /** The text the telephone mask produces, by number of kept digits. */
  function TelephoneLayout(d: string): string
    requires AllDigits(d) && |d| <= 11
  {
    if |d| == 0 then ""
    else if |d| <= 2 then "+55 (" + d
    else "+55 (" + d[..2] + ") " + HyphenAt(d[2..], if |d| == 11 then 5 else 4)
  }

  /** `applyTelephoneMask` */
  method ApplyTelephoneMask(valor: string) returns (formatted: string)
    ensures formatted == TelephoneLayout(NationalDigits(valor))
  {
    var digits := Digits(valor);
    if StartsWith(digits, "55") {
      digits := digits[2..];
    }
    var maxLength := if |digits| > 10 then 11 else 10;
    digits := if |digits| > maxLength then digits[..maxLength] else digits;
    ghost var d := digits;
    assert d == NationalDigits(valor);
    assert maxLength == 11 <==> |d| == 11;
    formatted := if |digits| > 0 then "+55" else "";
    if |digits| > 2 {
      formatted := formatted + " (" + digits[..2] + ")";
      digits := digits[2..];
    } else if |digits| > 0 {
      formatted := formatted + " (" + digits;
      assert formatted == TelephoneLayout(d);
      return;
    }
    if |digits| > 0 {
      AreaCodeHead(d, formatted);
      formatted := formatted + " ";
      ghost var head := formatted;
      if maxLength == 10 {
        if |digits| > 4 {
          formatted := formatted + digits[..4] + "-" + digits[4..];
        } else {
          formatted := formatted + digits;
        }
      } else {
        if |digits| > 5 {
          formatted := formatted + digits[..5] + "-" + digits[5..];
        } else {
          formatted := formatted + digits;
        }
      }
      HyphenJoin(head, digits, maxLength - 6, formatted);
    }
  }

  lemma AreaCodeHead(d: string, head: string)
    requires AllDigits(d) && 2 < |d| <= 11
    requires head == "+55" + " (" + d[..2] + ")"
    ensures head + " " == "+55 (" + d[..2] + ") "
  {
  }

  lemma HyphenJoin(head: string, rest: string, split: nat, formatted: string)
    requires formatted == (if |rest| > split then head + rest[..split] + "-" + rest[split..] else head + rest)
    ensures formatted == head + HyphenAt(rest, split)
  {
    if |rest| > split {
      assert head + rest[..split] + "-" + rest[split..] == head + (rest[..split] + "-" + rest[split..]);
    }
  }

  /** The digits of the mask's output are "55" followed by the kept digits. */
  lemma TelephoneLayoutDigits(d: string)
    requires AllDigits(d) && 0 < |d| <= 11
    ensures Digits(TelephoneLayout(d)) == "55" + d
  {
    if |d| <= 2 {
      DigitsOfDigits(d);
      DigitsOfCountryPrefix();
      DigitsConcat("+55 (", d);
    } else {
      var area, rest := d[..2], d[2..];
      assert d == area + rest;
      var tail := HyphenAt(rest, if |d| == 11 then 5 else 4);
      TelephoneTailDigits(rest, if |d| == 11 then 5 else 4);
      DigitsOfDigits(area);
      AreaCodeDigits(area, tail);
    }
  }

  /** The number after the area code keeps its digits when the hyphen goes in. */
  lemma TelephoneTailDigits(rest: string, split: nat)
    requires AllDigits(rest)
    ensures Digits(HyphenAt(rest, split)) == rest
  {
    if |rest| > split {
      SplitJoin(rest, split);
      HyphenKeepsDigits(rest[..split], rest[split..]);
    } else {
      DigitsOfDigits(rest);
    }
  }

  lemma SplitJoin(s: string, k: nat)
    requires k <= |s|
    ensures s[..k] + s[k..] == s
  {
  }

  lemma HyphenKeepsDigits(a: string, b: string)
    requires AllDigits(a) && AllDigits(b)
    ensures Digits(a + "-" + b) == a + b
  {
    DigitsOfDigits(a);
    DigitsOfDigits(b);
    DigitsSep(a, '-', b);
  }

  /** `"+55 (" + area + ") " + tail` has the digits "55", the area's and the tail's. */
  lemma AreaCodeDigits(area: string, tail: string)
    ensures Digits("+55 (" + area + ") " + tail) == "55" + Digits(area) + Digits(tail)
  {
    var lead := "+55 (";
    DigitsOfCountryPrefix();
    var head := lead + area;
    DigitsConcat(lead, area);
    DigitsConcat(head, ") ");
    DigitsConcat(head + ") ", tail);
    assert Digits(") ") == "" by {
      assert ") "[1..] == " ";
      assert ") "[1..][1..] == "";
    }
  }

  lemma DigitsOfCountryPrefix()
    ensures Digits("+55 (") == "55"
  {
    var lead := "+55 (";
    assert lead[1..] == "55 (";
    assert lead[1..][1..] == "5 (";
    assert lead[1..][1..][1..] == " (";
    assert lead[1..][1..][1..][1..] == "(";
    assert lead[1..][1..][1..][1..][1..] == "";
  }

  /** Masking a masked telephone changes nothing: the emitted "55" is stripped again. */
  lemma TelephoneMaskIdempotent(valor: string)
    ensures NationalDigits(TelephoneLayout(NationalDigits(valor))) == NationalDigits(valor)
    ensures TelephoneLayout(NationalDigits(TelephoneLayout(NationalDigits(valor)))) == TelephoneLayout(NationalDigits(valor))
  {
    var d := NationalDigits(valor);
    if |d| > 0 {
      TelephoneLayoutDigits(d);
      assert StartsWith("55" + d, "55");
      assert ("55" + d)[2..] == d;
    } else {
      assert TelephoneLayout(d) == "";
      assert Digits("") == "";
    }
  }

  /** No digits (or only the "55" prefix) give the empty string. */
  lemma TelephoneMaskEmpty(valor: string)
    requires NationalDigits(valor) == ""
    ensures TelephoneLayout(NationalDigits(valor)) == ""
  {
  }

  /** One or two kept digits give "+55 (" and those digits, without a closing parenthesis. */
  lemma TelephoneMaskPartialArea(valor: string)
    requires 0 < |NationalDigits(valor)| <= 2
    ensures TelephoneLayout(NationalDigits(valor)) == "+55 (" + NationalDigits(valor)
  {
  }

  /** Ten kept digits give the landline layout and eleven the mobile one; both pass the schema's phone test. */
  lemma TelephoneMaskFullNumbers(valor: string)
    requires |NationalDigits(valor)| >= 10
    ensures var d := NationalDigits(valor);
      var r := TelephoneLayout(d);
      (|d| == 10 ==> r == "+55 (" + d[..2] + ") " + d[2..6] + "-" + d[6..])
      && (|d| == 11 ==> r == "+55 (" + d[..2] + ") " + d[2..7] + "-" + d[7..])
      && UserSchema.PhoneFormatTest(Str(r))
  {
    var d := NationalDigits(valor);
    if |d| == 10 {
      LandlineLayout(d);
    } else {
      MobileLayout(d);
    }
  }

  lemma LandlineLayout(d: string)
    requires AllDigits(d) && |d| == 10
    ensures var r := TelephoneLayout(d);
      r == "+55 (" + d[..2] + ") " + d[2..6] + "-" + d[6..] && UserSchema.LandlinePattern(r)
  {
    assert d[2..][..4] == d[2..6] && d[2..][4..] == d[6..];
    var r := "+55 (" + d[..2] + ") " + d[2..6] + "-" + d[6..];
    assert TelephoneLayout(d) == r;
    assert r[5..7] == d[..2] && r[9..13] == d[2..6] && r[14..] == d[6..];
  }

  lemma MobileLayout(d: string)
    requires AllDigits(d) && |d| == 11
    ensures var r := TelephoneLayout(d);
      r == "+55 (" + d[..2] + ") " + d[2..7] + "-" + d[7..] && UserSchema.MobilePattern(r)
  {
    assert d[2..][..5] == d[2..7] && d[2..][5..] == d[7..];
    var r := "+55 (" + d[..2] + ") " + d[2..7] + "-" + d[7..];
    assert TelephoneLayout(d) == r;
    assert r[5..7] == d[..2] && r[9..14] == d[2..7] && r[15..] == d[7..];
  }
}
