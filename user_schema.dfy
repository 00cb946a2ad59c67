// The custom tests of the user registration schema
// (src/shared/businnes/schemas/userSchema.js): picture type and size, the
// telephone format, the telephone type list, the "one main item" tests and
// the create-mode password rules.

module UserSchema {
  import opened Js

  const AcceptedPictureTypes: seq<string> := ["image/jpeg", "image/png", "image/gif"]

  const MaxPictureBytes: int := 2 * 1024 * 1024

  /** The "is-valid-type" test. */
  predicate PictureTypeTest(p: Picture)
  {
    match p
    case Scalar(v) => v.Str? && Trim(v.s) != ""
    case File(f) => f.mime in AcceptedPictureTypes
    case OtherObject => false
  }

  /** The "fileSize" test. */
  predicate PictureSizeTest(p: Picture)
  {
    p.File? ==> p.f.size <= MaxPictureBytes
  }

  lemma PictureTestsSpec(p: Picture)
    ensures p == Scalar(Null) || p == Scalar(Undefined) ==> !PictureTypeTest(p)
    ensures p.Scalar? && p.v.Str? ==> (PictureTypeTest(p) <==> Trim(p.v.s) != "")
    ensures p.File? ==> (PictureTypeTest(p) <==> p.f.mime == "image/jpeg" || p.f.mime == "image/png" || p.f.mime == "image/gif")
    ensures !p.File? ==> PictureSizeTest(p)
    ensures p.File? ==> (PictureSizeTest(p) <==> p.f.size <= 2097152)
  {
  }

  /** `/^\+55 \(\d{2}\) \d{4}-\d{4}$/` */
  predicate LandlinePattern(s: string)
  {
    |s| == 18 && s[..5] == "+55 (" && AllDigits(s[5..7]) && s[7..9] == ") "
    && AllDigits(s[9..13]) && s[13] == '-' && AllDigits(s[14..])
  }

  /** `/^\+55 \(\d{2}\) \d{5}-\d{4}$/` */
  predicate MobilePattern(s: string)
  {
    |s| == 19 && s[..5] == "+55 (" && AllDigits(s[5..7]) && s[7..9] == ") "
    && AllDigits(s[9..14]) && s[14] == '-' && AllDigits(s[15..])
  }

  /** The "phone-format" test; `RegExp.test` reads the value as `String(value)`. */
  predicate PhoneFormatTest(value: JsVal)
  {
    LandlinePattern(ToJsString(value)) || MobilePattern(ToJsString(value))
  }

  /** The telephone `type` list; like every `oneOf`, it lets undefined through. */
  predicate PhoneTypeTest(value: JsVal)
  {
    value.Undefined? || value == Str("Pessoal") || value == Str("Profissional")
  }

  /** Both phone layouts pass, a phone without its hyphen or with another country code does not, and the type list is case-sensitive. */
  lemma PhoneTestsExamples()
    ensures PhoneFormatTest(Str("+55 (11) 2345-6789")) && PhoneFormatTest(Str("+55 (11) 92345-6789"))
    ensures !PhoneFormatTest(Str("+55 (11) 923456789")) && !PhoneFormatTest(Str("+1 (11) 2345-6789"))
    ensures PhoneTypeTest(Str("Profissional")) && !PhoneTypeTest(Str("pessoal"))
  {
    LandlineExample();
    MobileExample();
    MissingHyphenExample();
    OtherCountryExample();
  }

  lemma LandlineExample()
    ensures LandlinePattern("+55 (11) 2345-6789")
  {
    var land := "+55 (11) 2345-6789";
    assert land[..5] == "+55 (" && land[5..7] == "11" && land[7..9] == ") " && land[9..13] == "2345" && land[14..] == "6789";
  }

  lemma MobileExample()
    ensures MobilePattern("+55 (11) 92345-6789")
  {
    var mobile := "+55 (11) 92345-6789";
    assert mobile[..5] == "+55 (" && mobile[5..7] == "11" && mobile[7..9] == ") " && mobile[9..14] == "92345" && mobile[15..] == "6789";
  }

  lemma MissingHyphenExample()
    ensures !LandlinePattern("+55 (11) 923456789") && !MobilePattern("+55 (11) 923456789")
  {
    assert "+55 (11) 923456789"[13] == '5';
  }

  lemma OtherCountryExample()
    ensures !LandlinePattern("+1 (11) 2345-6789") && !MobilePattern("+1 (11) 2345-6789")
  {
    assert "+1 (11) 2345-6789"[..5] != "+55 (" by { assert "+1 (11) 2345-6789"[1] == '1'; }
  }

  /** A value passing the phone test is "+55 (", two digits, ") ", then four or five digits, "-" and four digits. */
  lemma PhoneFormatShape(value: JsVal)
    requires PhoneFormatTest(value)
    ensures var s := ToJsString(value);
      (|s| == 18 || |s| == 19) && StartsWith(s, "+55 (") && s[|s| - 5] == '-' && AllDigits(s[|s| - 4..])
  {
  }

  /** The "one-main-address", "one-main-email" and "one-main-phone" tests. */
  predicate OneMainTest(items: Option<seq<Record>>)
  {
    if items.Some? && |items.value| > 0 then exists i :: 0 <= i < |items.value| && Truthy(Get(items.value[i], "is_main"))
    else false
  }

  lemma OneMainTestEmptyFails()
    ensures !OneMainTest(None) && !OneMainTest(Some([]))
  {
  }

  lemma OneMainTestSpec(items: seq<Record>, i: nat)
    requires i < |items| && Truthy(Get(items[i], "is_main"))
    ensures OneMainTest(Some(items))
  {
  }

  // Password rules (create mode)

  predicate IsLower(c: char) { 'a' <= c <= 'z' }
  predicate IsUpper(c: char) { 'A' <= c <= 'Z' }
  predicate IsPasswordSpecial(c: char) { c in "@$!%*?&" }

  /** The characters before the first line terminator (what `.*` can reach from the start). */
  function FirstLine(s: string): (r: string)
    ensures StartsWith(s, r)
    ensures forall i :: 0 <= i < |r| ==> !IsLineTerminator(r[i])
    decreases |s|
  {
    if |s| == 0 || IsLineTerminator(s[0]) then "" else [s[0]] + FirstLine(s[1..])
  }

  /** Text without a line terminator is its own first line. */
  lemma {:induction false} FirstLineWhole(s: string)
    requires forall i :: 0 <= i < |s| ==> !IsLineTerminator(s[i])
    ensures FirstLine(s) == s
    decreases |s|
  {
    if |s| > 0 {
      FirstLineWhole(s[1..]);
    }
  }

  predicate HasCharWhere(s: string, kind: int)
  {
    exists i :: 0 <= i < |s| && CharKind(s[i], kind)
  }

  /** 0: lowercase, 1: uppercase, 2: digit, 3: special character. */
  predicate CharKind(c: char, kind: int)
  {
    if kind == 0 then IsLower(c)
    else if kind == 1 then IsUpper(c)
    else if kind == 2 then IsDigit(c)
    else IsPasswordSpecial(c)
  }

  /** `/^(?=.*[a-z])(?=.*[A-Z])(?=.*\d)(?=.*[@$!%*?&])[A-Za-z\d@$!%*?&]/.test(s)` */
  predicate PasswordPattern(s: string)
  {
    var line := FirstLine(s);
    HasCharWhere(line, 0) && HasCharWhere(line, 1) && HasCharWhere(line, 2) && HasCharWhere(line, 3)
    && |s| > 0 && (IsLower(s[0]) || IsUpper(s[0]) || IsDigit(s[0]) || IsPasswordSpecial(s[0]))
  }

  /** Yup's `required` on a string: present and non-empty. */
  predicate RequiredString(v: JsVal)
  {
    v.Str? && v.s != ""
  }

  predicate PasswordValid(isCreateMode: bool, password: JsVal)
  {
    isCreateMode ==> RequiredString(password) && Utf16Length(password.s) >= 8 && PasswordPattern(password.s)
  }

  predicate ConfirmationValid(isCreateMode: bool, password: JsVal, confirmation: JsVal)
  {
    isCreateMode ==> RequiredString(confirmation) && confirmation == password
  }

  /** What the create-mode password rules demand, stated per character class. */
  lemma PasswordRulesSpec(password: string)
    requires PasswordValid(true, Str(password))
    ensures Utf16Length(password) >= 8
    ensures exists i :: 0 <= i < |password| && IsLower(password[i])
    ensures exists i :: 0 <= i < |password| && IsUpper(password[i])
    ensures exists i :: 0 <= i < |password| && IsDigit(password[i])
    ensures exists i :: 0 <= i < |password| && IsPasswordSpecial(password[i])
    ensures IsLower(password[0]) || IsUpper(password[0]) || IsDigit(password[0]) || IsPasswordSpecial(password[0])
  {
    var line := FirstLine(password);
    var a :| 0 <= a < |line| && CharKind(line[a], 0);
    LineCharInText(password, a);
    var b :| 0 <= b < |line| && CharKind(line[b], 1);
    LineCharInText(password, b);
    var c :| 0 <= c < |line| && CharKind(line[c], 2);
    LineCharInText(password, c);
    var d :| 0 <= d < |line| && CharKind(line[d], 3);
    LineCharInText(password, d);
  }

  lemma LineCharInText(s: string, i: int)
    requires 0 <= i < |FirstLine(s)|
    ensures i < |s| && s[i] == FirstLine(s)[i]
  {
    assert s[..|FirstLine(s)|][i] == s[i];
  }

  /** "Aa1@" and two emoji: six characters, eight UTF-16 code units. */
  lemma AstralLength()
    ensures Utf16Length("Aa1@\U{1F600}\U{1F600}") == 8
  {
    var s := "Aa1@\U{1F600}\U{1F600}";
    assert Utf16Length(s[4..]) == 4 by {
      assert s[4..][1..] == s[5..];
      assert Utf16Length(s[5..]) == 2 by { assert s[5..][1..] == s[6..]; }
    }
    assert Utf16Length(s[..4] + s[4..]) == Utf16Length(s) by { assert s[..4] + s[4..] == s; }
  }

  /** "Aa1@" and two emoji match the password regex. */
  lemma AstralPattern()
    ensures PasswordPattern("Aa1@\U{1F600}\U{1F600}")
  {
    var s := "Aa1@\U{1F600}\U{1F600}";
    FirstLineWhole(s);
    assert CharKind(s[1], 0) && CharKind(s[0], 1) && CharKind(s[2], 2) && CharKind(s[3], 3);
  }

  /** `min(8)` counts code units: two emoji after "Aa1@" make eight, so the six-character password passes. */
  lemma AstralCharactersCountTwice()
    ensures var s := "Aa1@\U{1F600}\U{1F600}"; |s| == 6 && Utf16Length(s) == 8 && PasswordValid(true, Str(s))
  {
    AstralLength();
    AstralPattern();
  }

  lemma PasswordOptionalOutsideCreateMode(password: JsVal, confirmation: JsVal)
    ensures PasswordValid(false, password) && ConfirmationValid(false, password, confirmation)
  {
  }

  lemma ConfirmationMustEqual(password: JsVal, confirmation: JsVal)
    requires ConfirmationValid(true, password, confirmation)
    ensures confirmation == password && password.Str? && password.s != ""
  {
  }
}
