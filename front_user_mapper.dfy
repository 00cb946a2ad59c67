// Mapping between the user form and the API user record on the client
// (src/frontend/businnes/mappers/userMapper.js): the telephone parser and
// its inverse formatter, list mapping with defaults, and the cleanup of
// empty list items.

module FrontUserMapper {
  import opened Js

  // ---------------------------------------------------------------------
  // Shapes

  /** A telephone as the form holds it: the number is one formatted string. */
  datatype FormPhone = FormPhone(id: JsVal, telephone: JsVal, isMain: JsVal, phoneType: JsVal)

  datatype FormEmail = FormEmail(id: JsVal, email: JsVal, isMain: JsVal, emailVerified: JsVal)

  datatype FormAddress = FormAddress(
    id: JsVal, zipCode: JsVal, street: JsVal, number: JsVal, complement: JsVal,
    district: JsVal, city: JsVal, state: JsVal, country: JsVal, isMain: JsVal)

  /** The user as the registration form holds it. */
  datatype FormUser = FormUser(
    id: JsVal, name: JsVal, nickname: JsVal, picture: Picture, birthDate: JsVal,
    cpf: JsVal, password: JsVal,
    telephones: Option<seq<FormPhone>>, emails: Option<seq<FormEmail>>, addresses: Option<seq<FormAddress>>)

  /** A telephone as the API stores it: country, area and local number separately. */
  datatype ApiPhone = ApiPhone(
    id: JsVal, isMain: JsVal, phoneType: JsVal,
    countryCode: JsVal, stateCode: JsVal, number: JsVal, fullNumber: JsVal)

  datatype ApiEmail = ApiEmail(id: JsVal, email: JsVal, isMain: JsVal, emailVerified: JsVal)

  datatype ApiAddress = ApiAddress(
    id: JsVal, zipCode: JsVal, street: JsVal, number: JsVal, complement: JsVal,
    district: JsVal, city: JsVal, state: JsVal, country: JsVal, isMain: JsVal)

  /** The user as the API sends and receives it (the `updated_at` timestamp is left out). */
  datatype ApiUser = ApiUser(
    id: JsVal, name: JsVal, nickname: JsVal, picture: Picture, birthDate: JsVal,
    cpf: JsVal, password: JsVal,
    email: Option<seq<ApiEmail>>, telephone: Option<seq<ApiPhone>>, address: Option<seq<ApiAddress>>)

  // ---------------------------------------------------------------------
  // The telephone parser

  /** `/^\+(\d{2})\s\((\d{2})\)\s(\d{4,5}-\d{4})$/` */
  predicate PhoneShape(s: string)
  {
    (|s| == 18 || |s| == 19)
    && s[0] == '+' && AllDigits(s[1..3]) && IsJsSpace(s[3])
    && s[4] == '(' && AllDigits(s[5..7]) && s[7] == ')' && IsJsSpace(s[8])
    && AllDigits(s[9..|s| - 5]) && s[|s| - 5] == '-' && AllDigits(s[|s| - 4..])
  }

  /** The components `parseTelephone` extracts. */
  datatype PhoneParts = PhoneParts(countryCode: int, stateCode: int, number: int, fullNumber: string)

  /** `parseTelephone`: null unless the value is a string of the shape above. */
  function ParseTelephone(t: JsVal): (r: Option<PhoneParts>)
    ensures r.Some? <==> t.Str? && PhoneShape(t.s)
    ensures r.Some? ==>
      var s := t.s;
      var local := s[9..|s| - 5] + s[|s| - 4..];
      AllDigits(local)
      && r.value == PhoneParts(DecimalValue(s[1..3]), DecimalValue(s[5..7]), DecimalValue(local), s[1..3] + s[5..7] + local)
  {
    if !Truthy(t) || !t.Str? then None
    else
      var s := t.s;
      if !PhoneShape(s) then None
      else
        var country, state, number := s[1..3], s[5..7], s[9..];
        RemoveFirstAfterDigits(s[9..|s| - 5], s[|s| - 4..]);
        assert number == s[9..|s| - 5] + "-" + s[|s| - 4..];
        var digits := RemoveFirst(number, '-');
        Some(PhoneParts(DecimalValue(country), DecimalValue(state), DecimalValue(digits), country + state + digits))
  }

  /** `String(number).replace(/(\d{4,5})(\d{4})/, "$1-$2")`: a hyphen before the last four of the leftmost eight or nine digits. */
  function HyphenateNumber(s: string): string
  {
    match FindDigitRun(s, 8, 0)
    case None => s
    case Some(p) => if DigitRunAt(s, 9, p) then s[..p + 5] + "-" + s[p + 5..] else s[..p + 4] + "-" + s[p + 4..]
  }

  /** The telephone text the form shows for an API telephone (line 153). */
  function PhoneText(p: ApiPhone): string
  {
    "+" + ToJsString(p.countryCode) + " (" + ToJsString(p.stateCode) + ") " + HyphenateNumber(ToJsString(p.number))
  }

  // ---------------------------------------------------------------------
  // Form to API

  function MapFormPhone(p: FormPhone): (r: ApiPhone)
    ensures r.id == (if Truthy(p.id) then p.id else Undefined)
    ensures r.isMain == p.isMain && r.phoneType == p.phoneType
    ensures ParseTelephone(p.telephone).None? ==>
      r.countryCode == Null && r.stateCode == Null && r.number == Null && r.fullNumber == Null
    ensures ParseTelephone(p.telephone).Some? ==>
      var q := ParseTelephone(p.telephone).value;
      r.countryCode == Num(q.countryCode) && r.stateCode == Num(q.stateCode)
      && r.number == Num(q.number) && r.fullNumber == Str(q.fullNumber)
  {
    var id := Or(p.id, Undefined);
    match ParseTelephone(p.telephone)
    case None => ApiPhone(id, p.isMain, p.phoneType, Null, Null, Null, Null)
    case Some(q) => ApiPhone(id, p.isMain, p.phoneType, Num(q.countryCode), Num(q.stateCode), Num(q.number), Str(q.fullNumber))
  }

  function MapFormEmail(e: FormEmail): (r: ApiEmail)
    ensures r.id == (if Truthy(e.id) then e.id else Undefined)
    ensures r.email == e.email && r.isMain == e.isMain && r.emailVerified == e.emailVerified
  {
    ApiEmail(Or(e.id, Undefined), e.email, e.isMain, e.emailVerified)
  }

  /** A truthy value goes through `parseInt` with no radix, a falsy one becomes null. */
  function ParseIntOrNull(v: JsVal): (r: JsVal)
    ensures !Truthy(v) ==> r == Null
    ensures Truthy(v) ==> r.Num? || r.NaN?
    ensures v.Num? && v.n != 0 ==> r == v
    ensures v.Str? && |v.s| > 0 && IsDigit(v.s[0]) && !HexPrefixed(v.s) ==> r == Num(DecimalValue(DigitPrefix(v.s)))
    ensures v.Str? && |v.s| > 1 && v.s[0] == '-' && IsDigit(v.s[1]) && !HexPrefixed(v.s[1..]) ==>
      r == Num(Signed(true, DecimalValue(DigitPrefix(v.s[1..]))))
    ensures v.Str? && |v.s| > 0 && (v.s[0] == '-' || v.s[0] == '+') && (|v.s| == 1 || !IsDigit(v.s[1])) ==> r.NaN?
  {
    if Truthy(v) then
      ParseIntOfNumber(if v.Num? then v.n else 0);
      ParseIntAuto(ToJsString(v))
    else Null
  }

  /** A truthy value goes through `parseInt(v, 10)`, a falsy one becomes null. */
  function ParseDecimalOrNull(v: JsVal): (r: JsVal)
    ensures !Truthy(v) ==> r == Null
    ensures Truthy(v) ==> r.Num? || r.NaN?
    ensures v.Num? && v.n != 0 ==> r == v
    ensures v.Str? && |v.s| > 0 && IsDigit(v.s[0]) ==> r == Num(DecimalValue(DigitPrefix(v.s)))
    ensures v.Str? && |v.s| > 1 && v.s[0] == '-' && IsDigit(v.s[1]) ==> r == Num(Signed(true, DecimalValue(DigitPrefix(v.s[1..]))))
    ensures v.Str? && |v.s| > 0 && (v.s[0] == '-' || v.s[0] == '+') && (|v.s| == 1 || !IsDigit(v.s[1])) ==> r.NaN?
  {
    if Truthy(v) then
      ParseIntOfNumber(if v.Num? then v.n else 0);
      ParseIntDecimal(ToJsString(v))
    else Null
  }

  /** The sign reaches the zip code once: "-5" gives -5, "+-5" gives NaN. */
  lemma ZipCodeSignExamples()
    ensures ParseIntOrNull(Str("-5")) == Num(-5)
    ensures ParseIntOrNull(Str("+-5")).NaN?
  {
    assert "-5"[1..] == "5";
    assert DigitPrefix("5") == "5" by { assert "5"[1..] == ""; }
    assert DecimalValue("5") == 5 by { assert "5"[..0] == ""; }
    assert !IsDigit("+-5"[1]);
  }

  function MapFormAddress(a: FormAddress): (r: ApiAddress)
    ensures r.id == (if Truthy(a.id) then a.id else Undefined)
    ensures r.zipCode == ParseIntOrNull(a.zipCode) && r.number == ParseDecimalOrNull(a.number)
    ensures r.street == a.street && r.complement == a.complement && r.district == a.district
    ensures r.city == a.city && r.state == a.state && r.country == a.country && r.isMain == a.isMain
  {
    ApiAddress(Or(a.id, Undefined), ParseIntOrNull(a.zipCode), a.street, ParseDecimalOrNull(a.number),
               a.complement, a.district, a.city, a.state, a.country, a.isMain)
  }

  function MapOptional<A, B>(xs: Option<seq<A>>, f: A -> B): (r: Option<seq<B>>)
    ensures r.Some? <==> xs.Some?
    ensures r.Some? ==> |r.value| == |xs.value| && forall i :: 0 <= i < |xs.value| ==> r.value[i] == f(xs.value[i])
  {
    match xs
    case None => None
    case Some(s) => Some(MapSeq(s, f))
  }

  /** `x || null` */
  function OrNull(v: JsVal): (r: JsVal)
    ensures Truthy(v) ==> r == v
    ensures !Truthy(v) ==> r == Null
  {
    Or(v, Null)
  }

  /**
   * The `birth_date` the mappers write: the ISO string of a truthy date,
   * null for a falsy one. `toIso` stands for `new Date(d).toISOString()`;
   * `None` is the RangeError it throws for an invalid date.
   */
  function IsoOrNull(d: JsVal, toIso: JsVal -> Option<string>): (r: Result<JsVal>)
    ensures r.Err? <==> Truthy(d) && toIso(d).None?
    ensures r.Err? ==> r.message == InvalidTimeValue
    ensures Truthy(d) && toIso(d).Some? ==> r == Ok(Str(toIso(d).value))
    ensures !Truthy(d) ==> r == Ok(Null)
  {
    if !Truthy(d) then Ok(Null)
    else match toIso(d)
      case None => Err(InvalidTimeValue)
      case Some(iso) => Ok(Str(iso))
  }

  /**
   * `mapFormUserToApiUser`: throws when the birth date is invalid.
   * Absent lists stay absent; present lists keep their length and order.
   */
  function MapFormUserToApiUser(u: FormUser, toIso: JsVal -> Option<string>): (r: Result<ApiUser>)
    ensures r.Err? <==> IsoOrNull(u.birthDate, toIso).Err?
    ensures r.Err? ==> r.message == InvalidTimeValue
    ensures r.Ok? ==>
      var a := r.value;
      a.id == (if Truthy(u.id) then ToNumber(u.id) else Null)
      && a.name == OrNull(u.name) && a.nickname == OrNull(u.nickname)
      && a.cpf == OrNull(u.cpf) && a.password == OrNull(u.password)
      && a.picture == (if TruthyPicture(u.picture) then u.picture else Scalar(Null))
      && Ok(a.birthDate) == IsoOrNull(u.birthDate, toIso)
      && a.telephone == MapOptional(u.telephones, MapFormPhone)
      && a.email == MapOptional(u.emails, MapFormEmail)
      && a.address == MapOptional(u.addresses, MapFormAddress)
  {
    match IsoOrNull(u.birthDate, toIso)
    case Err(m) => Err(m)
    case Ok(birthDate) =>
      Ok(ApiUser(
        if Truthy(u.id) then ToNumber(u.id) else Null,
        OrNull(u.name), OrNull(u.nickname),
        if TruthyPicture(u.picture) then u.picture else Scalar(Null),
        birthDate,
        OrNull(u.cpf), OrNull(u.password),
        MapOptional(u.emails, MapFormEmail),
        MapOptional(u.telephones, MapFormPhone),
        MapOptional(u.addresses, MapFormAddress)))
  }

  // ---------------------------------------------------------------------
  // Cleaning the form lists

  /** What the form data holds besides the three lists, and the lists themselves (null items allowed). */
  datatype RawFormData = RawFormData(
    fields: Record,
    addresses: Option<seq<Option<Record>>>, emails: Option<seq<Option<Record>>>, telephones: Option<seq<Option<Record>>>)

  datatype CleanFormData = CleanFormData(
    fields: Record, addresses: seq<Record>, emails: seq<Record>, telephones: seq<Record>)

  /** Keeps the items that are objects with at least one key, in order. */
  function DropEmptyItems(items: seq<Option<Record>>): (r: seq<Record>)
    ensures |r| <= |items|
    ensures forall x :: x in r <==> Some(x) in items && |x| > 0
    decreases |items|
  {
    if |items| == 0 then []
    else
      var rest := DropEmptyItems(items[1..]);
      assert forall x :: Some(x) in items <==> Some(x) == items[0] || Some(x) in items[1..];
      if items[0].Some? && |items[0].value| > 0 then [items[0].value] + rest else rest
  }

  /** `items.filter(item => item && Object.keys(item).length > 0)`: the kept items in their order, repeats included. */
  lemma {:induction false} DropEmptyItemsIsFilter(items: seq<Option<Record>>)
    ensures MapSeq(DropEmptyItems(items), (x: Record) => Some(x)) == Filter(items, (o: Option<Record>) => o.Some? && |o.value| > 0)
    decreases |items|
  {
    if |items| > 0 {
      DropEmptyItemsIsFilter(items[1..]);
      var f := (x: Record) => Some(x);
      var rest := DropEmptyItems(items[1..]);
      if items[0].Some? && |items[0].value| > 0 {
        assert MapSeq([items[0].value] + rest, f) == [items[0]] + MapSeq(rest, f);
      }
    }
  }

  function CleanList(items: Option<seq<Option<Record>>>): (r: seq<Record>)
    ensures items.None? ==> r == []
    ensures items.Some? ==> r == DropEmptyItems(items.value)
  {
    if items.Some? then DropEmptyItems(items.value) else []
  }

  /** `cleanUserDataForForm` */
  function CleanUserDataForForm(data: RawFormData): (r: CleanFormData)
    ensures r.fields == data.fields
    ensures r.addresses == CleanList(data.addresses)
    ensures r.emails == CleanList(data.emails)
    ensures r.telephones == CleanList(data.telephones)
  {
    CleanFormData(data.fields, CleanList(data.addresses), CleanList(data.emails), CleanList(data.telephones))
  }

  /** Cleaning twice is cleaning once: every kept item already has a key. */
  lemma {:induction false} DropEmptyItemsIdempotent(items: seq<Option<Record>>)
    ensures DropEmptyItems(MapSeq(DropEmptyItems(items), (x: Record) => Some(x))) == DropEmptyItems(items)
    decreases |items|
  {
    if |items| > 0 {
      DropEmptyItemsIdempotent(items[1..]);
      var rest := DropEmptyItems(items[1..]);
      var f := (x: Record) => Some(x);
      if items[0].Some? && |items[0].value| > 0 {
        var lifted := MapSeq([items[0].value] + rest, f);
        assert lifted[1..] == MapSeq(rest, f);
      }
    }
  }

  // ---------------------------------------------------------------------
  // API to form

  function MapApiPhone(p: ApiPhone): (r: FormPhone)
    ensures r.id == (if Truthy(p.id) then p.id else Undefined)
    ensures r.telephone == if Truthy(p.fullNumber) then Str(PhoneText(p)) else Str("")
    ensures r.isMain == (if Truthy(p.isMain) then p.isMain else Bool(false))
    ensures r.phoneType == (if Truthy(p.phoneType) then p.phoneType else Str("Pessoal"))
  {
    FormPhone(Or(p.id, Undefined),
              if Truthy(p.fullNumber) then Str(PhoneText(p)) else Str(""),
              Or(p.isMain, Bool(false)),
              Or(p.phoneType, Str("Pessoal")))
  }

  function MapApiEmail(e: ApiEmail): (r: FormEmail)
    ensures r.id == (if Truthy(e.id) then e.id else Undefined)
    ensures r.email == (if Truthy(e.email) then e.email else Str(""))
    ensures r.isMain == (if Truthy(e.isMain) then e.isMain else Bool(false))
    ensures r.emailVerified == (if Truthy(e.emailVerified) then e.emailVerified else Null)
  {
    FormEmail(Or(e.id, Undefined), Or(e.email, Str("")), Or(e.isMain, Bool(false)), Or(e.emailVerified, Null))
  }

  /** `x || ""` */
  function OrEmpty(v: JsVal): (r: JsVal)
    ensures Truthy(v) ==> r == v
    ensures !Truthy(v) ==> r == Str("")
  {
    Or(v, Str(""))
  }

  function MapApiAddress(a: ApiAddress): (r: FormAddress)
    ensures r.id == (if Truthy(a.id) then a.id else Undefined)
    ensures Truthy(a.zipCode) ==> r.zipCode == Str(PadStart(ToJsString(a.zipCode), 8, '0'))
    ensures !Truthy(a.zipCode) ==> r.zipCode == Str("")
    ensures r.number == if Truthy(a.number) then Str(ToJsString(a.number)) else Str("")
    ensures r.street == OrEmpty(a.street) && r.complement == OrEmpty(a.complement) && r.district == OrEmpty(a.district)
    ensures r.city == OrEmpty(a.city) && r.state == OrEmpty(a.state)
    ensures r.country == (if Truthy(a.country) then a.country else Str("Brasil"))
    ensures r.isMain == (if Truthy(a.isMain) then a.isMain else Bool(false))
  {
    FormAddress(
      Or(a.id, Undefined),
      if Truthy(a.zipCode) then Str(PadStart(ToJsString(a.zipCode), 8, '0')) else Str(""),
      OrEmpty(a.street),
      if Truthy(a.number) then Str(ToJsString(a.number)) else Str(""),
      OrEmpty(a.complement), OrEmpty(a.district), OrEmpty(a.city), OrEmpty(a.state),
      Or(a.country, Str("Brasil")),
      Or(a.isMain, Bool(false)))
  }

  /** `processPicture`. The two environment values are parameters. */
  function ProcessPicture(picture: Picture, baseUrlEnv: JsVal, uploadsEnv: JsVal): (r: Picture)
    ensures !TruthyPicture(picture) ==> r == Scalar(Null)
    ensures picture.Scalar? && picture.v.Str? && StartsWith(picture.v.s, "http") ==> r == picture
    ensures picture.Scalar? && picture.v.Str? && picture.v.s != "" && !StartsWith(picture.v.s, "http") ==>
      var base := if Truthy(baseUrlEnv) then ToJsString(baseUrlEnv) else "http://localhost:3000";
      r.Scalar? && r.v.Str? && EndsWith(r.v.s, picture.v.s)
      && StartsWith(r.v.s, base + ToJsString(uploadsEnv))
      && r.v.s == base + ToJsString(uploadsEnv) + (if StartsWith(picture.v.s, "/") then "" else "/") + picture.v.s
    ensures TruthyPicture(picture) && !(picture.Scalar? && picture.v.Str?) ==> r == picture
  {
    if !TruthyPicture(picture) then Scalar(Null)
    else if picture.Scalar? && picture.v.Str? && StartsWith(picture.v.s, "http") then picture
    else if picture.Scalar? && picture.v.Str? then
      var base := ToJsString(Or(baseUrlEnv, Str("http://localhost:3000")));
      var p := picture.v.s;
      Scalar(Str(base + ToJsString(uploadsEnv) + (if StartsWith(p, "/") then "" else "/") + p))
    else picture
  }

  /** `!list || !Array.isArray(list) ? [] : list.map(f)` */
  function MapOrEmpty<A, B>(xs: Option<seq<A>>, f: A -> B): (r: seq<B>)
    ensures xs.None? ==> r == []
    ensures xs.Some? ==> |r| == |xs.value| && forall i :: 0 <= i < |xs.value| ==> r[i] == f(xs.value[i])
  {
    if xs.Some? then MapSeq(xs.value, f) else []
  }

  /**
   * `mapApiUserToFormUser`. `formatDate` stands for `formatBirthDate` on a
   * truthy value (its date arithmetic is left out).
   */
  function MapApiUserToFormUser(u: Option<ApiUser>, formatDate: JsVal -> string, baseUrlEnv: JsVal, uploadsEnv: JsVal): (r: Option<FormUser>)
    ensures u.None? <==> r.None?
    ensures r.Some? ==>
      var f, a := r.value, u.value;
      f.id == a.id && f.name == OrEmpty(a.name) && f.nickname == OrEmpty(a.nickname) && f.cpf == OrEmpty(a.cpf)
      && f.birthDate == (if Truthy(a.birthDate) then Str(formatDate(a.birthDate)) else Str(""))
      && f.picture == ProcessPicture(a.picture, baseUrlEnv, uploadsEnv)
      && f.password == Undefined
      && f.telephones == Some(MapOrEmpty(a.telephone, MapApiPhone))
      && f.emails == Some(MapOrEmpty(a.email, MapApiEmail))
      && f.addresses == Some(MapOrEmpty(a.address, MapApiAddress))
  {
    match u
    case None => None
    case Some(a) =>
      Some(FormUser(
        a.id, OrEmpty(a.name), OrEmpty(a.nickname),
        ProcessPicture(a.picture, baseUrlEnv, uploadsEnv),
        if Truthy(a.birthDate) then Str(formatDate(a.birthDate)) else Str(""),
        OrEmpty(a.cpf), Undefined,
        Some(MapOrEmpty(a.telephone, MapApiPhone)),
        Some(MapOrEmpty(a.email, MapApiEmail)),
        Some(MapOrEmpty(a.address, MapApiAddress))))
  }

  // ---------------------------------------------------------------------
  // Round trip of the telephone text

  lemma HyphenateEightOrNine(s: string)
    requires AllDigits(s) && (|s| == 8 || |s| == 9)
    ensures HyphenateNumber(s) == s[..|s| - 4] + "-" + s[|s| - 4..]
  {
    FindDigitRunOnDigits(s, 8);
    if |s| == 9 {
      assert DigitRunAt(s, 9, 0);
    } else {
      assert !DigitRunAt(s, 9, 0);
    }
  }

  /** Where the pieces of the telephone text sit. */
  lemma PhoneTextPieces(c: string, st: string, h: string)
    requires |c| == 2 && |st| == 2
    ensures var s := "+" + c + " (" + st + ") " + h;
      |s| == 9 + |h| && s[0] == '+' && s[1..3] == c && s[3] == ' ' && s[4] == '('
      && s[5..7] == st && s[7] == ')' && s[8] == ' ' && s[9..] == h
  {
    var head := "+" + c + " (" + st + ") ";
    assert |head| == 9;
    assert head[1..3] == c;
    assert head[5..7] == st;
    var s := head + h;
    assert s[..9] == head;
    assert s[1..3] == head[1..3];
    assert s[5..7] == head[5..7];
  }

  /** A hyphenated eight- or nine-digit number has the shape of the third group. */
  lemma LocalPartShape(num: string)
    requires AllDigits(num) && (|num| == 8 || |num| == 9)
    ensures var h := num[..|num| - 4] + "-" + num[|num| - 4..];
      (|h| == 9 || |h| == 10) && h[..|h| - 5] == num[..|num| - 4] && h[|h| - 5] == '-'
      && h[|h| - 4..] == num[|num| - 4..]
  {
  }

  /** Parsing a text of the shape the form builds. */
  lemma ParsePhoneText(c: string, st: string, num: string)
    requires AllDigits(c) && |c| == 2 && AllDigits(st) && |st| == 2
    requires AllDigits(num) && (|num| == 8 || |num| == 9)
    ensures ParseTelephone(Str("+" + c + " (" + st + ") " + (num[..|num| - 4] + "-" + num[|num| - 4..])))
      == Some(PhoneParts(DecimalValue(c), DecimalValue(st), DecimalValue(num), c + st + num))
  {
    var h := num[..|num| - 4] + "-" + num[|num| - 4..];
    LocalPartShape(num);
    PhoneTextPieces(c, st, h);
    var s := "+" + c + " (" + st + ") " + h;
    var lead, tail := num[..|num| - 4], num[|num| - 4..];
    assert s[9..|s| - 5] == lead by {
      assert s[9..|s| - 5] == s[9..][..|h| - 5];
    }
    assert s[|s| - 5] == '-' by {
      assert s[|s| - 5] == s[9..][|h| - 5];
    }
    assert s[|s| - 4..] == tail by {
      assert s[|s| - 4..] == s[9..][|h| - 4..];
    }
    assert IsJsSpace(s[3]) && IsJsSpace(s[8]);
    assert PhoneShape(s);
    assert lead + tail == num;
    var r := ParseTelephone(Str(s));
    var loc := s[9..|s| - 5] + s[|s| - 4..];
    assert loc == num;
    assert s[1..3] == c && s[5..7] == st;
    assert r == Some(PhoneParts(DecimalValue(s[1..3]), DecimalValue(s[5..7]), DecimalValue(loc), s[1..3] + s[5..7] + loc));
  }

  /**
   * For two-digit country and area codes and an eight- or nine-digit local
   * number, parsing the text the form shows gives the three integers back.
   */
  lemma TelephoneRoundTrip(p: ApiPhone, cc: nat, ss: nat, n: nat)
    requires p.countryCode == Num(cc) && 10 <= cc <= 99
    requires p.stateCode == Num(ss) && 10 <= ss <= 99
    requires p.number == Num(n) && 10000000 <= n < 1000000000
    requires Truthy(p.fullNumber)
    ensures ParseTelephone(MapApiPhone(p).telephone)
      == Some(PhoneParts(cc, ss, n, NatToDecimal(cc) + NatToDecimal(ss) + NatToDecimal(n)))
    ensures var back := MapFormPhone(MapApiPhone(p));
      back.countryCode == Num(cc) && back.stateCode == Num(ss) && back.number == Num(n)
  {
    var c, st, num := NatToDecimal(cc), NatToDecimal(ss), NatToDecimal(n);
    Pow10Values();
    DecimalLength(cc, 2);
    DecimalLength(ss, 2);
    if n < 100000000 {
      DecimalLength(n, 8);
    } else {
      DecimalLength(n, 9);
    }
    DecimalRoundTrip(cc);
    DecimalRoundTrip(ss);
    DecimalRoundTrip(n);
    HyphenateEightOrNine(num);
    assert PhoneText(p) == "+" + c + " (" + st + ") " + (num[..|num| - 4] + "-" + num[|num| - 4..]);
    ParsePhoneText(c, st, num);
  }
}
