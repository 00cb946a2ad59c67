// The registration form's own logic (src/components/user/form/UserForm.js):
// the default password, the main-item check, the sub-form save hook, the
// field-validation error filter and the primary-email precondition of the
// Auth0 create. `Math.random` is replaced by the drawn character indices.

module UserForm {
  import opened Js
  import UserSchema
  import FrontSubForm

  type FieldError = FrontSubForm.FieldError

  // ---------------------------------------------------------------------
  // generateDefaultPassword

  const PasswordChars: string := "ABCDEFGHIJKLMNOPQRSTUVWXYZabcdefghijklmnopqrstuvwxyz0123456789!"

  predicate HasUpper(s: string)
  {
    exists i :: 0 <= i < |s| && UserSchema.IsUpper(s[i])
  }

  predicate HasDigitChar(s: string)
  {
    exists i :: 0 <= i < |s| && IsDigit(s[i])
  }

  predicate ValidDraws(draws: seq<nat>)
  {
    forall i :: 0 <= i < |draws| ==> draws[i] < |PasswordChars|
  }

  /** The characters the loop appends, one per draw. */
  function Drawn(draws: seq<nat>): (p: string)
    requires ValidDraws(draws)
    ensures |p| == |draws|
    ensures forall i :: 0 <= i < |p| ==> p[i] in PasswordChars
  {
    seq(|draws|, i requires 0 <= i < |draws| => PasswordChars[draws[i]])
  }

  /** `"A" + password.slice(1)` when there is no uppercase letter. */
  function EnsureUpper(p: string): (r: string)
    ensures HasUpper(p) ==> r == p
    ensures !HasUpper(p) ==> |r| == (if |p| == 0 then 1 else |p|) && r[0] == 'A' && r[1..] == (if |p| == 0 then "" else p[1..])
  {
    if HasUpper(p) then p else "A" + (if |p| == 0 then "" else p[1..])
  }

  /** `password.slice(0, -1) + "1"` when there is no digit. */
  function EnsureDigit(p: string): (r: string)
    ensures HasDigitChar(p) ==> r == p
    ensures !HasDigitChar(p) ==> r == (if |p| == 0 then "" else p[..|p| - 1]) + "1"
  {
    if HasDigitChar(p) then p else (if |p| == 0 then "" else p[..|p| - 1]) + "1"
  }

  /** The two fixes after the loop, in source order. */
  function FixPassword(p: string): (r: string)
    ensures HasDigitChar(r)
  {
    var r := EnsureDigit(EnsureUpper(p));
    assert HasDigitChar(r) by {
      if !HasDigitChar(EnsureUpper(p)) {
        assert IsDigit(r[|r| - 1]);
      }
    }
    r
  }

  method GenerateDefaultPassword(draws: seq<nat>) returns (password: string)
    requires |draws| == 12 && ValidDraws(draws)
    ensures password == FixPassword(Drawn(draws))
    ensures |password| == 12 && HasDigitChar(password)
  {
    password := "";
    for i := 0 to 12
      invariant |password| == i
      invariant forall j :: 0 <= j < i ==> password[j] == PasswordChars[draws[j]]
    {
      password := password + [PasswordChars[draws[i]]];
    }
    assert password == Drawn(draws);
    if !HasUpper(password) {
      password := "A" + password[1..];
    }
    if !HasDigitChar(password) {
      password := password[..|password| - 1] + "1";
    }
  }

  /**
   * The fixed password has an uppercase letter unless the drawn one had its
   * only uppercase letters in the last place and no digit: the digit fix
   * then overwrites that place.
   */
  lemma {:induction false} FixPasswordUpper(p: string)
    requires |p| == 12
    ensures HasUpper(FixPassword(p)) <==> !(HasUpper(p) && !HasDigitChar(p) && !HasUpper(p[..11]))
  {
    var u := EnsureUpper(p);
    var r := FixPassword(p);
    if !HasUpper(p) {
      assert r[0] == 'A';
    } else if !HasDigitChar(p) {
      assert u == p && r == p[..11] + "1";
      if HasUpper(p[..11]) {
        var i :| 0 <= i < 11 && UserSchema.IsUpper(p[..11][i]);
        assert r[i] == p[i];
      }
    }
  }

  // ---------------------------------------------------------------------
  // checkMainItems and handleContextSave

  predicate HasMainItem(items: seq<Record>)
  {
    exists i :: 0 <= i < |items| && Truthy(Get(items[i], "is_main"))
  }

  function MainItemMessage(field: string): (m: string)
    ensures field == "addresses" ==> m == "Pelo menos um endereço deve ser marcado como principal"
    ensures field == "emails" ==> m == "Pelo menos um e-mail deve ser marcado como principal"
    ensures field != "addresses" && field != "emails" ==> m == "Pelo menos um telefone deve ser marcado como principal"
  {
    if field == "addresses" then "Pelo menos um endereço deve ser marcado como principal"
    else if field == "emails" then "Pelo menos um e-mail deve ser marcado como principal"
    else "Pelo menos um telefone deve ser marcado como principal"
  }

  /** The errors `checkMainItems(field, data)` leaves. */
  function ErrorsAfterMainCheck(errors: map<string, string>, field: string, items: seq<Record>): (r: map<string, string>)
    ensures field in r <==> !HasMainItem(items)
    ensures !HasMainItem(items) ==> r[field] == MainItemMessage(field)
    ensures forall k :: k != field ==> (k in r <==> k in errors) && (k in r ==> r[k] == errors[k])
  {
    if !HasMainItem(items) then errors[field := MainItemMessage(field)]
    else map k | k in errors && k != field :: errors[k]
  }

  /** One item as `handleContextSave` adjusts it: only addresses convert a truthy zip code and number. */
  function AdjustItem(field: string, item: Record): (r: Record)
    ensures r.Keys == item.Keys
    ensures field != "addresses" ==> r == item
    ensures field == "addresses" ==>
      (forall k :: k in item && k != "zip_code" && k != "number" ==> r[k] == item[k])
      && ("zip_code" in item ==> r["zip_code"] == if Truthy(item["zip_code"]) then ToNumber(item["zip_code"]) else item["zip_code"])
      && ("number" in item ==> r["number"] == if Truthy(item["number"]) then ToNumber(item["number"]) else item["number"])
  {
    if field != "addresses" then item
    else
      var a := if Truthy(Get(item, "zip_code")) then item["zip_code" := ToNumber(item["zip_code"])] else item;
      if Truthy(Get(a, "number")) then a["number" := ToNumber(a["number"])] else a
  }

  function AdjustItems(field: string, items: seq<Record>): (r: seq<Record>)
    ensures |r| == |items|
    ensures forall i :: 0 <= i < |items| ==> r[i] == AdjustItem(field, items[i])
  {
    seq(|items|, i requires 0 <= i < |items| => AdjustItem(field, items[i]))
  }

  /** The adjustment never touches `is_main`, so the main check sees what the sub-form sent. */
  lemma AdjustKeepsMain(field: string, items: seq<Record>)
    ensures HasMainItem(AdjustItems(field, items)) <==> HasMainItem(items)
  {
    var r := AdjustItems(field, items);
    assert forall i :: 0 <= i < |items| ==> Get(r[i], "is_main") == Get(items[i], "is_main");
  }

  /** The part of the form state these handlers touch: the three lists by name, and the errors. */
  class UserFormState {
    var lists: map<string, seq<Record>>
    var errors: map<string, string>

    constructor(lists0: map<string, seq<Record>>)
      ensures lists == lists0 && errors == map[]
    {
      lists, errors := lists0, map[];
    }

    /** `checkMainItems(field, data)` on the current lists. */
    method CheckMainItems(field: string)
      modifies this
      ensures lists == old(lists)
      ensures errors == ErrorsAfterMainCheck(old(errors), field, if field in lists then lists[field] else [])
    {
      errors := ErrorsAfterMainCheck(errors, field, if field in lists then lists[field] else []);
    }

    /** `handleContextSave(field)(items)` */
    method HandleContextSave(field: string, items: seq<Record>)
      modifies this
      ensures lists == old(lists)[field := AdjustItems(field, items)]
      ensures errors == ErrorsAfterMainCheck(old(errors), field, items)
    {
      lists := lists[field := AdjustItems(field, items)];
      AdjustKeepsMain(field, items);
      CheckMainItems(field);
    }

    /** `validateField`: a pass removes the key; a failure merges its errors, minus those about "principal". */
    method ValidateField(fieldPath: string, failures: Option<seq<FieldError>>)
      modifies this
      ensures lists == old(lists)
      ensures failures.None? ==> errors == old(errors) - {fieldPath}
      ensures failures.Some? ==> errors == MergeErrors(old(errors), FrontSubForm.ErrorMap(NonPrincipal(failures.value)))
    {
      if failures.None? {
        errors := map k | k in errors && k != fieldPath :: errors[k];
      } else {
        errors := MergeErrors(errors, FrontSubForm.ErrorMap(NonPrincipal(failures.value)));
      }
    }
  }

  /** The errors whose message does not mention "principal". */
  function NonPrincipal(errs: seq<FieldError>): (r: seq<FieldError>)
    ensures forall e :: e in r <==> e in errs && !Contains(e.message, "principal")
    decreases |errs|
  {
    if |errs| == 0 then []
    else if Contains(errs[0].message, "principal") then NonPrincipal(errs[1..])
    else [errs[0]] + NonPrincipal(errs[1..])
  }

  /** `{ ...prev, ...errorMap }` */
  function MergeErrors(prev: map<string, string>, add: map<string, string>): (r: map<string, string>)
    ensures r.Keys == prev.Keys + add.Keys
    ensures forall k :: k in add ==> r[k] == add[k]
    ensures forall k :: k in prev && k !in add ==> r[k] == prev[k]
  {
    map k | k in prev.Keys + add.Keys :: if k in add then add[k] else prev[k]
  }

  /** A failure whose every message mentions "principal" leaves the errors as they were. */
  lemma PrincipalErrorsDiscarded(prev: map<string, string>, errs: seq<FieldError>)
    requires forall e :: e in errs ==> Contains(e.message, "principal")
    ensures MergeErrors(prev, FrontSubForm.ErrorMap(NonPrincipal(errs))) == prev
  {
    assert NonPrincipal(errs) == [] by {
      if |NonPrincipal(errs)| > 0 {
        assert NonPrincipal(errs)[0] in NonPrincipal(errs);
      }
    }
  }

  // ---------------------------------------------------------------------
  // createAuth0User

  const PrimaryEmailRequired: string := "E-mail principal é necessário"

  /** `i` is the first index whose item is marked main. */
  predicate FirstMain(emails: seq<Record>, i: int)
  {
    0 <= i < |emails| && Truthy(Get(emails[i], "is_main"))
    && forall j :: 0 <= j < i ==> !Truthy(Get(emails[j], "is_main"))
  }

  /** `emails.find(e => e.is_main)?.email`: the first main email's address, undefined when none is main. */
  function PrimaryEmail(emails: seq<Record>): (r: JsVal)
    ensures forall i :: FirstMain(emails, i) ==> r == Get(emails[i], "email")
    ensures !HasMainItem(emails) ==> r == Undefined
    decreases |emails|
  {
    if |emails| == 0 then Undefined
    else if Truthy(Get(emails[0], "is_main")) then Get(emails[0], "email")
    else
      var r := PrimaryEmail(emails[1..]);
      assert forall i :: FirstMain(emails, i) ==> FirstMain(emails[1..], i - 1) by {
        forall i | FirstMain(emails, i)
          ensures FirstMain(emails[1..], i - 1)
        {
          assert i != 0;
          forall j | 0 <= j < i - 1
            ensures !Truthy(Get(emails[1..][j], "is_main"))
          {
            assert emails[1..][j] == emails[j + 1];
          }
        }
      }
      assert !HasMainItem(emails) ==> !HasMainItem(emails[1..]) by {
        if HasMainItem(emails[1..]) {
          var j :| 0 <= j < |emails[1..]| && Truthy(Get(emails[1..][j], "is_main"));
          assert emails[j + 1] == emails[1..][j];
        }
      }
      r
  }

  /** Some item is main exactly when there is a first one. */
  lemma {:induction false} FirstMainExists(emails: seq<Record>)
    requires HasMainItem(emails)
    ensures exists i :: FirstMain(emails, i)
    decreases |emails|
  {
    if Truthy(Get(emails[0], "is_main")) {
      assert FirstMain(emails, 0);
    } else {
      var k :| 0 <= k < |emails| && Truthy(Get(emails[k], "is_main"));
      assert emails[1..][k - 1] == emails[k];
      FirstMainExists(emails[1..]);
      var i :| FirstMain(emails[1..], i);
      forall j | 0 <= j < i + 1
        ensures !Truthy(Get(emails[j], "is_main"))
      {
        if j > 0 { assert emails[j] == emails[1..][j - 1]; }
      }
      assert FirstMain(emails, i + 1);
    }
  }

  /** `find` stops at the first main email even when a later one has an address. */
  lemma FirstMainWithoutAddressFails()
    ensures var emails := [map["is_main" := Bool(true), "email" := Str("")],
                           map["is_main" := Bool(true), "email" := Str("a@b")]];
      PrimaryEmail(emails) == Str("")
      && CreateAuth0Payload(emails, Null, Null, Null, "Secret1!") == Err(PrimaryEmailRequired)
  {
    var emails := [map["is_main" := Bool(true), "email" := Str("")],
                   map["is_main" := Bool(true), "email" := Str("a@b")]];
    assert Get(emails[0], "is_main") == Bool(true);
    assert FirstMain(emails, 0);
  }

  /** The body of the Auth0 `POST /api/v2/users` request. */
  datatype Auth0CreatePayload = Auth0CreatePayload(
    email: JsVal, password: string, name: JsVal, nickname: JsVal, picture: JsVal, connection: string, emailVerified: bool)

  /** The payload `createAuth0User` sends, or its error when no main email has an address. */
  function CreateAuth0Payload(emails: seq<Record>, name: JsVal, nickname: JsVal, picture: JsVal, password: string): (r: Result<Auth0CreatePayload>)
    ensures r.Err? <==> !Truthy(PrimaryEmail(emails))
    ensures r.Err? ==> r.message == PrimaryEmailRequired
    ensures !HasMainItem(emails) ==> r.Err?
    ensures forall i :: FirstMain(emails, i) ==>
      (r.Err? <==> !Truthy(Get(emails[i], "email"))) && (r.Ok? ==> r.value.email == Get(emails[i], "email"))
    ensures r.Ok? ==>
      r.value.email == PrimaryEmail(emails) && r.value.password == password
      && r.value.name == name && r.value.nickname == nickname && r.value.picture == picture
      && r.value.connection == "Username-Password-Authentication" && !r.value.emailVerified
  {
    var primary := PrimaryEmail(emails);
    if !Truthy(primary) then Err(PrimaryEmailRequired)
    else Ok(Auth0CreatePayload(primary, password, name, nickname, picture, "Username-Password-Authentication", false))
  }
}
