// The server-side mappers (src/businnes/mappers/userMapper.js): an Auth0
// profile to a database user, a submitted form user to the Auth0
// management-API update, and a submitted form user to a database user.

module UserMapper {
  import opened Js
  import FrontUserMapper

  type FormUser = FrontUserMapper.FormUser
  type ApiPhone = FrontUserMapper.ApiPhone
  type ApiEmail = FrontUserMapper.ApiEmail
  type ApiAddress = FrontUserMapper.ApiAddress

  /** The fields of an Auth0 profile that the mappers read. */
  datatype Auth0Profile = Auth0Profile(sub: JsVal, name: JsVal, nickname: JsVal, picture: JsVal, email: JsVal, emailVerified: JsVal)

  /** A form user as the server receives it: the form fields plus the Auth0 `sub` and `updated_at`. */
  datatype SubmittedUser = SubmittedUser(sub: JsVal, updatedAt: JsVal, form: FormUser)

  /**
   * A user in the database shape. An absent list is `None`; fields the
   * mapper does not write are `Undefined`.
   */
  datatype DbUser = DbUser(
    sub: JsVal, name: JsVal, nickname: JsVal, picture: Picture, updatedAt: JsVal,
    birthDate: JsVal, cpf: JsVal,
    email: Option<seq<ApiEmail>>, telephone: Option<seq<ApiPhone>>, address: Option<seq<ApiAddress>>)

  // ---------------------------------------------------------------------
  // Auth0 profile to database user

  /**
   * `mapAuth0UserToDbUser`; `now` stands for `new Date()`. The rules module
   * (src/businnes/indivisibleRules/userRules.js) defines the same function
   * with the same body.
   */
  function MapAuth0UserToDbUser(a: Auth0Profile, now: JsVal): (r: DbUser)
    ensures r.sub == a.sub && r.updatedAt == now
    ensures r.name == FrontUserMapper.OrNull(a.name) && r.nickname == FrontUserMapper.OrNull(a.nickname)
    ensures r.picture == Scalar(FrontUserMapper.OrNull(a.picture))
    ensures r.birthDate == Undefined && r.cpf == Undefined
    ensures r.telephone == Some([]) && r.address == Some([])
    ensures r.email.Some? <==> Truthy(a.email)
    ensures r.email.Some? ==>
      |r.email.value| == 1 && r.email.value[0].id == Undefined && r.email.value[0].email == a.email
      && r.email.value[0].isMain == Bool(true)
      && r.email.value[0].emailVerified == (if Truthy(a.emailVerified) then a.emailVerified else Bool(true))
  {
    DbUser(
      a.sub, FrontUserMapper.OrNull(a.name), FrontUserMapper.OrNull(a.nickname),
      Scalar(FrontUserMapper.OrNull(a.picture)), now, Undefined, Undefined,
      if Truthy(a.email) then Some([FrontUserMapper.ApiEmail(Undefined, a.email, Bool(true), Or(a.emailVerified, Bool(true)))]) else None,
      Some([]), Some([]))
  }

  /** `email_verified: x || true` is never false: the one email is always marked verified-truthy. */
  lemma Auth0EmailNeverUnverified(a: Auth0Profile, now: JsVal)
    requires Truthy(a.email)
    ensures var r := MapAuth0UserToDbUser(a, now);
      r.email.Some? && |r.email.value| == 1 && Truthy(r.email.value[0].emailVerified)
      && r.email.value[0].emailVerified != Bool(false)
  {
  }

  // ---------------------------------------------------------------------
  // Form user to Auth0 update

  /** The profile fields Auth0 accepts at top level for database connections only. */
  datatype ProfileFields = ProfileFields(nickname: JsVal, name: JsVal, picture: Picture, updatedAt: JsVal)

  datatype Auth0Metadata = Auth0Metadata(
    profile: Option<ProfileFields>, birthDate: JsVal, cpf: JsVal,
    telephones: seq<FrontUserMapper.FormPhone>, emails: seq<FrontUserMapper.FormEmail>, addresses: seq<FrontUserMapper.FormAddress>)

  /** The update sent to Auth0: top-level profile fields (or none) and `user_metadata`. */
  datatype Auth0Update = Auth0Update(profile: Option<ProfileFields>, metadata: Auth0Metadata)

  /** `formUser.sub?.startsWith("auth0|")` is true. */
  predicate IsDatabaseConnection(sub: JsVal)
  {
    sub.Str? && StartsWith(sub.s, "auth0|")
  }

  /** `xs || []` on an optional list. */
  function ListOrEmpty<T>(xs: Option<seq<T>>): (r: seq<T>)
    ensures xs.Some? ==> r == xs.value
    ensures xs.None? ==> r == []
  {
    if xs.Some? then xs.value else []
  }

  /**
   * `mapFormUserToAuth0User`. An `auth0|` subject (a database connection)
   * keeps the profile fields at top level; any other subject, including a
   * missing one, sends everything inside `user_metadata`. A `sub` that is
   * neither a string nor nullish has no `startsWith` and throws.
   */
  function MapFormUserToAuth0User(u: SubmittedUser): (r: Result<Auth0Update>)
    ensures r.Err? <==> !u.sub.Str? && !IsNullish(u.sub)
    ensures r.Ok? ==>
      var fields := ProfileFields(u.form.nickname, u.form.name, u.form.picture, u.updatedAt);
      var m := r.value.metadata;
      (IsDatabaseConnection(u.sub) ==> r.value.profile == Some(fields) && m.profile.None?)
      && (!IsDatabaseConnection(u.sub) ==> r.value.profile.None? && m.profile == Some(fields))
      && m.birthDate == u.form.birthDate && m.cpf == u.form.cpf
      && m.telephones == ListOrEmpty(u.form.telephones)
      && m.emails == ListOrEmpty(u.form.emails)
      && m.addresses == ListOrEmpty(u.form.addresses)
  {
    if !u.sub.Str? && !IsNullish(u.sub) then Err("TypeError: formUser.sub?.startsWith is not a function")
    else
      var isSocialConnection := !IsDatabaseConnection(u.sub);
      var fields := ProfileFields(u.form.nickname, u.form.name, u.form.picture, u.updatedAt);
      var telephones, emails, addresses := ListOrEmpty(u.form.telephones), ListOrEmpty(u.form.emails), ListOrEmpty(u.form.addresses);
      if !isSocialConnection then
        Ok(Auth0Update(Some(fields), Auth0Metadata(None, u.form.birthDate, u.form.cpf, telephones, emails, addresses)))
      else
        Ok(Auth0Update(None, Auth0Metadata(Some(fields), u.form.birthDate, u.form.cpf, telephones, emails, addresses)))
  }

  /** Wherever they are placed, the profile fields are sent exactly once. */
  function SentProfile(r: Auth0Update): Option<ProfileFields>
  {
    if r.profile.Some? then r.profile else r.metadata.profile
  }

  lemma Auth0ProfileSentOnce(u: SubmittedUser)
    requires u.sub.Str? || IsNullish(u.sub)
    ensures var r := MapFormUserToAuth0User(u);
      r.Ok? && (r.value.profile.None? || r.value.metadata.profile.None?)
      && SentProfile(r.value) == Some(ProfileFields(u.form.nickname, u.form.name, u.form.picture, u.updatedAt))
  {
  }

  // ---------------------------------------------------------------------
  // Form user to database user

  /**
   * `mapFormUserToDbUser`: the same telephone, email and address mapping as
   * the client mapper, plus `sub`; no `id` and no `password` are written.
   * It throws when the birth date is invalid.
   */
  function MapFormUserToDbUser(u: SubmittedUser, now: JsVal, toIso: JsVal -> Option<string>): (r: Result<DbUser>)
    ensures r.Err? <==> FrontUserMapper.IsoOrNull(u.form.birthDate, toIso).Err?
    ensures r.Err? ==> r.message == InvalidTimeValue
    ensures r.Ok? ==> r.value.sub == u.sub && r.value.updatedAt == now
    ensures r.Ok? ==> r.value.name == FrontUserMapper.OrNull(u.form.name) && r.value.nickname == FrontUserMapper.OrNull(u.form.nickname)
    ensures r.Ok? ==> r.value.cpf == FrontUserMapper.OrNull(u.form.cpf)
    ensures r.Ok? ==> r.value.picture == if TruthyPicture(u.form.picture) then u.form.picture else Scalar(Null)
    ensures r.Ok? ==> Ok(r.value.birthDate) == FrontUserMapper.IsoOrNull(u.form.birthDate, toIso)
    ensures r.Ok? ==> (r.value.telephone.Some? <==> u.form.telephones.Some?)
    ensures r.Ok? && r.value.telephone.Some? ==>
      |r.value.telephone.value| == |u.form.telephones.value|
      && forall i :: 0 <= i < |r.value.telephone.value| ==> r.value.telephone.value[i] == FrontUserMapper.MapFormPhone(u.form.telephones.value[i])
    ensures r.Ok? ==> (r.value.email.Some? <==> u.form.emails.Some?)
    ensures r.Ok? && r.value.email.Some? ==>
      |r.value.email.value| == |u.form.emails.value|
      && forall i :: 0 <= i < |r.value.email.value| ==> r.value.email.value[i] == FrontUserMapper.MapFormEmail(u.form.emails.value[i])
    ensures r.Ok? ==> (r.value.address.Some? <==> u.form.addresses.Some?)
    ensures r.Ok? && r.value.address.Some? ==>
      |r.value.address.value| == |u.form.addresses.value|
      && forall i :: 0 <= i < |r.value.address.value| ==> r.value.address.value[i] == FrontUserMapper.MapFormAddress(u.form.addresses.value[i])
  {
    match FrontUserMapper.IsoOrNull(u.form.birthDate, toIso)
    case Err(m) => Err(m)
    case Ok(birthDate) =>
      Ok(DbUser(
        u.sub, FrontUserMapper.OrNull(u.form.name), FrontUserMapper.OrNull(u.form.nickname),
        if TruthyPicture(u.form.picture) then u.form.picture else Scalar(Null),
        now, birthDate, FrontUserMapper.OrNull(u.form.cpf),
        FrontUserMapper.MapOptional(u.form.emails, FrontUserMapper.MapFormEmail),
        FrontUserMapper.MapOptional(u.form.telephones, FrontUserMapper.MapFormPhone),
        FrontUserMapper.MapOptional(u.form.addresses, FrontUserMapper.MapFormAddress)))
  }

  /**
   * The server mapper and the client mapper throw on the same input and
   * otherwise agree on every field they share: the server writes the
   * client's record plus `sub`, minus `id` and `password`.
   */
  lemma DbUserAgreesWithApiUser(u: SubmittedUser, now: JsVal, toIso: JsVal -> Option<string>)
    ensures var d := MapFormUserToDbUser(u, now, toIso);
      var a := FrontUserMapper.MapFormUserToApiUser(u.form, toIso);
      (d.Ok? <==> a.Ok?)
      && (d.Ok? ==>
        d.value.name == a.value.name && d.value.nickname == a.value.nickname
        && d.value.picture == a.value.picture && d.value.cpf == a.value.cpf
        && d.value.birthDate == a.value.birthDate
        && d.value.email == a.value.email && d.value.telephone == a.value.telephone && d.value.address == a.value.address)
  {
  }

  /** An invalid birth date makes the mapper throw before any field is written. */
  lemma InvalidBirthDateThrows(u: SubmittedUser, now: JsVal, toIso: JsVal -> Option<string>)
    requires Truthy(u.form.birthDate) && toIso(u.form.birthDate).None?
    ensures MapFormUserToDbUser(u, now, toIso) == Err(InvalidTimeValue)
    ensures FrontUserMapper.MapFormUserToApiUser(u.form, toIso) == Err(InvalidTimeValue)
  {
  }

  /** A telephone that does not parse keeps its id, main flag and type and gets null numbers. */
  lemma UnparsedTelephoneKeepsIdentity(p: FrontUserMapper.FormPhone)
    requires FrontUserMapper.ParseTelephone(p.telephone).None?
    ensures var r := FrontUserMapper.MapFormPhone(p);
      r.id == (if Truthy(p.id) then p.id else Undefined) && r.isMain == p.isMain && r.phoneType == p.phoneType
      && r.countryCode == Null && r.stateCode == Null && r.number == Null && r.fullNumber == Null
  {
  }
}
