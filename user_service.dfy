// The user service behind the session sync (src/services/userService.js):
// which mapper a create uses, the Auth0-sync and full update data,
// create-or-update, and the record `fetchUserData` hands to the form. The
// database and the HTTP request are parameters.

module UserService {
  import opened Js
  import FrontUserMapper
  import UserMapper
  import UserRules

  type ApiEmail = FrontUserMapper.ApiEmail
  type DbUser = UserMapper.DbUser

  // ---------------------------------------------------------------------
  // createUser

  /** What a create receives: an Auth0 profile (`isAuth0Sync`) or a submitted form user. */
  datatype CreateRequest = FromAuth0(profile: UserMapper.Auth0Profile) | FromForm(user: UserMapper.SubmittedUser)

  /** `createUser`: the data handed to `dbCreateUser`, or the mapper's error. */
  function CreateUser(req: CreateRequest, now: JsVal, toIso: JsVal -> Option<string>): (r: Result<DbUser>)
    ensures req.FromAuth0? ==> r == Ok(UserMapper.MapAuth0UserToDbUser(req.profile, now))
    ensures req.FromForm? ==> r == UserMapper.MapFormUserToDbUser(req.user, now, toIso)
  {
    match req
    case FromAuth0(p) => Ok(UserMapper.MapAuth0UserToDbUser(p, now))
    case FromForm(u) => UserMapper.MapFormUserToDbUser(u, now, toIso)
  }

  // ---------------------------------------------------------------------
  // updateUser

  /** What an update receives: an Auth0 profile (`isAuth0Sync`) or a user in the database shape. */
  datatype UpdateRequest = SyncProfile(profile: UserMapper.Auth0Profile) | FullRecord(user: DbUser)

  /** The single email write of an Auth0 sync. */
  datatype SyncEmailWrite = UpdateStored(where: JsVal, data: ApiEmail) | CreateOne(data: ApiEmail)

  datatype ServiceUpdate =
    | SyncUpdate(sub: JsVal, name: JsVal, nickname: JsVal, picture: JsVal, updatedAt: JsVal, email: SyncEmailWrite)
    | FullUpdate(sub: JsVal, plan: UserRules.UpdatePlan)

  /** `rows.find(e => e.email === email)`, as an index. */
  function FindEmail(rows: seq<Record>, email: JsVal): (r: Option<nat>)
    ensures r.Some? ==> r.value < |rows| && StrictEquals(Get(rows[r.value], "email"), email)
    ensures r.Some? ==> forall j :: 0 <= j < r.value ==> !StrictEquals(Get(rows[j], "email"), email)
    ensures r.None? <==> forall j :: 0 <= j < |rows| ==> !StrictEquals(Get(rows[j], "email"), email)
    decreases |rows|
  {
    if |rows| == 0 then None
    else if StrictEquals(Get(rows[0], "email"), email) then Some(0)
    else
      match FindEmail(rows[1..], email)
      case None => None
      case Some(i) => Some(i + 1)
  }

  /** The email data of an Auth0 sync: main, and verified only when the profile says so. */
  function SyncEmailData(p: UserMapper.Auth0Profile): (r: ApiEmail)
    ensures r.email == p.email && r.isMain == Bool(true)
    ensures r.emailVerified == (if Truthy(p.emailVerified) then p.emailVerified else Bool(false))
  {
    FrontUserMapper.ApiEmail(Undefined, p.email, Bool(true), Or(p.emailVerified, Bool(false)))
  }

  /**
   * `updateUser`: an error when no user has the `sub`. An Auth0 sync writes
   * one email: it updates the first stored row with the same address, or
   * creates one. A full update partitions the three relations.
   */
  function UpdateUser(req: UpdateRequest, stored: Option<UserRules.StoredUser>, now: JsVal): (r: Result<ServiceUpdate>)
    ensures r.Err? <==> stored.None?
    ensures r.Err? ==> r.message == UserRules.UserNotFound
    ensures r.Ok? && req.SyncProfile? ==>
      var p := req.profile;
      var rows := stored.value.email;
      r.value.SyncUpdate?
      && r.value.sub == p.sub && r.value.name == p.name && r.value.nickname == p.nickname
      && r.value.picture == p.picture && r.value.updatedAt == now
      && r.value.email.data == SyncEmailData(p)
      && (r.value.email.UpdateStored? <==> exists j :: 0 <= j < |rows| && StrictEquals(Get(rows[j], "email"), p.email))
      && (r.value.email.UpdateStored? ==>
          exists j :: 0 <= j < |rows| && r.value.email.where == Get(rows[j], "id")
            && StrictEquals(Get(rows[j], "email"), p.email)
            && forall k :: 0 <= k < j ==> !StrictEquals(Get(rows[k], "email"), p.email))
    ensures r.Ok? && req.FullRecord? ==>
      r.value == FullUpdate(req.user.sub, UserRules.FullUpdatePlan(req.user, stored.value, now))
  {
    if stored.None? then Err(UserRules.UserNotFound)
    else
      match req
      case SyncProfile(p) =>
        var write := match FindEmail(stored.value.email, p.email)
          case Some(i) => UpdateStored(Get(stored.value.email[i], "id"), SyncEmailData(p))
          case None => CreateOne(SyncEmailData(p));
        Ok(SyncUpdate(p.sub, p.name, p.nickname, p.picture, now, write))
      case FullRecord(u) =>
        Ok(FullUpdate(u.sub, UserRules.FullUpdatePlan(u, stored.value, now)))
  }

  // ---------------------------------------------------------------------
  // createOrUpdateUser

  datatype Outcome = Created(user: DbUser) | Updated(update: ServiceUpdate)

  /**
   * The one `user` object `createOrUpdateUser` passes on, as the fields each
   * reader takes from it: the Auth0 profile fields, the form fields
   * `mapFormUserToDbUser` reads, and the database-shaped fields of a full
   * update.
   */
  datatype ServiceUser = ServiceUser(profile: UserMapper.Auth0Profile, form: UserMapper.SubmittedUser, record: DbUser)

  /** What `createUser(user, isAuth0Sync)` reads. */
  function CreateRequestOf(user: ServiceUser, isAuth0Sync: bool): (r: CreateRequest)
    ensures isAuth0Sync ==> r == FromAuth0(user.profile)
    ensures !isAuth0Sync ==> r == FromForm(user.form)
  {
    if isAuth0Sync then FromAuth0(user.profile) else FromForm(user.form)
  }

  /** What `updateUser(user, isAuth0Sync)` reads. */
  function UpdateRequestOf(user: ServiceUser, isAuth0Sync: bool): (r: UpdateRequest)
    ensures isAuth0Sync ==> r == SyncProfile(user.profile)
    ensures !isAuth0Sync ==> r == FullRecord(user.record)
  {
    if isAuth0Sync then SyncProfile(user.profile) else FullRecord(user.record)
  }

  /**
   * `createOrUpdateUser(user, isAuth0Sync)`: create when the lookup by `sub`
   * finds nobody, update otherwise, with the same user and flag on both
   * paths. Both lookups read the same store (`stored`).
   */
  function CreateOrUpdateUser(
    stored: Option<UserRules.StoredUser>, user: ServiceUser, isAuth0Sync: bool,
    now: JsVal, toIso: JsVal -> Option<string>): (r: Result<Outcome>)
    ensures stored.None? && isAuth0Sync ==> r == Ok(Created(UserMapper.MapAuth0UserToDbUser(user.profile, now)))
    ensures stored.None? && !isAuth0Sync ==>
      var d := UserMapper.MapFormUserToDbUser(user.form, now, toIso);
      (r.Err? <==> d.Err?) && (r.Err? ==> r.message == InvalidTimeValue) && (r.Ok? ==> r == Ok(Created(d.value)))
    ensures stored.Some? ==> r.Ok? && r.value.Updated? && Ok(r.value.update) == UpdateUser(UpdateRequestOf(user, isAuth0Sync), stored, now)
    ensures stored.Some? && isAuth0Sync ==> r.value.update.SyncUpdate? && r.value.update.sub == user.profile.sub
    ensures stored.Some? && !isAuth0Sync ==> r.value.update == FullUpdate(user.record.sub, UserRules.FullUpdatePlan(user.record, stored.value, now))
  {
    if stored.None? then
      match CreateUser(CreateRequestOf(user, isAuth0Sync), now, toIso)
      case Ok(d) => Ok(Created(d))
      case Err(m) => Err(m)
    else
      match UpdateUser(UpdateRequestOf(user, isAuth0Sync), stored, now)
      case Ok(u) => Ok(Updated(u))
      case Err(m) => Err(m)
  }

  /** With the Auth0 flag, both paths write the same profile's `sub`: the one the lookup used. */
  lemma SyncPathsAgree(stored: Option<UserRules.StoredUser>, user: ServiceUser, now: JsVal, toIso: JsVal -> Option<string>)
    ensures var r := CreateOrUpdateUser(stored, user, true, now, toIso);
      r.Ok? && (r.value.Created? ==> r.value.user.sub == user.profile.sub)
      && (r.value.Updated? ==> r.value.update.sub == user.profile.sub)
  {
  }

  // ---------------------------------------------------------------------
  // fetchUserData

  /** The user record `GET /api/users/{id}` returns; a list that is not an array is `None`. */
  datatype FetchedUser = FetchedUser(
    sub: JsVal, name: JsVal, nickname: JsVal, picture: JsVal, birthDate: JsVal, cpf: JsVal,
    address: Option<seq<Record>>, email: Option<seq<Record>>, telephone: Option<seq<Record>>)

  /** The record handed to `setUserData`. */
  datatype UserData = UserData(
    sub: JsVal, name: JsVal, nickname: JsVal, picture: JsVal, birthDate: JsVal, cpf: JsVal,
    addresses: seq<Record>, emails: seq<Record>, telephones: seq<Record>, connection: JsVal)

  /** What the two setters receive: the user data (when `setUserData` runs) and `isFetched`. */
  datatype FetchOutcome = FetchOutcome(userData: Option<UserData>, isFetched: bool)

  /** `{...email, email_verified: email.email_verified ?? false}` */
  function WithVerifiedFlag(e: Record): (r: Record)
    ensures r.Keys == e.Keys + {"email_verified"}
    ensures forall k :: k in e && k != "email_verified" ==> r[k] == e[k]
    ensures r["email_verified"] == Coalesce(Get(e, "email_verified"), Bool(false))
  {
    e["email_verified" := Coalesce(Get(e, "email_verified"), Bool(false))]
  }

  /** `{...phone, telephone: masked}`, with `masked` what `applyTelephoneMask(phone.full_number)` returned. */
  function WithMaskedTelephone(p: Record, masked: JsVal): (r: Record)
    ensures r.Keys == p.Keys + {"telephone"}
    ensures forall k :: k in p && k != "telephone" ==> r[k] == p[k]
    ensures r["telephone"] == masked
  {
    p["telephone" := masked]
  }

  /** The e-mail list of the form: [] when the response has none, else each e-mail with its flag defaulted. */
  function VerifiedEmails(email: Option<seq<Record>>): (r: seq<Record>)
    ensures email.None? ==> r == []
    ensures email.Some? ==> |r| == |email.value| && forall i :: 0 <= i < |r| ==> r[i] == WithVerifiedFlag(email.value[i])
  {
    if email.Some? then MapSeq(email.value, WithVerifiedFlag) else []
  }

  /** Whether the mask throws on some telephone's `full_number`. */
  predicate MaskThrows(phones: seq<Record>, mask: JsVal -> Option<JsVal>)
  {
    exists i :: 0 <= i < |phones| && mask(Get(phones[i], "full_number")).None?
  }

  /**
   * The telephone list of the form: [] when the response has none, else each
   * telephone with its masked number; None when the mask throws on one of them.
   */
  function MaskedTelephones(telephone: Option<seq<Record>>, mask: JsVal -> Option<JsVal>): (r: Option<seq<Record>>)
    ensures telephone.None? ==> r == Some([])
    ensures telephone.Some? ==> (r.None? <==> MaskThrows(telephone.value, mask))
    ensures telephone.Some? && r.Some? ==>
      |r.value| == |telephone.value|
      && forall i :: 0 <= i < |r.value| ==>
        mask(Get(telephone.value[i], "full_number")).Some?
        && r.value[i] == WithMaskedTelephone(telephone.value[i], mask(Get(telephone.value[i], "full_number")).value)
  {
    if telephone.None? then Some([])
    else if MaskThrows(telephone.value, mask) then None
    else
      var ps := telephone.value;
      Some(seq(|ps|, i requires 0 <= i < |ps| => WithMaskedTelephone(ps[i], mask(Get(ps[i], "full_number")).value)))
  }

  /** Whether building the record throws: a truthy `sub` that is not a string, a date or a mask that throws. */
  predicate BuildThrows(d: FetchedUser, dateOnly: JsVal -> Option<string>, mask: JsVal -> Option<JsVal>)
  {
    (Truthy(d.sub) && !d.sub.Str?)
    || (Truthy(d.birthDate) && dateOnly(d.birthDate).None?)
    || (d.telephone.Some? && MaskThrows(d.telephone.value, mask))
  }

  /**
   * `fetchUserData`. `response` is the request's outcome. `dateOnly` stands
   * for `new Date(d).toISOString().split("T")[0]`, None where `toISOString`
   * throws on an invalid date; `mask` for the telephone mask, None where it
   * throws. Every throw inside the `try`, like a failed request, skips
   * `setUserData`; `isFetched` is set either way.
   */
  function FetchUserData(response: Result<FetchedUser>, dateOnly: JsVal -> Option<string>, mask: JsVal -> Option<JsVal>): (r: FetchOutcome)
    ensures r.isFetched
    ensures r.userData.Some? <==> response.Ok? && !BuildThrows(response.value, dateOnly, mask)
    ensures r.userData.Some? ==>
      var d := response.value;
      var u := r.userData.value;
      u.sub == d.sub
      && u.name == Or(d.name, Str("")) && u.nickname == Or(d.nickname, Str("")) && u.picture == Or(d.picture, Str(""))
      && u.cpf == Or(d.cpf, Str(""))
      && (Truthy(d.birthDate) ==> dateOnly(d.birthDate).Some? && u.birthDate == Str(dateOnly(d.birthDate).value))
      && (!Truthy(d.birthDate) ==> u.birthDate == Str(""))
      && u.addresses == (if d.address.Some? then d.address.value else [])
      && u.emails == VerifiedEmails(d.email) && Some(u.telephones) == MaskedTelephones(d.telephone, mask)
      && (!Truthy(d.sub) ==> u.connection == Null)
      && (Truthy(d.sub) ==> u.connection == Str(BeforeFirst(d.sub.s, '|')))
  {
    match response
    case Err(_) => FetchOutcome(None, true)
    case Ok(d) =>
      if BuildThrows(d, dateOnly, mask) then FetchOutcome(None, true)
      else
        var connection := if Truthy(d.sub) then Str(BeforeFirst(d.sub.s, '|')) else Null;
        var emails := VerifiedEmails(d.email);
        var telephones := MaskedTelephones(d.telephone, mask).value;
        FetchOutcome(Some(UserData(
          d.sub, Or(d.name, Str("")), Or(d.nickname, Str("")), Or(d.picture, Str("")),
          if Truthy(d.birthDate) then Str(dateOnly(d.birthDate).value) else Str(""),
          Or(d.cpf, Str("")),
          if d.address.Some? then d.address.value else [], emails, telephones, connection)), true)
  }

  /** A telephone whose number the mask cannot handle (an unparsed one, stored with a null `full_number`) loses the whole record. */
  lemma UnmaskableTelephoneSkipsRecord(d: FetchedUser, i: nat, dateOnly: JsVal -> Option<string>, mask: JsVal -> Option<JsVal>)
    requires d.telephone.Some? && i < |d.telephone.value| && mask(Get(d.telephone.value[i], "full_number")).None?
    ensures var r := FetchUserData(Ok(d), dateOnly, mask);
      r.isFetched && r.userData.None?
  {
  }

  /** The connection is the provider name: the `sub` text before the first "|", never holding a "|". */
  lemma ConnectionIsProvider(d: FetchedUser, provider: string, rest: string, dateOnly: JsVal -> Option<string>, mask: JsVal -> Option<JsVal>)
    requires '|' !in provider && provider != ""
    requires d.sub == Str(provider + "|" + rest)
    requires !BuildThrows(d, dateOnly, mask)
    ensures var r := FetchUserData(Ok(d), dateOnly, mask);
      r.userData.Some? && r.userData.value.connection == Str(provider)
  {
    BeforeFirstOfPrefix(provider, rest);
  }

  lemma {:induction false} BeforeFirstOfPrefix(provider: string, rest: string)
    requires '|' !in provider
    ensures BeforeFirst(provider + "|" + rest, '|') == provider
    decreases |provider|
  {
    if |provider| == 0 {
      assert (provider + "|" + rest)[0] == '|';
    } else {
      assert (provider + "|" + rest)[1..] == provider[1..] + "|" + rest;
      BeforeFirstOfPrefix(provider[1..], rest);
    }
  }
}
