// The user rules used by the `/api/users` route
// (src/businnes/indivisibleRules/userRules.js): the create payload, the
// update plan with its per-relation delete/create/update partition, and this
// file's own form-to-database mapper. The database calls are left out: the
// model returns the data that would be handed to them.

module UserRules {
  import opened Js
  import FrontUserMapper
  import UserMapper

  type ApiPhone = FrontUserMapper.ApiPhone
  type ApiEmail = FrontUserMapper.ApiEmail
  type ApiAddress = FrontUserMapper.ApiAddress
  type DbUser = UserMapper.DbUser

  /**
   * The stored relation rows of a user. The lookup includes all three
   * relations, so each is a list.
   */
  datatype StoredUser = StoredUser(email: seq<Record>, telephone: seq<Record>, address: seq<Record>)

  // ---------------------------------------------------------------------
  // createUser

  /** `createUser`: `birth_date` and `cpf` are not passed on; `now` stands for `new Date()`. */
  function CreateUser(user: DbUser, now: JsVal): (r: DbUser)
    ensures r.sub == user.sub && r.name == user.name && r.nickname == user.nickname && r.picture == user.picture
    ensures r.updatedAt == now
    ensures r.birthDate == Undefined && r.cpf == Undefined
    ensures r.email == user.email && r.telephone == user.telephone && r.address == user.address
  {
    UserMapper.DbUser(user.sub, user.name, user.nickname, user.picture, now, Undefined, Undefined,
                      user.email, user.telephone, user.address)
  }

  // ---------------------------------------------------------------------
  // The partition of a relation

  /** `getIds`: the truthy ids of the incoming items (none when the list is absent). */
  function IncomingIds<T>(items: Option<seq<T>>, idOf: T -> JsVal): (r: seq<JsVal>)
    ensures forall v :: v in r <==> Truthy(v) && items.Some? && exists i :: 0 <= i < |items.value| && idOf(items.value[i]) == v
  {
    if items.None? then []
    else
      var ids := MapSeq(items.value, idOf);
      FilterMembers(ids, Truthy);
      Filter(ids, Truthy)
  }

  /** The ids of the stored rows whose id is not among `keep`, in order. */
  function IdsToDelete(existing: seq<Record>, keep: seq<JsVal>): (r: seq<JsVal>)
    ensures forall v :: v in r <==> v !in keep && exists e :: e in existing && Get(e, "id") == v
    decreases |existing|
  {
    if |existing| == 0 then []
    else
      assert existing == [existing[0]] + existing[1..];
      var id := Get(existing[0], "id");
      (if id !in keep then [id] else []) + IdsToDelete(existing[1..], keep)
  }

  /** The items whose id has the given truthiness, in order. */
  function SplitById<T(!new)>(items: seq<T>, idOf: T -> JsVal, truthyId: bool): (r: seq<T>)
    ensures |r| <= |items|
    decreases |items|
  {
    if |items| == 0 then []
    else (if Truthy(idOf(items[0])) == truthyId then [items[0]] else []) + SplitById(items[1..], idOf, truthyId)
  }

  /** `items.filter(e => !e.id)` and `items.filter(e => e.id)`: the part keeps the input's order and repeats. */
  lemma {:induction false} SplitByIdIsFilter<T(!new)>(items: seq<T>, idOf: T -> JsVal, truthyId: bool)
    ensures SplitById(items, idOf, truthyId) == Filter(items, (x: T) => Truthy(idOf(x)) == truthyId)
    decreases |items|
  {
    if |items| > 0 {
      SplitByIdIsFilter(items[1..], idOf, truthyId);
    }
  }

  /** The kept items are exactly those whose id truthiness is the one asked for. */
  lemma {:induction false} SplitByIdMembers<T(!new)>(items: seq<T>, idOf: T -> JsVal, truthyId: bool)
    ensures forall x :: x in SplitById(items, idOf, truthyId) <==> x in items && Truthy(idOf(x)) == truthyId
    decreases |items|
  {
    if |items| > 0 {
      SplitByIdMembers(items[1..], idOf, truthyId);
      assert items == [items[0]] + items[1..];
    }
  }

  /** The items to create: those with a falsy id. */
  function ToCreate<T(!new)>(items: Option<seq<T>>, idOf: T -> JsVal): (r: seq<T>)
    ensures forall x :: x in r <==> items.Some? && x in items.value && !Truthy(idOf(x))
  {
    if items.None? then []
    else
      SplitByIdMembers(items.value, idOf, false);
      SplitById(items.value, idOf, false)
  }

  /** The items to update: those with a truthy id, whether or not a stored row has it. */
  function ToUpdate<T(!new)>(items: Option<seq<T>>, idOf: T -> JsVal): (r: seq<T>)
    ensures forall x :: x in r <==> items.Some? && x in items.value && Truthy(idOf(x))
  {
    if items.None? then []
    else
      SplitByIdMembers(items.value, idOf, true);
      SplitById(items.value, idOf, true)
  }

  /** Create and update split the incoming items without loss or duplication. */
  lemma {:induction false} SplitByIdPartition<T(!new)>(items: seq<T>, idOf: T -> JsVal)
    ensures multiset(SplitById(items, idOf, false)) + multiset(SplitById(items, idOf, true)) == multiset(items)
    decreases |items|
  {
    if |items| > 0 {
      var x, rest := items[0], items[1..];
      SplitByIdPartition(rest, idOf);
      assert multiset(items) == multiset([x] + rest) by {
        assert items == [x] + rest;
      }
      SplitByIdStep(items, idOf, false);
      SplitByIdStep(items, idOf, true);
      ConsOnOneSide(x, SplitById(rest, idOf, false), SplitById(rest, idOf, true), rest);
    }
  }

  /** Adding an element to one of two lists that split `rest` splits `[x] + rest`. */
  lemma ConsOnOneSide<T>(x: T, a: seq<T>, b: seq<T>, rest: seq<T>)
    requires multiset(a) + multiset(b) == multiset(rest)
    ensures multiset([x] + a) + multiset(b) == multiset([x] + rest)
    ensures multiset(a) + multiset([x] + b) == multiset([x] + rest)
  {
  }

  lemma SplitByIdStep<T(!new)>(items: seq<T>, idOf: T -> JsVal, truthyId: bool)
    requires |items| > 0
    ensures SplitById(items, idOf, truthyId)
      == (if Truthy(idOf(items[0])) == truthyId then [items[0]] else []) + SplitById(items[1..], idOf, truthyId)
  {
  }

  /** Each of create and update keeps the input order. */
  lemma {:induction false} SplitByIdKeepsOrder<T(!new)>(items: seq<T>, idOf: T -> JsVal, truthyId: bool)
    ensures IsSubsequence(SplitById(items, idOf, truthyId), items)
    decreases |items|
  {
    if |items| > 0 {
      SplitByIdKeepsOrder(items[1..], idOf, truthyId);
      var rest := SplitById(items[1..], idOf, truthyId);
      if Truthy(idOf(items[0])) == truthyId {
        assert SplitById(items, idOf, truthyId) == [items[0]] + rest;
        assert ([items[0]] + rest)[1..] == rest;
      } else {
        assert SplitById(items, idOf, truthyId) == rest;
      }
    }
  }

  /** `list.length > 0 ? list : undefined` */
  function NonEmpty<T>(xs: seq<T>): (r: Option<seq<T>>)
    ensures r.Some? <==> |xs| > 0
    ensures r.Some? ==> r.value == xs
  {
    if |xs| > 0 then Some(xs) else None
  }

  /** `{ where: { id }, data }` */
  datatype UpdateEntry<T> = UpdateEntry(where: JsVal, data: T)

  /** The nested write for one relation: `deleteMany` ids, `create` data and `update` entries. */
  datatype RelationOps<T> = RelationOps(deleteMany: Option<seq<JsVal>>, create: Option<seq<T>>, update: Option<seq<UpdateEntry<T>>>)

  /**
   * The write for one relation. `dropId` keeps the fields that are written
   * (every field but the id). Each list is absent when it would be empty.
   */
  function RelationUpdate<T(!new)>(existing: seq<Record>, incoming: Option<seq<T>>, idOf: T -> JsVal, dropId: T -> T): (r: RelationOps<T>)
    ensures var keep := IncomingIds(incoming, idOf);
      r.deleteMany.None? <==> forall i :: 0 <= i < |existing| ==> Get(existing[i], "id") in keep
    ensures r.deleteMany.Some? ==>
      forall v :: v in r.deleteMany.value <==>
        v !in IncomingIds(incoming, idOf) && exists i :: 0 <= i < |existing| && Get(existing[i], "id") == v
    ensures r.create.None? <==> forall x :: incoming.Some? && x in incoming.value ==> Truthy(idOf(x))
    ensures r.create.Some? ==>
      |r.create.value| == |ToCreate(incoming, idOf)|
      && forall i :: 0 <= i < |r.create.value| ==> r.create.value[i] == dropId(ToCreate(incoming, idOf)[i])
    ensures r.update.None? <==> forall x :: incoming.Some? && x in incoming.value ==> !Truthy(idOf(x))
    ensures r.update.Some? ==>
      |r.update.value| == |ToUpdate(incoming, idOf)|
      && forall i :: 0 <= i < |r.update.value| ==>
        var x := ToUpdate(incoming, idOf)[i];
        r.update.value[i] == UpdateEntry(idOf(x), dropId(x))
  {
    RelationOps(DeleteOps(existing, IncomingIds(incoming, idOf)), CreateOps(incoming, idOf, dropId), UpdateOps(incoming, idOf, dropId))
  }

  /** `deleteMany`: the stored ids not kept, absent when there are none. */
  function DeleteOps(existing: seq<Record>, keep: seq<JsVal>): (r: Option<seq<JsVal>>)
    ensures r.None? <==> forall i :: 0 <= i < |existing| ==> Get(existing[i], "id") in keep
    ensures r.Some? ==> forall v :: v in r.value <==> v !in keep && exists i :: 0 <= i < |existing| && Get(existing[i], "id") == v
  {
    var toDelete := IdsToDelete(existing, keep);
    assert |toDelete| == 0 <==> forall i :: 0 <= i < |existing| ==> Get(existing[i], "id") in keep by {
      if |toDelete| > 0 {
        assert toDelete[0] in toDelete;
      }
    }
    NonEmpty(toDelete)
  }

  /** `create`: the written fields of the items with a falsy id, absent when there are none. */
  function CreateOps<T(!new)>(incoming: Option<seq<T>>, idOf: T -> JsVal, dropId: T -> T): (r: Option<seq<T>>)
    ensures r.None? <==> forall x :: incoming.Some? && x in incoming.value ==> Truthy(idOf(x))
    ensures r.Some? ==>
      |r.value| == |ToCreate(incoming, idOf)|
      && forall i :: 0 <= i < |r.value| ==> r.value[i] == dropId(ToCreate(incoming, idOf)[i])
  {
    var toCreate := ToCreate(incoming, idOf);
    assert |toCreate| == 0 <==> forall x :: incoming.Some? && x in incoming.value ==> Truthy(idOf(x)) by {
      if |toCreate| > 0 {
        assert toCreate[0] in toCreate;
      }
    }
    NonEmpty(MapSeq(toCreate, dropId))
  }

  /** `update`: `{ where: { id }, data }` for the items with a truthy id, absent when there are none. */
  function UpdateOps<T(!new)>(incoming: Option<seq<T>>, idOf: T -> JsVal, dropId: T -> T): (r: Option<seq<UpdateEntry<T>>>)
    ensures r.None? <==> forall x :: incoming.Some? && x in incoming.value ==> !Truthy(idOf(x))
    ensures r.Some? ==>
      |r.value| == |ToUpdate(incoming, idOf)|
      && forall i :: 0 <= i < |r.value| ==>
        var x := ToUpdate(incoming, idOf)[i];
        r.value[i] == UpdateEntry(idOf(x), dropId(x))
  {
    var toUpdate := ToUpdate(incoming, idOf);
    assert |toUpdate| == 0 <==> forall x :: incoming.Some? && x in incoming.value ==> !Truthy(idOf(x)) by {
      if |toUpdate| > 0 {
        assert toUpdate[0] in toUpdate;
      }
    }
    NonEmpty(MapSeq(toUpdate, (x: T) => UpdateEntry(idOf(x), dropId(x))))
  }

  /**
   * An incoming item with a truthy id that no stored row has is still sent
   * as an update, and no such id is ever deleted.
   */
  lemma UnknownIdIsUpdated<T(!new)>(existing: seq<Record>, items: seq<T>, idOf: T -> JsVal, dropId: T -> T, x: T)
    requires x in items && Truthy(idOf(x))
    requires forall i :: 0 <= i < |existing| ==> Get(existing[i], "id") != idOf(x)
    ensures var r := RelationUpdate(existing, Some(items), idOf, dropId);
      r.update.Some? && UpdateEntry(idOf(x), dropId(x)) in r.update.value
      && (r.deleteMany.Some? ==> idOf(x) !in r.deleteMany.value)
  {
    var r := RelationUpdate(existing, Some(items), idOf, dropId);
    var u := ToUpdate(Some(items), idOf);
    assert x in u;
    var i :| 0 <= i < |u| && u[i] == x;
    assert r.update.value[i] == UpdateEntry(idOf(x), dropId(x));
  }

  // ---------------------------------------------------------------------
  // The fields written for each relation (every field but the id)

  function EmailId(e: ApiEmail): JsVal { e.id }
  function EmailData(e: ApiEmail): (r: ApiEmail)
    ensures r.id == Undefined && r.email == e.email && r.isMain == e.isMain && r.emailVerified == e.emailVerified
  {
    e.(id := Undefined)
  }

  function PhoneId(p: ApiPhone): JsVal { p.id }
  /** The telephone fields written on create and update: country and state code, number, full number, type, main. */
  function PhoneData(p: ApiPhone): (r: ApiPhone)
    ensures r.id == Undefined
    ensures r.countryCode == p.countryCode && r.stateCode == p.stateCode
    ensures r.number == p.number && r.fullNumber == p.fullNumber
    ensures r.phoneType == p.phoneType && r.isMain == p.isMain
  {
    p.(id := Undefined)
  }

  /** Two telephones give the same payload exactly when they differ at most in their id. */
  lemma PhoneDataIgnoresId(p: ApiPhone, q: ApiPhone)
    ensures PhoneData(p) == PhoneData(q) <==> p.(id := q.id) == q
  {
    if PhoneData(p) == PhoneData(q) {
      assert p.(id := q.id).countryCode == PhoneData(p).countryCode;
    }
  }

  function AddressId(a: ApiAddress): JsVal { a.id }

  /** The address fields written on create and update: everything but the id. */
  function AddressData(a: ApiAddress): (r: ApiAddress)
    ensures r.id == Undefined
    ensures r.zipCode == a.zipCode && r.street == a.street && r.number == a.number
    ensures r.complement == a.complement && r.district == a.district && r.city == a.city
    ensures r.state == a.state && r.country == a.country && r.isMain == a.isMain
  {
    a.(id := Undefined)
  }

  /** Two addresses give the same payload exactly when they differ at most in their id. */
  lemma AddressDataIgnoresId(a: ApiAddress, b: ApiAddress)
    ensures AddressData(a) == AddressData(b) <==> a.(id := b.id) == b
  {
    if AddressData(a) == AddressData(b) {
      assert a.(id := b.id).zipCode == AddressData(a).zipCode;
    }
  }

  // ---------------------------------------------------------------------
  // updateUser

  /** The data handed to the database update. Fields left undefined are not written. */
  datatype UpdatePlan = UpdatePlan(
    name: JsVal, nickname: JsVal, picture: Picture, birthDate: JsVal, cpf: JsVal, updatedAt: JsVal,
    email: RelationOps<ApiEmail>, telephone: Option<RelationOps<ApiPhone>>, address: Option<RelationOps<ApiAddress>>)

  /** The Auth0-sync email list: the sent emails with `is_main` and `email_verified` defaulting to false. */
  function SyncEmails(emails: Option<seq<ApiEmail>>): (r: Option<seq<ApiEmail>>)
    ensures r.Some? <==> emails.Some? && |emails.value| > 0
    ensures r.Some? ==>
      |r.value| == |emails.value|
      && forall i :: 0 <= i < |r.value| ==>
        r.value[i].id == Undefined && r.value[i].email == emails.value[i].email
        && r.value[i].isMain == Or(emails.value[i].isMain, Bool(false))
        && r.value[i].emailVerified == Or(emails.value[i].emailVerified, Bool(false))
  {
    if emails.Some? && |emails.value| > 0 then
      Some(MapSeq(emails.value, (e: ApiEmail) => FrontUserMapper.ApiEmail(Undefined, e.email, Or(e.isMain, Bool(false)), Or(e.emailVerified, Bool(false)))))
    else None
  }

  /** The full update: the scalar fields as sent and the partition of each relation. */
  function FullUpdatePlan(user: DbUser, stored: StoredUser, now: JsVal): (r: UpdatePlan)
    ensures r.name == user.name && r.nickname == user.nickname && r.picture == user.picture
    ensures r.birthDate == user.birthDate && r.cpf == user.cpf && r.updatedAt == now
    ensures r.email == RelationUpdate(stored.email, user.email, EmailId, EmailData)
    ensures r.telephone == Some(RelationUpdate(stored.telephone, user.telephone, PhoneId, PhoneData))
    ensures r.address == Some(RelationUpdate(stored.address, user.address, AddressId, AddressData))
  {
    UpdatePlan(
      user.name, user.nickname, user.picture, user.birthDate, user.cpf, now,
      RelationUpdate(stored.email, user.email, EmailId, EmailData),
      Some(RelationUpdate(stored.telephone, user.telephone, PhoneId, PhoneData)),
      Some(RelationUpdate(stored.address, user.address, AddressId, AddressData)))
  }

  const UserNotFound: string := "Usuário não encontrado para atualização"

  /**
   * `updateUser`: an error when no user has the `sub`; otherwise the
   * Auth0-sync plan (profile fields and new emails only) or the full plan.
   */
  function UpdateUser(user: DbUser, stored: Option<StoredUser>, isAuth0Sync: bool, now: JsVal): (r: Result<UpdatePlan>)
    ensures r.Err? <==> stored.None?
    ensures r.Err? ==> r.message == UserNotFound
    ensures r.Ok? && isAuth0Sync ==>
      r.value.name == user.name && r.value.nickname == user.nickname && r.value.picture == user.picture
      && r.value.updatedAt == now && r.value.birthDate == Undefined && r.value.cpf == Undefined
      && r.value.email == RelationOps(None, SyncEmails(user.email), None)
      && r.value.telephone.None? && r.value.address.None?
    ensures r.Ok? && !isAuth0Sync ==> r.value == FullUpdatePlan(user, stored.value, now)
  {
    if stored.None? then Err(UserNotFound)
    else if isAuth0Sync then
      Ok(UpdatePlan(user.name, user.nickname, user.picture, Undefined, Undefined, now,
                    RelationOps(None, SyncEmails(user.email), None), None, None))
    else Ok(FullUpdatePlan(user, stored.value, now))
  }

  /** The Auth0-sync update never deletes or updates a stored row. */
  lemma SyncNeverDeletes(user: DbUser, stored: StoredUser, now: JsVal)
    ensures var r := UpdateUser(user, Some(stored), true, now);
      r.Ok? && r.value.email.deleteMany.None? && r.value.email.update.None?
      && r.value.telephone.None? && r.value.address.None?
  {
  }

  // ---------------------------------------------------------------------
  // This file's mapFormUserToDbUser

  /** The address mapping of this file: `zip_code` passes through, `number` is parsed base 10. */
  function MapFormAddress(a: FrontUserMapper.FormAddress): (r: ApiAddress)
    ensures r.zipCode == a.zipCode
    ensures r == FrontUserMapper.MapFormAddress(a).(zipCode := a.zipCode)
  {
    FrontUserMapper.ApiAddress(Or(a.id, Undefined), a.zipCode, a.street, FrontUserMapper.ParseDecimalOrNull(a.number),
                               a.complement, a.district, a.city, a.state, a.country, a.isMain)
  }

  /** `mapFormUserToDbUser` of this file: it throws, as the other one does, when the birth date is invalid. */
  function MapFormUserToDbUser(u: UserMapper.SubmittedUser, now: JsVal, toIso: JsVal -> Option<string>): (r: Result<DbUser>)
    ensures r.Err? <==> FrontUserMapper.IsoOrNull(u.form.birthDate, toIso).Err?
    ensures r.Err? ==> r.message == InvalidTimeValue
    ensures r.Ok? ==> (r.value.address.Some? <==> u.form.addresses.Some?)
    ensures r.Ok? && r.value.address.Some? ==>
      |r.value.address.value| == |u.form.addresses.value|
      && forall i :: 0 <= i < |r.value.address.value| ==> r.value.address.value[i] == MapFormAddress(u.form.addresses.value[i])
  {
    match UserMapper.MapFormUserToDbUser(u, now, toIso)
    case Err(m) => Err(m)
    case Ok(d) => Ok(d.(address := FrontUserMapper.MapOptional(u.form.addresses, MapFormAddress)))
  }

  /**
   * This file's mapper agrees with the one in src/businnes/mappers except
   * that zip codes are not parsed.
   */
  lemma MapFormUserToDbUserKeepsZip(u: UserMapper.SubmittedUser, now: JsVal, toIso: JsVal -> Option<string>)
    ensures var r := MapFormUserToDbUser(u, now, toIso);
      var m := UserMapper.MapFormUserToDbUser(u, now, toIso);
      (r.Ok? <==> m.Ok?)
      && (r.Ok? ==>
        var r, m := r.value, m.value;
        r.(address := m.address) == m
        && (r.address.Some? <==> m.address.Some?)
        && (r.address.Some? ==>
            |r.address.value| == |m.address.value|
            && forall i :: 0 <= i < |r.address.value| ==>
              r.address.value[i] == m.address.value[i].(zipCode := u.form.addresses.value[i].zipCode)
              && r.address.value[i].number == m.address.value[i].number))
  {
  }
}
