// The user repository's update (src/backend/repositories/userRepository.js):
// the diff between stored and incoming relation rows, and the payload
// `dbUpdateUser` builds before handing it to the database. The database
// lookup and update are parameters.

module UserRepository {
  import opened Js

  /** `item[idField]` with the default `idField = "id"`. */
  function IdOf(item: Record): JsVal
  {
    Get(item, "id")
  }

  /** `item.id !== undefined && item.id !== null` */
  predicate HasId(item: Record)
  {
    !IsNullish(IdOf(item))
  }

  /** The ids of the stored rows (the `existingIds` set, as a list). */
  function StoredIds(existing: seq<Record>): (r: seq<JsVal>)
    ensures forall v :: v in r <==> exists e :: e in existing && IdOf(e) == v
  {
    var ids := MapSeq(existing, IdOf);
    assert forall e :: e in existing ==> IdOf(e) in ids by {
      forall e | e in existing
        ensures IdOf(e) in ids
      {
        var i :| 0 <= i < |existing| && existing[i] == e;
        assert ids[i] == IdOf(e);
      }
    }
    ids
  }

  /** The non-null ids of the incoming items (the `incomingIds` set, as a list). */
  function IncomingIds(incoming: seq<Record>): (r: seq<JsVal>)
    ensures forall v :: v in r <==> exists x :: x in incoming && HasId(x) && IdOf(x) == v
  {
    FilterMembers(incoming, HasId);
    StoredIds(Filter(incoming, HasId))
  }

  /** An incoming item updates a row: it has an id that some stored row has. */
  predicate Updates(item: Record, existingIds: seq<JsVal>)
  {
    HasId(item) && IdOf(item) in existingIds
  }

  /** `const { id: _, ...rest } = item` */
  function WithoutId(item: Record): (r: Record)
    ensures r.Keys == item.Keys - {"id"}
    ensures forall k :: k in r ==> r[k] == item[k]
  {
    item - {"id"}
  }

  /** `{ where: { id }, data }` */
  datatype UpdateEntry = UpdateEntry(where: JsVal, data: Record)

  /** The incoming items that create a row, in input order. */
  function CreateSelection(incoming: seq<Record>, existingIds: seq<JsVal>): (r: seq<Record>)
    ensures forall x :: x in r <==> x in incoming && !Updates(x, existingIds)
    decreases |incoming|
  {
    if |incoming| == 0 then []
    else
      assert incoming == [incoming[0]] + incoming[1..];
      (if Updates(incoming[0], existingIds) then [] else [incoming[0]]) + CreateSelection(incoming[1..], existingIds)
  }

  /** The incoming items that update a row, in input order. */
  function UpdateSelection(incoming: seq<Record>, existingIds: seq<JsVal>): (r: seq<Record>)
    ensures forall x :: x in r <==> x in incoming && Updates(x, existingIds)
    decreases |incoming|
  {
    if |incoming| == 0 then []
    else
      assert incoming == [incoming[0]] + incoming[1..];
      (if Updates(incoming[0], existingIds) then [incoming[0]] else []) + UpdateSelection(incoming[1..], existingIds)
  }

  /** The stored rows whose id is not among the incoming ids, in order. */
  function DeleteSelection(existing: seq<Record>, incomingIds: seq<JsVal>): (r: seq<Record>)
    ensures forall e :: e in r <==> e in existing && IdOf(e) !in incomingIds
    decreases |existing|
  {
    if |existing| == 0 then []
    else
      assert existing == [existing[0]] + existing[1..];
      (if IdOf(existing[0]) in incomingIds then [] else [existing[0]]) + DeleteSelection(existing[1..], incomingIds)
  }

  function ToUpdateEntry(x: Record): UpdateEntry
  {
    UpdateEntry(IdOf(x), WithoutId(x))
  }

  /** `{ [idField]: item[idField] }`: the delete entry of a stored row, as its id. */
  function DeleteEntry(e: Record): JsVal
  {
    IdOf(e)
  }

  /** The non-empty operations of a diff; an absent operation is `None`. */
  datatype RelationDiff = RelationDiff(create: Option<seq<Record>>, update: Option<seq<UpdateEntry>>, delete: Option<seq<JsVal>>)

  function NonEmpty<T>(xs: seq<T>): (r: Option<seq<T>>)
    ensures r.Some? <==> |xs| > 0
    ensures r.Some? ==> r.value == xs
  {
    if |xs| > 0 then Some(xs) else None
  }

  /**
   * `prepareRelationDiff`. Incoming items with no id, or with an id no
   * stored row has, are created without their id; items with a stored id
   * are updated; stored rows whose id is not among the incoming non-null
   * ids are deleted. The diff is absent when all three lists are empty.
   */
  function PrepareRelationDiff(existing: seq<Record>, incoming: seq<Record>): (r: Option<RelationDiff>)
    ensures var ids := StoredIds(existing);
      var creates := CreateSelection(incoming, ids);
      var updates := UpdateSelection(incoming, ids);
      var deletes := DeleteSelection(existing, IncomingIds(incoming));
      (r.None? <==> |creates| == 0 && |updates| == 0 && |deletes| == 0)
      && (r.Some? ==>
            r.value.create == NonEmpty(MapSeq(creates, WithoutId))
            && r.value.update == NonEmpty(MapSeq(updates, ToUpdateEntry))
            && r.value.delete == NonEmpty(MapSeq(deletes, DeleteEntry)))
  {
    var ids := StoredIds(existing);
    var toCreate := MapSeq(CreateSelection(incoming, ids), WithoutId);
    var toUpdate := MapSeq(UpdateSelection(incoming, ids), ToUpdateEntry);
    var toDelete := MapSeq(DeleteSelection(existing, IncomingIds(incoming)), DeleteEntry);
    if |toCreate| == 0 && |toUpdate| == 0 && |toDelete| == 0 then None
    else Some(RelationDiff(NonEmpty(toCreate), NonEmpty(toUpdate), NonEmpty(toDelete)))
  }

  /** Every incoming item is created or updated, never both and never dropped. */
  lemma {:induction false} DiffPartitionsIncoming(incoming: seq<Record>, existingIds: seq<JsVal>)
    ensures multiset(CreateSelection(incoming, existingIds)) + multiset(UpdateSelection(incoming, existingIds)) == multiset(incoming)
    decreases |incoming|
  {
    if |incoming| > 0 {
      var x, rest := incoming[0], incoming[1..];
      DiffPartitionsIncoming(rest, existingIds);
      assert incoming == [x] + rest;
      var c, u := CreateSelection(rest, existingIds), UpdateSelection(rest, existingIds);
      if Updates(x, existingIds) {
        assert CreateSelection(incoming, existingIds) == c;
        assert UpdateSelection(incoming, existingIds) == [x] + u;
      } else {
        assert CreateSelection(incoming, existingIds) == [x] + c;
        assert UpdateSelection(incoming, existingIds) == u;
      }
    }
  }

  /** The create and update lists keep the input order. */
  lemma {:induction false} DiffKeepsOrder(incoming: seq<Record>, existingIds: seq<JsVal>)
    ensures IsSubsequence(CreateSelection(incoming, existingIds), incoming)
    ensures IsSubsequence(UpdateSelection(incoming, existingIds), incoming)
    decreases |incoming|
  {
    if |incoming| > 0 {
      DiffKeepsOrder(incoming[1..], existingIds);
      var c, u := CreateSelection(incoming[1..], existingIds), UpdateSelection(incoming[1..], existingIds);
      if Updates(incoming[0], existingIds) {
        assert CreateSelection(incoming, existingIds) == c;
        assert UpdateSelection(incoming, existingIds) == [incoming[0]] + u;
        assert ([incoming[0]] + u)[1..] == u;
      } else {
        assert CreateSelection(incoming, existingIds) == [incoming[0]] + c;
        assert UpdateSelection(incoming, existingIds) == u;
        assert ([incoming[0]] + c)[1..] == c;
      }
    }
  }

  /** An incoming item with no id, or with an id nobody has, is created. */
  lemma CreatesWhatIsNotStored(existing: seq<Record>, incoming: seq<Record>, x: Record)
    requires x in incoming
    requires IsNullish(IdOf(x)) || forall e :: e in existing ==> IdOf(e) != IdOf(x)
    ensures var r := PrepareRelationDiff(existing, incoming);
      r.Some? && r.value.create.Some? && WithoutId(x) in r.value.create.value
  {
    var creates := CreateSelection(incoming, StoredIds(existing));
    assert x in creates;
    var i :| 0 <= i < |creates| && creates[i] == x;
    assert MapSeq(creates, WithoutId)[i] == WithoutId(x);
  }

  /** An incoming item whose id a stored row has is updated, and that row is not deleted. */
  lemma UpdatesWhatIsStored(existing: seq<Record>, incoming: seq<Record>, x: Record, e: Record)
    requires x in incoming && e in existing && HasId(x) && IdOf(e) == IdOf(x)
    ensures var r := PrepareRelationDiff(existing, incoming);
      r.Some? && r.value.update.Some? && UpdateEntry(IdOf(x), WithoutId(x)) in r.value.update.value
      && (r.value.delete.Some? ==> IdOf(e) !in r.value.delete.value)
  {
    var ids := StoredIds(existing);
    var updates := UpdateSelection(incoming, ids);
    assert x in updates;
    var i :| 0 <= i < |updates| && updates[i] == x;
    assert MapSeq(updates, ToUpdateEntry)[i] == ToUpdateEntry(x);
    var deletes := DeleteSelection(existing, IncomingIds(incoming));
    assert IdOf(x) in IncomingIds(incoming);
    forall j | 0 <= j < |deletes|
      ensures MapSeq(deletes, DeleteEntry)[j] != IdOf(e)
    {
      assert deletes[j] in deletes;
    }
  }

  /** A stored row is deleted exactly when no incoming item carries its id. */
  lemma DeletesWhatIsNotSent(existing: seq<Record>, incoming: seq<Record>, e: Record)
    requires e in existing
    requires forall x :: x in incoming && HasId(x) ==> IdOf(x) != IdOf(e)
    ensures var r := PrepareRelationDiff(existing, incoming);
      r.Some? && r.value.delete.Some? && IdOf(e) in r.value.delete.value
  {
    var deletes := DeleteSelection(existing, IncomingIds(incoming));
    assert e in deletes;
    var i :| 0 <= i < |deletes| && deletes[i] == e;
    assert MapSeq(deletes, DeleteEntry)[i] == IdOf(e);
  }

  // ---------------------------------------------------------------------
  // dbUpdateUser

  /** The fields `dbUpdateUser` copies when they are not undefined. */
  const CopiedFields: set<string> := {"name", "nickname", "picture", "cpf"}

  /** The keys the base update may hold. */
  const BaseKeys: set<string> := {"name", "nickname", "picture", "cpf", "birth_date", "updated_at"}

  /** `base` holds `k` exactly when `data` has it defined, with the same value. */
  predicate CopiesField(base: Record, data: Record, k: string)
  {
    (k in base <==> Get(data, k) != Undefined) && (k in base ==> base[k] == Get(data, k))
  }

  /**
   * What step 2 of `dbUpdateUser` builds: only the base keys; the copied
   * fields when defined; `birth_date` when defined, converted to a date or
   * null; `updated_at` always, set to now.
   */
  predicate IsBaseUpdate(base: Record, data: Record, now: JsVal, toDate: JsVal -> JsVal)
  {
    base.Keys <= BaseKeys
    && (forall k :: k in CopiedFields ==> CopiesField(base, data, k))
    && ("birth_date" in base <==> Get(data, "birth_date") != Undefined)
    && ("birth_date" in base ==>
          base["birth_date"] == (if Truthy(data["birth_date"]) then toDate(data["birth_date"]) else Null))
    && "updated_at" in base && base["updated_at"] == now
  }

  /**
   * Step 2 of `dbUpdateUser`: the direct user fields, filled one by one.
   * `now` stands for `new Date()` and `toDate` for `new Date(d)`.
   */
  method BuildBaseUpdate(data: Record, now: JsVal, toDate: JsVal -> JsVal) returns (base: Record)
    ensures IsBaseUpdate(base, data, now, toDate)
  {
    base := map[];
    if Get(data, "name") != Undefined {
      base := base["name" := data["name"]];
    }
    if Get(data, "nickname") != Undefined {
      base := base["nickname" := data["nickname"]];
    }
    if Get(data, "picture") != Undefined {
      base := base["picture" := data["picture"]];
    }
    assert CopiesField(base, data, "name") && CopiesField(base, data, "nickname") && CopiesField(base, data, "picture");
    assert base.Keys <= {"name", "nickname", "picture"};
    if Get(data, "birth_date") != Undefined {
      base := base["birth_date" := if Truthy(data["birth_date"]) then toDate(data["birth_date"]) else Null];
    }
    if Get(data, "cpf") != Undefined {
      base := base["cpf" := data["cpf"]];
    }
    base := base["updated_at" := now];
    assert CopiesField(base, data, "name") && CopiesField(base, data, "nickname") && CopiesField(base, data, "picture");
    assert CopiesField(base, data, "cpf");
  }

  /** The data passed to `dbUpdateUser`: scalar fields and the three optional relation lists. */
  datatype UpdateData = UpdateData(fields: Record, address: Option<seq<Record>>, email: Option<seq<Record>>, telephone: Option<seq<Record>>)

  /** The stored rows of the user's relations. */
  datatype StoredRelations = StoredRelations(address: seq<Record>, email: seq<Record>, telephone: seq<Record>)

  /** The final payload: the base fields plus each relation's diff when there is one. */
  datatype Payload = Payload(base: Record, address: Option<RelationDiff>, email: Option<RelationDiff>, telephone: Option<RelationDiff>)

  /** A relation's diff: computed only when the relation was sent. */
  function RelationDiffFor(existing: seq<Record>, incoming: Option<seq<Record>>): (r: Option<RelationDiff>)
    ensures incoming.None? ==> r.None?
    ensures incoming.Some? ==> r == PrepareRelationDiff(existing, incoming.value)
  {
    if incoming.Some? then PrepareRelationDiff(existing, incoming.value) else None
  }

  function NotFoundMessage(id: JsVal): string
  {
    "Usuário com ID " + ToJsString(id) + " não encontrado."
  }

  /** The not-found error carries "não encontrado", so the `catch` rethrows it unchanged. */
  lemma NotFoundPassesThrough(id: JsVal)
    ensures Rethrow(Err(NotFoundMessage(id))) == Err(NotFoundMessage(id))
  {
    ContainsInfix("Usuário com ID " + ToJsString(id) + " ", "não encontrado", ".");
    assert NotFoundMessage(id) == "Usuário com ID " + ToJsString(id) + " " + "não encontrado" + ".";
  }

  const UpdateFailurePrefix: string := "Falha ao atualizar usuário no banco de dados. Causa: "

  /** The `catch` block: a "não encontrado" error is rethrown unchanged, any other one is wrapped. */
  function Rethrow(outcome: Result<Record>): (r: Result<Record>)
    ensures outcome.Ok? ==> r == outcome
    ensures outcome.Err? && Contains(outcome.message, "não encontrado") ==> r == outcome
    ensures outcome.Err? && !Contains(outcome.message, "não encontrado") ==> r == Err(UpdateFailurePrefix + outcome.message)
  {
    match outcome
    case Ok(_) => outcome
    case Err(m) => if Contains(m, "não encontrado") then outcome else Err(UpdateFailurePrefix + m)
  }

  /**
   * `dbUpdateUser`. `stored` is the lookup by id and `update` the database
   * update; `payload` is what was handed to it.
   */
  method DbUpdateUser(id: JsVal, data: UpdateData, stored: Option<StoredRelations>, now: JsVal,
                      toDate: JsVal -> JsVal, update: Payload -> Result<Record>)
    returns (r: Result<Record>, payload: Option<Payload>)
    ensures stored.None? ==> payload.None? && r == Err(NotFoundMessage(id))
    ensures stored.Some? ==>
      payload.Some?
      && payload.value.address == RelationDiffFor(stored.value.address, data.address)
      && payload.value.email == RelationDiffFor(stored.value.email, data.email)
      && payload.value.telephone == RelationDiffFor(stored.value.telephone, data.telephone)
      && r == Rethrow(update(payload.value))
    ensures stored.Some? ==> IsBaseUpdate(payload.value.base, data.fields, now, toDate)
  {
    if stored.None? {
      NotFoundPassesThrough(id);
      r := Rethrow(Err(NotFoundMessage(id)));
      payload := None;
      return;
    }
    var existing := stored.value;
    var base := BuildBaseUpdate(data.fields, now, toDate);
    var addressDiff := RelationDiffFor(existing.address, data.address);
    var emailDiff := RelationDiffFor(existing.email, data.email);
    var telephoneDiff := RelationDiffFor(existing.telephone, data.telephone);
    var p := Payload(base, addressDiff, emailDiff, telephoneDiff);
    payload := Some(p);
    r := Rethrow(update(p));
  }
}
