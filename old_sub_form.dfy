// The older list editor (src/components/form/subForm/SubForm.js). It keeps
// its own copy of the items and hands every new list to `onSave`; here each
// handler returns the list it passes to `onSave`, if any. `Date.now()` (the
// id of a fresh entry) is a parameter.

module OldSubForm {
  import opened Js
  import FrontSubForm

  type FieldError = FrontSubForm.FieldError

  /** One column: its name and input type. */
  datatype OldField = OldField(name: string, fieldType: string)

  /** The outcome of `schema.validateAt(fieldName, ...)`. */
  datatype AtCheck = Passed | Failed(message: string) | Thrown

  datatype OldSubFormState = OldSubFormState(
    items: seq<Record>, isOpen: bool, formData: Record, errors: map<string, string>, editIndex: Option<int>)

  function OldFieldNames(fields: seq<OldField>): set<string>
  {
    set f | f in fields :: f.name
  }

  /** The fresh form data: `{ id: now, is_main: false }` with "" written for every field. */
  function FreshFormData(fields: seq<OldField>, now: int): (r: Record)
    ensures r.Keys == {"id", "is_main"} + OldFieldNames(fields)
    ensures forall f :: f in fields ==> r[f.name] == Str("")
    ensures "id" !in OldFieldNames(fields) ==> r["id"] == Num(now)
    ensures "is_main" !in OldFieldNames(fields) ==> r["is_main"] == Bool(false)
    decreases |fields|
  {
    if |fields| == 0 then map["id" := Num(now), "is_main" := Bool(false)]
    else
      var init := fields[..|fields| - 1];
      var last := fields[|fields| - 1];
      assert fields == init + [last];
      assert OldFieldNames(fields) == OldFieldNames(init) + {last.name};
      FreshFormData(init, now)[last.name := Str("")]
  }

  /** `items.map((item, i) => i === index ? { ...data } : item)` */
  function ReplaceAt(items: seq<Record>, index: int, data: Record): (r: seq<Record>)
    ensures |r| == |items|
    ensures forall i :: 0 <= i < |items| ==> r[i] == if i == index then data else items[i]
  {
    seq(|items|, i requires 0 <= i < |items| => if i == index then data else items[i])
  }

  /** `items.filter((_, i) => i !== index)` */
  function RemoveIndex(items: seq<Record>, index: int): (r: seq<Record>)
    ensures !(0 <= index < |items|) ==> r == items
    ensures 0 <= index < |items| ==>
      |r| == |items| - 1
      && (forall j :: 0 <= j < index ==> r[j] == items[j])
      && (forall j :: index <= j < |r| ==> r[j] == items[j + 1])
    decreases |items|
  {
    if |items| == 0 then []
    else if index == 0 then items[1..]
    else [items[0]] + RemoveIndex(items[1..], index - 1)
  }

  /** Removing an index drops exactly that one item. */
  lemma {:induction false} RemoveIndexMultiset(items: seq<Record>, index: int)
    requires 0 <= index < |items|
    ensures multiset(RemoveIndex(items, index)) + multiset{items[index]} == multiset(items)
    decreases |items|
  {
    assert items == [items[0]] + items[1..];
    if index > 0 {
      RemoveIndexMultiset(items[1..], index - 1);
    }
  }

  /** `items.map((item, i) => ({ ...item, is_main: i === index ? !item.is_main : false }))`, with no range check. */
  function MainToggle(items: seq<Record>, index: int): (r: seq<Record>)
    ensures |r| == |items|
    ensures forall i :: 0 <= i < |r| ==> r[i].Keys == items[i].Keys + {"is_main"}
  {
    seq(|items|, i requires 0 <= i < |items| =>
      items[i]["is_main" := Bool(i == index && !Truthy(Get(items[i], "is_main")))])
  }

  /** At most one item is main after a toggle; none is when the index is outside the list. */
  lemma MainToggleSpec(items: seq<Record>, index: int)
    ensures var r := MainToggle(items, index);
      (forall i :: 0 <= i < |r| && Truthy(Get(r[i], "is_main")) ==> i == index)
      && (0 <= index < |r| ==> (Truthy(Get(r[index], "is_main")) <==> !Truthy(Get(items[index], "is_main"))))
      && (forall i, k :: 0 <= i < |r| && k in items[i] && k != "is_main" ==> r[i][k] == items[i][k])
  {
  }

  /** The errors after `validateField`: the key goes on success and holds the message on a validation error. */
  function ErrorsAfterValidateAt(errors: map<string, string>, fieldName: string, check: AtCheck): (r: map<string, string>)
    ensures check.Passed? ==> r == errors - {fieldName}
    ensures check.Failed? ==> r == errors[fieldName := check.message]
    ensures check.Thrown? ==> r == errors
  {
    match check
    case Passed => map k | k in errors && k != fieldName :: errors[k]
    case Failed(m) => errors[fieldName := m]
    case Thrown => errors
  }

  /** `calcularLarguraColunas`: entry `index` of the column array. */
  function ColumnWidth(index: nat, numColumns: nat): string
  {
    if index == numColumns - 2 then "40px" else if index == numColumns - 1 then "80px" else "1fr"
  }

  function ColumnArray(n: nat): seq<string>
  {
    seq(n + 2, i requires 0 <= i < n + 2 => ColumnWidth(i, n + 2))
  }

  /** `calcularLarguraColunas(fields)` for a field list of length `n`. */
  function GridColumnWidths(n: nat): (r: string)
    ensures n == 0 ==> r == "grid-cols-1"
    ensures n > 0 ==> r == RepeatWord("1fr ", n) + "40px 80px"
  {
    if n == 0 then "grid-cols-1"
    else
      ColumnsJoin(n);
      Join(ColumnArray(n), " ")
  }

  function RepeatWord(w: string, n: nat): (r: string)
    ensures |r| == n * |w|
  {
    if n == 0 then "" else w + RepeatWord(w, n - 1)
  }

  lemma {:induction false} ColumnsJoin(n: nat)
    ensures Join(ColumnArray(n), " ") == RepeatWord("1fr ", n) + "40px 80px"
    decreases n
  {
    if n == 0 {
      assert ColumnArray(0) == ["40px", "80px"];
      assert ColumnArray(0)[1..] == ["80px"];
    } else {
      assert ColumnArray(n) == ["1fr"] + ColumnArray(n - 1);
      assert ColumnArray(n)[1..] == ColumnArray(n - 1);
      ColumnsJoin(n - 1);
    }
  }

  class SubForm {
    var items: seq<Record>
    var isOpen: bool
    var formData: Record
    var errors: map<string, string>
    var editIndex: Option<int>

    function State(): OldSubFormState
      reads this
    {
      OldSubFormState(items, isOpen, formData, errors, editIndex)
    }

    /** `useState(initialData || [])` and a fresh entry. */
    constructor(initialData: Option<seq<Record>>, fields: seq<OldField>, now: int)
      ensures State() == OldSubFormState(if initialData.Some? then initialData.value else [], false,
                                         FreshFormData(fields, now), map[], None)
    {
      items := if initialData.Some? then initialData.value else [];
      isOpen, formData, errors, editIndex := false, FreshFormData(fields, now), map[], None;
    }

    /** `validateField` */
    method ValidateField(fieldName: string, check: AtCheck)
      modifies this
      ensures State() == old(State()).(errors := ErrorsAfterValidateAt(old(errors), fieldName, check))
    {
      errors := ErrorsAfterValidateAt(errors, fieldName, check);
    }

    /**
     * `handleChange`: a checkbox stores `checked`, a chosen file its object
     * URL, anything else its text; file inputs are not validated. The CEP
     * lookup callback is not part of this model.
     */
    method HandleChange(name: string, value: string, inputType: string, checked: bool, fileUrl: Option<string>, check: AtCheck)
      modifies this
      ensures var v := if inputType == "file" && fileUrl.Some? then Str(fileUrl.value)
                       else if inputType == "checkbox" then Bool(checked) else Str(value);
        State() == old(State()).(
          formData := old(formData)[name := v],
          errors := if inputType == "file" then old(errors) else ErrorsAfterValidateAt(old(errors), name, check))
    {
      var newValue := if inputType == "checkbox" then Bool(checked) else Str(value);
      if inputType == "file" && fileUrl.Some? {
        newValue := Str(fileUrl.value);
      }
      formData := formData[name := newValue];
      if inputType != "file" {
        ValidateField(name, check);
      }
    }

    /** `resetFormForNewEntry` */
    method ResetFormForNewEntry(fields: seq<OldField>, now: int)
      modifies this
      ensures State() == OldSubFormState(old(items), true, FreshFormData(fields, now), map[], None)
    {
      formData, errors, editIndex, isOpen := FreshFormData(fields, now), map[], None, true;
    }

    /** `resetForm` */
    method ResetForm(fields: seq<OldField>, now: int)
      modifies this
      ensures State() == OldSubFormState(old(items), false, FreshFormData(fields, now), map[], None)
    {
      formData, errors, isOpen, editIndex := FreshFormData(fields, now), map[], false, None;
    }

    /**
     * `handleSave`: an invalid entry records path → message errors and
     * changes nothing else; a valid one replaces the item being edited (or
     * appends), reports the list to `onSave` and opens a fresh entry.
     */
    method HandleSave(validate: Record -> seq<FieldError>, fields: seq<OldField>, now: int) returns (saved: Option<seq<Record>>)
      modifies this
      ensures |validate(old(formData))| > 0 ==>
        saved.None? && State() == old(State()).(errors := FrontSubForm.ErrorMap(validate(old(formData))))
      ensures |validate(old(formData))| == 0 ==>
        var updated := if old(editIndex).Some? then ReplaceAt(old(items), old(editIndex).value, old(formData))
                       else old(items) + [old(formData)];
        saved == Some(updated)
        && State() == OldSubFormState(updated, true, FreshFormData(fields, now), map[], None)
    {
      var errs := validate(formData);
      if |errs| > 0 {
        errors := FrontSubForm.ErrorMap(errs);
        return None;
      }
      errors := map[];
      if editIndex.Some? {
        items := ReplaceAt(items, editIndex.value, formData);
      } else {
        items := items + [formData];
      }
      saved := Some(items);
      ResetFormForNewEntry(fields, now);
    }

    /** `handleEdit`: `{ ...items[index] }`, which is `{}` outside the list. */
    method HandleEdit(index: int)
      modifies this
      ensures State() == old(State()).(
        editIndex := Some(index), isOpen := true,
        formData := if 0 <= index < |old(items)| then old(items)[index] else map[])
    {
      editIndex := Some(index);
      formData := if 0 <= index < |items| then items[index] else map[];
      isOpen := true;
    }

    /** `handleRemove` */
    method HandleRemove(index: int) returns (saved: seq<Record>)
      modifies this
      ensures saved == RemoveIndex(old(items), index)
      ensures State() == old(State()).(items := saved)
    {
      items := RemoveIndex(items, index);
      saved := items;
    }

    /** `handleMainToggle` */
    method HandleMainToggle(index: int) returns (saved: seq<Record>)
      modifies this
      ensures saved == MainToggle(old(items), index)
      ensures State() == old(State()).(items := saved)
    {
      items := MainToggle(items, index);
      saved := items;
    }
  }
}
