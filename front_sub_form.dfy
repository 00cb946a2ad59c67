// The list editor for addresses, emails and telephones
// (src/frontend/components/form/subForm/SubForm.js). The field array of the
// surrounding form and the editor's own state hooks are the fields of a
// class; the schema is an oracle.

module FrontSubForm {
  import opened Js
  import opened JsArray

  type ItemSlot = Slot<Record>

  /** One column of the sub-form: its name, input type, the values of its options, and whether it is read-only. */
  datatype FieldDef = FieldDef(name: string, fieldType: string, optionValues: seq<JsVal>, readOnly: bool)

  /** One entry of a Yup `ValidationError.inner`. */
  datatype FieldError = FieldError(path: string, message: string)

  /** The outcome of validating one field against the schema. */
  datatype FieldCheck = NotInSchema | Valid | Invalid(message: string) | Unexpected

  /**
   * `items` is the field array's `fields`, `values` the form's values under
   * `name` (what `getValues(name)` returns) and `tempValue` the object the add
   * form writes at `name.temp`.
   */
  datatype SubFormState = SubFormState(
    items: seq<ItemSlot>, values: seq<ItemSlot>, tempValue: Record,
    isOpen: bool, editIndex: Option<int>, tempData: Option<Record>, tempErrors: map<string, string>)

  /** The value `handleAdd` gives a field; a select without options has no `options[0]` and throws. */
  function DefaultFor(f: FieldDef): (v: Option<JsVal>)
    ensures v.None? <==> f.fieldType == "select" && |f.optionValues| == 0
    ensures f.fieldType == "select" && |f.optionValues| > 0 ==> v == Some(f.optionValues[0])
    ensures f.fieldType == "date" ==> v == Some(Null)
    ensures f.fieldType == "checkbox" ==> v == Some(Bool(false))
    ensures f.fieldType !in {"select", "date", "checkbox"} ==> v == Some(Str(""))
  {
    if f.fieldType == "select" then (if |f.optionValues| > 0 then Some(f.optionValues[0]) else None)
    else if f.fieldType == "date" then Some(Null)
    else if f.fieldType == "checkbox" then Some(Bool(false))
    else Some(Str(""))
  }

  predicate LastWithName(fields: seq<FieldDef>, i: int)
    requires 0 <= i < |fields|
  {
    forall j :: i < j < |fields| ==> fields[j].name != fields[i].name
  }

  function FieldNames(fields: seq<FieldDef>): set<string>
  {
    set f | f in fields :: f.name
  }

  /** The `fields.reduce` of `handleAdd`, starting from `{ id: null, is_main: false }`. */
  function DefaultValues(fields: seq<FieldDef>): (r: Option<Record>)
    ensures r.None? <==> exists i :: 0 <= i < |fields| && DefaultFor(fields[i]).None?
    ensures r.Some? ==> r.value.Keys == {"id", "is_main"} + FieldNames(fields)
    decreases |fields|
  {
    if |fields| == 0 then Some(map["id" := Null, "is_main" := Bool(false)])
    else
      var init := fields[..|fields| - 1];
      var last := fields[|fields| - 1];
      FieldNamesSnoc(fields);
      match DefaultValues(init)
      case None => None
      case Some(acc) =>
        match DefaultFor(last)
        case None => None
        case Some(v) => Some(acc[last.name := v])
  }

  lemma FieldNamesSnoc(fields: seq<FieldDef>)
    requires |fields| > 0
    ensures FieldNames(fields) == FieldNames(fields[..|fields| - 1]) + {fields[|fields| - 1].name}
  {
    assert fields == fields[..|fields| - 1] + [fields[|fields| - 1]];
  }

  /** The value under a field's name is that field's default when no later field has the same name. */
  lemma {:induction false} DefaultValuesLastWins(fields: seq<FieldDef>, i: nat)
    requires i < |fields| && LastWithName(fields, i) && DefaultValues(fields).Some?
    ensures DefaultValues(fields).value[fields[i].name] == DefaultFor(fields[i]).value
    decreases |fields|
  {
    var init := fields[..|fields| - 1];
    if i < |fields| - 1 {
      assert LastWithName(init, i) && init[i] == fields[i];
      DefaultValuesLastWins(init, i);
    }
  }

  /** `id` stays null and `is_main` false unless some field has that name. */
  lemma {:induction false} DefaultValuesSeeds(fields: seq<FieldDef>)
    requires DefaultValues(fields).Some?
    ensures "id" !in FieldNames(fields) ==> DefaultValues(fields).value["id"] == Null
    ensures "is_main" !in FieldNames(fields) ==> DefaultValues(fields).value["is_main"] == Bool(false)
    decreases |fields|
  {
    if |fields| > 0 {
      FieldNamesSnoc(fields);
      DefaultValuesSeeds(fields[..|fields| - 1]);
    }
  }

  /** The error map `validateForm` builds: `newErrors[error.path] = error.message`, later entries winning. */
  function ErrorMap(errs: seq<FieldError>): (r: map<string, string>)
    ensures r.Keys == ErrorPaths(errs)
    decreases |errs|
  {
    if |errs| == 0 then map[]
    else
      ErrorPathsSnoc(errs);
      ErrorMap(errs[..|errs| - 1])[errs[|errs| - 1].path := errs[|errs| - 1].message]
  }

  function ErrorPaths(errs: seq<FieldError>): set<string>
  {
    set e | e in errs :: e.path
  }

  lemma ErrorPathsSnoc(errs: seq<FieldError>)
    requires |errs| > 0
    ensures ErrorPaths(errs) == ErrorPaths(errs[..|errs| - 1]) + {errs[|errs| - 1].path}
  {
    assert errs == errs[..|errs| - 1] + [errs[|errs| - 1]];
  }

  /** An error's message is the one kept for its path unless a later error has the same path. */
  lemma {:induction false} ErrorMapLastWins(errs: seq<FieldError>, i: nat)
    requires i < |errs| && forall j :: i < j < |errs| ==> errs[j].path != errs[i].path
    ensures errs[i].path in ErrorMap(errs) && ErrorMap(errs)[errs[i].path] == errs[i].message
    decreases |errs|
  {
    var init := errs[..|errs| - 1];
    if i < |errs| - 1 {
      assert init[i] == errs[i];
      assert forall j :: i < j < |init| ==> init[j].path != init[i].path by {
        forall j | i < j < |init| ensures init[j].path != init[i].path {
          assert init[j] == errs[j];
        }
      }
      ErrorMapLastWins(init, i);
    }
  }

  /** What an update writes at an index: the loaded data, or an undefined entry. */
  function SlotOf(data: Option<Record>): (s: ItemSlot)
    ensures data.Some? <==> s.Item?
    ensures data.Some? ==> s.data == data.value
  {
    if data.Some? then Item(data.value) else Hole
  }

  /** `{ ...item }` of an entry; an undefined one spreads as `{}`. */
  function DataOf(s: ItemSlot): (d: Record)
    ensures s.Item? ==> d == s.data
    ensures s.Hole? ==> d == map[]
  {
    if s.Item? then s.data else map[]
  }

  /** `items.map((item, idx) => ({ ...item, is_main: idx === index ? !item.is_main : false }))` */
  function MainToggled(items: seq<ItemSlot>, index: int): (r: seq<ItemSlot>)
    ensures |r| == |items|
    ensures forall j :: 0 <= j < |r| ==> r[j].Item? && r[j].data.Keys == DataOf(items[j]).Keys + {"is_main"}
  {
    seq(|items|, j requires 0 <= j < |items| =>
      Item(DataOf(items[j])["is_main" := Bool(j == index && !Truthy(Get(DataOf(items[j]), "is_main")))]))
  }

  /** After a toggle at most one item is main, the target is main iff it was not, and only `is_main` changed. */
  lemma MainToggledSpec(items: seq<ItemSlot>, index: int)
    requires 0 <= index < |items|
    ensures var r := MainToggled(items, index);
      (forall i, j :: 0 <= i < |r| && 0 <= j < |r| && Truthy(Get(r[i].data, "is_main")) && Truthy(Get(r[j].data, "is_main")) ==> i == j)
      && (Truthy(Get(r[index].data, "is_main")) <==> !Truthy(Get(DataOf(items[index]), "is_main")))
      && (forall j, k :: 0 <= j < |r| && k in DataOf(items[j]) && k != "is_main" ==> r[j].data[k] == DataOf(items[j])[k])
  {
  }

  /** The value typed into a field: a checkbox's `checked`, a number field's digits, or the raw text. */
  function FieldInputValue(f: FieldDef, inputType: string, value: string, checked: bool): (v: JsVal)
    ensures inputType == "checkbox" ==> v == Bool(checked)
    ensures inputType != "checkbox" && f.fieldType == "number" ==> v.Str? && AllDigits(v.s) && v.s == Digits(value)
    ensures inputType != "checkbox" && f.fieldType != "number" ==> v == Str(value)
  {
    if inputType == "checkbox" then Bool(checked)
    else if f.fieldType == "number" then Str(Digits(value))
    else Str(value)
  }

  /** Filtering a number field twice is the same as once. */
  lemma NumberFieldFilterIdempotent(f: FieldDef, value: string)
    requires f.fieldType == "number"
    ensures FieldInputValue(f, "text", FieldInputValue(f, "text", value, false).s, false) == FieldInputValue(f, "text", value, false)
  {
    DigitsOfDigits(Digits(value));
  }

  /** The errors after `validateField(fieldName, value)`. */
  function ErrorsAfterCheck(errors: map<string, string>, fieldName: string, check: FieldCheck): (r: map<string, string>)
    ensures check.NotInSchema? ==> r == errors
    ensures !check.NotInSchema? ==>
              r.Keys == errors.Keys + {fieldName} && forall k :: k in errors && k != fieldName ==> r[k] == errors[k]
    ensures check.Valid? ==> r[fieldName] == ""
    ensures check.Invalid? && check.message != "" ==> r[fieldName] == check.message
    ensures check.Invalid? && check.message == "" ==> r[fieldName] == "Campo " + fieldName + " inválido"
    ensures check.Unexpected? ==> r[fieldName] == "Erro inesperado na validação"
  {
    match check
    case NotInSchema => errors
    case Valid => errors[fieldName := ""]
    case Invalid(m) => errors[fieldName := if m != "" then m else "Campo " + fieldName + " inválido"]
    case Unexpected => errors[fieldName := "Erro inesperado na validação"]
  }

  /**
   * `setValue(name.index.key, v)` on the form's list: the entry at a
   * non-negative index (created when it is undefined, with holes before it
   * when it lies past the end) gets `v` under `key` and keeps its other keys.
   */
  function SetPath(values: seq<ItemSlot>, index: int, key: string, v: JsVal): (r: seq<ItemSlot>)
    ensures index < 0 ==> r == values
    ensures index >= 0 ==> |r| == if index < |values| then |values| else index + 1
    ensures index >= 0 ==> r[index] == Item(DataOf(if index < |values| then values[index] else Hole)[key := v])
    ensures forall j :: 0 <= j < |values| && j != index ==> r[j] == values[j]
    ensures forall j :: |values| <= j < |r| && j != index ==> r[j] == Hole
  {
    if index < 0 then values
    else SetAt(values, index, Item(DataOf(if index < |values| then values[index] else Hole)[key := v]))
  }

  /** Reading a path back after `setValue` on it gives the value written, and every other key and entry is kept. */
  lemma SetPathThenGet(values: seq<ItemSlot>, index: int, key: string, v: JsVal, other: string)
    requires 0 <= index
    requires other != key
    ensures var r := SetPath(values, index, key, v);
      r[index].Item? && Get(r[index].data, key) == v
      && Get(r[index].data, other) == Get(DataOf(if index < |values| then values[index] else Hole), other)
  {
  }

  /**
   * The list after `update(0, updated[0])`, `update(1, updated[1])`, … in turn:
   * the first entries are `updated`, any further ones are kept.
   */
  function UpdatedInTurn(values: seq<ItemSlot>, updated: seq<ItemSlot>): (r: seq<ItemSlot>)
    ensures |r| == if |values| > |updated| then |values| else |updated|
    ensures r[..|updated|] == updated
    ensures forall j :: |updated| <= j < |r| ==> r[j] == values[j]
  {
    updated + (if |values| > |updated| then values[|updated|..] else [])
  }

  class SubForm {
    var items: seq<ItemSlot>
    var values: seq<ItemSlot>
    var tempValue: Record
    var isOpen: bool
    var editIndex: Option<int>
    var tempData: Option<Record>
    var tempErrors: map<string, string>

    function State(): SubFormState
      reads this
    {
      SubFormState(items, values, tempValue, isOpen, editIndex, tempData, tempErrors)
    }

    /** A sub-form over the entries the form already holds; `fields` and the values start out alike. */
    constructor(initial: seq<ItemSlot>)
      ensures State() == SubFormState(initial, initial, map[], false, None, Some(map[]), map[])
    {
      items, values, tempValue := initial, initial, map[];
      isOpen, editIndex, tempData, tempErrors := false, None, Some(map[]), map[];
    }

    /** `resetForm`: only the editor's own state is cleared; the form's values keep what was typed. */
    method ResetForm()
      modifies this
      ensures State() == SubFormState(old(items), old(values), old(tempValue), false, None, Some(map[]), map[])
    {
      isOpen, editIndex, tempData, tempErrors := false, None, Some(map[]), map[];
    }

    /** `handleAdd`; when a select has no options the reduce throws after `setEditIndex(null)`. */
    method HandleAdd(fields: seq<FieldDef>)
      modifies this
      ensures DefaultValues(fields).Some? ==>
        State() == old(State()).(isOpen := true, editIndex := None, tempData := DefaultValues(fields), tempErrors := map[])
      ensures DefaultValues(fields).None? ==> State() == old(State()).(editIndex := None)
    {
      editIndex := None;
      var defaults := DefaultValues(fields);
      if defaults.Some? {
        tempData := defaults;
        tempErrors := map[];
        isOpen := true;
      }
    }

    /** `handleEdit`: loads `getValues(name.index)` from the form's values, undefined outside the list. */
    method HandleEdit(index: int)
      modifies this
      ensures items == old(items) && values == old(values) && tempValue == old(tempValue)
      ensures !isOpen && editIndex == Some(index) && tempErrors == map[]
      ensures 0 <= index < |values| && values[index].Item? ==> tempData == Some(values[index].data)
      ensures !(0 <= index < |values| && values[index].Item?) ==> tempData == None
    {
      editIndex := Some(index);
      isOpen := false;
      if 0 <= index < |values| && values[index].Item? {
        tempData := Some(values[index].data);
      } else {
        tempData := None;
      }
      tempErrors := map[];
    }

    /**
     * `handleSave(index)`: an invalid form records its errors and keeps the
     * list; a valid one updates `index` (or appends a copy) in both the field
     * array and the form's values, and resets the editor.
     */
    method HandleSave(index: Option<int>, validate: Option<Record> -> seq<FieldError>)
      modifies this
      ensures |validate(old(tempData))| > 0 ==>
        State() == old(State()).(tempErrors := ErrorMap(validate(old(tempData))))
      ensures |validate(old(tempData))| == 0 && index.Some? ==>
        State() == SubFormState(SetAt(old(items), index.value, SlotOf(old(tempData))),
                                SetAt(old(values), index.value, SlotOf(old(tempData))), old(tempValue),
                                false, None, Some(map[]), map[])
      ensures |validate(old(tempData))| == 0 && index.None? ==>
        var added := Item(if old(tempData).Some? then old(tempData).value else map[]);
        State() == SubFormState(old(items) + [added], old(values) + [added], old(tempValue), false, None, Some(map[]), map[])
    {
      var errs := validate(tempData);
      if |errs| > 0 {
        tempErrors := ErrorMap(errs);
        return;
      }
      tempErrors := map[];
      if index.Some? {
        items := SetAt(items, index.value, SlotOf(tempData));
        values := SetAt(values, index.value, SlotOf(tempData));
      } else {
        var added := Item(if tempData.Some? then tempData.value else map[]);
        items := items + [added];
        values := values + [added];
      }
      ResetForm();
    }

    /**
     * `handleMainCheckboxChange`: the toggled list is computed from the field
     * array and each entry is then written with `update`, into the field array
     * and the form's values, in turn.
     */
    method HandleMainCheckboxChange(index: int)
      modifies this
      ensures !(0 <= index < |old(items)|) ==> State() == old(State())
      ensures 0 <= index < |old(items)| ==>
        State() == old(State()).(items := MainToggled(old(items), index),
                                 values := UpdatedInTurn(old(values), MainToggled(old(items), index)))
    {
      if index < 0 || index >= |items| {
        return;
      }
      var snapshot := items;
      var updated := MainToggled(snapshot, index);
      var i := 0;
      while i < |snapshot|
        invariant 0 <= i <= |snapshot| && |items| == |snapshot|
        invariant items[..i] == updated[..i] && items[i..] == snapshot[i..]
        invariant values == UpdatedInTurn(old(values), updated[..i])
        invariant tempValue == old(tempValue) && isOpen == old(isOpen) && editIndex == old(editIndex)
        invariant tempData == old(tempData) && tempErrors == old(tempErrors)
      {
        items := items[i := updated[i]];
        UpdatedInTurnStep(old(values), updated, i);
        values := SetAt(values, i, updated[i]);
        i := i + 1;
      }
      assert items == items[..i];
      assert updated[..i] == updated;
    }

    /**
     * The change handler of one input: the new value goes into `tempData`,
     * is written with `setValue` at `name.index.field` (the entry being
     * edited) or `name.temp.field` (the add form), and the field is then
     * validated. A field's own `onChange` hook is not part of this model.
     */
    method HandleFieldChange(f: FieldDef, inputType: string, value: string, checked: bool, check: (string, JsVal) -> FieldCheck)
      modifies this
      ensures var v := FieldInputValue(f, inputType, value, checked);
        State() == old(State()).(
          values := if old(editIndex).Some? then SetPath(old(values), old(editIndex).value, f.name, v) else old(values),
          tempValue := if old(editIndex).None? then old(tempValue)[f.name := v] else old(tempValue),
          tempData := Some((if old(tempData).Some? then old(tempData).value else map[])[f.name := v]),
          tempErrors := ErrorsAfterCheck(old(tempErrors), f.name, check(f.name, v)))
    {
      var v := FieldInputValue(f, inputType, value, checked);
      tempData := Some((if tempData.Some? then tempData.value else map[])[f.name := v]);
      if editIndex.Some? {
        values := SetPath(values, editIndex.value, f.name, v);
      } else {
        tempValue := tempValue[f.name := v];
      }
      tempErrors := ErrorsAfterCheck(tempErrors, f.name, check(f.name, v));
    }
  }

  /** One more `update` in the loop of `HandleMainCheckboxChange`. */
  lemma UpdatedInTurnStep(values: seq<ItemSlot>, updated: seq<ItemSlot>, i: int)
    requires 0 <= i < |updated|
    ensures SetAt(UpdatedInTurn(values, updated[..i]), i, updated[i]) == UpdatedInTurn(values, updated[..i + 1])
  {
    var before := UpdatedInTurn(values, updated[..i]);
    var after := SetAt(before, i, updated[i]);
    var want := UpdatedInTurn(values, updated[..i + 1]);
    assert |after| == |want|;
    forall j | 0 <= j < |after|
      ensures after[j] == want[j]
    {
      if j < i {
        assert before[..i][j] == updated[..i][j];
        assert want[..i + 1][j] == updated[..i + 1][j];
      } else if j == i {
        assert want[..i + 1][j] == updated[..i + 1][j];
      }
    }
  }

  /**
   * Edit an entry, type into one of its fields, reset the editor and edit the
   * same entry again: the editor loads what was typed, while the field array
   * still shows the entry as it was saved.
   */
  method TypedValueOutlivesReset(initial: seq<ItemSlot>, index: int, f: FieldDef, value: string,
                                 check: (string, JsVal) -> FieldCheck)
    returns (loaded: Option<Record>, shown: ItemSlot)
    requires 0 <= index < |initial| && initial[index].Item?
    ensures loaded == Some(initial[index].data[f.name := FieldInputValue(f, "text", value, false)])
    ensures shown == initial[index]
  {
    var form := new SubForm(initial);
    form.HandleEdit(index);
    form.HandleFieldChange(f, "text", value, false, check);
    form.ResetForm();
    form.HandleEdit(index);
    loaded, shown := form.tempData, form.items[index];
  }
}
