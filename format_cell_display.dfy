// The sub-form grid's cell formatter
// (src/frontend/components/form/subForm/shared/formatCellDisplay.js).

module FormatCellDisplay {
  import opened Js

  /** One entry of a select column's `options`. */
  datatype SelectOption = SelectOption(value: JsVal, optionLabel: JsVal)

  /** The parts of a column definition the formatter reads; `options` is None when it is not an array. */
  datatype ColumnDef = ColumnDef(colType: JsVal, options: Option<seq<SelectOption>>)

  /** `options.find((opt) => opt.value === value)` */
  function FindOption(options: seq<SelectOption>, value: JsVal): (r: Option<nat>)
    ensures r.Some? ==> r.value < |options| && StrictEquals(options[r.value].value, value)
    ensures r.Some? ==> forall j :: 0 <= j < r.value ==> !StrictEquals(options[j].value, value)
    ensures r.None? ==> forall j :: 0 <= j < |options| ==> !StrictEquals(options[j].value, value)
    decreases |options|
  {
    if |options| == 0 then None
    else if StrictEquals(options[0].value, value) then Some(0)
    else match FindOption(options[1..], value)
      case Some(i) => Some(i + 1)
      case None => None
  }

  predicate IsEmptyCell(value: JsVal)
  {
    value == Null || value == Undefined || value == Str("")
  }

  /**
   * `formatCellDisplay(value, columnDef)`. The label of a matching option is
   * returned as it is, so the result is a value rather than a string; None
   * stands for `new Date(value).toLocaleDateString()`, which this model
   * leaves out.
   */
  function FormatCell(value: JsVal, columnDef: Option<ColumnDef>): (r: Option<JsVal>)
    ensures IsEmptyCell(value) ==> r == Some(Str("-"))
    ensures r.None? <==> !IsEmptyCell(value) && columnDef.Some? && columnDef.value.colType == Str("date") && Truthy(value)
    ensures !IsEmptyCell(value) && columnDef.Some? && columnDef.value.colType == Str("select") && columnDef.value.options.Some? ==>
      var opts := columnDef.value.options.value;
      (forall j :: 0 <= j < |opts| ==> !StrictEquals(opts[j].value, value)) ==> r == Some(Str(ToJsString(value)))
    ensures !IsEmptyCell(value) && columnDef.Some? && columnDef.value.colType == Str("select") && columnDef.value.options.Some? ==>
      forall i :: 0 <= i < |columnDef.value.options.value| && StrictEquals(columnDef.value.options.value[i].value, value)
        && (forall j :: 0 <= j < i ==> !StrictEquals(columnDef.value.options.value[j].value, value))
        ==> r == Some(columnDef.value.options.value[i].optionLabel)
    ensures !IsEmptyCell(value) && (columnDef.None? || (columnDef.value.colType != Str("date") && columnDef.value.colType != Str("select")))
      ==> r == Some(Str(ToJsString(value)))
  {
    if IsEmptyCell(value) then Some(Str("-"))
    else if columnDef.Some? && columnDef.value.colType == Str("date") && Truthy(value) then None
    else if columnDef.Some? && columnDef.value.colType == Str("select") && columnDef.value.options.Some? then
      match FindOption(columnDef.value.options.value, value)
      case Some(i) => Some(columnDef.value.options.value[i].optionLabel)
      case None => Some(Str(ToJsString(value)))
    else Some(Str(ToJsString(value)))
  }

  /** A date column never shows an option label: it is "-", a locale date, or `String(value)` for a falsy value. */
  lemma DateColumnSkipsOptions(value: JsVal, options: Option<seq<SelectOption>>)
    ensures var r := FormatCell(value, Some(ColumnDef(Str("date"), options)));
      r == Some(Str("-")) || r.None? || r == Some(Str(ToJsString(value)))
    ensures !IsEmptyCell(value) && !Truthy(value) ==> FormatCell(value, Some(ColumnDef(Str("date"), options))) == Some(Str(ToJsString(value)))
  {
  }
}
