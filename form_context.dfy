// The map of per-form state shared through the React context
// (src/contexts/FormContext.js): the reducer, which builds new objects with
// spreads, and the defaults `useFormState` reads.

module FormContext {
  import opened Js

  /** One form's entry: a plain object, keyed by "mode", "isFetched" and "auth0ManagementToken". */
  type FormEntry = Record

  datatype FormsState = FormsState(forms: map<string, FormEntry>)

  datatype FormAction =
    | SetFormMode(formId: string, mode: JsVal)
    | SetFormIsFetched(formId: string, isFetched: JsVal)
    | SetFormAuth0Token(formId: string, token: JsVal)
    | ResetForm(formId: string, initialToken: JsVal, mode: JsVal)
    | RemoveForm(formId: string)
    | Unknown

  const ModeKey: string := "mode"
  const IsFetchedKey: string := "isFetched"
  const TokenKey: string := "auth0ManagementToken"

  /** `initialState` */
  const InitialState: FormsState := FormsState(map[])

  /** `state.forms[formId]`, spread: a missing entry spreads as `{}`. */
  function EntryOf(s: FormsState, formId: string): (e: FormEntry)
    ensures formId in s.forms ==> e == s.forms[formId]
    ensures formId !in s.forms ==> e == map[]
  {
    if formId in s.forms then s.forms[formId] else map[]
  }

  /** `{ ...state.forms[formId], [key]: v }` written back under `formId`. */
  function SetField(s: FormsState, formId: string, key: string, v: JsVal): (r: FormsState)
    ensures r.forms.Keys == s.forms.Keys + {formId}
    ensures forall f :: f in s.forms && f != formId ==> r.forms[f] == s.forms[f]
    ensures r.forms[formId].Keys == EntryOf(s, formId).Keys + {key}
    ensures r.forms[formId][key] == v
    ensures forall k :: k in EntryOf(s, formId) && k != key ==> r.forms[formId][k] == EntryOf(s, formId)[k]
  {
    FormsState(s.forms[formId := EntryOf(s, formId)[key := v]])
  }

  /** The entry `RESET_FORM` writes. */
  function ResetEntry(mode: JsVal, initialToken: JsVal): (e: FormEntry)
    ensures e.Keys == {ModeKey, IsFetchedKey, TokenKey}
    ensures e[ModeKey] == (if Truthy(mode) then mode else Str("create"))
    ensures e[IsFetchedKey] == Bool(false)
    ensures e[TokenKey] == (if Truthy(initialToken) then initialToken else Null)
  {
    map[ModeKey := Or(mode, Str("create")), IsFetchedKey := Bool(false), TokenKey := Or(initialToken, Null)]
  }

  /** `formReducer` */
  function FormReducer(s: FormsState, action: FormAction): (r: FormsState)
    ensures action.Unknown? ==> r == s
    ensures action.RemoveForm? ==> r.forms == s.forms - {action.formId}
    ensures action.ResetForm? ==> r.forms == s.forms[action.formId := ResetEntry(action.mode, action.initialToken)]
    ensures action.SetFormMode? ==> r == SetField(s, action.formId, ModeKey, action.mode)
    ensures action.SetFormIsFetched? ==> r == SetField(s, action.formId, IsFetchedKey, action.isFetched)
    ensures action.SetFormAuth0Token? ==> r == SetField(s, action.formId, TokenKey, action.token)
  {
    match action
    case SetFormMode(id, mode) => SetField(s, id, ModeKey, mode)
    case SetFormIsFetched(id, f) => SetField(s, id, IsFetchedKey, f)
    case SetFormAuth0Token(id, t) => SetField(s, id, TokenKey, t)
    case ResetForm(id, token, mode) => FormsState(s.forms[id := ResetEntry(mode, token)])
    case RemoveForm(id) => FormsState(s.forms - {id})
    case Unknown => s
  }

  /** Every action other than the unknown one touches only the form it names. */
  function ActionForm(action: FormAction): (id: Option<string>)
    ensures id.None? <==> action.Unknown?
  {
    if action.Unknown? then None else Some(action.formId)
  }

  lemma ReducerTouchesOnlyItsForm(s: FormsState, action: FormAction, other: string)
    requires ActionForm(action) != Some(other)
    ensures other in FormReducer(s, action).forms <==> other in s.forms
    ensures other in s.forms ==> FormReducer(s, action).forms[other] == s.forms[other]
  {
  }

  /** `REMOVE_FORM` after any action on a form that had no entry restores the state before it. */
  lemma RemoveUndoesEntry(s: FormsState, action: FormAction)
    requires !action.Unknown? && action.formId !in s.forms
    ensures FormReducer(FormReducer(s, action), RemoveForm(action.formId)) == s
  {
    assert FormReducer(FormReducer(s, action), RemoveForm(action.formId)).forms == s.forms;
  }

  /** What `useFormState` returns, apart from the bound dispatchers. */
  datatype FormView = FormView(mode: JsVal, isFetched: JsVal, auth0ManagementToken: JsVal)

  const OutsideProvider: string := "useFormState deve ser usado dentro de um FormProvider"

  /** `forms[formId]?.key`: undefined when the form has no entry or the entry lacks the key. */
  function Lookup(forms: map<string, FormEntry>, formId: string, key: string): (v: JsVal)
    ensures formId !in forms ==> v == Undefined
    ensures formId in forms ==> v == Get(forms[formId], key)
  {
    if formId in forms then Get(forms[formId], key) else Undefined
  }

  /** `useFormState`; `context` is None outside a `FormProvider`. */
  function UseFormState(context: Option<FormsState>, formId: string, initialToken: JsVal): (r: Result<FormView>)
    ensures r.Err? <==> context.None?
    ensures r.Err? ==> r.message == OutsideProvider
    ensures r.Ok? ==>
      var m := Lookup(context.value.forms, formId, ModeKey);
      var f := Lookup(context.value.forms, formId, IsFetchedKey);
      var t := Lookup(context.value.forms, formId, TokenKey);
      r.value.mode == (if Truthy(m) then m else Str("create"))
      && r.value.isFetched == (if Truthy(f) then f else Bool(false))
      && r.value.auth0ManagementToken == (if Truthy(t) then t else if Truthy(initialToken) then initialToken else Null)
  {
    if context.None? then Err(OutsideProvider)
    else
      var forms := context.value.forms;
      Ok(FormView(
        Or(Lookup(forms, formId, ModeKey), Str("create")),
        Or(Lookup(forms, formId, IsFetchedKey), Bool(false)),
        Or(Or(Lookup(forms, formId, TokenKey), initialToken), Null)))
  }

  /** A form without an entry reads as a fresh create form with the caller's token. */
  lemma UnknownFormDefaults(s: FormsState, formId: string, initialToken: JsVal)
    requires formId !in s.forms
    ensures UseFormState(Some(s), formId, initialToken)
      == Ok(FormView(Str("create"), Bool(false), if Truthy(initialToken) then initialToken else Null))
  {
  }

  /** After `RESET_FORM` the view shows its mode (or "create"), not fetched, and its token (or the caller's). */
  lemma ResetThenView(s: FormsState, formId: string, initialToken: JsVal, mode: JsVal)
    ensures var v := UseFormState(Some(FormReducer(s, ResetForm(formId, initialToken, mode))), formId, initialToken);
      v == Ok(FormView(Or(mode, Str("create")), Bool(false), Or(initialToken, Null)))
  {
  }
}
