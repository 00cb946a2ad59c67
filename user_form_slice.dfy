// The Redux slice holding the registration form
// (src/lib/features/user/userFormSlice.js). The reducers change the state in
// place, so the slice is a class whose methods update its fields; each
// method states the whole new state through `State()`.

module UserFormSlice {
  import opened Js
  import opened JsArray

  type ItemSlot = Slot<Record>

  /** A snapshot of the slice state. `formData` holds the scalar form fields; the lists are apart. */
  datatype FormState = FormState(
    formData: Record, addresses: seq<ItemSlot>, emails: seq<ItemSlot>, telephones: seq<ItemSlot>,
    previewImage: JsVal, mode: JsVal, isFetched: JsVal, isSubmitting: JsVal, formId: JsVal, errors: Record)

  const InitialFormData: Record :=
    map["name" := Str(""), "nickname" := Str(""), "picture" := Null, "birth_date" := Str(""),
        "cpf" := Str(""), "password" := Str("")]

  /** `initialState` */
  function InitialState(): (s: FormState)
    ensures s.addresses == [] && s.emails == [] && s.telephones == []
    ensures s.mode == Str("create") && s.isFetched == Bool(false) && s.isSubmitting == Bool(false)
    ensures s.formId == Null && s.previewImage == Null && s.errors == map[]
    ensures forall k :: k in InitialFormData ==> k in s.formData && s.formData[k] == (if k == "picture" then Null else Str(""))
  {
    FormState(InitialFormData, [], [], [], Null, Str("create"), Bool(false), Bool(false), Null, map[])
  }

  /** The payload of `setFormData`: the keys it carries; a list key that is absent is `None`. */
  datatype FormDataPatch = FormDataPatch(
    fields: Record, addresses: Option<seq<ItemSlot>>, emails: Option<seq<ItemSlot>>, telephones: Option<seq<ItemSlot>>)

  /** `{ ...old, ...patch }` on a plain object. */
  function Merge(base: Record, patch: Record): (r: Record)
    ensures r.Keys == base.Keys + patch.Keys
    ensures forall k :: k in patch ==> r[k] == patch[k]
    ensures forall k :: k in base && k !in patch ==> r[k] == base[k]
  {
    map k | k in base.Keys + patch.Keys :: if k in patch then patch[k] else base[k]
  }

  class UserFormSlice {
    var formData: Record
    var addresses: seq<ItemSlot>
    var emails: seq<ItemSlot>
    var telephones: seq<ItemSlot>
    var previewImage: JsVal
    var mode: JsVal
    var isFetched: JsVal
    var isSubmitting: JsVal
    var formId: JsVal
    var errors: Record

    function State(): FormState
      reads this
    {
      FormState(formData, addresses, emails, telephones, previewImage, mode, isFetched, isSubmitting, formId, errors)
    }

    constructor()
      ensures State() == InitialState()
    {
      formData, addresses, emails, telephones := InitialFormData, [], [], [];
      previewImage, mode, isFetched, isSubmitting, formId, errors := Null, Str("create"), Bool(false), Bool(false), Null, map[];
    }

    /** `setFormData`: shallow merge; keys the payload does not carry keep their values. */
    method SetFormData(patch: FormDataPatch)
      modifies this
      ensures State() == old(State()).(
        formData := Merge(old(formData), patch.fields),
        addresses := if patch.addresses.Some? then patch.addresses.value else old(addresses),
        emails := if patch.emails.Some? then patch.emails.value else old(emails),
        telephones := if patch.telephones.Some? then patch.telephones.value else old(telephones))
    {
      formData := Merge(formData, patch.fields);
      if patch.addresses.Some? {
        addresses := patch.addresses.value;
      }
      if patch.emails.Some? {
        emails := patch.emails.value;
      }
      if patch.telephones.Some? {
        telephones := patch.telephones.value;
      }
    }

    method SetPreviewImage(v: JsVal)
      modifies this
      ensures State() == old(State()).(previewImage := v)
    {
      previewImage := v;
    }

    method SetMode(v: JsVal)
      modifies this
      ensures State() == old(State()).(mode := v)
    {
      mode := v;
    }

    method SetIsFetched(v: JsVal)
      modifies this
      ensures State() == old(State()).(isFetched := v)
    {
      isFetched := v;
    }

    method SetIsSubmitting(v: JsVal)
      modifies this
      ensures State() == old(State()).(isSubmitting := v)
    {
      isSubmitting := v;
    }

    method SetFormId(v: JsVal)
      modifies this
      ensures State() == old(State()).(formId := v)
    {
      formId := v;
    }

    method SetErrors(v: Record)
      modifies this
      ensures State() == old(State()).(errors := v)
    {
      errors := v;
    }

    /** `resetForm`: the initial state, with the payload's `formId` (or null) and `mode` (or "create"). */
    method ResetForm(payloadFormId: JsVal, payloadMode: JsVal)
      modifies this
      ensures State() == InitialState().(formId := Or(payloadFormId, Null), mode := Or(payloadMode, Str("create")))
    {
      formData, addresses, emails, telephones := InitialFormData, [], [], [];
      previewImage, isFetched, isSubmitting, errors := Null, Bool(false), Bool(false), map[];
      formId := Or(payloadFormId, Null);
      mode := Or(payloadMode, Str("create"));
    }

    method AddAddress(data: Record)
      modifies this
      ensures State() == old(State()).(addresses := old(addresses) + [Item(data)])
    {
      addresses := addresses + [Item(data)];
    }

    method UpdateAddress(index: int, data: Record)
      modifies this
      ensures State() == old(State()).(addresses := SetAt(old(addresses), index, Item(data)))
    {
      addresses := SetAt(addresses, index, Item(data));
    }

    method RemoveAddress(index: int)
      modifies this
      ensures State() == old(State()).(addresses := SpliceOne(old(addresses), index))
    {
      addresses := SpliceOne(addresses, index);
    }

    method AddEmail(data: Record)
      modifies this
      ensures State() == old(State()).(emails := old(emails) + [Item(data)])
    {
      emails := emails + [Item(data)];
    }

    method UpdateEmail(index: int, data: Record)
      modifies this
      ensures State() == old(State()).(emails := SetAt(old(emails), index, Item(data)))
    {
      emails := SetAt(emails, index, Item(data));
    }

    method RemoveEmail(index: int)
      modifies this
      ensures State() == old(State()).(emails := SpliceOne(old(emails), index))
    {
      emails := SpliceOne(emails, index);
    }

    method AddTelephone(data: Record)
      modifies this
      ensures State() == old(State()).(telephones := old(telephones) + [Item(data)])
    {
      telephones := telephones + [Item(data)];
    }

    method UpdateTelephone(index: int, data: Record)
      modifies this
      ensures State() == old(State()).(telephones := SetAt(old(telephones), index, Item(data)))
    {
      telephones := SetAt(telephones, index, Item(data));
    }

    method RemoveTelephone(index: int)
      modifies this
      ensures State() == old(State()).(telephones := SpliceOne(old(telephones), index))
    {
      telephones := SpliceOne(telephones, index);
    }
  }

}
