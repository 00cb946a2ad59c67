// The generic form wrapper (src/components/form/Form.js): on submit it walks
// its children, collecting name → value and the required-field errors, and
// either calls `onSubmit` or shows the errors.

module FormComponent {
  import opened Js

  /** A child of the form: whether it is a React element, and its `name`, `value`, `required` and `label` props. */
  datatype Child = Child(isElement: bool, name: string, value: JsVal, isRequired: bool, labelText: JsVal)

  /** The children the form reads: elements with a truthy `name`. */
  predicate Named(c: Child)
  {
    c.isElement && c.name != ""
  }

  predicate MissingRequired(c: Child)
  {
    Named(c) && c.isRequired && !Truthy(c.value)
  }

  function RequiredMessage(c: Child): string
  {
    ToJsString(c.labelText) + " é obrigatório."
  }

  /** `cs[i]` is named and no later child has its name. */
  predicate LastNamed(cs: seq<Child>, i: int)
    requires 0 <= i < |cs|
  {
    Named(cs[i]) && forall j :: i < j < |cs| ==> !(Named(cs[j]) && cs[j].name == cs[i].name)
  }

  /** The `formData` after visiting `cs` in order. */
  function CollectData(cs: seq<Child>): (d: Record)
    ensures forall k :: k in d <==> exists i :: 0 <= i < |cs| && Named(cs[i]) && cs[i].name == k
    decreases |cs|
  {
    if |cs| == 0 then map[]
    else
      var init := cs[..|cs| - 1];
      var c := cs[|cs| - 1];
      var d := CollectData(init);
      assert forall i :: 0 <= i < |init| ==> init[i] == cs[i];
      if Named(c) then d[c.name := Or(c.value, Str(""))] else d
  }

  /** The value under a name is that of the last child with the name. */
  lemma {:induction false} CollectDataLast(cs: seq<Child>, i: int)
    requires 0 <= i < |cs| && LastNamed(cs, i)
    ensures cs[i].name in CollectData(cs) && CollectData(cs)[cs[i].name] == Or(cs[i].value, Str(""))
    decreases |cs|
  {
    var init := cs[..|cs| - 1];
    var c := cs[|cs| - 1];
    if i < |cs| - 1 {
      assert init[i] == cs[i];
      assert LastNamed(init, i);
      CollectDataLast(init, i);
      assert !(Named(c) && c.name == cs[i].name);
    }
  }

  /**
   * The `newErrors` after visiting `cs` in order: a later missing child with
   * the same name overwrites the message, a later filled one leaves it.
   */
  function CollectErrors(cs: seq<Child>): (e: map<string, string>)
    ensures forall k :: k in e <==> exists i :: 0 <= i < |cs| && MissingRequired(cs[i]) && cs[i].name == k
    ensures forall k :: k in e ==> exists i :: 0 <= i < |cs| && MissingRequired(cs[i]) && cs[i].name == k && e[k] == RequiredMessage(cs[i])
    decreases |cs|
  {
    if |cs| == 0 then map[]
    else
      var init := cs[..|cs| - 1];
      var c := cs[|cs| - 1];
      var e := CollectErrors(init);
      assert forall i :: 0 <= i < |init| ==> init[i] == cs[i];
      if MissingRequired(c) then e[c.name := RequiredMessage(c)] else e
  }

  /** `cs[i]` is a missing required child and no later child with its name is missing. */
  predicate LastMissing(cs: seq<Child>, i: int)
    requires 0 <= i < |cs|
  {
    MissingRequired(cs[i]) && forall j :: i < j < |cs| ==> !(MissingRequired(cs[j]) && cs[j].name == cs[i].name)
  }

  /** The message under a name is that of the last missing required child with the name. */
  lemma {:induction false} CollectErrorsLast(cs: seq<Child>, i: int)
    requires 0 <= i < |cs| && LastMissing(cs, i)
    ensures cs[i].name in CollectErrors(cs) && CollectErrors(cs)[cs[i].name] == RequiredMessage(cs[i])
    decreases |cs|
  {
    var init := cs[..|cs| - 1];
    var c := cs[|cs| - 1];
    if i < |cs| - 1 {
      assert init[i] == cs[i];
      assert LastMissing(init, i);
      CollectErrorsLast(init, i);
      assert !(MissingRequired(c) && c.name == cs[i].name);
    }
  }

  /** Children without a name change neither the data nor the errors. */
  lemma UnnamedIgnored(cs: seq<Child>, c: Child)
    requires !Named(c)
    ensures CollectData(cs + [c]) == CollectData(cs)
    ensures CollectErrors(cs + [c]) == CollectErrors(cs)
  {
    assert (cs + [c])[..|cs|] == cs;
  }

  class Form {
    var errors: map<string, string>

    constructor()
      ensures errors == map[]
    {
      errors := map[];
    }

    /** `handleSubmit`: returns the data passed to `onSubmit`, or None when there are errors. */
    method HandleSubmit(children: seq<Child>) returns (submitted: Option<Record>)
      modifies this
      ensures |CollectErrors(children)| == 0 ==> submitted == Some(CollectData(children)) && errors == map[]
      ensures |CollectErrors(children)| > 0 ==> submitted.None? && errors == CollectErrors(children)
    {
      var formData: Record := map[];
      var newErrors: map<string, string> := map[];
      var i := 0;
      while i < |children|
        invariant 0 <= i <= |children|
        invariant formData == CollectData(children[..i])
        invariant newErrors == CollectErrors(children[..i])
      {
        var c := children[i];
        assert children[..i + 1][..i] == children[..i];
        if c.isElement && c.name != "" {
          formData := formData[c.name := Or(c.value, Str(""))];
          if c.isRequired && !Truthy(formData[c.name]) {
            newErrors := newErrors[c.name := ToJsString(c.labelText) + " é obrigatório."];
          }
        }
        i := i + 1;
      }
      assert children[..i] == children;
      if |newErrors| == 0 {
        submitted := Some(formData);
        errors := map[];
      } else {
        submitted := None;
        errors := newErrors;
      }
    }
  }
}
