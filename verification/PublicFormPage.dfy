/** The page that fills in a public form: its own validation, and the body that it sends. */
module PublicFormPage {
  import opened JsText
  import opened JsValues
  import opened FormTree
  import opened Submission
  import SafeRegex

  datatype Problem = Required | OutOfBounds | InvalidFormat

  /** The bounds of a field, each of them optional. */
  datatype Bounds = Bounds(minLength: Option<int>, maxLength: Option<int>, min: Option<real>, max: Option<real>)

  /**
   What the page knows beside the fields: default values and bounds by element id, and `Number(v) < b` and
   `Number(v) > b`, both false when `Number(v)` is NaN.
   */
  datatype Page = Page(js: Js, defaults: map<string, Value>, bounds: map<string, Bounds>,
                       below: (Value, real) -> bool, above: (Value, real) -> bool)

  datatype Outcome = Shows(errors: map<string, Problem>) | Sends(payload: Data)

  /** The entered value of a field, or else its default. */
  function ValueOf(p: Page, el: Element, formData: Data): Lookup {
    var raw := RawValue(el, formData);
    if raw.Found? then raw else Look(p.defaults, el.id)
  }

  predicate InBounds(p: Page, el: Element, v: Value) {
    el.id in p.bounds ==>
      var b, size := p.bounds[el.id], |p.js.text(v)|;
      && (b.minLength.Some? ==> size >= b.minLength.value)
      && (b.maxLength.Some? ==> size <= b.maxLength.value)
      && (el.kind.Number? && b.min.Some? ==> !p.below(v, b.min.value))
      && (el.kind.Number? && b.max.Some? ==> !p.above(v, b.max.value))
  }

  /** The test of the page: a pattern that does not compile is passed over. */
  predicate LooksRight(js: Js, el: Element, v: Value) {
    js.regex.compiles(el.pattern) ==> js.regex.test(el.pattern, js.text(v))
  }

  function ProblemOf(p: Page, el: Element, formData: Data): (r: seq<Problem>)
    ensures |r| <= 1
  {
    var v := ValueOf(p, el, formData);
    if el.required && Missing(v) then [Required]
    else if !Unset(v) && !InBounds(p, el, v.value) then [OutOfBounds]
    else if el.pattern != "" && !Unset(v) && !LooksRight(p.js, el, v.value) then [InvalidFormat]
    else []
  }

  /** What a value may not be: too short or too long as a text, and for a number field too small or too large. */
  predicate BeyondBounds(p: Page, el: Element, v: Value) {
    el.id in p.bounds &&
    (var b, size := p.bounds[el.id], |p.js.text(v)|;
     || (b.minLength.Some? && size < b.minLength.value) || (b.maxLength.Some? && size > b.maxLength.value)
     || (el.kind == Number && b.min.Some? && p.below(v, b.min.value))
     || (el.kind == Number && b.max.Some? && p.above(v, b.max.value)))
  }

  /** The page has no objection exactly to a value that is there if it must be, and, if set, in bounds and in form. */
  lemma ProblemIff(p: Page, el: Element, formData: Data)
    ensures var v := ValueOf(p, el, formData);
      var missing := v == Undefined || v == Found(Null) || v == Found(Str("")) || v == Found(Items([]));
      var wrong := el.pattern != "" && !Unset(v) && !LooksRight(p.js, el, v.value);
      && (ProblemOf(p, el, formData) == [Required] <==> el.required && missing)
      && (ProblemOf(p, el, formData) == [OutOfBounds] <==>
            !(el.required && missing) && !Unset(v) && BeyondBounds(p, el, v.value))
      && (ProblemOf(p, el, formData) == [InvalidFormat] <==>
            !(el.required && missing) && wrong && !BeyondBounds(p, el, v.value))
      && (ProblemOf(p, el, formData) == [] <==>
            !(el.required && missing) && !wrong && (Unset(v) || !BeyondBounds(p, el, v.value)))
  {
    hide LooksRight;
  }

  function DataFields(elements: seq<Element>): seq<Element> {
    if elements == [] then []
    else (if IsDataField(elements[0].kind) then [elements[0]] else []) + DataFields(elements[1..])
  }

  function Payload(p: Page, fields: seq<Element>, formData: Data): Data {
    if fields == [] then map[]
    else
      var before, el := Payload(p, fields[..|fields| - 1], formData), fields[|fields| - 1];
      var v := ValueOf(p, el, formData);
      if v.Found? && !v.value.Null? then before[FieldKey(el) := v.value] else before
  }

  ghost predicate AllFine(p: Page, fields: seq<Element>, formData: Data) {
    forall i :: 0 <= i < |fields| ==> ProblemOf(p, fields[i], formData) == []
  }

  /** Each message is the problem of a field with that key. */
  ghost predicate ErrorsReal(p: Page, fields: seq<Element>, formData: Data, errors: map<string, Problem>) {
    forall k :: k in errors ==>
      (exists i :: 0 <= i < |fields| && FieldKey(fields[i]) == k && ProblemOf(p, fields[i], formData) == [errors[k]])
  }

  ghost predicate SoFar(p: Page, fields: seq<Element>, i: nat, formData: Data, errors: map<string, Problem>)
    requires i <= |fields|
  {
    && (errors == map[] <==> AllFine(p, fields[..i], formData))
    && ErrorsReal(p, fields[..i], formData, errors)
  }

  lemma NoneChecked(p: Page, fields: seq<Element>, formData: Data)
    ensures SoFar(p, fields, 0, formData, map[])
  {
  }

  lemma OneMore(p: Page, fields: seq<Element>, i: nat, formData: Data, errors: map<string, Problem>,
      more: map<string, Problem>)
    requires i < |fields| && SoFar(p, fields, i, formData, errors)
    requires var r := ProblemOf(p, fields[i], formData);
      more == if r == [] then errors else errors[FieldKey(fields[i]) := r[0]]
    ensures SoFar(p, fields, i + 1, formData, more)
  {
    hide ProblemOf;
    var before, next := fields[..i], fields[..i + 1];
    assert next[i] == fields[i] && forall j :: 0 <= j < i ==> before[j] == next[j];
    if AllFine(p, next, formData) {
      assert forall j :: 0 <= j < i ==> ProblemOf(p, next[j], formData) == [];
      assert AllFine(p, before, formData) && ProblemOf(p, next[i], formData) == [];
    }
    if ProblemOf(p, fields[i], formData) != [] {
      assert FieldKey(fields[i]) in more;
    }
    forall k | k in more
      ensures exists j :: 0 <= j < |next| && FieldKey(next[j]) == k && ProblemOf(p, next[j], formData) == [more[k]]
    {
      if k in errors && more[k] == errors[k] {
        var j :| 0 <= j < i && FieldKey(before[j]) == k && ProblemOf(p, before[j], formData) == [errors[k]];
        assert FieldKey(next[j]) == k;
      } else {
        assert FieldKey(next[i]) == k;
      }
    }
  }

  /** Either every field is in order and the payload goes out, or the page shows its problems. */
  method HandleSubmit(p: Page, elements: seq<Element>, formData: Data) returns (outcome: Outcome)
    ensures outcome.Sends? <==> AllFine(p, DataFields(elements), formData)
    ensures outcome.Sends? ==> outcome.payload == Payload(p, DataFields(elements), formData)
    ensures outcome.Shows? ==> outcome.errors != map[] && ErrorsReal(p, DataFields(elements), formData, outcome.errors)
  {
    hide AllFine, ErrorsReal;
    var allFields := DataFields(elements);
    NoneChecked(p, allFields, formData);
    var errors: map<string, Problem> := map[];
    for i := 0 to |allFields|
      invariant SoFar(p, allFields, i, formData, errors)
    {
      var el := allFields[i];
      var val := ValueOf(p, el, formData);
      ghost var before := errors;
      if el.required && Missing(val) {
        errors := errors[FieldKey(el) := Required];
      } else if !Unset(val) && !InBounds(p, el, val.value) {
        errors := errors[FieldKey(el) := OutOfBounds];
      } else if el.pattern != "" && !Unset(val) && !LooksRight(p.js, el, val.value) {
        errors := errors[FieldKey(el) := InvalidFormat];
      }
      OneMore(p, allFields, i, formData, before, errors);
    }
    assert allFields[..|allFields|] == allFields;
    if errors != map[] {
      return Shows(errors);
    }
    var payload: Data := map[];
    for i := 0 to |allFields|
      invariant payload == Payload(p, allFields[..i], formData)
    {
      assert allFields[..i + 1][..i] == allFields[..i];
      var val := ValueOf(p, allFields[i], formData);
      if val.Found? && !val.value.Null? {
        payload := payload[FieldKey(allFields[i]) := val.value];
      }
    }
    assert allFields[..|allFields|] == allFields;
    outcome := Sends(payload);
  }

  // ----- What the service makes of the payload -----

  /** All elements are data fields. */
  predicate OnlyFields(fields: seq<Element>) {
    forall i :: 0 <= i < |fields| ==> IsDataField(fields[i].kind)
  }

  /** Sent is what was entered under the key of the field, or else its id, or else its default; null is left out. */
  predicate SentAs(p: Page, el: Element, formData: Data, payload: Data) {
    var v := if FieldKey(el) in formData then Found(formData[FieldKey(el)])
             else if el.id in formData then Found(formData[el.id])
             else if el.id in p.defaults then Found(p.defaults[el.id])
             else Undefined;
    if v.Found? && !v.value.Null? then Look(payload, FieldKey(el)) == v else FieldKey(el) !in payload
  }

  lemma {:induction false} PayloadKeys(p: Page, fields: seq<Element>, formData: Data, key: string)
    requires key in Payload(p, fields, formData)
    ensures exists i :: 0 <= i < |fields| && FieldKey(fields[i]) == key
  {
    var n := |fields| - 1;
    if FieldKey(fields[n]) != key {
      PayloadKeys(p, fields[..n], formData, key);
      var i :| 0 <= i < n && FieldKey(fields[..n][i]) == key;
      assert fields[i] == fields[..n][i];
    }
  }

  lemma FreshKeyNotSent(p: Page, fields: seq<Element>, formData: Data, el: Element)
    requires OnlyFields(fields) && IsDataField(el.kind)
    requires forall j :: 0 <= j < |fields| ==> !SameKey(fields[j], el)
    ensures FieldKey(el) !in Payload(p, fields, formData)
  {
    if FieldKey(el) in Payload(p, fields, formData) {
      PayloadKeys(p, fields, formData, FieldKey(el));
    }
  }

  /** With distinct keys the payload holds each field's value, except undefined and null ones. */
  lemma {:induction false} PayloadIsExact(p: Page, fields: seq<Element>, formData: Data)
    requires OnlyFields(fields) && KeysDistinct(fields)
    ensures forall i :: 0 <= i < |fields| ==> SentAs(p, fields[i], formData, Payload(p, fields, formData))
  {
    if fields != [] {
      var n := |fields| - 1;
      var front, last := fields[..n], fields[n];
      assert OnlyFields(front) && KeysDistinct(front) by {
        assert forall i, j :: 0 <= i < j < n ==> SameKey(front[i], front[j]) == SameKey(fields[i], fields[j]);
        assert forall i :: 0 <= i < n ==> front[i] == fields[i];
      }
      PayloadIsExact(p, front, formData);
      assert forall j :: 0 <= j < n ==> SameKey(front[j], last) == SameKey(fields[j], fields[n]);
      FreshKeyNotSent(p, front, formData, last);
      forall i | 0 <= i < |fields|
        ensures SentAs(p, fields[i], formData, Payload(p, fields, formData))
      {
        if i < n {
          assert SentAs(p, front[i], formData, Payload(p, front, formData)) && !SameKey(fields[i], last);
        }
      }
    }
  }

  /** A field left out of the body is not looked up under the key of another field. */
  predicate NoStray(el: Element, payload: Data) {
    FieldKey(el) !in payload ==> el.id !in payload
  }

  ghost predicate NoneStray(fields: seq<Element>, payload: Data) {
    forall i :: 0 <= i < |fields| ==> NoStray(fields[i], payload)
  }

  /**
   The service stores the body as it was sent exactly when no field left out has the key of a field sent as its id.
   */
  lemma StoredAsSentIff(p: Page, fields: seq<Element>, formData: Data)
    requires OnlyFields(fields) && KeysDistinct(fields)
    ensures var payload := Payload(p, fields, formData);
      Canonical(fields, payload) == payload <==> NoneStray(fields, payload)
  {
    var payload := Payload(p, fields, formData);
    var kept := Canonical(fields, payload);
    DistinctKeysKept(fields, payload);
    if kept == payload {
      forall i | 0 <= i < |fields|
        ensures NoStray(fields[i], payload)
      {
        assert Kept(fields, fields[i], payload);
      }
    }
    if NoneStray(fields, payload) {
      forall key | key in payload
        ensures key in kept && kept[key] == payload[key]
      {
        PayloadKeys(p, fields, formData, key);
        var i :| 0 <= i < |fields| && FieldKey(fields[i]) == key;
        assert Kept(fields, fields[i], payload);
      }
      forall key | key in kept
        ensures key in payload
      {
        CanonicalKeys(fields, payload, key);
        var i :| 0 <= i < |fields| && IsDataField(fields[i].kind) && FieldKey(fields[i]) == key;
        assert Kept(fields, fields[i], payload) && NoStray(fields[i], payload);
      }
    }
  }

  /** What the page leaves to its inputs: a chosen value is one of the options. */
  predicate Chosen(js: Js, el: Element, payload: Data) {
    OptionsApply(el, RawValue(el, payload)) ==> js.text(RawValue(el, payload).value) in el.options
  }

  /** A value that shows and has a pattern is one that the service is ready to test. */
  predicate Answerable(js: Js, el: Element, payload: Data) {
    var v := RawValue(el, payload);
    Visible(js, el.conditions, payload) && el.pattern != "" && !Unset(v) ==>
      SafeRegex.Testable(js.regex, el.pattern, js.text(v.value), 5000)
  }

  // ----- Where page and service disagree -----

  /**
   The service lets a field pass that the page objects to: its conditions hide it in the body sent, or it
   is out of the bounds that only the page knows, and its pattern is met.
   */
  predicate Excused(p: Page, el: Element, formData: Data, payload: Data) {
    || !Visible(p.js, el.conditions, payload)
    || (ProblemOf(p, el, formData) == [OutOfBounds]
        && (el.pattern == "" || LooksRight(p.js, el, ValueOf(p, el, formData).value)))
  }

  lemma FieldOkIff(p: Page, el: Element, formData: Data, payload: Data)
    requires IsDataField(el.kind) && SentAs(p, el, formData, payload) && NoStray(el, payload)
        && Chosen(p.js, el, payload)
    ensures FieldOk(p.js, el, payload) <==>
      Answerable(p.js, el, payload) && (ProblemOf(p, el, formData) == [] || Excused(p, el, formData, payload))
  {
    hide Visible, InBounds, SafeRegex.Dangerous;
  }

  ghost predicate AllChosen(js: Js, fields: seq<Element>, payload: Data) {
    forall i :: 0 <= i < |fields| ==> Chosen(js, fields[i], payload)
  }

  ghost predicate AllAnswerable(js: Js, fields: seq<Element>, payload: Data) {
    forall i :: 0 <= i < |fields| ==> Answerable(js, fields[i], payload)
  }

  ghost predicate AllExcused(p: Page, fields: seq<Element>, formData: Data, payload: Data) {
    forall i :: 0 <= i < |fields| && ProblemOf(p, fields[i], formData) != [] ==>
        Excused(p, fields[i], formData, payload)
  }

  lemma {:induction false} OnlyFieldsDecide(js: Js, elements: seq<Element>, data: Data)
    ensures OnlyFields(DataFields(elements))
    ensures FieldsVerdict(js, DataFields(elements), data) == FieldsVerdict(js, elements, data)
  {
    hide Visible, Matches, OptionsApply, Missing;
    if elements != [] {
      var rest := DataFields(elements[1..]);
      OnlyFieldsDecide(js, elements[1..], data);
      if IsDataField(elements[0].kind) {
        assert DataFields(elements)[1..] == rest;
      } else {
        assert DataFields(elements) == rest;
      }
    }
  }

  lemma AcceptedFieldsIff(p: Page, fields: seq<Element>, formData: Data)
    requires OnlyFields(fields) && KeysDistinct(fields)
    requires NoneStray(fields, Payload(p, fields, formData)) && AllChosen(p.js, fields, Payload(p, fields, formData))
    ensures var payload := Payload(p, fields, formData);
      (forall i :: 0 <= i < |fields| ==> FieldOk(p.js, fields[i], payload)) <==>
      AllAnswerable(p.js, fields, payload) && AllExcused(p, fields, formData, payload)
  {
    hide FieldOk, ProblemOf, Chosen, Excused, NoStray, SentAs, Answerable;
    var payload := Payload(p, fields, formData);
    PayloadIsExact(p, fields, formData);
    forall i | 0 <= i < |fields|
      ensures FieldOk(p.js, fields[i], payload) <==>
        Answerable(p.js, fields[i], payload) &&
        (ProblemOf(p, fields[i], formData) == [] || Excused(p, fields[i], formData, payload))
    {
      FieldOkIff(p, fields[i], formData, payload);
    }
  }

  /**
   For a whole form, the verdict on the body that the page builds: it is accepted exactly when it is within
   the limits, the service is ready to test its values, and each field that the page objects to is hidden,
   or out of bounds alone. The page sends it exactly when it objects to no field.
   */
  lemma ServiceAcceptsIff(p: Page, elements: seq<Element>, formData: Data, keys: seq<string>)
    requires KeysDistinct(DataFields(elements))
    requires NoneStray(DataFields(elements), Payload(p, DataFields(elements), formData))
    requires AllChosen(p.js, DataFields(elements), Payload(p, DataFields(elements), formData))
    requires forall k :: k in keys <==> k in Payload(p, DataFields(elements), formData)
    ensures var fields := DataFields(elements);
      var payload := Payload(p, fields, formData);
      BodyVerdict(p.js, elements, keys, payload) == Accepted <==>
      WithinLimits(keys, payload) && AllAnswerable(p.js, fields, payload) && AllExcused(p, fields, formData, payload)
  {
    hide FieldOk, AllAnswerable, AllExcused, WithinLimits, NoneStray, AllChosen, Payload, DataFields, KeysDistinct;
    var fields := DataFields(elements);
    var payload := Payload(p, fields, formData);
    OnlyFieldsDecide(p.js, elements, payload);
    BodyAcceptedIff(p.js, fields, keys, payload);
    AcceptedFieldsIff(p, fields, formData);
  }

  /** A body that the page sends is accepted exactly when it is within the limits and the service can test it. */
  lemma SentIsAcceptedIff(p: Page, elements: seq<Element>, formData: Data, keys: seq<string>)
    requires KeysDistinct(DataFields(elements)) && AllFine(p, DataFields(elements), formData)
    requires NoneStray(DataFields(elements), Payload(p, DataFields(elements), formData))
    requires AllChosen(p.js, DataFields(elements), Payload(p, DataFields(elements), formData))
    requires forall k :: k in keys <==> k in Payload(p, DataFields(elements), formData)
    ensures var payload := Payload(p, DataFields(elements), formData);
      BodyVerdict(p.js, elements, keys, payload) == Accepted <==>
      WithinLimits(keys, payload) && AllAnswerable(p.js, DataFields(elements), payload)
  {
    hide ProblemOf, Excused, AllAnswerable, WithinLimits, NoneStray, AllChosen, Payload, DataFields, KeysDistinct;
    ServiceAcceptsIff(p, elements, formData, keys);
  }

  /** A text field under key "a" with the given pattern. */
  function Patterned(pattern: string): Element {
    Element("a", Text, "", "", "a", false, [], pattern, Conditions(true, false, []))
  }

  /**
   A pattern that the service does not let through, while the page passes it over or finds it met: the page
   sends the body, and the service refuses it for its format.
   */
  lemma SentAndRefused(p: Page, pattern: string, text: string)
    requires p.defaults == map[] && p.bounds == map[] && pattern != "" && text != ""
    requires LooksRight(p.js, Patterned(pattern), Str(text)) && !SafeRegex.ValidPattern(p.js.regex, pattern)
    ensures var el := Patterned(pattern);
      && DataFields([el]) == [el] && AllFine(p, [el], map["a" := Str(text)])
      && Payload(p, [el], map["a" := Str(text)]) == map["a" := Str(text)]
      && FieldsVerdict(p.js, [el], map["a" := Str(text)]) == Rejected(BadFormat(el))
  {
    var el := Patterned(pattern);
    assert [el][1..] == [] && [el][..0] == [];
    assert ProblemOf(p, [el][0], map["a" := Str(text)]) == [];
  }

  /** So it goes with a malformed pattern, and with a group repeated inside and outside. */
  lemma PatternsSentAndRefused(p: Page)
    requires p.defaults == map[] && p.bounds == map[] && !p.js.regex.compiles("[")
    requires LooksRight(p.js, Patterned("^([a-z]+)*$"), Str("abc"))
    ensures AllFine(p, [Patterned("[")], map["a" := Str("x")])
    ensures FieldsVerdict(p.js, [Patterned("[")], map["a" := Str("x")]) == Rejected(BadFormat(Patterned("[")))
    ensures AllFine(p, [Patterned("^([a-z]+)*$")], map["a" := Str("abc")])
    ensures FieldsVerdict(p.js, [Patterned("^([a-z]+)*$")], map["a" := Str("abc")]) ==
      Rejected(BadFormat(Patterned("^([a-z]+)*$")))
  {
    hide ProblemOf, FieldVerdict;
    SafeRegex.StarOfPlusIsDangerous();
    SentAndRefused(p, "[", "x");
    SentAndRefused(p, "^([a-z]+)*$", "abc");
  }

  /** A required field that is to show only when field "a" is filled in. */
  function Dependent(): Element {
    Element("b", Text, "", "", "b", true, [], "", Conditions(true, false, [ConditionRule("a", IsNotEmpty, "")]))
  }

  /** On an empty form the page demands the hidden field, while the service accepts the empty body. */
  lemma HiddenRequiredBlocks(p: Page)
    requires p.defaults == map[]
    ensures DataFields([Dependent()]) == [Dependent()] && ProblemOf(p, Dependent(), map[]) == [Required]
    ensures !AllFine(p, [Dependent()], map[]) && Payload(p, [Dependent()], map[]) == map[]
    ensures FieldsVerdict(p.js, [Dependent()], map[]) == Accepted
  {
    var el := Dependent();
    assert [el][1..] == [] && [el][..0] == [];
    assert ProblemOf(p, [el][0], map[]) == [Required];
    assert !RuleHolds(p.js, el.conditions.rules[0], map[]);
    assert FieldVerdict(p.js, el, map[]) == Accepted;
  }
}
