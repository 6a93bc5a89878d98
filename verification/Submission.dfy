/** Submission of a form: conditions, limits on the body, validation, and the canonical form that is stored. */
module Submission {
  import opened JsText
  import opened JsValues
  import opened FormTree
  import SafeRegex

  /**
   The operations of the host language on values: `String(v)`, `toLowerCase`, `Number(a) > Number(b)`,
   and its regular expressions.
   */
  datatype Js = Js(text: Value -> string, lower: string -> string, greater: (string, string) -> bool,
                   regex: SafeRegex.Engine)

  // ----- Conditions -----

  predicate Includes(s: string, part: string) {
    exists i :: 0 <= i <= |s| - |part| && part <= Tail(s, i)
  }

  function Tail(s: string, i: nat): string
    requires i <= |s|
  {
    s[i..]
  }

  function TextOf(js: Js, v: Lookup): string {
    if v.Undefined? || v.value.Null? then "" else js.text(v.value)
  }

  predicate EmptyList(v: Lookup) {
    v.Found? && v.value.Items? && v.value.items == []
  }

  predicate RuleHolds(js: Js, rule: ConditionRule, data: Data) {
    var raw := Look(data, rule.field);
    var val := TextOf(js, raw);
    match rule.operator
    case Equals => js.lower(Trim(val)) == js.lower(Trim(rule.value))
    case NotEquals => js.lower(Trim(val)) != js.lower(Trim(rule.value))
    case Contains => Includes(js.lower(val), js.lower(rule.value))
    case NotContains => !Includes(js.lower(val), js.lower(rule.value))
    case GreaterThan => js.greater(val, rule.value)
    case LessThan => js.greater(rule.value, val)
    case IsEmpty => Trim(val) == "" || EmptyList(raw)
    case IsNotEmpty => Trim(val) != "" && !EmptyList(raw)
  }

  predicate Visible(js: Js, c: Conditions, data: Data) {
    c.rules == [] ||
    (var isMatch :=
       if c.matchAny then exists i :: 0 <= i < |c.rules| && RuleHolds(js, c.rules[i], data)
       else forall i :: 0 <= i < |c.rules| ==> RuleHolds(js, c.rules[i], data);
     if c.show then isMatch else !isMatch)
  }

  /**
   What the operators mean. Equality is up to case and white space around the texts, containment up to case; an
   undefined or null value counts as the empty text, and a text of white space or an empty list as no value.
   */
  lemma RuleMeans(js: Js, rule: ConditionRule, data: Data)
    ensures var raw := Look(data, rule.field);
      var text := if raw.Found? && raw.value != Null then js.text(raw.value) else "";
      var holds := RuleHolds(js, rule, data);
      match rule.operator
      case Equals => holds <==> js.lower(Trim(text)) == js.lower(Trim(rule.value))
      case NotEquals => holds <==> js.lower(Trim(text)) != js.lower(Trim(rule.value))
      case Contains => holds <==> exists a, b :: js.lower(text) == a + js.lower(rule.value) + b
      case NotContains => holds <==> !exists a, b :: js.lower(text) == a + js.lower(rule.value) + b
      case GreaterThan => holds <==> js.greater(text, rule.value)
      case LessThan => holds <==> js.greater(rule.value, text)
      case IsEmpty => holds <==> AllSpace(text) || raw == Found(Items([]))
      case IsNotEmpty => holds <==> !AllSpace(text) && raw != Found(Items([]))
  {
    var raw := Look(data, rule.field);
    var text := TextOf(js, raw);
    IncludesIff(js.lower(text), js.lower(rule.value));
    BlankIff(text);
    hide Includes, Trim, AllSpace;
  }

  lemma IncludesIff(s: string, part: string)
    ensures Includes(s, part) <==> exists a, b :: s == a + part + b
  {
    if Includes(s, part) {
      var i :| 0 <= i <= |s| - |part| && part <= Tail(s, i);
      assert s == s[..i] + part + s[i + |part|..];
    }
    if a, b :| s == a + part + b {
      assert Tail(s, |a|) == part + b;
    }
  }

  lemma BlankIff(s: string)
    ensures Trim(s) == "" <==> AllSpace(s)
  {
    var l, r := TrimParts(s);
    if AllSpace(s) {
      TrimIs(s, "", "");
      assert s + "" + "" == s;
    }
  }

  /** No rules show the field; else all or any of them must hold, to show it or to hide it. */
  lemma ConditionsMean(js: Js, c: Conditions, data: Data)
    ensures c.rules == [] ==> Visible(js, c, data)
    ensures c.rules != [] && !c.matchAny ==>
      (Visible(js, c, data) <==> (c.show <==> forall i :: 0 <= i < |c.rules| ==> RuleHolds(js, c.rules[i], data)))
    ensures c.rules != [] && c.matchAny ==>
      (Visible(js, c, data) <==> (c.show <==> exists i :: 0 <= i < |c.rules| && RuleHolds(js, c.rules[i], data)))
  {
    hide RuleHolds;
  }

  /** The operator that holds when this one does not; an order comparison has none, as NaN compares to nothing. */
  function Opposite(op: Operator): Operator {
    match op
    case Equals => NotEquals
    case NotEquals => Equals
    case Contains => NotContains
    case NotContains => Contains
    case IsEmpty => IsNotEmpty
    case IsNotEmpty => IsEmpty
    case GreaterThan => GreaterThan
    case LessThan => LessThan
  }

  function OppositeRule(rule: ConditionRule): ConditionRule {
    rule.(operator := Opposite(rule.operator))
  }

  /** Hiding on a match is showing on the opposite rules, with any and all exchanged. */
  lemma HideIsShowOpposite(js: Js, c: Conditions, opposite: seq<ConditionRule>, data: Data)
    requires |opposite| == |c.rules| && c.rules != []
    requires forall i :: 0 <= i < |c.rules| ==> opposite[i] == OppositeRule(c.rules[i])
    requires forall i :: 0 <= i < |c.rules| ==> c.rules[i].operator != GreaterThan && c.rules[i].operator != LessThan
    ensures Visible(js, Conditions(!c.show, !c.matchAny, opposite), data) == Visible(js, c, data)
  {
    forall i | 0 <= i < |c.rules|
      ensures RuleHolds(js, opposite[i], data) <==> !RuleHolds(js, c.rules[i], data)
    {
      assert opposite[i] == OppositeRule(c.rules[i]);
    }
    hide RuleHolds;
    var o := Conditions(!c.show, !c.matchAny, opposite);
    if c.matchAny {
      if i :| 0 <= i < |c.rules| && RuleHolds(js, c.rules[i], data) {
        assert !RuleHolds(js, o.rules[i], data);
      }
    } else if i :| 0 <= i < |c.rules| && !RuleHolds(js, c.rules[i], data) {
      assert RuleHolds(js, o.rules[i], data);
    }
  }

  // ----- Limits on the body -----

  datatype Reason =
    | TooManyFields | ForbiddenKey | LongKey | LongText | LongList
    | RequiredMissing(el: Element) | BadFormat(el: Element) | NotAnOption(el: Element)
    | NoForm | NotDeployed | Closed | LimitReached | NoVersion

  datatype Verdict = Accepted | Rejected(reason: Reason)

  function KeyVerdict(key: string, value: Value): Verdict {
    if key in ["__proto__", "constructor", "prototype"] then Rejected(ForbiddenKey)
    else if |key| > 100 then Rejected(LongKey)
    else if value.Str? && |value.text| > 50000 then Rejected(LongText)
    else if value.Items? && |value.items| > 100 then Rejected(LongList)
    else Accepted
  }

  /** The verdict on the first bad key decides. */
  function KeysVerdict(keys: seq<string>, data: Data): Verdict
    requires forall k :: k in keys ==> k in data
  {
    if keys == [] then Accepted
    else if KeyVerdict(keys[0], data[keys[0]]) != Accepted then KeyVerdict(keys[0], data[keys[0]])
    else KeysVerdict(keys[1..], data)
  }

  predicate WithinLimits(keys: seq<string>, data: Data)
    requires forall k :: k in keys ==> k in data
  {
    |keys| <= 200 && forall k :: k in keys ==>
      && k !in ["__proto__", "constructor", "prototype"] && |k| <= 100
      && (data[k].Str? ==> |data[k].text| <= 50000) && (data[k].Items? ==> |data[k].items| <= 100)
  }

  method ValidateSubmissionPayload(keys: seq<string>, data: Data) returns (verdict: Verdict)
    requires forall k :: k in keys ==> k in data
    ensures verdict.Accepted? <==> WithinLimits(keys, data)
    ensures verdict == if |keys| > 200 then Rejected(TooManyFields) else KeysVerdict(keys, data)
  {
    if |keys| > 200 {
      return Rejected(TooManyFields);
    }
    for i := 0 to |keys|
      invariant forall j :: 0 <= j < i ==> KeyVerdict(keys[j], data[keys[j]]) == Accepted
      invariant KeysVerdict(keys, data) == KeysVerdict(keys[i..], data)
    {
      var key := keys[i];
      var val := data[key];
      assert keys[i..][0] == key && keys[i..][1..] == keys[i + 1..];
      if key == "__proto__" || key == "constructor" || key == "prototype" {
        return Rejected(ForbiddenKey);
      }
      if |key| > 100 {
        return Rejected(LongKey);
      }
      if val.Str? && |val.text| > 50000 {
        return Rejected(LongText);
      }
      if val.Items? && |val.items| > 100 {
        return Rejected(LongList);
      }
    }
    verdict := Accepted;
  }

  // ----- Validation of the fields -----

  /** The submitted value of a field: under its key, or else under its id. */
  function RawValue(el: Element, data: Data): Lookup {
    if FieldKey(el) in data then Found(data[FieldKey(el)]) else Look(data, el.id)
  }

  predicate Missing(v: Lookup) {
    Unset(v) || EmptyList(v)
  }

  predicate OptionsApply(el: Element, v: Lookup) {
    (el.kind.Select? || el.kind.Radio?) && el.options != [] && !Unset(v)
  }

  /** The text meets the pattern of the field, as far as the service is ready to test it. */
  predicate Matches(js: Js, el: Element, v: Value) {
    SafeRegex.SafeTest(js.regex, el.pattern, js.text(v), 5000)
  }

  function FieldVerdict(js: Js, el: Element, data: Data): Verdict {
    var v := RawValue(el, data);
    if !IsDataField(el.kind) || !Visible(js, el.conditions, data) then Accepted
    else if el.required && Missing(v) then Rejected(RequiredMissing(el))
    else if el.pattern != "" && !Unset(v) && !Matches(js, el, v.value) then Rejected(BadFormat(el))
    else if OptionsApply(el, v) && js.text(v.value) !in el.options then Rejected(NotAnOption(el))
    else Accepted
  }

  function FieldsVerdict(js: Js, elements: seq<Element>, data: Data): Verdict {
    if elements == [] then Accepted
    else if FieldVerdict(js, elements[0], data) != Accepted then FieldVerdict(js, elements[0], data)
    else FieldsVerdict(js, elements[1..], data)
  }

  /** A text in the form of a pattern; a pattern that is too long, dangerous or malformed has no texts. */
  predicate InForm(js: Js, pattern: string, text: string) {
    && |text| <= 5000 && 0 < |pattern| <= 250 && !SafeRegex.Dangerous(pattern)
    && js.regex.compiles(pattern) && js.regex.test(pattern, text)
  }

  /** What an accepted field satisfies. */
  predicate FieldOk(js: Js, el: Element, data: Data) {
    IsDataField(el.kind) && Visible(js, el.conditions, data) ==>
      var v := RawValue(el, data);
      && (el.required ==> !Unset(v) && v != Found(Items([])))
      && (el.pattern != "" && !Unset(v) ==> InForm(js, el.pattern, js.text(v.value)))
      && ((el.kind == Select || el.kind == Radio) && el.options != [] && !Unset(v) ==>
            js.text(v.value) in el.options)
  }

  lemma InFormIff(js: Js, el: Element, v: Value)
    ensures InForm(js, el.pattern, js.text(v)) <==> Matches(js, el, v)
  {
    hide SafeRegex.Dangerous;
  }

  method ValidateFields(js: Js, elements: seq<Element>, data: Data) returns (verdict: Verdict)
    ensures verdict == FieldsVerdict(js, elements, data)
    ensures verdict.Accepted? <==> forall i :: 0 <= i < |elements| ==> FieldOk(js, elements[i], data)
  {
    hide Visible;
    for i := 0 to |elements|
      invariant forall j :: 0 <= j < i ==> FieldOk(js, elements[j], data)
      invariant FieldsVerdict(js, elements, data) == FieldsVerdict(js, elements[i..], data)
    {
      var el := elements[i];
      assert elements[i..][0] == el && elements[i..][1..] == elements[i + 1..];
      if IsDataField(el.kind) && Visible(js, el.conditions, data) {
        var rawVal := RawValue(el, data);
        if el.required && Missing(rawVal) {
          return Rejected(RequiredMissing(el));
        }
        if el.pattern != "" && !Unset(rawVal) && !Matches(js, el, rawVal.value) {
          return Rejected(BadFormat(el));
        }
        if OptionsApply(el, rawVal) && js.text(rawVal.value) !in el.options {
          return Rejected(NotAnOption(el));
        }
      }
    }
    verdict := Accepted;
  }

  lemma FieldAcceptedIff(js: Js, el: Element, data: Data)
    ensures FieldVerdict(js, el, data) == Accepted <==> FieldOk(js, el, data)
  {
    hide Visible, Matches, InForm;
    var v := RawValue(el, data);
    if v.Found? {
      InFormIff(js, el, v.value);
    }
  }

  lemma {:induction false} FieldsAcceptedIff(js: Js, elements: seq<Element>, data: Data)
    ensures FieldsVerdict(js, elements, data) == Accepted
      <==> forall i :: 0 <= i < |elements| ==> FieldOk(js, elements[i], data)
  {
    hide Visible, Matches, FieldOk, FieldVerdict;
    if elements != [] {
      FieldsAcceptedIff(js, elements[1..], data);
      assert forall i :: 1 <= i < |elements| ==> elements[i] == elements[1..][i - 1];
      FieldAcceptedIff(js, elements[0], data);
    }
  }

  lemma {:induction false} KeysAcceptedIff(keys: seq<string>, data: Data)
    requires forall k :: k in keys ==> k in data
    ensures KeysVerdict(keys, data) == Accepted <==> forall k :: k in keys ==> KeyVerdict(k, data[k]) == Accepted
  {
    hide KeyVerdict;
    if keys != [] {
      KeysAcceptedIff(keys[1..], data);
      assert forall k :: k in keys <==> k == keys[0] || k in keys[1..];
    }
  }

  /** Why a field is turned away; earlier reasons come first. */
  predicate Because(js: Js, el: Element, data: Data, reason: Reason) {
    var v := RawValue(el, data);
    var missing := el.required && (v == Undefined || v == Found(Null) || v == Found(Str("")) || v == Found(Items([])));
    IsDataField(el.kind) && Visible(js, el.conditions, data) &&
    match reason
    case RequiredMissing(x) => x == el && missing
    case BadFormat(x) => x == el && !missing && el.pattern != "" && !Unset(v) && !Matches(js, el, v.value)
    case NotAnOption(x) => x == el && !missing && el.options != [] && (el.kind.Select? || el.kind.Radio?)
        && !Unset(v) && js.text(v.value) !in el.options
    case _ => false
  }

  /** A refusal is for the first field that is not valid, and for its reason. */
  lemma {:induction false} FieldRefused(js: Js, elements: seq<Element>, data: Data) returns (i: nat)
    requires FieldsVerdict(js, elements, data).Rejected?
    ensures i < |elements| && forall j :: 0 <= j < i ==> FieldOk(js, elements[j], data)
    ensures Because(js, elements[i], data, FieldsVerdict(js, elements, data).reason)
  {
    hide Visible, Matches;
    if FieldVerdict(js, elements[0], data) != Accepted {
      i := 0;
    } else {
      i := FieldRefused(js, elements[1..], data);
      FieldAcceptedIff(js, elements[0], data);
      assert forall j :: 1 <= j <= i ==> elements[j] == elements[1..][j - 1];
      i := i + 1;
    }
  }

  /** Why a key is turned away. */
  predicate KeyBecause(key: string, value: Value, reason: Reason) {
    var forbidden := key == "__proto__" || key == "constructor" || key == "prototype";
    match reason
    case ForbiddenKey => forbidden
    case LongKey => !forbidden && |key| > 100
    case LongText => !forbidden && |key| <= 100 && value.Str? && |value.text| > 50000
    case LongList => !forbidden && |key| <= 100 && value.Items? && |value.items| > 100
    case _ => false
  }

  lemma {:induction false} KeyRefused(keys: seq<string>, data: Data) returns (i: nat)
    requires (forall k :: k in keys ==> k in data) && KeysVerdict(keys, data).Rejected?
    ensures i < |keys| && forall j, reason :: 0 <= j < i ==> !KeyBecause(keys[j], data[keys[j]], reason)
    ensures KeyBecause(keys[i], data[keys[i]], KeysVerdict(keys, data).reason)
  {
    if KeyVerdict(keys[0], data[keys[0]]) != Accepted {
      i := 0;
    } else {
      i := KeyRefused(keys[1..], data);
      assert forall j :: 1 <= j <= i ==> keys[j] == keys[1..][j - 1];
      assert forall reason :: !KeyBecause(keys[0], data[keys[0]], reason);
      i := i + 1;
    }
  }

  /** The checks that look at the body: its limits first, then its fields. */
  function BodyVerdict(js: Js, elements: seq<Element>, keys: seq<string>, data: Data): Verdict
    requires forall k :: k in keys ==> k in data
  {
    if |keys| > 200 then Rejected(TooManyFields)
    else if KeysVerdict(keys, data) != Accepted then KeysVerdict(keys, data)
    else FieldsVerdict(js, elements, data)
  }

  lemma BodyAcceptedIff(js: Js, elements: seq<Element>, keys: seq<string>, data: Data)
    requires forall k :: k in keys ==> k in data
    ensures BodyVerdict(js, elements, keys, data) == Accepted
      <==> WithinLimits(keys, data) && forall i :: 0 <= i < |elements| ==> FieldOk(js, elements[i], data)
  {
    hide FieldOk;
    KeysAcceptedIff(keys, data);
    FieldsAcceptedIff(js, elements, data);
  }

  /**
   A pattern that the service does not let through shuts its field: wherever the field shows, it must stay
   empty, so that a required one can never be filled in.
   */
  lemma InvalidPatternShutsField(js: Js, el: Element, data: Data)
    requires IsDataField(el.kind) && el.pattern != "" && !SafeRegex.ValidPattern(js.regex, el.pattern)
    ensures FieldOk(js, el, data) <==>
      !Visible(js, el.conditions, data) || (!el.required && Unset(RawValue(el, data)))
  {
    hide Visible;
  }

  // ----- The canonical form -----

  function Canonical(elements: seq<Element>, data: Data): Data {
    if elements == [] then map[]
    else
      var before, el := Canonical(elements[..|elements| - 1], data), elements[|elements| - 1];
      var raw := RawValue(el, data);
      if IsDataField(el.kind) && raw.Found? then before[FieldKey(el) := raw.value] else before
  }

  method Canonicalize(elements: seq<Element>, data: Data) returns (canonicalData: Data)
    ensures canonicalData == Canonical(elements, data)
  {
    canonicalData := map[];
    for i := 0 to |elements|
      invariant canonicalData == Canonical(elements[..i], data)
    {
      assert elements[..i + 1][..i] == elements[..i];
      if IsDataField(elements[i].kind) {
        var rawVal := RawValue(elements[i], data);
        if rawVal.Found? {
          canonicalData := canonicalData[FieldKey(elements[i]) := rawVal.value];
        }
      }
    }
    assert elements[..|elements|] == elements;
  }

  predicate SameKey(a: Element, b: Element) {
    IsDataField(a.kind) && IsDataField(b.kind) && FieldKey(a) == FieldKey(b)
  }

  /** No two data fields are stored under one key. */
  predicate KeysDistinct(elements: seq<Element>) {
    forall i, j :: 0 <= i < j < |elements| ==> !SameKey(elements[i], elements[j])
  }

  predicate IdsDistinct(elements: seq<Element>) {
    forall i, j :: 0 <= i < j < |elements| ==> elements[i].id != elements[j].id
  }

  /** What is stored for the field is what was resolved for it; nothing is stored when nothing was. */
  predicate Kept(elements: seq<Element>, el: Element, data: Data) {
    IsDataField(el.kind) ==> Look(Canonical(elements, data), FieldKey(el)) == RawValue(el, data)
  }

  ghost predicate AllKept(elements: seq<Element>, data: Data) {
    forall i :: 0 <= i < |elements| ==> Kept(elements, elements[i], data)
  }

  lemma {:induction false} CanonicalKeys(elements: seq<Element>, data: Data, key: string)
    requires key in Canonical(elements, data)
    ensures exists i :: 0 <= i < |elements| && IsDataField(elements[i].kind) && FieldKey(elements[i]) == key
  {
    var n := |elements| - 1;
    if IsDataField(elements[n].kind) && FieldKey(elements[n]) == key {
    } else {
      CanonicalKeys(elements[..n], data, key);
      var i :| 0 <= i < n && IsDataField(elements[..n][i].kind) && FieldKey(elements[..n][i]) == key;
      assert elements[i] == elements[..n][i];
    }
  }

  lemma FreshKeyNotStored(elements: seq<Element>, el: Element, data: Data)
    requires IsDataField(el.kind) && forall j :: 0 <= j < |elements| ==> !SameKey(elements[j], el)
    ensures FieldKey(el) !in Canonical(elements, data)
  {
    if FieldKey(el) in Canonical(elements, data) {
      CanonicalKeys(elements, data, FieldKey(el));
    }
  }

  lemma {:induction false} DistinctKeysKept(elements: seq<Element>, data: Data)
    requires KeysDistinct(elements)
    ensures AllKept(elements, data)
  {
    if elements != [] {
      var n := |elements| - 1;
      var front, last := elements[..n], elements[n];
      assert KeysDistinct(front) by {
        assert forall i, j :: 0 <= i < j < n ==> SameKey(front[i], front[j]) == SameKey(elements[i], elements[j]);
      }
      DistinctKeysKept(front, data);
      forall i | 0 <= i < |elements|
        ensures Kept(elements, elements[i], data)
      {
        if i < n {
          assert Kept(front, front[i], data) && !SameKey(elements[i], last);
        } else if IsDataField(last.kind) {
          assert forall j :: 0 <= j < n ==> SameKey(front[j], last) == SameKey(elements[j], elements[n]);
          FreshKeyNotStored(front, last, data);
        }
      }
    }
  }

  lemma CollisionLoses(elements: seq<Element>, i: nat, j: nat) returns (data: Data)
    requires i < |elements| && j < |elements| && elements[i].id != elements[j].id
    requires SameKey(elements[i], elements[j]) && elements[i].id != FieldKey(elements[i])
    ensures !AllKept(elements, data)
  {
    data := map[elements[i].id := Null];
    assert RawValue(elements[i], data) == Found(Null) && RawValue(elements[j], data) == Undefined;
    assert !(Kept(elements, elements[i], data) && Kept(elements, elements[j], data));
  }

  /** With distinct ids: every field keeps its value in every submission exactly when no two fields share a key. */
  lemma NoClobberingIff(elements: seq<Element>)
    requires IdsDistinct(elements)
    ensures (forall data :: AllKept(elements, data)) <==> KeysDistinct(elements)
  {
    if KeysDistinct(elements) {
      forall data
        ensures AllKept(elements, data)
      {
        DistinctKeysKept(elements, data);
      }
    } else {
      var i, j :| 0 <= i < j < |elements| && SameKey(elements[i], elements[j]);
      var data: Data;
      if elements[i].id != FieldKey(elements[i]) {
        data := CollisionLoses(elements, i, j);
      } else {
        data := CollisionLoses(elements, j, i);
      }
    }
  }

  // ----- From the deploy gate to storage -----

  /** No data field has a key of white space only. */
  predicate NoBlankKeys(elements: seq<Element>) {
    forall i :: 0 <= i < |elements| && IsDataField(elements[i].kind) ==> Trim(FieldKey(elements[i])) != ""
  }

  /** The gate compares trimmed keys, so the keys as they are stored are distinct too. */
  lemma GateMakesKeysDistinct(elements: seq<Element>)
    requires NoBlankKeys(elements) && forall key :: !Repeated(elements, key)
    ensures KeysDistinct(elements)
  {
    forall i, j | 0 <= i < j < |elements|
      ensures !SameKey(elements[i], elements[j])
    {
      if SameKey(elements[i], elements[j]) {
        var key := Trim(FieldKey(elements[i]));
        assert UsesKey(elements[i], key) && UsesKey(elements[j], key);
        assert Repeated(elements, key);
      }
    }
  }
}
