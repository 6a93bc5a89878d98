/** Form definitions: sections hold zones, zones hold elements. */
module FormTree {
  import opened JsText

  datatype ElementType =
    | Text | Email | Number | Phone | Textarea | Select | Radio | Checkbox | Date | File | Button
    | Title | Description | Divider | Alert | Spacer

  datatype Operator =
    | Equals | NotEquals | Contains | NotContains | GreaterThan | LessThan | IsEmpty | IsNotEmpty

  datatype ConditionRule = ConditionRule(field: string, operator: Operator, value: string)

  /** `show` says whether a match shows the field or hides it, `matchAny` how the rules combine. */
  datatype Conditions = Conditions(show: bool, matchAny: bool, rules: seq<ConditionRule>)

  /** An absent string attribute is "": the code treats both alike. */
  datatype Element = Element(
    id: string,
    kind: ElementType,
    name: string,
    labelText: string,
    reference: string,
    required: bool,
    options: seq<string>,
    pattern: string,
    conditions: Conditions)

  datatype Zone = Zone(id: string, elements: seq<Element>)

  datatype Section = Section(id: string, zones: seq<Zone>)

  predicate IsInteractive(kind: ElementType) {
    kind.Text? || kind.Email? || kind.Number? || kind.Phone? || kind.Textarea? || kind.Select? || kind.Radio?
    || kind.Checkbox? || kind.Date? || kind.File? || kind.Button?
  }

  predicate IsDataField(kind: ElementType) {
    IsInteractive(kind) && !kind.Button?
  }

  /** The service lists what is no data field; the editor lists what is interactive. Both mean the same. */
  lemma DataFieldTestsAgree(kind: ElementType)
    ensures IsDataField(kind) <==>
      kind != Button && kind != Title && kind != Description && kind != Divider && kind != Spacer && kind != Alert
  {
  }

  /** The stored key of a field: its reference, or its id when it has none. */
  function FieldKey(el: Element): string {
    if el.reference != "" then el.reference else el.id
  }

  function ZoneElements(zones: seq<Zone>): seq<Element> {
    if zones == [] then [] else zones[0].elements + ZoneElements(zones[1..])
  }

  /** The elements of a form in reading order. */
  function Flatten(sections: seq<Section>): seq<Element> {
    if sections == [] then [] else ZoneElements(sections[0].zones) + Flatten(sections[1..])
  }

  lemma {:induction false} ZoneElementsConcat(a: seq<Zone>, b: seq<Zone>)
    ensures ZoneElements(a + b) == ZoneElements(a) + ZoneElements(b)
  {
    if a == [] {
      assert a + b == b;
    } else {
      assert (a + b)[1..] == a[1..] + b;
      ZoneElementsConcat(a[1..], b);
    }
  }

  lemma {:induction false} FlattenConcat(a: seq<Section>, b: seq<Section>)
    ensures Flatten(a + b) == Flatten(a) + Flatten(b)
  {
    if a == [] {
      assert a + b == b;
    } else {
      assert (a + b)[1..] == a[1..] + b;
      FlattenConcat(a[1..], b);
    }
  }

  /** The elements of one zone within the whole form: what precedes it, itself, what follows it. */
  lemma FlattenSplit(sections: seq<Section>, i: nat, j: nat)
    requires i < |sections| && j < |sections[i].zones|
    ensures Flatten(sections) ==
      (Flatten(sections[..i]) + ZoneElements(sections[i].zones[..j])) + sections[i].zones[j].elements
      + (ZoneElements(sections[i].zones[j + 1..]) + Flatten(sections[i + 1..]))
  {
    FlattenAt(sections, i);
    ZonesAt(sections[i].zones, j);
    hide Flatten, ZoneElements;
    var zones := sections[i].zones;
    Regroup(Flatten(sections[..i]), ZoneElements(zones[..j]), zones[j].elements, ZoneElements(zones[j + 1..]),
            Flatten(sections[i + 1..]));
  }

  lemma FlattenAt(sections: seq<Section>, i: nat)
    requires i < |sections|
    ensures Flatten(sections) == Flatten(sections[..i]) + (ZoneElements(sections[i].zones) + Flatten(sections[i + 1..]))
  {
    assert sections == sections[..i] + sections[i..];
    FlattenConcat(sections[..i], sections[i..]);
    assert sections[i..][1..] == sections[i + 1..];
  }

  lemma ZonesAt(zones: seq<Zone>, j: nat)
    requires j < |zones|
    ensures ZoneElements(zones) == ZoneElements(zones[..j]) + (zones[j].elements + ZoneElements(zones[j + 1..]))
  {
    assert zones == zones[..j] + zones[j..];
    ZoneElementsConcat(zones[..j], zones[j..]);
    assert zones[j..][1..] == zones[j + 1..];
  }

  lemma Regroup(a: seq<Element>, b: seq<Element>, c: seq<Element>, d: seq<Element>, e: seq<Element>)
    ensures a + ((b + (c + d)) + e) == (a + b) + c + (d + e)
  {
  }

  method ExtractAllElements(sections: seq<Section>) returns (elements: seq<Element>)
    ensures elements == Flatten(sections)
  {
    elements := [];
    for i := 0 to |sections|
      invariant elements == Flatten(sections[..i])
    {
      var zones := sections[i].zones;
      for j := 0 to |zones|
        invariant elements == Flatten(sections[..i]) + ZoneElements(zones[..j])
      {
        elements := elements + zones[j].elements;
        assert zones[..j + 1] == zones[..j] + [zones[j]];
        ZoneElementsConcat(zones[..j], [zones[j]]);
      }
      assert zones[..|zones|] == zones;
      assert sections[..i + 1] == sections[..i] + [sections[i]];
      FlattenConcat(sections[..i], [sections[i]]);
    }
    assert sections[..|sections|] == sections;
  }

  // ----- Duplicate references -----

  /** Two different places of the list hold data fields with the non-blank key `key`. */
  ghost predicate Repeated(elements: seq<Element>, key: string) {
    exists i, j :: 0 <= i < j < |elements| && UsesKey(elements[i], key) && UsesKey(elements[j], key)
  }

  predicate UsesKey(el: Element, key: string) {
    IsDataField(el.kind) && key != "" && Trim(FieldKey(el)) == key
  }

  predicate NoRepeats(s: seq<string>) {
    forall i, j :: 0 <= i < j < |s| ==> s[i] != s[j]
  }

  datatype KeyScan = KeyScan(seen: set<string>, duplicates: seq<string>)

  function Note(scan: KeyScan, el: Element): KeyScan {
    var ref := Trim(FieldKey(el));
    if !IsDataField(el.kind) || ref == "" then scan
    else if ref !in scan.seen then scan.(seen := scan.seen + {ref})
    else if ref in scan.duplicates then scan
    else scan.(duplicates := scan.duplicates + [ref])
  }

  function ScanKeys(elements: seq<Element>): KeyScan {
    if elements == [] then KeyScan({}, []) else Note(ScanKeys(elements[..|elements| - 1]), elements[|elements| - 1])
  }

  function DuplicateReferences(sections: seq<Section>): seq<string> {
    ScanKeys(Flatten(sections)).duplicates
  }

  method CheckDuplicateReferences(sections: seq<Section>) returns (duplicates: seq<string>)
    ensures duplicates == DuplicateReferences(sections)
    ensures forall key :: key in duplicates <==> Repeated(Flatten(sections), key)
    ensures NoRepeats(duplicates)
  {
    var elements := ExtractAllElements(sections);
    var seen: set<string> := {};
    duplicates := [];
    for i := 0 to |elements|
      invariant KeyScan(seen, duplicates) == ScanKeys(elements[..i])
    {
      assert elements[..i + 1][..i] == elements[..i];
      if IsDataField(elements[i].kind) {
        var ref := Trim(FieldKey(elements[i]));
        if ref != "" {
          if ref in seen {
            if ref !in duplicates {
              duplicates := duplicates + [ref];
            }
          } else {
            seen := seen + {ref};
          }
        }
      }
    }
    assert elements[..|elements|] == elements;
    ScanIsExact(elements);
  }

  ghost predicate Used(elements: seq<Element>, key: string) {
    exists i :: 0 <= i < |elements| && UsesKey(elements[i], key)
  }

  /** The scan reports exactly the keys that occur at least twice, each listed once. */
  lemma {:induction false} ScanIsExact(elements: seq<Element>)
    ensures forall key :: key in ScanKeys(elements).seen <==> Used(elements, key)
    ensures forall key :: key in ScanKeys(elements).duplicates <==> Repeated(elements, key)
    ensures NoRepeats(ScanKeys(elements).duplicates)
  {
    if elements != [] {
      var n := |elements| - 1;
      ScanIsExact(elements[..n]);
      assert elements[..n + 1] == elements;
      forall key
        ensures key in ScanKeys(elements).seen <==> Used(elements, key)
        ensures key in ScanKeys(elements).duplicates <==> Repeated(elements, key)
      {
        UsedGrows(elements, n, key);
        RepeatedGrows(elements, n, key);
      }
    }
  }

  lemma UsedGrows(elements: seq<Element>, n: nat, key: string)
    requires n < |elements|
    ensures Used(elements[..n + 1], key) <==> Used(elements[..n], key) || UsesKey(elements[n], key)
  {
    var p, q := elements[..n], elements[..n + 1];
    assert q[n] == elements[n];
    if i :| 0 <= i < n && UsesKey(p[i], key) {
      assert UsesKey(q[i], key);
    }
    if i :| 0 <= i <= n && UsesKey(q[i], key) {
      assert i < n ==> UsesKey(p[i], key);
    }
  }

  lemma RepeatedGrows(elements: seq<Element>, n: nat, key: string)
    requires n < |elements|
    ensures Repeated(elements[..n + 1], key) <==>
      Repeated(elements[..n], key) || (UsesKey(elements[n], key) && Used(elements[..n], key))
  {
    hide UsesKey;
    var p, q := elements[..n], elements[..n + 1];
    if Repeated(q, key) {
      var i, j :| 0 <= i < j < |q| && UsesKey(q[i], key) && UsesKey(q[j], key);
      assert UsesKey(p[i], key);
      assert j < n ==> UsesKey(p[j], key);
    }
    if Repeated(p, key) {
      var i, j :| 0 <= i < j < |p| && UsesKey(p[i], key) && UsesKey(p[j], key);
      assert UsesKey(q[i], key) && UsesKey(q[j], key);
    }
    if UsesKey(elements[n], key) && Used(p, key) {
      var i :| 0 <= i < n && UsesKey(p[i], key);
      assert UsesKey(q[i], key) && UsesKey(q[n], key);
    }
  }
}
