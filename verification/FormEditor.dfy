/**
 The form editor: every change of the tree passes through deduplication into the history. What adding
 and deleting do to the other fields, and what holds on every run of edits, undo and redo.
 */
module FormEditor {
  import opened JsText
  import opened FormTree
  import opened ReferenceDedup
  import opened CanvasMoves
  import EditorHistory

  // ----- Adding an element -----

  datatype Selection = Nothing | OnSection(section: string) | OnZone(section: string, zone: string)
    | OnElement(section: string, zone: string, element: string)

  datatype Target = Target(section: string, zone: string)

  /** Where a new element goes: the given place, or else the selection, or else the first zone. "" is an absent id. */
  function Resolve(sections: seq<Section>, selection: Selection, given: Target): Target {
    if given.section != "" && given.zone != "" then given
    else match selection
      case OnZone(sec, zone) => Target(sec, zone)
      case OnElement(sec, zone, _) => Target(sec, zone)
      case _ =>
        if sections != [] && sections[0].zones != [] then Target(sections[0].id, sections[0].zones[0].id) else given
  }

  /** Without a place the handler starts over with a section of its own. */
  predicate StartsOver(sections: seq<Section>, selection: Selection, given: Target) {
    var target := Resolve(sections, selection, given);
    target.section == "" || target.zone == "" || sections == []
  }

  /**
   The form with the element at a place, or none when the place does not exist. A negative index stands for an
   absent one.
   */
  function Placed(sections: seq<Section>, target: Target, at: int, el: Element): seq<seq<Section>> {
    var i := IndexOfSection(sections, target.section);
    if i == -1 then []
    else
      var j := IndexOfZone(sections[i].zones, target.zone);
      if j == -1 then []
      else
        var es := ElementsAt(sections, i, j);
        [SetElements(sections, i, j, InsertAt(es, if 0 <= at <= |es| then at else |es|, el))]
  }

  function Added(sections: seq<Section>, selection: Selection, given: Target, at: int, el: Element,
                 freshSection: string, freshZone: string): seq<seq<Section>>
  {
    if StartsOver(sections, selection, given)
    then Placed([Section(freshSection, [Zone(freshZone, [])])], Target(freshSection, freshZone), at, el)
    else Placed(sections, Resolve(sections, selection, given), at, el)
  }

  method HandleAddElementType(sections: seq<Section>, selection: Selection, given: Target, at: int, el: Element,
                              freshSection: string, freshZone: string)
    returns (added: bool, currentSections: seq<Section>)
    ensures added == (Added(sections, selection, given, at, el, freshSection, freshZone) != [])
    ensures added ==> [currentSections] == Added(sections, selection, given, at, el, freshSection, freshZone)
    ensures !added ==> currentSections == sections
  {
    hide Placed;
    var target := given;
    if target.section == "" || target.zone == "" {
      if selection.OnZone? || selection.OnElement? {
        target := Target(selection.section, selection.zone);
      } else if |sections| > 0 && |sections[0].zones| > 0 {
        target := Target(sections[0].id, sections[0].zones[0].id);
      }
    }
    if target.section == "" || target.zone == "" || |sections| == 0 {
      target := Target(freshSection, freshZone);
      added, currentSections := PlaceElement([Section(freshSection, [Zone(freshZone, [])])], target, at, el);
      StartedOver(freshSection, freshZone, at, el);
    } else {
      added, currentSections := PlaceElement(sections, target, at, el);
    }
  }

  method PlaceElement(sections: seq<Section>, target: Target, at: int, el: Element)
    returns (added: bool, currentSections: seq<Section>)
    ensures added == (Placed(sections, target, at, el) != [])
    ensures if added then [currentSections] == Placed(sections, target, at, el) else currentSections == sections
  {
    added, currentSections := false, sections;
    var secIdx := IndexOfSection(sections, target.section);
    if secIdx == -1 {
      return;
    }
    var zoneIdx := IndexOfZone(sections[secIdx].zones, target.zone);
    if zoneIdx == -1 {
      return;
    }
    var elementsCopy := sections[secIdx].zones[zoneIdx].elements;
    ghost var before := elementsCopy;
    if 0 <= at <= |elementsCopy| {
      elementsCopy := elementsCopy[..at] + [el] + elementsCopy[at..];
    } else {
      elementsCopy := elementsCopy + [el];
    }
    assert elementsCopy == InsertAt(before, if 0 <= at <= |before| then at else |before|, el);
    var zonesCopy := sections[secIdx].zones;
    zonesCopy := zonesCopy[zoneIdx := zonesCopy[zoneIdx].(elements := elementsCopy)];
    currentSections := currentSections[secIdx := currentSections[secIdx].(zones := zonesCopy)];
    added := true;
  }

  lemma StartedOver(section: string, zone: string, at: int, el: Element)
    ensures Placed([Section(section, [Zone(zone, [])])], Target(section, zone), at, el) ==
        [[Section(section, [Zone(zone, [el])])]]
  {
    var auto := [Section(section, [Zone(zone, [])])];
    assert IndexOfSection(auto, section) == 0 && IndexOfZone(auto[0].zones, zone) == 0;
    var es := ElementsAt(auto, 0, 0);
    assert es == [] && InsertAt(es, if 0 <= at <= |es| then at else |es|, el) == [el];
    assert auto[0].zones[0 := Zone(zone, [el])] == [Zone(zone, [el])];
    assert SetElements(auto, 0, 0, [el]) == [Section(section, [Zone(zone, [el])])];
  }

  /** An addition at a place that exists inserts one element in reading order and touches nothing else. */
  lemma AddedInserts(sections: seq<Section>, selection: Selection, given: Target, at: int, el: Element,
                     freshSection: string, freshZone: string) returns (p: nat)
    requires !StartsOver(sections, selection, given)
    requires Added(sections, selection, given, at, el, freshSection, freshZone) != []
    ensures p <= |Flatten(sections)|
    ensures Flatten(Added(sections, selection, given, at, el, freshSection, freshZone)[0]) ==
        InsertAt(Flatten(sections), p, el)
  {
    var target := Resolve(sections, selection, given);
    var i := IndexOfSection(sections, target.section);
    var j := IndexOfZone(sections[i].zones, target.zone);
    var es := ElementsAt(sections, i, j);
    var c := if 0 <= at <= |es| then at else |es|;
    PutElementFlat(sections, i, j, c, el);
    p := ZoneOffset(sections, i, j) + c;
  }

  /** The place that an addition is for: the one given, or else that of the selection, or else the first zone. */
  predicate PlaceFor(sections: seq<Section>, selection: Selection, given: Target, target: Target) {
    if given.section != "" && given.zone != "" then target == given
    else if selection.OnZone? || selection.OnElement? then target == Target(selection.section, selection.zone)
    else sections != [] && sections[0].zones != [] && target == Target(sections[0].id, sections[0].zones[0].id)
  }

  /**
   When there is such a place, the new element comes into its zone, at the index if the zone has it and else at the
   end, and every other zone stays; when the zone is not there, nothing happens.
   */
  lemma AddedExactly(sections: seq<Section>, selection: Selection, given: Target, at: int, el: Element,
                     freshSection: string, freshZone: string, target: Target)
    requires PlaceFor(sections, selection, given, target)
    requires sections != [] && target.section != "" && target.zone != ""
    ensures var added := Added(sections, selection, given, at, el, freshSection, freshZone);
      && (added != [] <==> exists i: nat, j: nat :: PlaceOf(sections, target.section, target.zone, i, j))
      && (added != [] ==>
            && added == [added[0]] && SameIds(sections, added[0])
            && forall a: nat, b: nat :: HasZone(sections, a, b) ==>
                 if PlaceOf(sections, target.section, target.zone, a, b)
                 then var es := ElementsAt(sections, a, b);
                      ElementsAt(added[0], a, b) == InsertAt(es, if 0 <= at <= |es| then at else |es|, el)
                 else ElementsAt(added[0], a, b) == ElementsAt(sections, a, b))
  {
    PlaceFound(sections, target.section, target.zone);
    assert Resolve(sections, selection, given) == target;
    var i := IndexOfSection(sections, target.section);
    if i != -1 {
      var j := IndexOfZone(sections[i].zones, target.zone);
      if j != -1 {
        var es := ElementsAt(sections, i, j);
        SetElementsSameIds(sections, i, j, InsertAt(es, if 0 <= at <= |es| then at else |es|, el));
      }
    }
    hide PlaceOf, SameIds;
  }

  /**
   An addition keeps the elements of the form exactly when it does not start over, or has nothing to lose.
   It starts over on a form with sections when neither the drop nor the selection names a zone and the
   first section has no zone: all other sections are then gone.
   */
  lemma AddKeepsElementsIff(sections: seq<Section>, selection: Selection, given: Target, at: int, el: Element,
                            freshSection: string, freshZone: string)
    requires Added(sections, selection, given, at, el, freshSection, freshZone) != []
    ensures var next := Added(sections, selection, given, at, el, freshSection, freshZone)[0];
      multiset(Flatten(sections)) <= multiset(Flatten(next)) <==>
        !StartsOver(sections, selection, given) || Flatten(sections) == [] || Flatten(sections) == [el]
  {
    var flat := Flatten(sections);
    if StartsOver(sections, selection, given) {
      StartedOver(freshSection, freshZone, at, el);
      StartedFlat(freshSection, freshZone, el);
      WithinOne(flat, el);
    } else {
      hide Added, StartsOver, Flatten;
      var p := AddedInserts(sections, selection, given, at, el, freshSection, freshZone);
      assert flat == flat[..p] + flat[p..];
      assert multiset(InsertAt(flat, p, el)) == multiset(flat) + multiset{el};
    }
  }

  /** A first section without zones in front of one with a field, and no place given: both sections are dropped. */
  lemma AddDropsSections(el: Element, lost: Element, at: int, freshSection: string, freshZone: string)
    requires el != lost
    ensures var sections := [Section("s1", []), Section("s2", [Zone("z1", [lost])])];
      && Flatten(sections) == [lost]
      && Added(sections, Nothing, Target("", ""), at, el, freshSection, freshZone) ==
          [[Section(freshSection, [Zone(freshZone, [el])])]]
      && lost !in Flatten([Section(freshSection, [Zone(freshZone, [el])])])
  {
    var sections := [Section("s1", []), Section("s2", [Zone("z1", [lost])])];
    assert sections[1..] == [Section("s2", [Zone("z1", [lost])])];
    StartedFlat("s2", "z1", lost);
    StartedOver(freshSection, freshZone, at, el);
    StartedFlat(freshSection, freshZone, el);
  }

  lemma WithinOne(s: seq<Element>, x: Element)
    ensures multiset(s) <= multiset([x]) <==> s == [] || s == [x]
  {
    if |s| == 1 {
      assert s == [s[0]] && s[0] in multiset(s);
    } else if |s| > 1 {
      assert s == [s[0]] + [s[1]] + s[2..];
      assert s[0] in multiset(s) && s[1] in multiset(s);
      assert s[0] == s[1] ==> multiset(s)[s[0]] >= 2;
    }
  }

  lemma StartedFlat(section: string, zone: string, el: Element)
    ensures Flatten([Section(section, [Zone(zone, [el])])]) == [el]
  {
    var s := Section(section, [Zone(zone, [el])]);
    assert Flatten([s][1..]) == [] && ZoneElements(s.zones[1..]) == [];
    assert ZoneElements(s.zones) == [el] + [];
  }

  // ----- What an addition does to the references of the others -----

  predicate HasReference(els: seq<Element>, ref: string) {
    exists i :: 0 <= i < |els| && IsDataField(els[i].kind) && els[i].reference == ref
  }

  lemma UniqueParts(a: seq<Element>, b: seq<Element>)
    requires UniqueReferences(a + b)
    ensures UniqueReferences(a) && UniqueReferences(b)
    ensures forall ref :: HasReference(a, ref) ==> !HasReference(b, ref)
  {
    var s := a + b;
    assert forall i :: 0 <= i < |a| ==> s[i] == a[i];
    assert forall i :: 0 <= i < |b| ==> s[|a| + i] == b[i];
    forall ref | HasReference(a, ref)
      ensures !HasReference(b, ref)
    {
      var i :| 0 <= i < |a| && IsDataField(a[i].kind) && a[i].reference == ref;
      forall j | 0 <= j < |b| && IsDataField(b[j].kind)
        ensures b[j].reference != ref
      {
        assert s[i].reference != s[|a| + j].reference;
      }
    }
  }

  /** What a clean list leaves seen are its own references. */
  lemma {:induction false} SeenOfClean(els: seq<Element>, seen: set<string>, suggest: string -> string, ref: string)
    requires DedupList(els, seen, suggest) == els
    ensures ref in SeenAfterAll(els, seen, suggest) <==> ref in seen || HasReference(els, ref)
    decreases |els|
  {
    if els != [] {
      assert DedupList(els, seen, suggest)[0] == els[0] && DedupList(els, seen, suggest)[1..] == els[1..];
      SeenOfClean(els[1..], SeenAfter(els[0], seen, suggest), suggest, ref);
      HasReferenceMore(els, ref);
    }
  }

  lemma HasReferenceMore(els: seq<Element>, ref: string)
    requires els != []
    ensures HasReference(els, ref) <==>
        (IsDataField(els[0].kind) && els[0].reference == ref) || HasReference(els[1..], ref)
  {
    if i :| 0 <= i < |els| && IsDataField(els[i].kind) && els[i].reference == ref {
      assert i > 0 ==> els[1..][i - 1] == els[i];
    }
    if i :| 0 <= i < |els[1..]| && IsDataField(els[1..][i].kind) && els[1..][i].reference == ref {
      assert els[i + 1] == els[1..][i];
    }
  }

  /** The reference that the new element gets: the first candidate free among the fields before it. */
  ghost function NewReference(before: seq<Element>, el: Element, suggest: string -> string): string {
    DedupOne(el, SeenAfterAll(before, {}, suggest), suggest).reference
  }

  /**
   Adding an element to a form with unique references leaves all other fields alone exactly when the new
   one is no data field, or the reference it gets is not that of a field behind it. Otherwise that field,
   whose data may have been collected already, is renamed.
   */
  lemma AddRenamesNoneIff(a: seq<Element>, el: Element, b: seq<Element>, suggest: string -> string)
    requires UniqueReferences(a + b)
    ensures DedupList(a + [el] + b, {}, suggest) == a + [DedupOne(el, SeenAfterAll(a, {}, suggest), suggest)] + b
      <==> !IsDataField(el.kind) || !HasReference(b, NewReference(a, el, suggest))
  {
    var seen := SeenAfterAll(a, {}, suggest);
    var later := SeenAfter(el, seen, suggest);
    UniqueParts(a, b);
    NoSeenToAvoid(a);
    DedupFixesIff(a, {}, suggest);
    assert a + [el] + b == a + ([el] + b);
    DedupConcat(a, [el] + b, {}, suggest);
    DedupConcat([el], b, seen, suggest);
    assert DedupList([el], seen, suggest) == [DedupOne(el, seen, suggest)] by {
      assert [el][1..] == [];
    }
    assert SeenAfterAll([el], seen, suggest) == later by {
      assert [el][1..] == [];
    }
    assert DedupList(a + [el] + b, {}, suggest) == a + ([DedupOne(el, seen, suggest)] + DedupList(b, later, suggest));
    DedupOnlyReferences(b, later, suggest);
    SameTail(a, DedupOne(el, seen, suggest), DedupList(b, later, suggest), b);
    DedupFixesIff(b, later, suggest);
    AvoidsIff(a, el, b, suggest);
  }

  /** A text field as the editor makes it. */
  function NewTextField(id: string): Element {
    Element(id, Text, "Text Field", "Text Field", "text_field", false, [], "", Conditions(true, false, []))
  }

  /** A second text field dropped in front of the first takes over its reference, and the first is renamed. */
  lemma SecondFieldRenamesFirst(suggest: string -> string)
    ensures UniqueReferences([NewTextField("1")])
    ensures DedupList([NewTextField("2"), NewTextField("1")], {}, suggest) ==
      [NewTextField("2"), NewTextField("1").(reference := "text_field_2")]
  {
    var first, second := NewTextField("1"), NewTextField("2");
    assert Trim("text_field") == "text_field";
    assert UniqueReference({}, "text_field") == "text_field";
    assert Decimal(2) == "2";
    assert Candidate("text_field", 1) == "text_field" && Candidate("text_field", 2) == "text_field_2";
    FirstFreeIsOne({"text_field"}, "text_field", 2, FirstFreeFrom({"text_field"}, "text_field", 1));
    assert [second, first][1..] == [first] && [first][1..] == [];
  }

  lemma SameTail(a: seq<Element>, x: Element, r: seq<Element>, b: seq<Element>)
    requires |r| == |b|
    ensures a + ([x] + r) == a + [x] + b <==> r == b
  {
    if a + ([x] + r) == a + [x] + b {
      assert r == (a + ([x] + r))[|a| + 1..] == (a + [x] + b)[|a| + 1..] == b;
    }
    if r == b {
      assert a + ([x] + r) == a + [x] + b;
    }
  }

  lemma AvoidsIff(a: seq<Element>, el: Element, b: seq<Element>, suggest: string -> string)
    requires UniqueReferences(a) && DedupList(a, {}, suggest) == a
    requires forall ref :: HasReference(a, ref) ==> !HasReference(b, ref)
    ensures AvoidsSeen(b, SeenAfter(el, SeenAfterAll(a, {}, suggest), suggest)) <==>
      !IsDataField(el.kind) || !HasReference(b, NewReference(a, el, suggest))
  {
    var seen := SeenAfterAll(a, {}, suggest);
    forall i | 0 <= i < |b| && IsDataField(b[i].kind)
      ensures b[i].reference !in seen && HasReference(b, b[i].reference)
    {
      SeenOfClean(a, {}, suggest, b[i].reference);
    }
  }

  // ----- Deleting -----

  function WithoutElement(els: seq<Element>, id: string): seq<Element> {
    if els == [] then []
    else (if els[0].id != id then [els[0]] else []) + WithoutElement(els[1..], id)
  }

  function WithoutZone(zones: seq<Zone>, id: string): seq<Zone> {
    if zones == [] then []
    else (if zones[0].id != id then [zones[0]] else []) + WithoutZone(zones[1..], id)
  }

  function WithoutSection(sections: seq<Section>, id: string): seq<Section> {
    if sections == [] then []
    else (if sections[0].id != id then [sections[0]] else []) + WithoutSection(sections[1..], id)
  }

  lemma {:induction false} FewerElements(els: seq<Element>, id: string)
    ensures multiset(WithoutElement(els, id)) <= multiset(els)
    ensures forall x :: x in WithoutElement(els, id) <==> x in els && x.id != id
  {
    if els != [] {
      FewerElements(els[1..], id);
      assert els == [els[0]] + els[1..];
    }
  }

  lemma {:induction false} FewerZones(zones: seq<Zone>, id: string)
    ensures multiset(ZoneElements(WithoutZone(zones, id))) <= multiset(ZoneElements(zones))
  {
    if zones != [] {
      FewerZones(zones[1..], id);
      var rest := WithoutZone(zones[1..], id);
      if zones[0].id != id {
        assert WithoutZone(zones, id) == [zones[0]] + rest;
        ZoneElementsConcat([zones[0]], rest);
        assert ZoneElements([zones[0]]) == zones[0].elements + ZoneElements([zones[0]][1..]);
      } else {
        assert WithoutZone(zones, id) == rest;
      }
    }
  }

  lemma {:induction false} FewerSections(sections: seq<Section>, id: string)
    ensures multiset(Flatten(WithoutSection(sections, id))) <= multiset(Flatten(sections))
  {
    if sections != [] {
      FewerSections(sections[1..], id);
      var rest := WithoutSection(sections[1..], id);
      if sections[0].id != id {
        assert WithoutSection(sections, id) == [sections[0]] + rest;
        FlattenConcat([sections[0]], rest);
        assert Flatten([sections[0]]) == ZoneElements(sections[0].zones) + Flatten([sections[0]][1..]);
      } else {
        assert WithoutSection(sections, id) == rest;
      }
    }
  }

  /** The items are gone one by one, wherever they are, and the others keep their order. */
  lemma {:induction false} ElementsGone(a: seq<Element>, b: seq<Element>, id: string)
    ensures WithoutElement(a + b, id) == WithoutElement(a, id) + WithoutElement(b, id)
  {
    if a == [] {
      assert a + b == b;
    } else {
      assert (a + b)[1..] == a[1..] + b;
      ElementsGone(a[1..], b, id);
    }
  }

  lemma {:induction false} ZonesGone(a: seq<Zone>, b: seq<Zone>, id: string)
    ensures WithoutZone(a + b, id) == WithoutZone(a, id) + WithoutZone(b, id)
  {
    if a == [] {
      assert a + b == b;
    } else {
      assert (a + b)[1..] == a[1..] + b;
      ZonesGone(a[1..], b, id);
    }
  }

  lemma {:induction false} SectionsGone(a: seq<Section>, b: seq<Section>, id: string)
    ensures WithoutSection(a + b, id) == WithoutSection(a, id) + WithoutSection(b, id)
  {
    if a == [] {
      assert a + b == b;
    } else {
      assert (a + b)[1..] == a[1..] + b;
      SectionsGone(a[1..], b, id);
    }
  }

  lemma OneGone(el: Element, zone: Zone, section: Section, id: string)
    ensures WithoutElement([el], id) == if el.id == id then [] else [el]
    ensures WithoutZone([zone], id) == if zone.id == id then [] else [zone]
    ensures WithoutSection([section], id) == if section.id == id then [] else [section]
  {
  }

  datatype Deletion = DeleteSection(section: string) | DeleteZone(section: string, zone: string)
    | DeleteElement(section: string, zone: string, element: string)

  /** The form after a deletion; the same form when the place does not exist. */
  function Deleted(sections: seq<Section>, d: Deletion): seq<Section> {
    if d.DeleteSection? then WithoutSection(sections, d.section)
    else
      var i := IndexOfSection(sections, d.section);
      if i == -1 then sections
      else if d.DeleteZone? then sections[i := sections[i].(zones := WithoutZone(sections[i].zones, d.zone))]
      else
        var j := IndexOfZone(sections[i].zones, d.zone);
        if j == -1 then sections
        else SetElements(sections, i, j, WithoutElement(ElementsAt(sections, i, j), d.element))
  }

  /** A deletion takes what is named out of the place named, and leaves every other place as it is. */
  lemma DeletedExactly(sections: seq<Section>, section: string, zone: string, element: string)
    ensures Deleted(sections, DeleteSection(section)) == WithoutSection(sections, section)
    ensures var t := Deleted(sections, DeleteZone(section, zone));
      |t| == |sections| && forall a: nat :: a < |sections| ==>
        t[a] == if SectionOf(sections, section, a) then Section(section, WithoutZone(sections[a].zones, zone))
                else sections[a]
    ensures var t := Deleted(sections, DeleteElement(section, zone, element));
      SameIds(sections, t) && forall a: nat, b: nat :: HasZone(sections, a, b) ==>
        ElementsAt(t, a, b) ==
        if PlaceOf(sections, section, zone, a, b) then WithoutElement(ElementsAt(sections, a, b), element)
        else ElementsAt(sections, a, b)
  {
    SectionFound(sections, section);
    PlaceFound(sections, section, zone);
    var i := IndexOfSection(sections, section);
    if i != -1 {
      var j := IndexOfZone(sections[i].zones, zone);
      if j != -1 {
        SetElementsSameIds(sections, i, j, WithoutElement(ElementsAt(sections, i, j), element));
      }
    }
    hide PlaceOf, WithoutElement, WithoutZone, WithoutSection;
  }

  lemma ZonesReplaced(sections: seq<Section>, i: nat, zones: seq<Zone>)
    requires i < |sections| && multiset(ZoneElements(zones)) <= multiset(ZoneElements(sections[i].zones))
    ensures multiset(Flatten(sections[i := sections[i].(zones := zones)])) <= multiset(Flatten(sections))
  {
    var t := sections[i := sections[i].(zones := zones)];
    FlattenAt(sections, i);
    FlattenAt(t, i);
    assert t[..i] == sections[..i] && t[i + 1..] == sections[i + 1..];
  }

  lemma ElementsReplaced(zones: seq<Zone>, j: nat, els: seq<Element>)
    requires j < |zones| && multiset(els) <= multiset(zones[j].elements)
    ensures multiset(ZoneElements(zones[j := zones[j].(elements := els)])) <= multiset(ZoneElements(zones))
  {
    var t := zones[j := zones[j].(elements := els)];
    ZonesAt(zones, j);
    ZonesAt(t, j);
    assert t[..j] == zones[..j] && t[j + 1..] == zones[j + 1..];
  }

  /** A deletion from a form with unique references renames nothing, and adds nothing. */
  lemma DeletionRenamesNone(sections: seq<Section>, d: Deletion, suggest: string -> string)
    ensures multiset(Flatten(Deleted(sections, d))) <= multiset(Flatten(sections))
    ensures UniqueReferences(Flatten(sections)) ==> Deduplicated(Deleted(sections, d), suggest) == Deleted(sections, d)
  {
    hide Flatten, ZoneElements, UniqueReferences;
    var i := IndexOfSection(sections, d.section);
    if d.DeleteSection? {
      FewerSections(sections, d.section);
    } else if i != -1 && d.DeleteZone? {
      FewerZones(sections[i].zones, d.zone);
      ZonesReplaced(sections, i, WithoutZone(sections[i].zones, d.zone));
    } else if i != -1 {
      var j := IndexOfZone(sections[i].zones, d.zone);
      if j != -1 {
        var els := WithoutElement(ElementsAt(sections, i, j), d.element);
        FewerElements(ElementsAt(sections, i, j), d.element);
        ElementsReplaced(sections[i].zones, j, els);
        ZonesReplaced(sections, i, sections[i].zones[j := sections[i].zones[j].(elements := els)]);
      }
    }
    if UniqueReferences(Flatten(sections)) {
      MoveThenDedup(sections, Deleted(sections, d), suggest);
    }
  }

  // ----- Runs of the editor -----

  datatype Snapshot = Snapshot(layout: string, sections: seq<Section>, title: string)

  /** The index of the timeline may be out of step with its list: a repeated push moves the index alone. */
  datatype Editor = Editor(shown: Snapshot, timeline: EditorHistory.Timeline<Snapshot>)

  function Loaded(draft: Snapshot): Editor {
    Editor(draft, EditorHistory.Timeline([draft], 0))
  }

  function Pushed(e: Editor, next: Snapshot): Editor {
    Editor(next, EditorHistory.PushState(e.timeline, next))
  }

  /** `Change` stands for any handler of the page or the canvas that hands a new tree over. */
  datatype Event =
    | Change(sections: seq<Section>)
    | ChangeLayout(layout: string)
    | Retitle(title: string)
    | UndoEdit
    | RedoEdit

  /** The snapshot that the index has moved to, if there is one, is shown. */
  function Shown(e: Editor, t: EditorHistory.Timeline<Snapshot>): Editor {
    Editor(if t.index != e.timeline.index && t.index < |t.history| then t.history[t.index] else e.shown, t)
  }

  ghost function After(e: Editor, event: Event, suggest: string -> string): Editor {
    match event
    case Change(sections) => Pushed(e, e.shown.(sections := Deduplicated(sections, suggest)))
    case ChangeLayout(layout) => Pushed(e, e.shown.(layout := layout))
    case Retitle(title) => e.(shown := e.shown.(title := title))
    case UndoEdit => Shown(e, EditorHistory.Undo(e.timeline))
    case RedoEdit => Shown(e, EditorHistory.Redo(e.timeline))
  }

  ghost function AfterAll(e: Editor, events: seq<Event>, suggest: string -> string): Editor
    decreases |events|
  {
    if events == [] then e else AfterAll(After(e, events[0], suggest), events[1..], suggest)
  }

  /** The tree as it was loaded, or one that the deploy gate lets pass. */
  ghost predicate Fine(sections: seq<Section>, loaded: seq<Section>) {
    sections == loaded || UniqueReferences(Flatten(sections))
  }

  ghost predicate AllFine(e: Editor, loaded: seq<Section>) {
    && Fine(e.shown.sections, loaded)
    && (forall i :: 0 <= i < |e.timeline.history| ==> Fine(e.timeline.history[i].sections, loaded))
  }

  lemma PushedFine(e: Editor, next: Snapshot, loaded: seq<Section>)
    requires AllFine(e, loaded) && Fine(next.sections, loaded)
    ensures AllFine(Pushed(e, next), loaded)
  {
    hide Fine;
    var trimmed := EditorHistory.Trimmed(e.timeline);
    var updated := trimmed + [next];
    assert forall i :: 0 <= i < |trimmed| ==> trimmed[i] == e.timeline.history[i];
    assert forall i :: 0 <= i < |updated| ==> Fine(updated[i].sections, loaded);
  }

  lemma EventKeepsFine(e: Editor, event: Event, suggest: string -> string, loaded: seq<Section>)
    requires AllFine(e, loaded)
    ensures AllFine(After(e, event, suggest), loaded)
  {
    match event
    case Change(sections) =>
      DedupTheorem(sections, suggest);
      PushedFine(e, e.shown.(sections := Deduplicated(sections, suggest)), loaded);
    case ChangeLayout(layout) => PushedFine(e, e.shown.(layout := layout), loaded);
    case _ =>
  }

  lemma {:induction false} RunKeepsFine(e: Editor, events: seq<Event>, suggest: string -> string, loaded: seq<Section>)
    requires AllFine(e, loaded)
    ensures AllFine(AfterAll(e, events, suggest), loaded)
    decreases |events|
  {
    if events != [] {
      EventKeepsFine(e, events[0], suggest, loaded);
      RunKeepsFine(After(e, events[0], suggest), events[1..], suggest, loaded);
    }
  }

  /**
   On every run of edits, undo and redo, repeated pushes included, the tree shown is the one that was
   loaded or one without duplicate references; if the loaded one had none, the gate never stops a deploy.
   */
  lemma EditorStaysDeployable(draft: Snapshot, events: seq<Event>, suggest: string -> string)
    ensures var shown := AfterAll(Loaded(draft), events, suggest).shown;
      && (shown.sections == draft.sections || DuplicateReferences(shown.sections) == [])
      && (DuplicateReferences(draft.sections) == [] ==> DuplicateReferences(shown.sections) == [])
  {
    RunKeepsFine(Loaded(draft), events, suggest, draft.sections);
    var shown := AfterAll(Loaded(draft), events, suggest).shown;
    if UniqueReferences(Flatten(shown.sections)) {
      UniqueMeansNoDuplicates(Flatten(shown.sections));
    }
  }

  /** The snapshot that a change pushes. */
  ghost function PushOf(e: Editor, event: Event, suggest: string -> string): Snapshot
    requires event.Change? || event.ChangeLayout?
  {
    if event.Change? then e.shown.(sections := Deduplicated(event.sections, suggest))
    else e.shown.(layout := event.layout)
  }

  /** The page got where the zipper gets, and shows the present there, unless it could not move. */
  predicate Followed(e: Editor, after: Editor, moved: bool, z: EditorHistory.Zipper<Snapshot>) {
    && EditorHistory.Valid(after.timeline) && EditorHistory.View(after.timeline) == z
    && after.shown == (if moved then z.present else e.shown)
  }

  /**
   While index and list are in step, the page does what the bounded zipper does: a change records its
   snapshot if that differs from the present one, undo and redo step back and forth and show where they get.
   */
  lemma EditorUsesHistory(e: Editor, event: Event, suggest: string -> string)
    requires EditorHistory.Valid(e.timeline)
    ensures var z := EditorHistory.View(e.timeline);
      && Followed(e, After(e, UndoEdit, suggest), z.past != [], EditorHistory.StepBack(z))
      && Followed(e, After(e, RedoEdit, suggest), z.future != [], EditorHistory.StepForward(z))
    ensures event.Retitle? ==> After(e, event, suggest) == Editor(e.shown.(title := event.title), e.timeline)
    ensures event.Change? || event.ChangeLayout? ==>
      var z, next := EditorHistory.View(e.timeline), PushOf(e, event, suggest);
      next != z.present ==> Followed(e, After(e, event, suggest), true, EditorHistory.Record(z, next))
  {
    EditorHistory.UndoRefines(e.timeline);
    if event.Change? || event.ChangeLayout? {
      EditorHistory.PushRefinesIff(e.timeline, PushOf(e, event, suggest));
    }
  }
}
