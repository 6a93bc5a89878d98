/** The pass of the form editor that gives every data field a reference of its own. */
module ReferenceDedup {
  import opened JsText
  import opened FormTree

  /** The n-th reference tried for a field: the base itself, then the base with a number. */
  function Candidate(base: string, n: nat): string {
    if n <= 1 then base else base + "_" + Decimal(n)
  }

  lemma CandidatesDiffer(base: string, m: nat, n: nat)
    requires 1 <= m < n
    ensures Candidate(base, m) != Candidate(base, n)
  {
    if m == 1 {
      assert |Candidate(base, n)| > |base|;
    } else if Candidate(base, m) == Candidate(base, n) {
      assert Decimal(m) == Candidate(base, m)[|base| + 1..];
      assert Decimal(n) == Candidate(base, n)[|base| + 1..];
      DecimalInjective(m, n);
    }
  }

  ghost function Tried(base: string, n: nat): set<string> {
    set k: nat | 1 <= k <= n :: Candidate(base, k)
  }

  lemma {:induction false} TriedCount(base: string, n: nat)
    ensures |Tried(base, n)| == n
  {
    hide Candidate;
    if n > 0 {
      TriedCount(base, n - 1);
      assert Candidate(base, n) !in Tried(base, n - 1) by {
        forall k: nat | 1 <= k < n
          ensures Candidate(base, k) != Candidate(base, n)
        {
          CandidatesDiffer(base, k, n);
        }
      }
      assert Tried(base, n) == Tried(base, n - 1) + {Candidate(base, n)};
    } else {
      assert Tried(base, 0) == {};
    }
  }

  lemma SubsetSize<T>(a: set<T>, b: set<T>)
    requires a <= b
    ensures |a| <= |b|
  {
    assert b == a + (b - a);
  }

  /** Pigeonhole: when the first n candidates are all taken, at least n references are. */
  lemma TakenBound(seen: set<string>, base: string, n: nat)
    requires Tried(base, n) <= seen
    ensures n <= |seen|
  {
    TriedCount(base, n);
    SubsetSize(Tried(base, n), seen);
  }

  /** The number of the first candidate that is not taken. */
  ghost predicate FirstFree(seen: set<string>, base: string, n: nat) {
    n >= 1 && Candidate(base, n) !in seen && forall k: nat :: 1 <= k < n ==> Candidate(base, k) in seen
  }

  ghost function FirstFreeFrom(seen: set<string>, base: string, n: nat): (r: nat)
    requires n >= 1 && forall k: nat :: 1 <= k < n ==> Candidate(base, k) in seen
    ensures FirstFree(seen, base, r)
    decreases |seen| + 1 - n
  {
    TakenBound(seen, base, n - 1);
    if Candidate(base, n) in seen then
      TakenBound(seen, base, n);
      FirstFreeFrom(seen, base, n + 1)
    else n
  }

  ghost function UniqueReference(seen: set<string>, base: string): string {
    Candidate(base, FirstFreeFrom(seen, base, 1))
  }

  lemma FirstFreeIsOne(seen: set<string>, base: string, m: nat, n: nat)
    requires FirstFree(seen, base, m) && FirstFree(seen, base, n)
    ensures m == n
  {
  }

  /** `suggest` stands for the generated default, any function of the element's caption. */
  function BaseReference(el: Element, suggest: string -> string): string {
    var caption := if el.labelText != "" then el.labelText else if el.name != "" then el.name else "field";
    var base := Trim(if el.reference != "" then el.reference else suggest(caption));
    if base != "" then base else "field"
  }

  lemma BaseIsClean(el: Element, suggest: string -> string)
    ensures BaseReference(el, suggest) != "" && IsTrimmed(BaseReference(el, suggest))
  {
    var caption := if el.labelText != "" then el.labelText else if el.name != "" then el.name else "field";
    var _, _ := TrimParts(if el.reference != "" then el.reference else suggest(caption));
  }

  lemma CandidateIsClean(base: string, n: nat)
    requires base != "" && IsTrimmed(base)
    ensures Candidate(base, n) != "" && IsTrimmed(Candidate(base, n))
  {
    if n > 1 {
      DecimalDigits(n, |Decimal(n)| - 1);
    }
  }

  // ----- The pass on a list of elements -----

  ghost function DedupOne(el: Element, seen: set<string>, suggest: string -> string): Element {
    if IsDataField(el.kind) then el.(reference := UniqueReference(seen, BaseReference(el, suggest))) else el
  }

  ghost function SeenAfter(el: Element, seen: set<string>, suggest: string -> string): set<string> {
    if IsDataField(el.kind) then seen + {DedupOne(el, seen, suggest).reference} else seen
  }

  ghost function SeenAfterAll(els: seq<Element>, seen: set<string>, suggest: string -> string): set<string> {
    if els == [] then seen else SeenAfterAll(els[1..], SeenAfter(els[0], seen, suggest), suggest)
  }

  ghost function DedupList(els: seq<Element>, seen: set<string>, suggest: string -> string): seq<Element> {
    if els == [] then []
    else [DedupOne(els[0], seen, suggest)] + DedupList(els[1..], SeenAfter(els[0], seen, suggest), suggest)
  }

  lemma {:induction false} DedupConcat(a: seq<Element>, b: seq<Element>, seen: set<string>, suggest: string -> string)
    ensures DedupList(a + b, seen, suggest) ==
        DedupList(a, seen, suggest) + DedupList(b, SeenAfterAll(a, seen, suggest), suggest)
    ensures SeenAfterAll(a + b, seen, suggest) == SeenAfterAll(b, SeenAfterAll(a, seen, suggest), suggest)
    decreases |a|
  {
    if a == [] {
      assert a + b == b;
    } else {
      assert (a + b)[1..] == a[1..] + b;
      DedupConcat(a[1..], b, SeenAfter(a[0], seen, suggest), suggest);
    }
  }

  // ----- The pass on the whole form -----

  ghost function DedupZones(zones: seq<Zone>, seen: set<string>, suggest: string -> string): seq<Zone> {
    if zones == [] then []
    else
      var first := zones[0].(elements := DedupList(zones[0].elements, seen, suggest));
      [first] + DedupZones(zones[1..], SeenAfterAll(zones[0].elements, seen, suggest), suggest)
  }

  ghost function DedupSections(secs: seq<Section>, seen: set<string>, suggest: string -> string): seq<Section> {
    if secs == [] then []
    else
      var first := secs[0].(zones := DedupZones(secs[0].zones, seen, suggest));
      [first] + DedupSections(secs[1..], SeenAfterAll(ZoneElements(secs[0].zones), seen, suggest), suggest)
  }

  ghost function Deduplicated(secs: seq<Section>, suggest: string -> string): seq<Section> {
    DedupSections(secs, {}, suggest)
  }

  lemma {:induction false} DedupZonesFlat(zones: seq<Zone>, seen: set<string>, suggest: string -> string)
    ensures ZoneElements(DedupZones(zones, seen, suggest)) == DedupList(ZoneElements(zones), seen, suggest)
    decreases |zones|
  {
    if zones != [] {
      DedupZonesFlat(zones[1..], SeenAfterAll(zones[0].elements, seen, suggest), suggest);
      DedupConcat(zones[0].elements, ZoneElements(zones[1..]), seen, suggest);
    }
  }

  lemma {:induction false} DedupSectionsFlat(secs: seq<Section>, seen: set<string>, suggest: string -> string)
    ensures Flatten(DedupSections(secs, seen, suggest)) == DedupList(Flatten(secs), seen, suggest)
    decreases |secs|
  {
    if secs != [] {
      DedupZonesFlat(secs[0].zones, seen, suggest);
      DedupSectionsFlat(secs[1..], SeenAfterAll(ZoneElements(secs[0].zones), seen, suggest), suggest);
      DedupConcat(ZoneElements(secs[0].zones), Flatten(secs[1..]), seen, suggest);
    }
  }

  // ----- What the pass establishes -----

  predicate CleanReference(el: Element) {
    el.reference != "" && IsTrimmed(el.reference)
  }

  /** Data fields have non-blank, trimmed and pairwise different references. */
  ghost predicate UniqueReferences(els: seq<Element>) {
    && (forall i :: 0 <= i < |els| && IsDataField(els[i].kind) ==> CleanReference(els[i]))
    && (forall i, j :: 0 <= i < j < |els| && IsDataField(els[i].kind) && IsDataField(els[j].kind) ==>
          els[i].reference != els[j].reference)
  }

  ghost predicate AvoidsSeen(els: seq<Element>, seen: set<string>) {
    forall i :: 0 <= i < |els| && IsDataField(els[i].kind) ==> els[i].reference !in seen
  }

  lemma {:induction false} DedupIsUnique(els: seq<Element>, seen: set<string>, suggest: string -> string)
    ensures UniqueReferences(DedupList(els, seen, suggest)) && AvoidsSeen(DedupList(els, seen, suggest), seen)
    decreases |els|
  {
    if els != [] {
      var first := DedupOne(els[0], seen, suggest);
      var rest := DedupList(els[1..], SeenAfter(els[0], seen, suggest), suggest);
      DedupIsUnique(els[1..], SeenAfter(els[0], seen, suggest), suggest);
      if IsDataField(els[0].kind) {
        var base := BaseReference(els[0], suggest);
        BaseIsClean(els[0], suggest);
        CandidateIsClean(base, FirstFreeFrom(seen, base, 1));
      }
    }
  }

  /** Nothing but references of data fields changes, and no element moves. */
  lemma {:induction false} DedupOnlyReferences(els: seq<Element>, seen: set<string>, suggest: string -> string)
    ensures var r := DedupList(els, seen, suggest);
      && |r| == |els|
      && forall i :: 0 <= i < |els| ==>
           r[i].(reference := "") == els[i].(reference := "") && (IsDataField(els[i].kind) || r[i] == els[i])
    decreases |els|
  {
    if els != [] {
      DedupOnlyReferences(els[1..], SeenAfter(els[0], seen, suggest), suggest);
    }
  }

  /** The pass changes nothing exactly on the forms that meet its goal already. */
  lemma {:induction false} DedupFixesIff(els: seq<Element>, seen: set<string>, suggest: string -> string)
    ensures DedupList(els, seen, suggest) == els <==> UniqueReferences(els) && AvoidsSeen(els, seen)
    decreases |els|
  {
    DedupIsUnique(els, seen, suggest);
    if els != [] && UniqueReferences(els) && AvoidsSeen(els, seen) {
      var el := els[0];
      if IsDataField(el.kind) {
        TrimmedStays(el.reference);
        assert BaseReference(el, suggest) == el.reference == Candidate(el.reference, 1);
        FirstFreeIsOne(seen, el.reference, FirstFreeFrom(seen, el.reference, 1), 1);
      }
      assert forall i :: 0 <= i < |els[1..]| ==> els[1..][i] == els[i + 1];
      DedupFixesIff(els[1..], SeenAfter(el, seen, suggest), suggest);
    }
  }

  lemma NoSeenToAvoid(els: seq<Element>)
    ensures AvoidsSeen(els, {})
  {
  }

  /** Fields with unique references have no repeated key. */
  lemma UniqueMeansNoDuplicates(els: seq<Element>)
    requires UniqueReferences(els)
    ensures ScanKeys(els).duplicates == []
  {
    ScanIsExact(els);
    if ScanKeys(els).duplicates != [] {
      var key := ScanKeys(els).duplicates[0];
      assert key in ScanKeys(els).duplicates;
      var i, j :| 0 <= i < j < |els| && UsesKey(els[i], key) && UsesKey(els[j], key);
      TrimmedStays(els[i].reference);
      TrimmedStays(els[j].reference);
    }
  }

  /** The outcome for a form: unique references, no other change, no second effect, and a pass at the deploy gate. */
  lemma DedupTheorem(secs: seq<Section>, suggest: string -> string)
    ensures var r := Deduplicated(secs, suggest);
      && UniqueReferences(Flatten(r))
      && DuplicateReferences(r) == []
      && DedupList(Flatten(r), {}, suggest) == Flatten(r)
      && |Flatten(r)| == |Flatten(secs)|
      && (forall i :: 0 <= i < |Flatten(secs)| ==>
          Flatten(r)[i].(reference := "") == Flatten(secs)[i].(reference := ""))
  {
    var r := Deduplicated(secs, suggest);
    DedupSectionsFlat(secs, {}, suggest);
    DedupIsUnique(Flatten(secs), {}, suggest);
    DedupOnlyReferences(Flatten(secs), {}, suggest);
    UniqueMeansNoDuplicates(Flatten(r));
    NoSeenToAvoid(Flatten(r));
    DedupFixesIff(Flatten(r), {}, suggest);
  }

  lemma PartsUnchanged(first: seq<Element>, rest: seq<Element>, seen: set<string>, suggest: string -> string)
    requires DedupList(first + rest, seen, suggest) == first + rest
    ensures DedupList(first, seen, suggest) == first
    ensures DedupList(rest, SeenAfterAll(first, seen, suggest), suggest) == rest
  {
    DedupConcat(first, rest, seen, suggest);
    DedupOnlyReferences(first, seen, suggest);
    assert DedupList(first, seen, suggest) == (first + rest)[..|first|] == first;
    assert DedupList(rest, SeenAfterAll(first, seen, suggest), suggest) == (first + rest)[|first|..] == rest;
  }

  lemma {:induction false} ZonesUnchanged(zones: seq<Zone>, seen: set<string>, suggest: string -> string)
    requires DedupList(ZoneElements(zones), seen, suggest) == ZoneElements(zones)
    ensures DedupZones(zones, seen, suggest) == zones
    decreases |zones|
  {
    if zones != [] {
      var first, rest := zones[0].elements, ZoneElements(zones[1..]);
      PartsUnchanged(first, rest, seen, suggest);
      ZonesUnchanged(zones[1..], SeenAfterAll(first, seen, suggest), suggest);
    }
  }

  lemma {:induction false} SectionsUnchanged(secs: seq<Section>, seen: set<string>, suggest: string -> string)
    requires DedupList(Flatten(secs), seen, suggest) == Flatten(secs)
    ensures DedupSections(secs, seen, suggest) == secs
    decreases |secs|
  {
    if secs != [] {
      var first, rest := ZoneElements(secs[0].zones), Flatten(secs[1..]);
      PartsUnchanged(first, rest, seen, suggest);
      ZonesUnchanged(secs[0].zones, seen, suggest);
      SectionsUnchanged(secs[1..], SeenAfterAll(first, seen, suggest), suggest);
    }
  }

  // ----- Which reference each field gets, and the shape of the form -----

  /** A data field before position i of the outcome has the reference. */
  ghost predicate TakenBefore(out: seq<Element>, i: nat, ref: string) {
    exists j :: 0 <= j < i && j < |out| && IsDataField(out[j].kind) && out[j].reference == ref
  }

  lemma {:induction false} SeenIsTaken(els: seq<Element>, seen: set<string>, suggest: string -> string, ref: string)
    ensures ref in SeenAfterAll(els, seen, suggest) <==>
      ref in seen || TakenBefore(DedupList(els, seen, suggest), |els|, ref)
    decreases |els|
  {
    if els != [] {
      var first, later := DedupOne(els[0], seen, suggest), SeenAfter(els[0], seen, suggest);
      var rest, out := DedupList(els[1..], later, suggest), DedupList(els, seen, suggest);
      SeenIsTaken(els[1..], later, suggest, ref);
      DedupOnlyReferences(els[1..], later, suggest);
      assert out == [first] + rest;
      if j :| 0 <= j < |rest| && IsDataField(rest[j].kind) && rest[j].reference == ref {
        assert out[j + 1] == rest[j];
      }
      if j :| 0 <= j < |out| && IsDataField(out[j].kind) && out[j].reference == ref {
        assert j > 0 ==> rest[j - 1] == out[j];
      }
      if IsDataField(els[0].kind) && first.reference == ref {
        assert out[0] == first;
      }
    }
  }

  /** The n-th reference tried for a field, the first one being its base. */
  predicate Tries(base: string, n: nat, ref: string) {
    n >= 1 && ref == if n == 1 then base else base + "_" + Decimal(n)
  }

  /**
   The base of a field is its own reference, trimmed, or else what its label, its name or the word "field"
   suggests; if nothing is left of that, it is the word "field".
   */
  predicate IsBase(el: Element, suggest: string -> string, base: string) {
    var own := if el.reference != "" then el.reference
               else suggest(if el.labelText != "" then el.labelText else if el.name != "" then el.name else "field");
    base == if Trim(own) != "" then Trim(own) else "field"
  }

  /** Every data field gets its base, or the base with the first number that no field before it has. */
  lemma DedupGives(els: seq<Element>, i: nat, suggest: string -> string) returns (base: string, n: nat)
    requires i < |els| && IsDataField(els[i].kind)
    ensures var out := DedupList(els, {}, suggest);
      && |out| == |els| && IsBase(els[i], suggest, base) && Tries(base, n, out[i].reference)
      && !TakenBefore(out, i, out[i].reference)
      && forall m, ref :: 1 <= m < n && Tries(base, m, ref) ==> TakenBefore(out, i, ref)
  {
    var out, seen := DedupList(els, {}, suggest), SeenAfterAll(els[..i], {}, suggest);
    var front := DedupList(els[..i], {}, suggest);
    assert els == els[..i] + els[i..];
    DedupConcat(els[..i], els[i..], {}, suggest);
    DedupOnlyReferences(els[..i], {}, suggest);
    DedupOnlyReferences(els, {}, suggest);
    assert out[i] == DedupOne(els[i], seen, suggest);
    assert forall j :: 0 <= j < i ==> out[j] == front[j];
    base := BaseReference(els[i], suggest);
    n := FirstFreeFrom(seen, base, 1);
    forall ref
      ensures ref in seen <==> TakenBefore(out, i, ref)
    {
      SeenIsTaken(els[..i], {}, suggest, ref);
    }
    assert forall m: nat, ref :: Tries(base, m, ref) ==> ref == Candidate(base, m);
  }

  /** Sections and zones stay, each with as many elements. */
  ghost predicate SameZones(a: seq<Zone>, b: seq<Zone>) {
    |a| == |b| && forall j :: 0 <= j < |a| ==> b[j].id == a[j].id && |b[j].elements| == |a[j].elements|
  }

  ghost predicate SameShape(a: seq<Section>, b: seq<Section>) {
    |a| == |b| && forall i :: 0 <= i < |a| ==> b[i].id == a[i].id && SameZones(a[i].zones, b[i].zones)
  }

  lemma {:induction false} ZonesKeepShape(zones: seq<Zone>, seen: set<string>, suggest: string -> string)
    ensures SameZones(zones, DedupZones(zones, seen, suggest))
    decreases |zones|
  {
    if zones != [] {
      DedupOnlyReferences(zones[0].elements, seen, suggest);
      ZonesKeepShape(zones[1..], SeenAfterAll(zones[0].elements, seen, suggest), suggest);
    }
  }

  lemma {:induction false} SectionsKeepShape(secs: seq<Section>, seen: set<string>, suggest: string -> string)
    ensures SameShape(secs, DedupSections(secs, seen, suggest))
    decreases |secs|
  {
    if secs != [] {
      ZonesKeepShape(secs[0].zones, seen, suggest);
      SectionsKeepShape(secs[1..], SeenAfterAll(ZoneElements(secs[0].zones), seen, suggest), suggest);
    }
  }

  /** On a whole form, in reading order, and with every element left in its zone. */
  lemma DedupGivesForm(secs: seq<Section>, i: nat, suggest: string -> string) returns (base: string, n: nat)
    requires i < |Flatten(secs)| && IsDataField(Flatten(secs)[i].kind)
    ensures SameShape(secs, Deduplicated(secs, suggest))
    ensures var out := Flatten(Deduplicated(secs, suggest));
      && |out| == |Flatten(secs)| && IsBase(Flatten(secs)[i], suggest, base) && Tries(base, n, out[i].reference)
      && !TakenBefore(out, i, out[i].reference)
      && forall m, ref :: 1 <= m < n && Tries(base, m, ref) ==> TakenBefore(out, i, ref)
  {
    DedupSectionsFlat(secs, {}, suggest);
    SectionsKeepShape(secs, {}, suggest);
    base, n := DedupGives(Flatten(secs), i, suggest);
  }

  /** The whole form, not only its flattening, is left alone exactly when its references are unique. */
  lemma FormUnchangedIff(secs: seq<Section>, suggest: string -> string)
    ensures Deduplicated(secs, suggest) == secs <==> UniqueReferences(Flatten(secs))
  {
    NoSeenToAvoid(Flatten(secs));
    DedupFixesIff(Flatten(secs), {}, suggest);
    DedupSectionsFlat(secs, {}, suggest);
    if UniqueReferences(Flatten(secs)) {
      SectionsUnchanged(secs, {}, suggest);
    }
  }

  lemma DedupTwice(secs: seq<Section>, suggest: string -> string)
    ensures Deduplicated(Deduplicated(secs, suggest), suggest) == Deduplicated(secs, suggest)
  {
    DedupTheorem(secs, suggest);
    FormUnchangedIff(Deduplicated(secs, suggest), suggest);
  }

  // ----- The pass as it runs -----

  /** The renaming loop: it stops, after at most one candidate more than there are references taken. */
  method FreeReference(seen: set<string>, base: string) returns (ref: string, counter: nat)
    ensures ref == UniqueReference(seen, base) && ref !in seen
    ensures 1 <= counter <= |seen| + 1
  {
    ref, counter := base, 1;
    while ref in seen
      invariant counter >= 1 && ref == Candidate(base, counter)
      invariant forall k: nat :: 1 <= k < counter ==> Candidate(base, k) in seen
      decreases |seen| + 1 - counter
    {
      TakenBound(seen, base, counter);
      counter := counter + 1;
      ref := base + "_" + Decimal(counter);
    }
    TakenBound(seen, base, counter - 1);
    FirstFreeIsOne(seen, base, FirstFreeFrom(seen, base, 1), counter);
  }

  method DeduplicateReferences(secs: seq<Section>, suggest: string -> string) returns (result: seq<Section>)
    ensures result == Deduplicated(secs, suggest)
  {
    var seen: set<string> := {};
    var modified := false;
    var copy: seq<Section> := [];
    for i := 0 to |secs|
      invariant |copy| == i
      invariant copy + DedupSections(secs[i..], seen, suggest) == Deduplicated(secs, suggest)
      invariant !modified ==> copy == secs[..i]
    {
      var zones, changed := [], false;
      ghost var before := seen;
      zones, seen, changed := DeduplicateZones(secs[i].zones, seen, suggest);
      copy := copy + [secs[i].(zones := zones)];
      modified := modified || changed;
      assert secs[i..][1..] == secs[i + 1..];
    }
    assert secs[..|secs|] == secs;
    result := if modified then copy else secs;
  }

  lemma NoZones(seen: set<string>, suggest: string -> string)
    ensures DedupZones([], seen, suggest) == [] && SeenAfterAll(ZoneElements([]), seen, suggest) == seen
    ensures DedupList([], seen, suggest) == [] && SeenAfterAll([], seen, suggest) == seen
  {
  }

  lemma ZoneStep(zones: seq<Zone>, j: nat, seen: set<string>, suggest: string -> string)
    requires j < |zones|
    ensures var later := SeenAfterAll(zones[j].elements, seen, suggest);
      && DedupZones(zones[j..], seen, suggest) ==
           [zones[j].(elements := DedupList(zones[j].elements, seen, suggest))] +
               DedupZones(zones[j + 1..], later, suggest)
      && SeenAfterAll(ZoneElements(zones[j..]), seen, suggest) ==
          SeenAfterAll(ZoneElements(zones[j + 1..]), later, suggest)
  {
    assert zones[j..][0] == zones[j] && zones[j..][1..] == zones[j + 1..];
    DedupConcat(zones[j].elements, ZoneElements(zones[j + 1..]), seen, suggest);
  }

  lemma ElementStep(els: seq<Element>, k: nat, seen: set<string>, suggest: string -> string)
    requires k < |els|
    ensures var later := SeenAfter(els[k], seen, suggest);
      && DedupList(els[k..], seen, suggest) ==
          [DedupOne(els[k], seen, suggest)] + DedupList(els[k + 1..], later, suggest)
      && SeenAfterAll(els[k..], seen, suggest) == SeenAfterAll(els[k + 1..], later, suggest)
  {
    assert els[k..][0] == els[k] && els[k..][1..] == els[k + 1..];
  }

  method DeduplicateZones(zones: seq<Zone>, seen0: set<string>, suggest: string -> string)
    returns (result: seq<Zone>, seen: set<string>, modified: bool)
    ensures result == DedupZones(zones, seen0, suggest)
    ensures seen == SeenAfterAll(ZoneElements(zones), seen0, suggest)
    ensures !modified ==> result == zones
  {
    hide DedupZones, SeenAfterAll, DedupList, ZoneElements;
    result, seen, modified := [], seen0, false;
    for j := 0 to |zones|
      invariant |result| == j
      invariant result + DedupZones(zones[j..], seen, suggest) == DedupZones(zones, seen0, suggest)
      invariant SeenAfterAll(ZoneElements(zones[j..]), seen, suggest) ==
          SeenAfterAll(ZoneElements(zones), seen0, suggest)
      invariant !modified ==> result == zones[..j]
    {
      var elements, changed;
      ghost var before := seen;
      elements, seen, changed := DeduplicateElements(zones[j].elements, seen, suggest);
      ZoneStep(zones, j, before, suggest);
      assert (result + [zones[j].(elements := elements)]) + DedupZones(zones[j + 1..], seen, suggest)
        == result + ([zones[j].(elements := elements)] + DedupZones(zones[j + 1..], seen, suggest));
      result := result + [zones[j].(elements := elements)];
      modified := modified || changed;
    }
    assert zones[|zones|..] == [] && zones[..|zones|] == zones;
    NoZones(seen, suggest);
  }

  method DeduplicateElements(els: seq<Element>, seen0: set<string>, suggest: string -> string)
    returns (result: seq<Element>, seen: set<string>, modified: bool)
    ensures result == DedupList(els, seen0, suggest)
    ensures seen == SeenAfterAll(els, seen0, suggest)
    ensures !modified ==> result == els
  {
    hide DedupList, SeenAfterAll, BaseReference, UniqueReference;
    result, seen, modified := [], seen0, false;
    for k := 0 to |els|
      invariant |result| == k
      invariant result + DedupList(els[k..], seen, suggest) == DedupList(els, seen0, suggest)
      invariant SeenAfterAll(els[k..], seen, suggest) == SeenAfterAll(els, seen0, suggest)
      invariant !modified ==> result == els[..k]
    {
      var el := els[k];
      ElementStep(els, k, seen, suggest);
      ghost var before := result;
      if IsDataField(el.kind) {
        var ref, _ := FreeReference(seen, BaseReference(el, suggest));
        seen := seen + {ref};
        if ref != el.reference {
          modified := true;
          el := el.(reference := ref);
        }
      }
      result := result + [el];
      assert result + DedupList(els[k + 1..], seen, suggest) ==
          before + ([el] + DedupList(els[k + 1..], seen, suggest));
    }
    assert els[|els|..] == [] && els[..|els|] == els;
    NoZones(seen, suggest);
  }
}
