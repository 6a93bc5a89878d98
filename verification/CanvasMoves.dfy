/** Drag moves of the form canvas: elements between zones, zones between sections, sections. */
module CanvasMoves {
  import opened FormTree
  import opened ReferenceDedup

  function RemoveAt<T>(s: seq<T>, i: nat): seq<T>
    requires i < |s|
  {
    s[..i] + s[i + 1..]
  }

  function InsertAt<T>(s: seq<T>, i: nat, x: T): seq<T>
    requires i <= |s|
  {
    s[..i] + [x] + s[i..]
  }

  /** `t` is `s` with the item at p taken out and put back at q: all others keep their order. */
  ghost predicate Relocated<T>(s: seq<T>, t: seq<T>, p: nat, q: nat) {
    p < |s| && q < |s| && t == InsertAt(RemoveAt(s, p), q, s[p])
  }

  lemma RelocatedIsPermutation<T>(s: seq<T>, t: seq<T>, p: nat, q: nat)
    requires Relocated(s, t, p, q)
    ensures multiset(t) == multiset(s) && |t| == |s| && t[q] == s[p]
  {
    var r := RemoveAt(s, p);
    assert s == s[..p] + [s[p]] + s[p + 1..];
    assert multiset(r) + multiset{s[p]} == multiset(s);
    assert r == r[..q] + r[q..];
    assert multiset(t) == multiset(r) + multiset{s[p]};
  }

  lemma RemoveInserted<T>(s: seq<T>, i: nat, x: T)
    requires i <= |s|
    ensures RemoveAt(InsertAt(s, i, x), i) == s && InsertAt(s, i, x)[i] == x
  {
  }

  lemma InsertRemoved<T>(s: seq<T>, i: nat)
    requires i < |s|
    ensures InsertAt(RemoveAt(s, i), i, s[i]) == s
  {
  }

  /** The index at which an item taken from k lands when it is dropped at t of the same list. */
  function Landing(k: nat, t: int, size: nat): nat
  {
    Clamp(if t > k then t - 1 else t, size)
  }

  function Clamp(t: int, size: nat): (r: nat)
    ensures r <= size
  {
    if t < 0 then 0 else if t > size then size else t
  }

  function IndexOfSection(sections: seq<Section>, id: string): (r: int)
    ensures -1 <= r < |sections|
    ensures r >= 0 ==> sections[r].id == id
  {
    if sections == [] then -1
    else if sections[0].id == id then 0
    else var r := IndexOfSection(sections[1..], id); if r == -1 then -1 else r + 1
  }

  function IndexOfZone(zones: seq<Zone>, id: string): (r: int)
    ensures -1 <= r < |zones|
    ensures r >= 0 ==> zones[r].id == id
  {
    if zones == [] then -1
    else if zones[0].id == id then 0
    else var r := IndexOfZone(zones[1..], id); if r == -1 then -1 else r + 1
  }

  lemma {:induction false} FirstSection(sections: seq<Section>, id: string)
    ensures var r := IndexOfSection(sections, id);
      forall i :: 0 <= i < (if r == -1 then |sections| else r) ==> sections[i].id != id
  {
    if sections != [] && sections[0].id != id {
      FirstSection(sections[1..], id);
      assert forall i :: 1 <= i < |sections| ==> sections[i] == sections[1..][i - 1];
    }
  }

  lemma {:induction false} FirstZone(zones: seq<Zone>, id: string)
    ensures var r := IndexOfZone(zones, id);
      forall j :: 0 <= j < (if r == -1 then |zones| else r) ==> zones[j].id != id
  {
    if zones != [] && zones[0].id != id {
      FirstZone(zones[1..], id);
      assert forall j :: 1 <= j < |zones| ==> zones[j] == zones[1..][j - 1];
    }
  }

  // ----- Elements -----

  predicate HasZone(sections: seq<Section>, i: nat, j: nat) {
    i < |sections| && j < |sections[i].zones|
  }

  function ElementsAt(sections: seq<Section>, i: nat, j: nat): seq<Element>
    requires HasZone(sections, i, j)
  {
    sections[i].zones[j].elements
  }

  function SetElements(sections: seq<Section>, i: nat, j: nat, elements: seq<Element>): seq<Section>
    requires HasZone(sections, i, j)
  {
    var zones := sections[i].zones;
    sections[i := sections[i].(zones := zones[j := zones[j].(elements := elements)])]
  }

  /** Takes element k out of zone (i, j) and puts it at index c of zone (i2, j2). */
  function MoveElementAt(sections: seq<Section>, i: nat, j: nat, k: nat, i2: nat, j2: nat, c: nat): seq<Section>
    requires HasZone(sections, i, j) && k < |ElementsAt(sections, i, j)| && HasZone(sections, i2, j2)
    requires c <= |ElementsAt(TakeElement(sections, i, j, k), i2, j2)|
  {
    var rest := TakeElement(sections, i, j, k);
    SetElements(rest, i2, j2, InsertAt(ElementsAt(rest, i2, j2), c, ElementsAt(sections, i, j)[k]))
  }

  function TakeElement(sections: seq<Section>, i: nat, j: nat, k: nat): (r: seq<Section>)
    requires HasZone(sections, i, j) && k < |ElementsAt(sections, i, j)|
    ensures forall a, b :: HasZone(r, a, b) <==> HasZone(sections, a, b)
  {
    SetElements(sections, i, j, RemoveAt(ElementsAt(sections, i, j), k))
  }

  /** How many elements precede zone (i, j) in reading order. */
  function ZoneOffset(sections: seq<Section>, i: nat, j: nat): nat
    requires HasZone(sections, i, j)
  {
    |Flatten(sections[..i]) + ZoneElements(sections[i].zones[..j])|
  }

  lemma SetElementsFlat(sections: seq<Section>, i: nat, j: nat, elements: seq<Element>)
    requires HasZone(sections, i, j)
    ensures
      var o := ZoneOffset(sections, i, j);
      var n := |ElementsAt(sections, i, j)|;
      && o + n <= |Flatten(sections)|
      && Flatten(sections)[o..o + n] == ElementsAt(sections, i, j)
      && Flatten(SetElements(sections, i, j, elements)) ==
          Flatten(sections)[..o] + elements + Flatten(sections)[o + n..]
      && ZoneOffset(SetElements(sections, i, j, elements), i, j) == o
  {
    var t := SetElements(sections, i, j, elements);
    FlattenSplit(sections, i, j);
    FlattenSplit(t, i, j);
    assert t[..i] == sections[..i] && t[i + 1..] == sections[i + 1..];
    assert t[i].zones[..j] == sections[i].zones[..j] && t[i].zones[j + 1..] == sections[i].zones[j + 1..];
    hide Flatten, ZoneElements, SetElements;
    Within(Flatten(sections[..i]) + ZoneElements(sections[i].zones[..j]), ElementsAt(sections, i, j), elements,
           ZoneElements(sections[i].zones[j + 1..]) + Flatten(sections[i + 1..]), Flatten(sections), Flatten(t));
  }

  lemma Within(a: seq<Element>, b: seq<Element>, c: seq<Element>, d: seq<Element>, whole: seq<Element>,
      other: seq<Element>)
    requires whole == a + b + d && other == a + c + d
    ensures |a| + |b| <= |whole| && whole[|a|..|a| + |b|] == b
    ensures other == whole[..|a|] + c + whole[|a| + |b|..]
  {
    assert whole[..|a|] == a && whole[|a| + |b|..] == d;
  }

  lemma TakeElementFlat(sections: seq<Section>, i: nat, j: nat, k: nat)
    requires HasZone(sections, i, j) && k < |ElementsAt(sections, i, j)|
    ensures
      var p := ZoneOffset(sections, i, j) + k;
      && p < |Flatten(sections)| && Flatten(sections)[p] == ElementsAt(sections, i, j)[k]
      && Flatten(TakeElement(sections, i, j, k)) == RemoveAt(Flatten(sections), p)
  {
    hide Flatten, ZoneOffset, SetElements, RemoveAt;
    var es := ElementsAt(sections, i, j);
    SetElementsFlat(sections, i, j, RemoveAt(es, k));
    RemoveWithin(Flatten(sections), ZoneOffset(sections, i, j), es, k);
  }

  lemma PutElementFlat(sections: seq<Section>, i: nat, j: nat, c: nat, x: Element)
    requires HasZone(sections, i, j) && c <= |ElementsAt(sections, i, j)|
    ensures
      var q := ZoneOffset(sections, i, j) + c;
      && q <= |Flatten(sections)|
      && Flatten(SetElements(sections, i, j, InsertAt(ElementsAt(sections, i, j), c, x))) ==
          InsertAt(Flatten(sections), q, x)
  {
    var es := ElementsAt(sections, i, j);
    SetElementsFlat(sections, i, j, InsertAt(es, c, x));
    InsertWithin(Flatten(sections), ZoneOffset(sections, i, j), es, c, x);
  }

  /** Every element move is the relocation of one element in reading order, to before the given place. */
  lemma MoveElementFlat(sections: seq<Section>, i: nat, j: nat, k: nat, i2: nat, j2: nat, c: nat)
    requires HasZone(sections, i, j) && k < |ElementsAt(sections, i, j)| && HasZone(sections, i2, j2)
    requires c <= |ElementsAt(TakeElement(sections, i, j, k), i2, j2)|
    ensures Relocated(Flatten(sections), Flatten(MoveElementAt(sections, i, j, k, i2, j2, c)),
                      ZoneOffset(sections, i, j) + k, ZoneOffset(TakeElement(sections, i, j, k), i2, j2) + c)
  {
    hide Flatten;
    TakeElementFlat(sections, i, j, k);
    PutElementFlat(TakeElement(sections, i, j, k), i2, j2, c, ElementsAt(sections, i, j)[k]);
  }

  lemma RemoveWithin<T>(s: seq<T>, o: nat, part: seq<T>, k: nat)
    requires o + |part| <= |s| && s[o..o + |part|] == part && k < |part|
    ensures s[..o] + RemoveAt(part, k) + s[o + |part|..] == RemoveAt(s, o + k)
    ensures s[o + k] == part[k]
  {
    assert s[o + k] == s[o..o + |part|][k];
    assert s[..o + k] == s[..o] + part[..k];
    assert s[o + k + 1..] == part[k + 1..] + s[o + |part|..];
  }

  lemma InsertWithin<T>(s: seq<T>, o: nat, part: seq<T>, c: nat, x: T)
    requires o + |part| <= |s| && s[o..o + |part|] == part && c <= |part|
    ensures s[..o] + InsertAt(part, c, x) + s[o + |part|..] == InsertAt(s, o + c, x)
  {
    assert s[..o + c] == s[..o] + part[..c];
    assert s[o + c..] == part[c..] + s[o + |part|..];
  }

  /** The opposite move restores the form. */
  lemma MoveElementBack(sections: seq<Section>, i: nat, j: nat, k: nat, i2: nat, j2: nat, c: nat)
    requires HasZone(sections, i, j) && k < |ElementsAt(sections, i, j)| && HasZone(sections, i2, j2)
    requires c <= |ElementsAt(TakeElement(sections, i, j, k), i2, j2)|
    ensures
      var moved := MoveElementAt(sections, i, j, k, i2, j2, c);
      && HasZone(moved, i2, j2) && c < |ElementsAt(moved, i2, j2)|
      && TakeElement(moved, i2, j2, c) == TakeElement(sections, i, j, k)
      && MoveElementAt(moved, i2, j2, c, i, j, k) == sections
  {
    var es := ElementsAt(sections, i, j);
    var rest := TakeElement(sections, i, j, k);
    var es2 := ElementsAt(rest, i2, j2);
    var moved := MoveElementAt(sections, i, j, k, i2, j2, c);
    RemoveInserted(es2, c, es[k]);
    SetElementsTwice(rest, i2, j2, InsertAt(es2, c, es[k]));
    InsertRemoved(es, k);
    SetElementsTwice(sections, i, j, RemoveAt(es, k));
  }

  lemma SetElementsTwice(sections: seq<Section>, i: nat, j: nat, elements: seq<Element>)
    requires HasZone(sections, i, j)
    ensures SetElements(SetElements(sections, i, j, elements), i, j, ElementsAt(sections, i, j)) == sections
  {
    var t := SetElements(sections, i, j, elements);
    var zones := sections[i].zones;
    assert t[i].zones[j := t[i].zones[j].(elements := ElementsAt(sections, i, j))] == zones;
  }

  /** A move or a deletion that starts from unique references leaves the deduplication pass nothing to do. */
  lemma MoveThenDedup(before: seq<Section>, after: seq<Section>, suggest: string -> string)
    requires multiset(Flatten(after)) <= multiset(Flatten(before)) && UniqueReferences(Flatten(before))
    ensures Deduplicated(after, suggest) == after
  {
    FewerStayUnique(Flatten(before), Flatten(after));
    FormUnchangedIff(after, suggest);
  }

  lemma FewerStayUnique(a: seq<Element>, b: seq<Element>)
    requires multiset(b) <= multiset(a) && UniqueReferences(a)
    ensures UniqueReferences(b)
  {
    forall i | 0 <= i < |b| && IsDataField(b[i].kind)
      ensures CleanReference(b[i])
    {
      assert b[i] in multiset(a);
    }
    forall i, j | 0 <= i < j < |b| && IsDataField(b[i].kind) && IsDataField(b[j].kind)
      ensures b[i].reference != b[j].reference
    {
      if b[i] == b[j] {
        assert b == b[..i] + [b[i]] + b[i + 1..j] + [b[j]] + b[j + 1..];
        assert multiset(b)[b[i]] >= 2;
        OccursTwice(a, b[i]);
      } else {
        assert b[i] in multiset(a) && b[j] in multiset(a);
        var p, q := OccursAt(a, b[i]), OccursAt(a, b[j]);
        assert a[p].reference != a[q].reference;
      }
    }
  }

  ghost function OccursAt(a: seq<Element>, x: Element): (p: nat)
    requires x in multiset(a)
    ensures p < |a| && a[p] == x
  {
    var p :| 0 <= p < |a| && a[p] == x; p
  }

  lemma {:induction false} OccursTwice(a: seq<Element>, x: Element)
    requires multiset(a)[x] >= 2
    ensures exists p, q :: 0 <= p < q < |a| && a[p] == x && a[q] == x
  {
    var n := |a| - 1;
    assert a == a[..n] + [a[n]];
    if a[n] == x {
      assert x in multiset(a[..n]);
      var p := OccursAt(a[..n], x);
      assert a[p] == x && a[n] == x;
    } else {
      OccursTwice(a[..n], x);
      var p, q :| 0 <= p < q < n && a[..n][p] == x && a[..n][q] == x;
      assert a[p] == x && a[q] == x;
    }
  }

  // ----- The element handler -----

  datatype Drop = NoMove | Move(i: nat, j: nat, k: nat, i2: nat, j2: nat, c: nat)

  /** What a drop of element `from` of one zone at index `to` of another, or the same, comes to. */
  function ElementDrop(sections: seq<Section>, fromSec: string, fromZone: string, from: nat,
                       toSec: string, toZone: string, to: int): Drop
  {
    var i, i2 := IndexOfSection(sections, fromSec), IndexOfSection(sections, toSec);
    if i == -1 || i2 == -1 then NoMove
    else
      var j, j2 := IndexOfZone(sections[i].zones, fromZone), IndexOfZone(sections[i2].zones, toZone);
      if j == -1 || j2 == -1 || from >= |ElementsAt(sections, i, j)| then NoMove
      else if i == i2 && j == j2 then Move(i, j, from, i, j, Landing(from, to, |ElementsAt(sections, i, j)| - 1))
      else Move(i, j, from, i2, j2, Clamp(to, |ElementsAt(sections, i2, j2)|))
  }

  /** Zone j of section i is the first one with its id, in the first section with its id. */
  ghost predicate PlaceOf(sections: seq<Section>, section: string, zone: string, i: nat, j: nat) {
    && HasZone(sections, i, j) && sections[i].id == section && sections[i].zones[j].id == zone
    && (forall a :: 0 <= a < i ==> sections[a].id != section)
    && (forall b :: 0 <= b < j ==> sections[i].zones[b].id != zone)
  }

  /**
   A drop moves something exactly when both places are there and the first one has such an element; it takes that
   element, and a drop behind the last element of the zone, or before its first, lands there.
   */
  lemma ElementDropIff(sections: seq<Section>, fromSec: string, fromZone: string, from: nat,
                       toSec: string, toZone: string, to: int)
    ensures var d := ElementDrop(sections, fromSec, fromZone, from, toSec, toZone, to);
      && (d.Move? <==>
            && (exists i: nat, j: nat ::
                  PlaceOf(sections, fromSec, fromZone, i, j) && from < |ElementsAt(sections, i, j)|)
            && (exists i: nat, j: nat :: PlaceOf(sections, toSec, toZone, i, j)))
      && (d.Move? ==>
            && PlaceOf(sections, fromSec, fromZone, d.i, d.j) && d.k == from
            && PlaceOf(sections, toSec, toZone, d.i2, d.j2)
            && var size := |ElementsAt(sections, d.i2, d.j2)| - if d.i == d.i2 && d.j == d.j2 then 1 else 0;
               (to > size ==> d.c == size) && (to <= 0 ==> d.c == 0))
  {
    PlaceFound(sections, fromSec, fromZone);
    PlaceFound(sections, toSec, toZone);
    hide PlaceOf;
  }

  /** The search finds the place if there is one. */
  lemma PlaceFound(sections: seq<Section>, section: string, zone: string)
    ensures var i := IndexOfSection(sections, section);
      var j := if i == -1 then -1 else IndexOfZone(sections[i].zones, zone);
      && (j != -1 ==> PlaceOf(sections, section, zone, i, j))
      && forall a: nat, b: nat :: PlaceOf(sections, section, zone, a, b) ==> j != -1 && a == i && b == j
  {
    FirstSection(sections, section);
    var i := IndexOfSection(sections, section);
    if i != -1 {
      FirstZone(sections[i].zones, zone);
    }
  }

  predicate ValidMove(sections: seq<Section>, d: Drop) {
    && d.Move?
    && HasZone(sections, d.i, d.j) && d.k < |ElementsAt(sections, d.i, d.j)| && HasZone(sections, d.i2, d.j2)
    && d.c <= |ElementsAt(TakeElement(sections, d.i, d.j, d.k), d.i2, d.j2)|
  }

  function Dropped(sections: seq<Section>, d: Drop): seq<Section>
    requires d.NoMove? || ValidMove(sections, d)
  {
    if d.NoMove? then sections else MoveElementAt(sections, d.i, d.j, d.k, d.i2, d.j2, d.c)
  }

  lemma ElementDropValid(sections: seq<Section>, fromSec: string, fromZone: string, from: nat,
                         toSec: string, toZone: string, to: int)
    ensures var d := ElementDrop(sections, fromSec, fromZone, from, toSec, toZone, to);
      d.NoMove? || ValidMove(sections, d)
  {
  }

  /** The handler. `moved` tells whether it hands a new form on; otherwise nothing happens. */
  method HandleMoveElement(sections: seq<Section>, fromSec: string, fromZone: string, from: nat,
                           toSec: string, toZone: string, to: int)
    returns (moved: bool, copy: seq<Section>)
    ensures
      var d := ElementDrop(sections, fromSec, fromZone, from, toSec, toZone, to);
      (d.NoMove? || ValidMove(sections, d)) && moved == d.Move? && copy == Dropped(sections, d)
  {
    copy, moved := sections, false;
    var i, i2 := IndexOfSection(copy, fromSec), IndexOfSection(copy, toSec);
    if i == -1 || i2 == -1 { return; }
    var j, j2 := IndexOfZone(copy[i].zones, fromZone), IndexOfZone(copy[i2].zones, toZone);
    if j == -1 || j2 == -1 { return; }
    var source := copy[i].zones[j].elements;
    if from >= |source| { return; }
    var element := source[from];
    source := source[..from] + source[from + 1..];
    moved := true;
    if fromSec == toSec && fromZone == toZone {
      var target := if to > from then to - 1 else to;
      var clamped := Clamp(target, |source|);
      source := source[..clamped] + [element] + source[clamped..];
      var zones := copy[i].zones;
      zones := zones[j := zones[j].(elements := source)];
      copy := copy[i := copy[i].(zones := zones)];
      SetElementsAgain(sections, i, j, RemoveAt(ElementsAt(sections, i, j), from), source);
    } else {
      var target := copy[i2].zones[j2].elements;
      var clamped := Clamp(to, |target|);
      target := target[..clamped] + [element] + target[clamped..];
      var zones := copy[i].zones;
      zones := zones[j := zones[j].(elements := source)];
      copy := copy[i := copy[i].(zones := zones)];
      zones := copy[i2].zones;
      zones := zones[j2 := zones[j2].(elements := target)];
      copy := copy[i2 := copy[i2].(zones := zones)];
    }
  }

  lemma SetElementsAgain(sections: seq<Section>, i: nat, j: nat, first: seq<Element>, second: seq<Element>)
    requires HasZone(sections, i, j)
    ensures SetElements(SetElements(sections, i, j, first), i, j, second) == SetElements(sections, i, j, second)
  {
    var zones := sections[i].zones;
    assert zones[j := zones[j].(elements := first)][j := zones[j].(elements := second)] ==
        zones[j := zones[j].(elements := second)];
  }

  /**
   A drop relocates one element in reading order; the element that was at the drop index, unless it is
   the moved one itself, comes right after it; and with unique references nothing is renamed.
   */
  lemma ElementDropTheorem(sections: seq<Section>, fromSec: string, fromZone: string, from: nat,
                           toSec: string, toZone: string, to: int, suggest: string -> string)
    requires ElementDrop(sections, fromSec, fromZone, from, toSec, toZone, to).Move?
    ensures
      var d := ElementDrop(sections, fromSec, fromZone, from, toSec, toZone, to);
      && ValidMove(sections, d)
      && Relocated(Flatten(sections), Flatten(Dropped(sections, d)),
                   ZoneOffset(sections, d.i, d.j) + d.k,
                   ZoneOffset(TakeElement(sections, d.i, d.j, d.k), d.i2, d.j2) + d.c)
      && multiset(Flatten(Dropped(sections, d))) == multiset(Flatten(sections))
      && (UniqueReferences(Flatten(sections)) ==> Deduplicated(Dropped(sections, d), suggest) == Dropped(sections, d))
  {
    hide Flatten, MoveElementAt, TakeElement, ZoneOffset, ElementDrop, Relocated, UniqueReferences;
    var d := ElementDrop(sections, fromSec, fromZone, from, toSec, toZone, to);
    ElementDropValid(sections, fromSec, fromZone, from, toSec, toZone, to);
    MoveElementFlat(sections, d.i, d.j, d.k, d.i2, d.j2, d.c);
    RelocatedIsPermutation(Flatten(sections), Flatten(Dropped(sections, d)), ZoneOffset(sections, d.i, d.j) + d.k,
                           ZoneOffset(TakeElement(sections, d.i, d.j, d.k), d.i2, d.j2) + d.c);
    if UniqueReferences(Flatten(sections)) {
      MoveThenDedup(sections, Dropped(sections, d), suggest);
    }
  }

  /** The moved element stands at its landing place, immediately before the element it was dropped on. */
  lemma ElementLandsBeforeTarget(sections: seq<Section>, fromSec: string, fromZone: string, from: nat,
                                 toSec: string, toZone: string, to: nat)
    requires ElementDrop(sections, fromSec, fromZone, from, toSec, toZone, to).Move?
    ensures
      var d := ElementDrop(sections, fromSec, fromZone, from, toSec, toZone, to);
      var after := Dropped(sections, d);
      && HasZone(after, d.i2, d.j2) && d.c < |ElementsAt(after, d.i2, d.j2)|
      && ElementsAt(after, d.i2, d.j2)[d.c] == ElementsAt(sections, d.i, d.j)[from]
      && (to < |ElementsAt(sections, d.i2, d.j2)| && !(d.i == d.i2 && d.j == d.j2 && to == from) ==>
            && d.c + 1 < |ElementsAt(after, d.i2, d.j2)|
            && ElementsAt(after, d.i2, d.j2)[d.c + 1] == ElementsAt(sections, d.i2, d.j2)[to])
  {
  }

  lemma {:induction false} SameSectionIds(a: seq<Section>, b: seq<Section>, id: string)
    requires |a| == |b| && forall n :: 0 <= n < |a| ==> a[n].id == b[n].id
    ensures IndexOfSection(a, id) == IndexOfSection(b, id)
    decreases |a|
  {
    if a != [] && a[0].id != id {
      SameSectionIds(a[1..], b[1..], id);
    }
  }

  lemma {:induction false} SameZoneIds(a: seq<Zone>, b: seq<Zone>, id: string)
    requires |a| == |b| && forall n :: 0 <= n < |a| ==> a[n].id == b[n].id
    ensures IndexOfZone(a, id) == IndexOfZone(b, id)
    decreases |a|
  {
    if a != [] && a[0].id != id {
      SameZoneIds(a[1..], b[1..], id);
    }
  }

  predicate SameIds(a: seq<Section>, b: seq<Section>) {
    && |a| == |b|
    && (forall n :: 0 <= n < |a| ==> a[n].id == b[n].id && |a[n].zones| == |b[n].zones|)
    && (forall n, m :: 0 <= n < |a| && 0 <= m < |a[n].zones| ==> a[n].zones[m].id == b[n].zones[m].id)
  }

  lemma SetElementsSameIds(sections: seq<Section>, i: nat, j: nat, elements: seq<Element>)
    requires HasZone(sections, i, j)
    ensures SameIds(sections, SetElements(sections, i, j, elements))
  {
  }

  /** A place found by its ids is found again in a form with the same ids. */
  lemma SamePlace(a: seq<Section>, b: seq<Section>, sec: string, zone: string)
    requires SameIds(a, b)
    ensures IndexOfSection(a, sec) == IndexOfSection(b, sec)
    ensures var i := IndexOfSection(a, sec); i >= 0 ==> IndexOfZone(a[i].zones, zone) == IndexOfZone(b[i].zones, zone)
  {
    SameSectionIds(a, b, sec);
    var i := IndexOfSection(a, sec);
    if i >= 0 {
      SameZoneIds(a[i].zones, b[i].zones, zone);
    }
  }

  lemma MoveSameIds(sections: seq<Section>, d: Drop)
    requires ValidMove(sections, d)
    ensures SameIds(sections, Dropped(sections, d))
  {
    var rest := TakeElement(sections, d.i, d.j, d.k);
    SetElementsSameIds(sections, d.i, d.j, RemoveAt(ElementsAt(sections, d.i, d.j), d.k));
    SetElementsSameIds(rest, d.i2, d.j2,
        InsertAt(ElementsAt(rest, d.i2, d.j2), d.c, ElementsAt(sections, d.i, d.j)[d.k]));
  }

  /** Landing back: the index that sends an item at c of a list of n to k. */
  function Home(c: nat, k: nat): nat {
    if k > c then k + 1 else k
  }

  lemma SizesAfter(sections: seq<Section>, d: Drop)
    requires ValidMove(sections, d)
    ensures
      var after := Dropped(sections, d);
      && HasZone(after, d.i, d.j) && HasZone(after, d.i2, d.j2)
      && (if d.i == d.i2 && d.j == d.j2
          then |ElementsAt(after, d.i, d.j)| == |ElementsAt(sections, d.i, d.j)|
          else && |ElementsAt(after, d.i, d.j)| == |ElementsAt(sections, d.i, d.j)| - 1
               && |ElementsAt(after, d.i2, d.j2)| == |ElementsAt(sections, d.i2, d.j2)| + 1)
  {
  }

  /** Dropping the element back where it came from restores the form. */
  lemma ElementDropUndone(sections: seq<Section>, fromSec: string, fromZone: string, from: nat,
                          toSec: string, toZone: string, to: int)
    requires ElementDrop(sections, fromSec, fromZone, from, toSec, toZone, to).Move?
    ensures
      var d := ElementDrop(sections, fromSec, fromZone, from, toSec, toZone, to);
      var home := if d.i == d.i2 && d.j == d.j2 then Home(d.c, from) else from;
      && ValidMove(sections, d)
      && var back := ElementDrop(Dropped(sections, d), toSec, toZone, d.c, fromSec, fromZone, home);
      && back == Move(d.i2, d.j2, d.c, d.i, d.j, from)
      && ValidMove(Dropped(sections, d), back)
      && Dropped(Dropped(sections, d), back) == sections
  {
    hide MoveElementAt, TakeElement, ElementsAt;
    var d := ElementDrop(sections, fromSec, fromZone, from, toSec, toZone, to);
    ElementDropValid(sections, fromSec, fromZone, from, toSec, toZone, to);
    var after := Dropped(sections, d);
    MoveElementBack(sections, d.i, d.j, d.k, d.i2, d.j2, d.c);
    MoveSameIds(sections, d);
    SamePlace(sections, after, fromSec, fromZone);
    SamePlace(sections, after, toSec, toZone);
    SizesAfter(sections, d);
    var home := if d.i == d.i2 && d.j == d.j2 then Home(d.c, from) else from;
    ElementDropValid(after, toSec, toZone, d.c, fromSec, fromZone, home);
  }

  // ----- Zones -----

  function AllZones(sections: seq<Section>): seq<Zone> {
    if sections == [] then [] else sections[0].zones + AllZones(sections[1..])
  }

  lemma {:induction false} AllZonesConcat(a: seq<Section>, b: seq<Section>)
    ensures AllZones(a + b) == AllZones(a) + AllZones(b)
  {
    if a == [] {
      assert a + b == b;
    } else {
      assert (a + b)[1..] == a[1..] + b;
      AllZonesConcat(a[1..], b);
    }
  }

  lemma {:induction false} FlattenByZones(sections: seq<Section>)
    ensures Flatten(sections) == ZoneElements(AllZones(sections))
  {
    if sections != [] {
      FlattenByZones(sections[1..]);
      ZoneElementsConcat(sections[0].zones, AllZones(sections[1..]));
    }
  }

  function SetZones(sections: seq<Section>, i: nat, zones: seq<Zone>): seq<Section>
    requires i < |sections|
  {
    sections[i := sections[i].(zones := zones)]
  }

  function TakeZone(sections: seq<Section>, i: nat, k: nat): seq<Section>
    requires i < |sections| && k < |sections[i].zones|
  {
    SetZones(sections, i, RemoveAt(sections[i].zones, k))
  }

  function MoveZoneAt(sections: seq<Section>, i: nat, k: nat, i2: nat, c: nat): seq<Section>
    requires i < |sections| && k < |sections[i].zones| && i2 < |sections|
    requires c <= |TakeZone(sections, i, k)[i2].zones|
  {
    var rest := TakeZone(sections, i, k);
    SetZones(rest, i2, InsertAt(rest[i2].zones, c, sections[i].zones[k]))
  }

  lemma AllZonesSplit(sections: seq<Section>, i: nat)
    requires i < |sections|
    ensures AllZones(sections) == AllZones(sections[..i]) + sections[i].zones + AllZones(sections[i + 1..])
  {
    assert sections == sections[..i] + sections[i..];
    AllZonesConcat(sections[..i], sections[i..]);
    assert sections[i..][1..] == sections[i + 1..];
  }

  lemma SetZonesFlat(sections: seq<Section>, i: nat, zones: seq<Zone>)
    requires i < |sections|
    ensures
      var o := |AllZones(sections[..i])|;
      var n := |sections[i].zones|;
      && o + n <= |AllZones(sections)|
      && AllZones(sections)[o..o + n] == sections[i].zones
      && AllZones(SetZones(sections, i, zones)) == AllZones(sections)[..o] + zones + AllZones(sections)[o + n..]
  {
    var t := SetZones(sections, i, zones);
    AllZonesSplit(sections, i);
    AllZonesSplit(t, i);
    assert t[..i] == sections[..i] && t[i + 1..] == sections[i + 1..];
  }

  /** Every zone move is the relocation of one zone, with all it holds, among the zones of the form. */
  lemma MoveZoneFlat(sections: seq<Section>, i: nat, k: nat, i2: nat, c: nat)
    requires i < |sections| && k < |sections[i].zones| && i2 < |sections|
    requires c <= |TakeZone(sections, i, k)[i2].zones|
    ensures Relocated(AllZones(sections), AllZones(MoveZoneAt(sections, i, k, i2, c)),
                      |AllZones(sections[..i])| + k, |AllZones(TakeZone(sections, i, k)[..i2])| + c)
  {
    hide AllZones;
    var rest := TakeZone(sections, i, k);
    SetZonesFlat(sections, i, RemoveAt(sections[i].zones, k));
    RemoveWithin(AllZones(sections), |AllZones(sections[..i])|, sections[i].zones, k);
    SetZonesFlat(rest, i2, InsertAt(rest[i2].zones, c, sections[i].zones[k]));
    InsertWithin(AllZones(rest), |AllZones(rest[..i2])|, rest[i2].zones, c, sections[i].zones[k]);
  }

  lemma InsertedZone(s: seq<Zone>, q: nat, x: Zone)
    requires q <= |s|
    ensures multiset(ZoneElements(InsertAt(s, q, x))) == multiset(ZoneElements(s)) + multiset(x.elements)
  {
    assert s == s[..q] + s[q..] && InsertAt(s, q, x) == s[..q] + ([x] + s[q..]);
    assert ZoneElements([x] + s[q..]) == x.elements + ZoneElements(s[q..]) by {
      assert ([x] + s[q..])[1..] == s[q..];
    }
    hide ZoneElements;
    ZoneElementsConcat(s[..q], s[q..]);
    ZoneElementsConcat(s[..q], [x] + s[q..]);
  }

  lemma RelocatedZones(s: seq<Zone>, t: seq<Zone>, p: nat, q: nat)
    requires Relocated(s, t, p, q)
    ensures multiset(ZoneElements(t)) == multiset(ZoneElements(s))
  {
    InsertRemoved(s, p);
    InsertedZone(RemoveAt(s, p), p, s[p]);
    InsertedZone(RemoveAt(s, p), q, s[p]);
  }

  lemma MoveZoneTheorem(sections: seq<Section>, i: nat, k: nat, i2: nat, c: nat, suggest: string -> string)
    requires i < |sections| && k < |sections[i].zones| && i2 < |sections|
    requires c <= |TakeZone(sections, i, k)[i2].zones|
    ensures
      var moved := MoveZoneAt(sections, i, k, i2, c);
      && multiset(Flatten(moved)) == multiset(Flatten(sections))
      && (UniqueReferences(Flatten(sections)) ==> Deduplicated(moved, suggest) == moved)
      && c < |moved[i2].zones| && moved[i2].zones[c] == sections[i].zones[k]
      && TakeZone(moved, i2, c) == TakeZone(sections, i, k)
      && MoveZoneAt(moved, i2, c, i, k) == sections
  {
    var moved := MoveZoneAt(sections, i, k, i2, c);
    var rest := TakeZone(sections, i, k);
    MoveZoneFlat(sections, i, k, i2, c);
    RelocatedZones(AllZones(sections), AllZones(moved), |AllZones(sections[..i])| + k, |AllZones(rest[..i2])| + c);
    FlattenByZones(sections);
    FlattenByZones(moved);
    if UniqueReferences(Flatten(sections)) {
      MoveThenDedup(sections, moved, suggest);
    }
    RemoveInserted(rest[i2].zones, c, sections[i].zones[k]);
    InsertRemoved(sections[i].zones, k);
  }

  datatype ZoneDrop = NoZone | ZoneMove(i: nat, k: nat, i2: nat, c: nat)

  function DropOfZone(sections: seq<Section>, fromSec: string, from: nat, toSec: string, to: nat): ZoneDrop {
    var i, i2 := IndexOfSection(sections, fromSec), IndexOfSection(sections, toSec);
    if i == -1 || i2 == -1 || from >= |sections[i].zones| then NoZone
    else if i == i2 then ZoneMove(i, from, i, Landing(from, to, |sections[i].zones| - 1))
    else ZoneMove(i, from, i2, Clamp(to, |sections[i2].zones|))
  }

  ghost predicate SectionOf(sections: seq<Section>, section: string, i: nat) {
    i < |sections| && sections[i].id == section && forall a :: 0 <= a < i ==> sections[a].id != section
  }

  /** A zone moves exactly when both sections are there and the first one has such a zone. */
  lemma ZoneDropIff(sections: seq<Section>, fromSec: string, from: nat, toSec: string, to: nat)
    ensures var d := DropOfZone(sections, fromSec, from, toSec, to);
      && (d.ZoneMove? <==>
            && (exists i: nat :: SectionOf(sections, fromSec, i) && from < |sections[i].zones|)
            && (exists i: nat :: SectionOf(sections, toSec, i)))
      && (d.ZoneMove? ==>
            && SectionOf(sections, fromSec, d.i) && d.k == from && from < |sections[d.i].zones|
            && SectionOf(sections, toSec, d.i2)
            && var size := |sections[d.i2].zones| - if d.i == d.i2 then 1 else 0;
               (to > size ==> d.c == size) && (to == 0 ==> d.c == 0))
  {
    SectionFound(sections, fromSec);
    SectionFound(sections, toSec);
    hide SectionOf;
  }

  lemma SectionFound(sections: seq<Section>, section: string)
    ensures var i := IndexOfSection(sections, section);
      && (i != -1 ==> SectionOf(sections, section, i))
      && forall a: nat :: SectionOf(sections, section, a) ==> a == i
  {
    FirstSection(sections, section);
  }

  method HandleMoveZoneAcrossSections(sections: seq<Section>, fromSec: string, from: nat, toSec: string, to: nat)
    returns (moved: bool, copy: seq<Section>)
    ensures
      var d := DropOfZone(sections, fromSec, from, toSec, to);
      && moved == d.ZoneMove?
      && (!moved ==> copy == sections)
      && (moved ==>
            && d.i < |sections| && d.k < |sections[d.i].zones| && d.i2 < |sections|
            && d.c <= |TakeZone(sections, d.i, d.k)[d.i2].zones|
            && copy == MoveZoneAt(sections, d.i, d.k, d.i2, d.c)
            && (to < |sections[d.i2].zones| && !(d.i == d.i2 && to == from) ==>
                  d.c + 1 < |copy[d.i2].zones| && copy[d.i2].zones[d.c + 1] == sections[d.i2].zones[to]))
  {
    copy, moved := sections, false;
    var i, i2 := IndexOfSection(copy, fromSec), IndexOfSection(copy, toSec);
    if i == -1 || i2 == -1 { return; }
    var fromZones := copy[i].zones;
    if from >= |fromZones| { return; }
    var zone := fromZones[from];
    fromZones := fromZones[..from] + fromZones[from + 1..];
    moved := true;
    if fromSec == toSec {
      var target := if to > from then to - 1 else to;
      var clamped := if target < |fromZones| then target else |fromZones|;
      fromZones := fromZones[..clamped] + [zone] + fromZones[clamped..];
      copy := copy[i := copy[i].(zones := fromZones)];
    } else {
      var toZones := copy[i2].zones;
      var clamped := if to < |toZones| then to else |toZones|;
      toZones := toZones[..clamped] + [zone] + toZones[clamped..];
      copy := copy[i := copy[i].(zones := fromZones)];
      copy := copy[i2 := copy[i2].(zones := toZones)];
    }
  }

  // ----- Sections -----

  predicate SectionMoves(size: nat, from: nat, to: int) {
    from < size && 0 <= to < size && from != to
  }

  /** Where the dropped section ends up. */
  function SectionLanding(from: nat, to: nat): nat
    requires from != to
  {
    if to > from then to - 1 else to
  }

  method HandleMoveSection(sections: seq<Section>, from: nat, to: int) returns (moved: bool, copy: seq<Section>)
    requires from < |sections|
    ensures moved == SectionMoves(|sections|, from, to)
    ensures !moved ==> copy == sections
    ensures moved ==> Relocated(sections, copy, from, SectionLanding(from, to))
  {
    copy, moved := sections, false;
    if to < 0 || to >= |sections| || from == to { return; }
    moved := true;
    var section := copy[from];
    copy := copy[..from] + copy[from + 1..];
    var target := if to > from then to - 1 else to;
    copy := copy[..target] + [section] + copy[target..];
  }

  /**
   The places that a section can be dropped at are exactly those before the last: the drop behind the
   last section, which the canvas offers, is turned away by the guard.
   */
  lemma SectionLandingsIff(size: nat, from: nat, place: nat)
    requires from < size
    ensures (exists to: int :: SectionMoves(size, from, to) && SectionLanding(from, to) == place)
       <==> place + 1 < size
  {
    if place + 1 < size {
      var to := if place < from then place else place + 1;
      assert SectionMoves(size, from, to) && SectionLanding(from, to) == place;
    }
  }
}
