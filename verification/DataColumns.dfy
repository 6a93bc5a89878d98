/**
 The column accumulator of the data view. Fields change their references over the versions of a form;
 the accumulator unites the columns of fields that share an id or a reference.
 */
module DataColumns {
  import opened FormTree

  /** `aliases` keeps the order in which the keys were added. */
  datatype Col = Col(id: string, caption: string, kind: ElementType, reference: string, aliases: seq<string>)

  /** The columns, and for each known key the index of its column. */
  datatype Table = Table(columns: seq<Col>, owner: map<string, nat>)

  const NO_COLUMNS := Table([], map[])

  function AddAlias(aliases: seq<string>, key: string): seq<string> {
    if key in aliases then aliases else aliases + [key]
  }

  function AddIfSet(aliases: seq<string>, key: string): seq<string> {
    if key != "" then AddAlias(aliases, key) else aliases
  }

  function Own(owner: map<string, nat>, key: string, c: nat): map<string, nat> {
    if key != "" then owner[key := c] else owner
  }

  /** The column that the element joins: that of its id, or else that of its reference. */
  predicate HasColumn(t: Table, el: Element) {
    (el.id != "" && el.id in t.owner) || (el.reference != "" && el.reference in t.owner)
  }

  function ColumnOf(t: Table, el: Element): nat
    requires HasColumn(t, el)
  {
    if el.id != "" && el.id in t.owner then t.owner[el.id] else t.owner[el.reference]
  }

  function CaptionOf(el: Element, otherwise: string): string {
    if el.labelText != "" then el.labelText else if el.name != "" then el.name else otherwise
  }

  function Joined(col: Col, el: Element): Col {
    Col(if el.reference != "" then el.reference else col.id,
        CaptionOf(el, col.caption),
        el.kind,
        if el.reference != "" then el.reference else col.reference,
        AddIfSet(AddIfSet(col.aliases, el.id), el.reference))
  }

  function NewCol(el: Element): Col {
    var id := FieldKey(el);
    Col(id, CaptionOf(el, id), el.kind, el.reference, AddAlias(AddIfSet(AddIfSet([], el.id), el.reference), id))
  }

  function AddElement(t: Table, el: Element): Table
    requires OwnersExist(t)
  {
    if !IsDataField(el.kind) then t
    else if HasColumn(t, el) then
      var c := ColumnOf(t, el);
      Table(t.columns[c := Joined(t.columns[c], el)], Own(Own(t.owner, el.id, c), el.reference, c))
    else
      var c := |t.columns|;
      Table(t.columns + [NewCol(el)], Own(Own(t.owner, el.id, c), el.reference, c)[FieldKey(el) := c])
  }

  /** A submitted key that no column knows gets a column of its own. */
  function AddKey(t: Table, key: string): Table {
    if key in t.owner then t
    else Table(t.columns + [Col(key, key, Text, key, [key])], t.owner[key := |t.columns|])
  }

  ghost predicate OwnersExist(t: Table) {
    forall k :: k in t.owner ==> t.owner[k] < |t.columns|
  }

  // ----- What holds without any hypothesis -----

  predicate ColumnOk(col: Col) {
    col.id in col.aliases && (col.reference != "" ==> col.reference in col.aliases)
  }

  predicate OwnerOk(t: Table, key: string)
    requires key in t.owner
  {
    t.owner[key] < |t.columns| && key in t.columns[t.owner[key]].aliases
  }

  /** Each mapped key is an alias of its column, and so are the column's id and reference. */
  ghost predicate TableOk(t: Table) {
    && (forall k :: k in t.owner ==> OwnerOk(t, k))
    && (forall c :: 0 <= c < |t.columns| ==> ColumnOk(t.columns[c]))
  }

  lemma AddElementOk(t: Table, el: Element)
    requires TableOk(t)
    ensures OwnersExist(t) && TableOk(AddElement(t, el))
    ensures forall k :: k in t.owner ==> k in AddElement(t, el).owner
    ensures IsDataField(el.kind) ==> Mapped(AddElement(t, el), el)
  {
    if IsDataField(el.kind) && HasColumn(t, el) {
      JoinOk(t, el);
    } else if IsDataField(el.kind) {
      NewOk(t, el);
    }
  }

  lemma JoinOk(t: Table, el: Element)
    requires TableOk(t) && OwnersExist(t) && IsDataField(el.kind) && HasColumn(t, el)
    ensures TableOk(AddElement(t, el)) && Mapped(AddElement(t, el), el)
  {
    var u := AddElement(t, el);
    assert ColumnOk(t.columns[ColumnOf(t, el)]);
    forall k | k in u.owner
      ensures OwnerOk(u, k)
    {
      assert k in t.owner ==> OwnerOk(t, k);
    }
  }

  lemma NewOk(t: Table, el: Element)
    requires TableOk(t) && OwnersExist(t) && IsDataField(el.kind) && !HasColumn(t, el)
    ensures TableOk(AddElement(t, el)) && Mapped(AddElement(t, el), el)
  {
    var u := AddElement(t, el);
    forall k | k in u.owner
      ensures OwnerOk(u, k)
    {
      assert k in t.owner ==> OwnerOk(t, k);
    }
  }

  /** All keys of the field are mapped. */
  predicate Mapped(t: Table, el: Element) {
    (el.id != "" ==> el.id in t.owner) && (el.reference != "" ==> el.reference in t.owner) && FieldKey(el) in t.owner
  }

  lemma AddKeyOk(t: Table, key: string)
    requires TableOk(t)
    ensures TableOk(AddKey(t, key)) && key in AddKey(t, key).owner
    ensures forall k :: k in t.owner ==> k in AddKey(t, key).owner
  {
    var u := AddKey(t, key);
    forall k | k in u.owner
      ensures OwnerOk(u, k)
    {
      assert k in t.owner ==> OwnerOk(t, k);
    }
  }

  /** The columns of a list of elements, taken in order. */
  ghost function AddAll(els: seq<Element>): (t: Table)
    ensures TableOk(t)
  {
    if els == [] then NO_COLUMNS
    else
      var before := AddAll(els[..|els| - 1]);
      AddElementOk(before, els[|els| - 1]);
      AddElement(before, els[|els| - 1])
  }

  // ----- Connected components -----

  /** A data field links its id and its reference. */
  predicate Links(el: Element, a: string, b: string) {
    IsDataField(el.kind) && el.id != "" && el.reference != ""
    && ((a == el.id && b == el.reference) || (a == el.reference && b == el.id))
  }

  ghost predicate Linked(els: seq<Element>, a: string, b: string) {
    exists i :: 0 <= i < |els| && Links(els[i], a, b)
  }

  ghost predicate IsPath(els: seq<Element>, path: seq<string>) {
    |path| > 0 && forall i {:trigger StepOk(els, path, i)} :: 0 <= i < |path| - 1 ==> StepOk(els, path, i)
  }

  ghost predicate StepOk(els: seq<Element>, path: seq<string>, i: nat)
    requires i + 1 < |path|
  {
    Linked(els, path[i], path[i + 1])
  }

  ghost predicate Joins(els: seq<Element>, path: seq<string>, a: string, b: string) {
    IsPath(els, path) && path[0] == a && path[|path| - 1] == b
  }

  /** Keys connected by links of ids with references, over all versions. */
  ghost predicate Connected(els: seq<Element>, a: string, b: string) {
    exists path :: Joins(els, path, a, b)
  }

  lemma ConnectedSelf(els: seq<Element>, a: string)
    ensures Connected(els, a, a)
  {
    assert Joins(els, [a], a, a);
  }

  lemma ConnectedOne(els: seq<Element>, a: string, b: string)
    requires Linked(els, a, b)
    ensures Connected(els, a, b)
  {
    assert StepOk(els, [a, b], 0);
    assert Joins(els, [a, b], a, b);
  }

  lemma ConnectedTrans(els: seq<Element>, a: string, b: string, c: string)
    requires Connected(els, a, b) && Connected(els, b, c)
    ensures Connected(els, a, c)
  {
    var p :| Joins(els, p, a, b);
    var q :| Joins(els, q, b, c);
    var r := p + q[1..];
    forall i | 0 <= i < |r| - 1
      ensures StepOk(els, r, i)
    {
      if i < |p| - 1 {
        assert StepOk(els, p, i);
      } else {
        assert StepOk(els, q, i - |p| + 1);
      }
    }
    assert Joins(els, r, a, c);
  }

  lemma LinkedSym(els: seq<Element>, a: string, b: string)
    requires Linked(els, a, b)
    ensures Linked(els, b, a)
  {
    var i :| 0 <= i < |els| && Links(els[i], a, b);
    assert Links(els[i], b, a);
  }

  lemma {:induction false} ConnectedSym(els: seq<Element>, a: string, b: string)
    requires Connected(els, a, b)
    ensures Connected(els, b, a)
  {
    var p :| Joins(els, p, a, b);
    var r := seq(|p|, i requires 0 <= i < |p| => p[|p| - 1 - i]);
    forall i | 0 <= i < |r| - 1
      ensures StepOk(els, r, i)
    {
      assert StepOk(els, p, |p| - 2 - i);
      LinkedSym(els, r[i + 1], r[i]);
    }
    assert Joins(els, r, b, a);
  }

  lemma LinkedMore(els: seq<Element>, el: Element, a: string, b: string)
    ensures Linked(els + [el], a, b) <==> Linked(els, a, b) || Links(el, a, b)
  {
    var more := els + [el];
    if i :| 0 <= i < |els| && Links(els[i], a, b) {
      assert Links(more[i], a, b);
    }
    if i :| 0 <= i < |more| && Links(more[i], a, b) {
      assert i < |els| ==> Links(els[i], a, b);
    }
    if Links(el, a, b) {
      assert Links(more[|els|], a, b);
    }
  }

  lemma ConnectedMore(els: seq<Element>, el: Element, a: string, b: string)
    requires Connected(els, a, b)
    ensures Connected(els + [el], a, b)
  {
    var p :| Joins(els, p, a, b);
    forall i | 0 <= i < |p| - 1
      ensures StepOk(els + [el], p, i)
    {
      assert StepOk(els, p, i);
      LinkedMore(els, el, p[i], p[i + 1]);
    }
    assert Joins(els + [el], p, a, b);
  }

  /** Keys of one column are connected. */
  ghost predicate Sound(t: Table, els: seq<Element>) {
    forall a, b | a in t.owner && b in t.owner :: t.owner[a] == t.owner[b] ==> Connected(els, a, b)
  }

  /** The two keys of each field are in one column. */
  ghost predicate Respects(t: Table, els: seq<Element>) {
    forall a, b :: Linked(els, a, b) ==> a in t.owner && b in t.owner && t.owner[a] == t.owner[b]
  }

  /** The keys of all data fields are mapped. */
  ghost predicate Covers(t: Table, els: seq<Element>) {
    forall i :: 0 <= i < |els| && IsDataField(els[i].kind) ==> Mapped(t, els[i])
  }

  /** Column sharing is connectedness, for all mapped keys. */
  ghost predicate Correct(t: Table, els: seq<Element>) {
    forall a, b | a in t.owner && b in t.owner :: t.owner[a] == t.owner[b] <==> Connected(els, a, b)
  }

  lemma {:induction false} RespectsPaths(t: Table, els: seq<Element>, path: seq<string>)
    requires Respects(t, els) && IsPath(els, path) && path[0] in t.owner
    ensures path[|path| - 1] in t.owner && t.owner[path[|path| - 1]] == t.owner[path[0]]
    decreases |path|
  {
    if |path| > 1 {
      var p := path[..|path| - 1];
      forall i | 0 <= i < |p| - 1
        ensures StepOk(els, p, i)
      {
        assert StepOk(els, path, i);
      }
      RespectsPaths(t, els, p);
      assert StepOk(els, path, |path| - 2);
    }
  }

  /** A sound table is correct exactly when it respects every link. */
  lemma CorrectIff(t: Table, els: seq<Element>)
    requires Sound(t, els) && Covers(t, els)
    ensures Correct(t, els) <==> Respects(t, els)
  {
    if Respects(t, els) {
      forall a, b | a in t.owner && b in t.owner && Connected(els, a, b)
        ensures t.owner[a] == t.owner[b]
      {
        var p :| Joins(els, p, a, b);
        RespectsPaths(t, els, p);
      }
    }
    if Correct(t, els) {
      forall a, b | Linked(els, a, b)
        ensures a in t.owner && b in t.owner && t.owner[a] == t.owner[b]
      {
        var i :| 0 <= i < |els| && Links(els[i], a, b);
        assert Mapped(t, els[i]);
        ConnectedOne(els, a, b);
      }
    }
  }

  // ----- One more element -----

  /** The element's id and reference belong to two different columns. */
  predicate Bridges(t: Table, el: Element) {
    IsDataField(el.kind) && el.id != "" && el.reference != "" && el.id in t.owner && el.reference in t.owner
    && t.owner[el.id] != t.owner[el.reference]
  }

  /** The element takes its reference out of a column that has other keys. */
  predicate Splits(t: Table, el: Element) {
    Bridges(t, el) && exists k :: k in t.owner && k != el.reference && t.owner[k] == t.owner[el.reference]
  }

  /** The element takes a key out of a column that keeps it among its aliases. */
  predicate Clashes(t: Table, el: Element) {
    Bridges(t, el) || (IsDataField(el.kind) && el.id == "" && el.reference == "" && "" in t.owner)
  }

  lemma OwnersOfMore(t: Table, el: Element, k: string)
    requires TableOk(t) && IsDataField(el.kind)
    ensures OwnersExist(t)
    ensures (k == "" || k !in {el.id, el.reference}) && k != FieldKey(el) ==>
      (k in AddElement(t, el).owner <==> k in t.owner) && (k in t.owner ==> AddElement(t, el).owner[k] == t.owner[k])
  {
    AddElementOk(t, el);
  }

  /** Where the keys of the new element end up, and what connects them to a key that was there. */
  lemma NewKeysSound(t: Table, els: seq<Element>, el: Element, k: string)
    requires TableOk(t) && OwnersExist(t) && Sound(t, els) && IsDataField(el.kind)
    requires k in AddElement(t, el).owner
    ensures var u := AddElement(t, el).owner;
      Mapped(AddElement(t, el), el) && (u[k] == u[FieldKey(el)] ==> Connected(els + [el], k, FieldKey(el)))
  {
    AddElementOk(t, el);
    var u, key, more := AddElement(t, el), FieldKey(el), els + [el];
    if el.id != "" && el.reference != "" {
      LinkedMore(els, el, el.id, el.reference);
      assert Links(el, el.id, el.reference);
      ConnectedOne(more, el.id, el.reference);
    }
    ConnectedSelf(more, key);
    if u.owner[k] == u.owner[key] && k != key && (k != el.id || k == "") {
      OwnersOfMore(t, el, k);
      assert HasColumn(t, el) && t.owner[k] == ColumnOf(t, el);
      var via := if el.id != "" && el.id in t.owner then el.id else el.reference;
      assert Connected(els, k, via);
      ConnectedMore(els, el, k, via);
      if via != key {
        ConnectedTrans(more, k, via, key);
      }
    }
  }

  /** Bridging or not, keys of one column stay connected. */
  lemma SoundMore(t: Table, els: seq<Element>, el: Element)
    requires TableOk(t) && OwnersExist(t) && Sound(t, els)
    ensures Sound(AddElement(t, el), els + [el])
  {
    var u, more := AddElement(t, el), els + [el];
    forall a, b | a in u.owner && b in u.owner && u.owner[a] == u.owner[b]
      ensures Connected(more, a, b)
    {
      if !IsDataField(el.kind) {
        ConnectedMore(els, el, a, b);
      } else {
        NewKeysSound(t, els, el, a);
        NewKeysSound(t, els, el, b);
        if u.owner[a] == u.owner[FieldKey(el)] {
          ConnectedSym(more, b, FieldKey(el));
          ConnectedTrans(more, a, FieldKey(el), b);
        } else {
          OldKeysStay(t, el, a);
          OldKeysStay(t, el, b);
          ConnectedMore(els, el, a, b);
        }
      }
    }
  }

  lemma OldKeysStay(t: Table, el: Element, k: string)
    requires TableOk(t) && OwnersExist(t) && IsDataField(el.kind) && k in AddElement(t, el).owner
    requires Mapped(AddElement(t, el), el) && AddElement(t, el).owner[k] != AddElement(t, el).owner[FieldKey(el)]
    ensures k in t.owner && AddElement(t, el).owner[k] == t.owner[k]
  {
  }

  lemma CoversMore(t: Table, els: seq<Element>, el: Element)
    requires TableOk(t) && Covers(t, els)
    ensures OwnersExist(t) && Covers(AddElement(t, el), els + [el])
  {
    AddElementOk(t, el);
    var more := els + [el];
    forall i | 0 <= i < |more| && IsDataField(more[i].kind)
      ensures Mapped(AddElement(t, el), more[i])
    {
      assert i < |els| ==> Mapped(t, els[i]);
    }
  }

  /** A path that leaves its start does so by some link. */
  lemma {:induction false} FirstStep(els: seq<Element>, path: seq<string>) returns (k: string)
    requires IsPath(els, path) && path[0] != path[|path| - 1]
    ensures k != path[0] && Linked(els, path[0], k)
    decreases |path|
  {
    assert StepOk(els, path, 0);
    if path[1] != path[0] {
      k := path[1];
    } else {
      var rest := path[1..];
      forall i | 0 <= i < |rest| - 1
        ensures StepOk(els, rest, i)
      {
        assert StepOk(els, path, i + 1);
      }
      k := FirstStep(els, rest);
    }
  }

  lemma SplitBreaks(t: Table, els: seq<Element>, el: Element)
    requires TableOk(t) && OwnersExist(t) && Sound(t, els) && Respects(t, els) && Splits(t, el)
    ensures !Respects(AddElement(t, el), els + [el])
  {
    var ref := el.reference;
    var other :| other in t.owner && other != ref && t.owner[other] == t.owner[ref];
    var path :| Joins(els, path, ref, other);
    var k := FirstStep(els, path);
    LinkedMore(els, el, ref, k);
    OwnersOfMore(t, el, k);
  }

  lemma NoSplitKeepsLink(t: Table, els: seq<Element>, el: Element, a: string, b: string)
    requires TableOk(t) && OwnersExist(t) && Respects(t, els) && !Splits(t, el) && IsDataField(el.kind)
    requires Linked(els, a, b) && a != "" && b != "" && Mapped(AddElement(t, el), el)
    ensures var u := AddElement(t, el).owner; a in u && b in u && u[a] == u[b]
  {
    hide Linked, Connected, TableOk;
    assert t.owner[a] == t.owner[b];
  }

  lemma NoSplitRespects(t: Table, els: seq<Element>, el: Element)
    requires TableOk(t) && OwnersExist(t) && Respects(t, els) && !Splits(t, el)
    ensures Respects(AddElement(t, el), els + [el])
  {
    AddElementOk(t, el);
    forall a, b | Linked(els + [el], a, b)
      ensures var u := AddElement(t, el).owner; a in u && b in u && u[a] == u[b]
    {
      LinkedMore(els, el, a, b);
      if Linked(els, a, b) && IsDataField(el.kind) {
        LinkedKeysSet(els, a, b);
        NoSplitKeepsLink(t, els, el, a, b);
      }
    }
  }

  lemma LinkedKeysSet(els: seq<Element>, a: string, b: string)
    requires Linked(els, a, b)
    ensures a != "" && b != ""
  {
  }

  /** One element keeps the columns equal to the components exactly when it splits no column. */
  lemma StepIsCorrectIff(t: Table, els: seq<Element>, el: Element)
    requires TableOk(t) && Sound(t, els) && Covers(t, els) && Correct(t, els)
    ensures OwnersExist(t) && (Correct(AddElement(t, el), els + [el]) <==> !Splits(t, el))
  {
    AddElementOk(t, el);
    CorrectIff(t, els);
    SoundMore(t, els, el);
    CoversMore(t, els, el);
    CorrectIff(AddElement(t, el), els + [el]);
    if Splits(t, el) {
      SplitBreaks(t, els, el);
    } else {
      NoSplitRespects(t, els, el);
    }
  }

  // ----- Whole runs -----

  lemma AddAllMore(els: seq<Element>, n: nat)
    requires n < |els|
    ensures AddAll(els[..n + 1]) == AddElement(AddAll(els[..n]), els[n])
  {
    assert els[..n + 1][..n] == els[..n];
  }

  /** With no hypothesis: every key is mapped, and keys of one column are connected. */
  lemma {:induction false} ColumnsAreSound(els: seq<Element>)
    ensures Sound(AddAll(els), els) && Covers(AddAll(els), els)
  {
    if els != [] {
      var n := |els| - 1;
      ColumnsAreSound(els[..n]);
      assert els[..n] + [els[n]] == els;
      CoversMore(AddAll(els[..n]), els[..n], els[n]);
      SoundMore(AddAll(els[..n]), els[..n], els[n]);
    }
  }

  /** No element ever takes a reference out of a column that has other keys. */
  ghost predicate NeverSplits(els: seq<Element>) {
    forall n :: 0 <= n < |els| ==> !Splits(AddAll(els[..n]), els[n])
  }

  ghost predicate CorrectAt(els: seq<Element>, n: nat)
    requires n <= |els|
  {
    Correct(AddAll(els[..n]), els[..n])
  }

  lemma CorrectStep(els: seq<Element>, n: nat)
    requires n < |els| && CorrectAt(els, n)
    ensures CorrectAt(els, n + 1) <==> !Splits(AddAll(els[..n]), els[n])
  {
    hide Sound, Covers, Correct, Splits, AddElement, TableOk;
    ColumnsAreSound(els[..n]);
    StepIsCorrectIff(AddAll(els[..n]), els[..n], els[n]);
    AddAllMore(els, n);
    assert els[..n] + [els[n]] == els[..n + 1];
  }

  /** The columns are the connected components after every element exactly when no element splits a column. */
  lemma ComponentsIff(els: seq<Element>)
    ensures (forall n :: 0 <= n <= |els| ==> CorrectAt(els, n)) <==> NeverSplits(els)
  {
    if NeverSplits(els) {
      for n := 0 to |els|
        invariant forall m :: 0 <= m <= n ==> CorrectAt(els, m)
      {
        CorrectStep(els, n);
      }
    }
    if forall n :: 0 <= n <= |els| ==> CorrectAt(els, n) {
      forall n | 0 <= n < |els|
        ensures !Splits(AddAll(els[..n]), els[n])
      {
        assert CorrectAt(els, n) && CorrectAt(els, n + 1);
        CorrectStep(els, n);
      }
    }
  }

  // ----- Aliases -----

  predicate AliasOk(t: Table, c: nat, k: string)
    requires c < |t.columns|
  {
    k in t.columns[c].aliases ==> k in t.owner && t.owner[k] == c
  }

  /** The aliases of a column are exactly the keys it owns. */
  ghost predicate Exact(t: Table) {
    TableOk(t) && forall c, k :: 0 <= c < |t.columns| ==> AliasOk(t, c, k)
  }

  lemma ExactMeansDisjoint(t: Table, c: nat, d: nat)
    requires Exact(t) && c < |t.columns| && d < |t.columns| && c != d
    ensures forall k :: k in t.columns[c].aliases ==> k !in t.columns[d].aliases
    ensures t.columns[c].id != t.columns[d].id
  {
    forall k | k in t.columns[c].aliases
      ensures k !in t.columns[d].aliases
    {
      assert AliasOk(t, c, k) && AliasOk(t, d, k);
    }
    assert ColumnOk(t.columns[c]) && ColumnOk(t.columns[d]);
  }

  lemma NoClashKeepsExact(t: Table, el: Element)
    requires Exact(t) && !Clashes(t, el)
    ensures OwnersExist(t) && Exact(AddElement(t, el))
  {
    AddElementOk(t, el);
    if IsDataField(el.kind) && HasColumn(t, el) {
      JoinKeepsExact(t, el);
    } else if IsDataField(el.kind) {
      NewKeepsExact(t, el);
    }
  }

  lemma JoinKeepsExact(t: Table, el: Element)
    requires Exact(t) && OwnersExist(t) && !Clashes(t, el) && IsDataField(el.kind) && HasColumn(t, el)
    ensures forall c, k :: 0 <= c < |AddElement(t, el).columns| ==> AliasOk(AddElement(t, el), c, k)
  {
    hide TableOk;
    var u := AddElement(t, el);
    forall c, k | 0 <= c < |u.columns|
      ensures AliasOk(u, c, k)
    {
      assert AliasOk(t, c, k);
    }
  }

  lemma NewKeepsExact(t: Table, el: Element)
    requires Exact(t) && OwnersExist(t) && !Clashes(t, el) && IsDataField(el.kind) && !HasColumn(t, el)
    ensures forall c, k :: 0 <= c < |AddElement(t, el).columns| ==> AliasOk(AddElement(t, el), c, k)
  {
    hide TableOk;
    var u := AddElement(t, el);
    forall c, k | 0 <= c < |u.columns|
      ensures AliasOk(u, c, k)
    {
      assert c < |t.columns| ==> AliasOk(t, c, k);
    }
  }

  lemma ClashBreaksExact(t: Table, el: Element)
    requires Exact(t) && Clashes(t, el)
    ensures OwnersExist(t) && !Exact(AddElement(t, el))
  {
    var key := if Bridges(t, el) then el.reference else "";
    assert OwnerOk(t, key);
    assert !AliasOk(AddElement(t, el), t.owner[key], key);
  }

  ghost predicate NeverClashes(els: seq<Element>) {
    forall n :: 0 <= n < |els| ==> !Clashes(AddAll(els[..n]), els[n])
  }

  ghost predicate ExactAt(els: seq<Element>, n: nat)
    requires n <= |els|
  {
    Exact(AddAll(els[..n]))
  }

  /** Alias sets are exact after every element exactly when no element clashes. */
  lemma AliasesIff(els: seq<Element>)
    ensures (forall n :: 0 <= n <= |els| ==> ExactAt(els, n)) <==> NeverClashes(els)
  {
    hide Clashes, ExactAt;
    assert ExactAt(els, 0) by {
      NoneExact(els);
    }
    if NeverClashes(els) {
      for n := 0 to |els|
        invariant forall m :: 0 <= m <= n ==> ExactAt(els, m)
      {
        ExactStep(els, n);
      }
    }
    if forall n :: 0 <= n <= |els| ==> ExactAt(els, n) {
      forall n | 0 <= n < |els|
        ensures !Clashes(AddAll(els[..n]), els[n])
      {
        assert ExactAt(els, n) && ExactAt(els, n + 1);
        ExactStep(els, n);
      }
    }
  }

  lemma NoneExact(els: seq<Element>)
    ensures ExactAt(els, 0)
  {
    assert els[..0] == [];
  }

  lemma ExactStep(els: seq<Element>, n: nat)
    requires n < |els| && ExactAt(els, n)
    ensures ExactAt(els, n + 1) <==> !Clashes(AddAll(els[..n]), els[n])
  {
    hide Clashes, Exact, AddElement, TableOk;
    AddAllMore(els, n);
    if Clashes(AddAll(els[..n]), els[n]) {
      ClashBreaksExact(AddAll(els[..n]), els[n]);
    } else {
      NoClashKeepsExact(AddAll(els[..n]), els[n]);
    }
  }

  /** When no element clashes, the columns are the components, with disjoint aliases and distinct ids. */
  lemma ColumnsAreComponents(els: seq<Element>)
    requires NeverClashes(els)
    ensures Correct(AddAll(els), els) && Exact(AddAll(els))
  {
    AliasesIff(els);
    ComponentsIff(els);
    assert ExactAt(els, |els|) && CorrectAt(els, |els|);
    assert els[..|els|] == els;
  }
}
