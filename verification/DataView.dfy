/** The rows of the data view: every submission is read through the columns of all versions. */
module DataView {
  import opened FormTree
  import opened DataColumns
  import opened JsValues

  /** A stored submission, with its keys in insertion order. */
  datatype Entry = Entry(keys: seq<string>, data: Data)

  ghost predicate Listed(entry: Entry) {
    forall k :: k in entry.keys <==> k in entry.data
  }

  // ----- Columns for keys that no version explains -----

  function AddKeys(t: Table, keys: seq<string>): Table {
    if keys == [] then t else AddKey(AddKeys(t, keys[..|keys| - 1]), keys[|keys| - 1])
  }

  function AddEntries(t: Table, entries: seq<Entry>): Table {
    if entries == [] then t else AddKeys(AddEntries(t, entries[..|entries| - 1]), entries[|entries| - 1].keys)
  }

  /** The columns of all versions, the draft and the submissions. */
  ghost function ViewColumns(els: seq<Element>, entries: seq<Entry>): Table {
    AddEntries(AddAll(els), entries)
  }

  /** What later submissions leave alone: known keys keep their column, and columns keep their content. */
  ghost predicate Extends(t: Table, u: Table) {
    && |t.columns| <= |u.columns| && u.columns[..|t.columns|] == t.columns
    && forall k :: k in t.owner ==> k in u.owner && u.owner[k] == t.owner[k]
  }

  lemma AddKeyExact(t: Table, key: string)
    requires Exact(t)
    ensures Exact(AddKey(t, key))
  {
    AddKeyOk(t, key);
    var u := AddKey(t, key);
    forall c, k | 0 <= c < |u.columns|
      ensures AliasOk(u, c, k)
    {
      assert c < |t.columns| ==> AliasOk(t, c, k);
      assert k in t.owner ==> OwnerOk(t, k);
    }
  }

  lemma {:induction false} AddKeysKeep(t: Table, keys: seq<string>)
    requires TableOk(t)
    ensures TableOk(AddKeys(t, keys)) && Extends(t, AddKeys(t, keys))
    ensures Exact(t) ==> Exact(AddKeys(t, keys))
    ensures forall k :: k in keys ==> k in AddKeys(t, keys).owner
  {
    if keys != [] {
      var front, last := keys[..|keys| - 1], keys[|keys| - 1];
      AddKeysKeep(t, front);
      AddKeyOk(AddKeys(t, front), last);
      if Exact(t) {
        AddKeyExact(AddKeys(t, front), last);
      }
      assert keys == front + [last];
    }
  }

  lemma {:induction false} AddEntriesKeep(t: Table, entries: seq<Entry>)
    requires TableOk(t)
    ensures TableOk(AddEntries(t, entries)) && Extends(t, AddEntries(t, entries))
    ensures Exact(t) ==> Exact(AddEntries(t, entries))
    ensures forall i, k :: 0 <= i < |entries| && k in entries[i].keys ==> k in AddEntries(t, entries).owner
  {
    if entries != [] {
      var front, last := entries[..|entries| - 1], entries[|entries| - 1];
      AddEntriesKeep(t, front);
      AddKeysKeep(AddEntries(t, front), last.keys);
      assert forall i :: 0 <= i < |front| ==> entries[i] == front[i];
    }
  }

  // ----- One cell -----

  /** The first value under these keys that is set, or else the empty string. */
  function FirstSet(keys: seq<string>, data: Data): Value {
    if keys == [] then Str("")
    else if !Unset(Look(data, keys[0])) then data[keys[0]]
    else FirstSet(keys[1..], data)
  }

  /** A column's id, then its reference, then all its aliases. */
  function LookupOrder(col: Col): seq<string> {
    [col.id] + (if col.reference != "" then [col.reference] else []) + col.aliases
  }

  function Resolve(col: Col, data: Data): Value {
    FirstSet(LookupOrder(col), data)
  }

  method ResolveCell(col: Col, data: Data) returns (cell: Value)
    ensures cell == Resolve(col, data)
  {
    var val := Look(data, col.id);
    ghost var order := LookupOrder(col);
    assert order[0] == col.id;
    assert Unset(val) ==> FirstSet(order, data) == FirstSet(order[1..], data);
    if Unset(val) && col.reference != "" {
      val := Look(data, col.reference);
      assert order[1..][0] == col.reference && order[1..][1..] == col.aliases;
      assert FirstSet(order[1..], data) == if Unset(val) then FirstSet(col.aliases, data) else val.value;
    } else {
      assert col.reference == "" ==> order[1..] == col.aliases;
    }
    if Unset(val) {
      assert col.aliases[0..] == col.aliases;
      for i := 0 to |col.aliases|
        invariant Unset(val) && FirstSet(order, data) == FirstSet(col.aliases[i..], data)
      {
        var alias := Look(data, col.aliases[i]);
        assert col.aliases[i..][0] == col.aliases[i] && col.aliases[i..][1..] == col.aliases[i + 1..];
        if !Unset(alias) {
          return alias.value;
        }
      }
    }
    assert col.aliases[|col.aliases|..] == [];
    cell := if val.Found? && !val.value.Null? then val.value else Str("");
  }

  /** The value is that of a key which is set. */
  ghost predicate FromAlias(col: Col, data: Data, value: Value) {
    exists a :: a in col.aliases && !Unset(Look(data, a)) && data[a] == value
  }

  lemma {:induction false} FirstSetIsSet(keys: seq<string>, data: Data, k: string)
    requires k in keys && !Unset(Look(data, k))
    ensures exists a :: a in keys && !Unset(Look(data, a)) && data[a] == FirstSet(keys, data)
  {
    if Unset(Look(data, keys[0])) {
      FirstSetIsSet(keys[1..], data, k);
    }
  }

  lemma FromOrder(col: Col, data: Data, k: string)
    requires ColumnOk(col) && k in col.aliases && !Unset(Look(data, k))
    ensures FromAlias(col, data, Resolve(col, data))
  {
    FirstSetIsSet(LookupOrder(col), data, k);
    var a :| a in LookupOrder(col) && !Unset(Look(data, a)) && data[a] == Resolve(col, data);
    assert a in col.aliases;
  }

  lemma {:induction false} FirstSetIs(keys: seq<string>, data: Data, i: nat)
    requires i < |keys| && !Unset(Look(data, keys[i])) && forall j :: 0 <= j < i ==> Unset(Look(data, keys[j]))
    ensures FirstSet(keys, data) == data[keys[i]]
  {
    if i > 0 {
      FirstSetIs(keys[1..], data, i - 1);
    }
  }

  /** The first of the keys that is set. */
  predicate FirstSetAt(keys: seq<string>, data: Data, i: int) {
    0 <= i < |keys| && !Unset(Look(data, keys[i])) && forall j :: 0 <= j < i ==> Unset(Look(data, keys[j]))
  }

  /** Which value a column shows: that under its id, or else its reference, or else the first alias that is set. */
  lemma ResolveIs(col: Col, data: Data)
    ensures var v, noId, noRef := Resolve(col, data), Unset(Look(data, col.id)), Unset(Look(data, col.reference));
      && (!noId ==> v == data[col.id])
      && (noId && col.reference != "" && !noRef ==> v == data[col.reference])
      && (noId && (col.reference == "" || noRef) ==>
            && (forall i :: FirstSetAt(col.aliases, data, i) ==> v == data[col.aliases[i]])
            && ((forall i :: 0 <= i < |col.aliases| ==> Unset(Look(data, col.aliases[i]))) ==> v == Str("")))
  {
    var order := LookupOrder(col);
    var o := if col.reference != "" then 2 else 1;
    assert order[0] == col.id && (col.reference != "" ==> order[1] == col.reference) && order[o..] == col.aliases;
    if !Unset(Look(data, col.id)) {
      FirstSetIs(order, data, 0);
    } else if col.reference != "" && !Unset(Look(data, col.reference)) {
      FirstSetIs(order, data, 1);
    } else {
      forall i | FirstSetAt(col.aliases, data, i)
        ensures Resolve(col, data) == data[col.aliases[i]]
      {
        assert order[o + i] == order[o..][i];
        assert forall j :: o <= j < o + i ==> order[j] == col.aliases[j - o];
        FirstSetIs(order, data, o + i);
      }
      if forall i :: 0 <= i < |col.aliases| ==> Unset(Look(data, col.aliases[i])) {
        FirstSetNone(order, data);
      }
    }
  }

  /** With no hypothesis on the versions: a set value makes its column show a set value of one of its aliases. */
  lemma ColumnShowsValue(t: Table, data: Data, k: string)
    requires TableOk(t) && k in t.owner && !Unset(Look(data, k))
    ensures t.owner[k] < |t.columns|
    ensures FromAlias(t.columns[t.owner[k]], data, Resolve(t.columns[t.owner[k]], data))
    ensures (forall a :: a in t.columns[t.owner[k]].aliases && a != k ==> Unset(Look(data, a))) ==>
      Resolve(t.columns[t.owner[k]], data) == data[k]
  {
    assert OwnerOk(t, k) && ColumnOk(t.columns[t.owner[k]]);
    FromOrder(t.columns[t.owner[k]], data, k);
  }

  // ----- Rows -----

  /** A later column overwrites an earlier one with the same id. */
  function Row(columns: seq<Col>, data: Data): Data {
    if columns == [] then map[]
    else
      var last := columns[|columns| - 1];
      Row(columns[..|columns| - 1], data)[last.id := Resolve(last, data)]
  }

  method BuildRow(columns: seq<Col>, data: Data) returns (rowData: Data)
    ensures rowData == Row(columns, data)
  {
    rowData := map[];
    for i := 0 to |columns|
      invariant rowData == Row(columns[..i], data)
    {
      var val := ResolveCell(columns[i], data);
      rowData := rowData[columns[i].id := val];
      assert columns[..i + 1][..i] == columns[..i];
    }
    assert columns[..|columns|] == columns;
  }

  /** No later column has the same id. */
  predicate LastOfId(columns: seq<Col>, c: nat)
    requires c < |columns|
  {
    forall d :: c < d < |columns| ==> columns[d].id != columns[c].id
  }

  lemma {:induction false} LastColumnShows(columns: seq<Col>, data: Data, c: nat)
    requires c < |columns| && LastOfId(columns, c)
    ensures columns[c].id in Row(columns, data) && Row(columns, data)[columns[c].id] == Resolve(columns[c], data)
  {
    var n := |columns| - 1;
    if c < n {
      assert LastOfId(columns[..n], c);
      LastColumnShows(columns[..n], data, c);
    }
  }

  /** A row has a cell for each column id, and no others. */
  lemma {:induction false} RowKeys(columns: seq<Col>, data: Data, key: string)
    ensures key in Row(columns, data) <==> exists c :: 0 <= c < |columns| && columns[c].id == key
  {
    if columns != [] {
      var n := |columns| - 1;
      RowKeys(columns[..n], data, key);
      assert forall c :: 0 <= c < n ==> columns[..n][c] == columns[c];
    }
  }

  /** The column that decides what the row holds under the id of column c. */
  function LastOf(columns: seq<Col>, c: nat): (e: nat)
    requires c < |columns|
    ensures c <= e < |columns| && columns[e].id == columns[c].id && LastOfId(columns, e)
  {
    LastOfFrom(columns, c, |columns| - 1)
  }

  function LastOfFrom(columns: seq<Col>, c: nat, n: nat): (e: nat)
    requires c <= n < |columns| && forall d :: n < d < |columns| ==> columns[d].id != columns[c].id
    ensures c <= e < |columns| && columns[e].id == columns[c].id && LastOfId(columns, e)
  {
    if columns[n].id == columns[c].id then n else LastOfFrom(columns, c, n - 1)
  }

  /** What the row shows for the column that key k belongs to. */
  function CellOf(t: Table, k: string, data: Data): Lookup
    requires k in t.owner && t.owner[k] < |t.columns|
  {
    Look(Row(t.columns, data), t.columns[t.owner[k]].id)
  }

  lemma FirstSetUnsetIff(keys: seq<string>, data: Data)
    ensures Unset(Found(FirstSet(keys, data))) <==> forall a :: a in keys ==> Unset(Look(data, a))
  {
    if k :| k in keys && !Unset(Look(data, k)) {
      FirstSetIsSet(keys, data, k);
    } else {
      FirstSetNone(keys, data);
    }
  }

  /** The cell is empty exactly when no alias of the deciding column is set. */
  lemma CellEmptyIff(t: Table, k: string, data: Data)
    requires TableOk(t) && k in t.owner
    ensures t.owner[k] < |t.columns| && (Unset(CellOf(t, k, data)) <==>
      forall a :: a in t.columns[LastOf(t.columns, t.owner[k])].aliases ==> Unset(Look(data, a)))
  {
    assert OwnerOk(t, k);
    var e := LastOf(t.columns, t.owner[k]);
    var col := t.columns[e];
    LastColumnShows(t.columns, data, e);
    FirstSetUnsetIff(LookupOrder(col), data);
    assert ColumnOk(col);
    assert forall a :: a in LookupOrder(col) <==> a in col.aliases;
  }

  /** A value set under k is lost from a submission: its column's cell is empty. */
  predicate Loses(t: Table, k: string, data: Data)
    requires k in t.owner && t.owner[k] < |t.columns|
  {
    !Unset(Look(data, k)) && Unset(CellOf(t, k, data))
  }

  /** No submission loses what it has under k exactly when k is an alias of the column that decides the cell. */
  lemma NeverLosesIff(t: Table, k: string)
    requires TableOk(t) && k in t.owner
    ensures t.owner[k] < |t.columns|
    ensures (forall data :: !Loses(t, k, data)) <==> k in t.columns[LastOf(t.columns, t.owner[k])].aliases
  {
    assert OwnerOk(t, k);
    forall data
      ensures k in t.columns[LastOf(t.columns, t.owner[k])].aliases ==> !Loses(t, k, data)
    {
      CellEmptyIff(t, k, data);
    }
    if k !in t.columns[LastOf(t.columns, t.owner[k])].aliases {
      var data := map[k := Num(0.0)];
      CellEmptyIff(t, k, data);
      assert Loses(t, k, data);
    }
  }

  /** The columns of the view never lose a value. */
  ghost predicate LosesNothing(t: Table)
    requires TableOk(t)
  {
    forall k, data :: k in t.owner ==> OwnerOk(t, k) && !Loses(t, k, data)
  }

  predicate Decided(t: Table, k: string)
    requires k in t.owner && t.owner[k] < |t.columns|
  {
    k in t.columns[LastOf(t.columns, t.owner[k])].aliases
  }

  /**
   For all versions and submissions of a form: no value ever disappears from a row exactly when each key
   is an alias of the last column that has the id of its own column.
   */
  lemma ViewLosesNothingIff(els: seq<Element>, entries: seq<Entry>)
    ensures var t := ViewColumns(els, entries);
      && TableOk(t) && (LosesNothing(t) <==> forall k :: k in t.owner ==> OwnerOk(t, k) && Decided(t, k))
  {
    AddEntriesSound(els, entries);
    var t := ViewColumns(els, entries);
    hide Loses;
    if LosesNothing(t) {
      forall k | k in t.owner
        ensures OwnerOk(t, k) && Decided(t, k)
      {
        NeverLosesIff(t, k);
      }
    }
    if forall k :: k in t.owner ==> OwnerOk(t, k) && Decided(t, k) {
      forall k, data | k in t.owner
        ensures OwnerOk(t, k) && !Loses(t, k, data)
      {
        NeverLosesIff(t, k);
      }
    }
  }

  predicate DistinctIds(columns: seq<Col>) {
    forall c, d :: 0 <= c < d < |columns| ==> columns[c].id != columns[d].id
  }

  /** The cell of k's column holds a set value of one of its aliases, that of k itself if no other is set. */
  ghost predicate Shows(t: Table, k: string, data: Data) {
    && k in t.owner && t.owner[k] < |t.columns|
    && (var col, row := t.columns[t.owner[k]], Row(t.columns, data);
        && col.id in row && FromAlias(col, data, row[col.id])
        && ((forall a :: a in col.aliases && a != k ==> Unset(Look(data, a))) ==> row[col.id] == Look(data, k).value))
  }

  /** When the final columns have distinct ids, every set value of every submission shows in its row. */
  lemma DistinctIdsShowAll(els: seq<Element>, entries: seq<Entry>, i: nat, k: string)
    requires DistinctIds(ViewColumns(els, entries).columns)
    requires i < |entries| && Listed(entries[i]) && !Unset(Look(entries[i].data, k))
    ensures Shows(ViewColumns(els, entries), k, entries[i].data)
  {
    var t := ViewColumns(els, entries);
    AddEntriesKeep(AddAll(els), entries);
    assert k in entries[i].keys;
    ColumnShowsValue(t, entries[i].data, k);
    LastColumnShows(t.columns, entries[i].data, t.owner[k]);
  }

  /** In particular when no element clashes. */
  lemma NoValueLost(els: seq<Element>, entries: seq<Entry>, i: nat, k: string)
    requires NeverClashes(els) && i < |entries| && Listed(entries[i]) && !Unset(Look(entries[i].data, k))
    ensures Shows(ViewColumns(els, entries), k, entries[i].data)
  {
    var t := ViewColumns(els, entries);
    ColumnsAreComponents(els);
    AddEntriesKeep(AddAll(els), entries);
    forall c, d | 0 <= c < d < |t.columns|
      ensures t.columns[c].id != t.columns[d].id
    {
      ExactMeansDisjoint(t, c, d);
    }
    DistinctIdsShowAll(els, entries, i, k);
  }

  /** Two fields that share a column were connected by links of ids with references. */
  lemma ViewUnitesOnlyLinked(els: seq<Element>, entries: seq<Entry>, a: string, b: string)
    requires var t := ViewColumns(els, entries); a in t.owner && b in t.owner && t.owner[a] == t.owner[b]
    ensures Connected(els, a, b)
  {
    ColumnsAreSound(els);
    AddEntriesSound(els, entries);
  }

  lemma {:induction false} AddKeysSound(t: Table, els: seq<Element>, keys: seq<string>)
    requires TableOk(t) && Sound(t, els)
    ensures TableOk(AddKeys(t, keys)) && Sound(AddKeys(t, keys), els)
  {
    if keys != [] {
      var u, key := AddKeys(t, keys[..|keys| - 1]), keys[|keys| - 1];
      AddKeysSound(t, els, keys[..|keys| - 1]);
      AddKeyOk(u, key);
      ConnectedSelf(els, key);
      assert forall k :: k in u.owner ==> OwnerOk(u, k);
    }
  }

  lemma {:induction false} AddEntriesSound(els: seq<Element>, entries: seq<Entry>)
    ensures TableOk(ViewColumns(els, entries)) && Sound(ViewColumns(els, entries), els)
  {
    if entries == [] {
      ColumnsAreSound(els);
    } else {
      AddEntriesSound(els, entries[..|entries| - 1]);
      AddKeysSound(ViewColumns(els, entries[..|entries| - 1]), els, entries[|entries| - 1].keys);
    }
  }

  // ----- What a clash costs -----

  function Field(id: string, reference: string): Element {
    Element(id, Text, "", "", reference, false, [], "", Conditions(true, false, []))
  }

  /** A field whose keys are all new. */
  lemma FirstMeeting(t: Table, el: Element)
    requires OwnersExist(t) && el.kind == Text && el.id != "" && el.reference != "" && el.id != el.reference
    requires el.id !in t.owner && el.reference !in t.owner
    ensures AddElement(t, el).owner == t.owner[el.id := |t.columns|][el.reference := |t.columns|]
    ensures AddElement(t, el).columns == t.columns + [NewCol(el)]
    ensures NewCol(el).aliases == [el.id, el.reference] && NewCol(el).id == NewCol(el).reference == el.reference
  {
    assert el.reference !in [el.id];
    assert [el.id] + [el.reference] == [el.id, el.reference];
  }

  lemma AddAllThree(e0: Element, e1: Element, e2: Element)
    ensures var t1 := AddElement(NO_COLUMNS, e0);
      OwnersExist(t1) && (var t2 := AddElement(t1, e1); OwnersExist(t2) && AddAll([e0, e1, e2]) == AddElement(t2, e2))
  {
    hide AddElement;
    assert [e0, e1, e2][..2] == [e0, e1] && [e0, e1][..1] == [e0] && [e0][..0] == [];
    assert AddAll([e0]) == AddElement(NO_COLUMNS, e0);
    assert AddAll([e0, e1]) == AddElement(AddAll([e0]), e1);
  }

  lemma ClashTable() returns (t: Table)
    ensures t == AddAll([Field("a", "x"), Field("b", "y"), Field("a", "y")])
    ensures t.owner == map["a" := 0, "x" := 0, "b" := 1, "y" := 0]
    ensures |t.columns| == 2 && t.columns[0].id == t.columns[1].id == t.columns[1].reference == "y"
    ensures t.columns[1].aliases == ["b", "y"]
  {
    hide AddAll, NewCol;
    var e0, e1, e2 := Field("a", "x"), Field("b", "y"), Field("a", "y");
    FirstMeeting(NO_COLUMNS, e0);
    var t1 := AddElement(NO_COLUMNS, e0);
    FirstMeeting(t1, e1);
    var t2 := AddElement(t1, e1);
    t := AddElement(t2, e2);
    assert t2.columns[1].aliases == ["b", "y"] && ColumnOf(t2, e2) == 0;
    AddAllThree(e0, e1, e2);
  }

  lemma TwoCells(columns: seq<Col>, data: Data)
    requires |columns| == 2 && columns[0].id == columns[1].id
    ensures Row(columns, data) == map[columns[1].id := Resolve(columns[1], data)]
  {
    assert columns[..1][..0] == [];
    assert Row(columns[..1], data) == map[columns[0].id := Resolve(columns[0], data)];
  }

  /** Field "a" takes over the reference of field "b": two columns then share an id, and a value disappears. */
  lemma ClashLosesValue()
    ensures var t := AddAll([Field("a", "x"), Field("b", "y"), Field("a", "y")]);
      && "x" in t.owner && t.owner["x"] < |t.columns|
      && Row(t.columns, map["x" := Str("1")]) == map["y" := Str("")] && Loses(t, "x", map["x" := Str("1")])
  {
    hide AddAll, Row, FirstSet;
    var t := ClashTable();
    var data := map["x" := Str("1")];
    assert LookupOrder(t.columns[1]) == ["y", "y", "b", "y"];
    FirstSetNone(LookupOrder(t.columns[1]), data);
    TwoCells(t.columns, data);
  }

  lemma {:induction false} FirstSetNone(keys: seq<string>, data: Data)
    requires forall k :: k in keys ==> Unset(Look(data, k))
    ensures FirstSet(keys, data) == Str("")
  {
    if keys != [] {
      FirstSetNone(keys[1..], data);
    }
  }

  // ----- The accumulator as the service builds it -----

  /** `place` records where the column stands in the list of columns. */
  class Column {
    var id: string
    var caption: string
    var kind: ElementType
    var reference: string
    var aliases: seq<string>
    ghost const place: nat

    ghost function Content(): Col
      reads this
    {
      Col(id, caption, kind, reference, aliases)
    }

    constructor (col: Col, ghost place: nat)
      ensures Content() == col && this.place == place
    {
      id, caption, kind, reference, aliases := col.id, col.caption, col.kind, col.reference, col.aliases;
      this.place := place;
    }

    /** The latest version of a field decides how its column appears. */
    method Describe(el: Element)
      modifies `id, `caption, `kind, `reference
      ensures Content() == Joined(old(Content()), el).(aliases := aliases)
    {
      if el.reference != "" {
        reference := el.reference;
        id := el.reference;
      }
      if el.labelText != "" || el.name != "" {
        caption := if el.labelText != "" then el.labelText else el.name;
      }
      kind := el.kind;
    }

    method AddAliasKey(key: string)
      modifies `aliases
      ensures aliases == AddAlias(old(aliases), key)
    {
      if key !in aliases {
        aliases := aliases + [key];
      }
    }
  }

  /** `owner` records which column of the list each key is mapped to. */
  class Accumulator {
    var columns: seq<Column>
    var keyToColumn: map<string, Column>
    ghost var owner: map<string, nat>

    ghost predicate Valid()
      reads this
    {
      && (forall c :: 0 <= c < |columns| ==> columns[c].place == c)
      && owner.Keys == keyToColumn.Keys
      && forall k :: k in owner ==> owner[k] < |columns| && keyToColumn[k] == columns[owner[k]]
    }

    ghost function State(): (t: Table)
      requires Valid()
      reads this, columns
      ensures |t.columns| == |columns| && OwnersExist(t)
    {
      Table(seq(|columns|, i requires 0 <= i < |columns| reads this, columns => columns[i].Content()), owner)
    }

    constructor ()
      ensures Valid() && State() == NO_COLUMNS
    {
      columns := [];
      keyToColumn := map[];
      owner := map[];
    }

    method AddField(el: Element)
      requires Valid()
      modifies this, columns
      ensures Valid() && State() == AddElement(old(State()), el)
      ensures old(columns) <= columns && forall i :: |old(columns)| <= i < |columns| ==> fresh(columns[i])
    {
      if !IsDataField(el.kind) {
        return;
      }
      var existing: Column? := null;
      if el.id != "" && el.id in keyToColumn {
        existing := keyToColumn[el.id];
      } else if el.reference != "" && el.reference in keyToColumn {
        existing := keyToColumn[el.reference];
      }
      if existing != null {
        Merge(existing, el);
      } else {
        Insert(el);
      }
    }

    /** A key, if set, becomes an alias of the column and leads to it. */
    method Register(key: string, col: Column)
      requires Valid() && col.place < |columns| && columns[col.place] == col
      modifies col`aliases, `keyToColumn, `owner
      ensures Valid() && owner == Own(old(owner), key, col.place)
      ensures col.aliases == AddIfSet(old(col.aliases), key)
    {
      if key != "" {
        col.AddAliasKey(key);
        keyToColumn, owner := keyToColumn[key := col], owner[key := col.place];
      }
    }

    /** The field joins a column that it knows by its id or its reference. */
    method Merge(existing: Column, el: Element)
      requires Valid() && IsDataField(el.kind) && HasColumn(State(), el) && existing == columns[ColumnOf(State(), el)]
      modifies this, existing
      ensures Valid() && columns == old(columns) && State() == AddElement(old(State()), el)
    {
      ghost var before := State();
      Register(el.id, existing);
      Register(el.reference, existing);
      existing.Describe(el);
      OneChanged(before.columns, existing);
    }

    lemma OneChanged(before: seq<Col>, col: Column)
      requires Valid() && |columns| == |before| && col.place < |columns| && columns[col.place] == col
      requires forall c :: 0 <= c < |before| && c != col.place ==> columns[c].Content() == before[c]
      ensures State() == Table(before[col.place := col.Content()], owner)
    {
      assert State().columns == before[col.place := col.Content()];
    }

    /** The state in terms of its parts. */
    lemma StateIs(before: seq<Col>, col: Col)
      requires Valid() && |columns| == |before| + 1 && columns[|before|].Content() == col
      requires forall c :: 0 <= c < |before| ==> columns[c].Content() == before[c]
      ensures State() == Table(before + [col], owner)
    {
      assert State().columns == before + [col];
    }

    method Push(col: Col) returns (newCol: Column)
      requires Valid()
      modifies `columns
      ensures Valid() && fresh(newCol) && newCol.Content() == col && newCol.place == |old(columns)|
      ensures columns == old(columns) + [newCol]
    {
      newCol := new Column(col, |columns|);
      columns := columns + [newCol];
    }

    /** The field gets a column of its own. */
    method Insert(el: Element)
      requires Valid() && IsDataField(el.kind) && !HasColumn(State(), el)
      modifies this
      ensures Valid() && State() == AddElement(old(State()), el)
      ensures old(columns) <= columns && forall i :: |old(columns)| <= i < |columns| ==> fresh(columns[i])
    {
      ghost var before := State();
      var colId := FieldKey(el);
      var caption := if el.labelText != "" then el.labelText else if el.name != "" then el.name else colId;
      var newCol := Push(Col(colId, caption, el.kind, el.reference, []));
      RegisterNew(newCol, el);
      hide NewCol, Own;
      StateIs(before.columns, NewCol(el));
    }

    method RegisterNew(newCol: Column, el: Element)
      requires Valid() && newCol.place < |columns| && columns[newCol.place] == newCol && newCol.aliases == []
      modifies newCol`aliases, `keyToColumn, `owner
      ensures Valid() && newCol.aliases == NewCol(el).aliases
      ensures var c := newCol.place;
        owner == Own(Own(old(owner), el.id, c), el.reference, c)[FieldKey(el) := c]
    {
      Register(el.id, newCol);
      Register(el.reference, newCol);
      newCol.AddAliasKey(FieldKey(el));
      keyToColumn, owner := keyToColumn[FieldKey(el) := newCol], owner[FieldKey(el) := newCol.place];
    }

    method AddExtra(rawKey: string)
      requires Valid()
      modifies this
      ensures Valid() && State() == AddKey(old(State()), rawKey)
      ensures old(columns) <= columns && forall i :: |old(columns)| <= i < |columns| ==> fresh(columns[i])
    {
      if rawKey !in keyToColumn {
        ghost var before := State();
        var extra := Push(Col(rawKey, rawKey, Text, rawKey, [rawKey]));
        keyToColumn, owner := keyToColumn[rawKey := extra], owner[rawKey := extra.place];
        StateIs(before.columns, extra.Content());
      }
    }
  }

  method BuildColumns(els: seq<Element>, entries: seq<Entry>) returns (acc: Accumulator)
    ensures fresh(acc) && acc.Valid() && acc.State() == ViewColumns(els, entries)
  {
    acc := AddFields(els);
    for i := 0 to |entries|
      invariant fresh(acc) && acc.Valid() && acc.State() == ViewColumns(els, entries[..i])
    {
      AddExtras(acc, entries[i].keys);
      assert entries[..i + 1][..i] == entries[..i];
    }
    assert entries[..|entries|] == entries;
  }

  method AddFields(els: seq<Element>) returns (acc: Accumulator)
    ensures fresh(acc) && acc.Valid() && acc.State() == AddAll(els)
  {
    hide AddElement;
    acc := new Accumulator();
    for i := 0 to |els|
      invariant fresh(acc) && (forall j :: 0 <= j < |acc.columns| ==> fresh(acc.columns[j]))
      invariant acc.Valid() && acc.State() == AddAll(els[..i])
    {
      acc.AddField(els[i]);
      AddAllMore(els, i);
    }
    assert els[..|els|] == els;
  }

  method AddExtras(acc: Accumulator, keys: seq<string>)
    requires acc.Valid()
    modifies acc
    ensures acc.Valid() && acc.State() == AddKeys(old(acc.State()), keys)
    ensures old(acc.columns) <= acc.columns && forall j :: |old(acc.columns)| <= j < |acc.columns| ==>
        fresh(acc.columns[j])
  {
    ghost var start := acc.State();
    for i := 0 to |keys|
      invariant acc.Valid() && acc.State() == AddKeys(start, keys[..i])
      invariant old(acc.columns) <= acc.columns && forall j :: |old(acc.columns)| <= j < |acc.columns| ==>
          fresh(acc.columns[j])
    {
      acc.AddExtra(keys[i]);
      assert keys[..i + 1][..i] == keys[..i];
    }
    assert keys[..|keys|] == keys;
  }
}
