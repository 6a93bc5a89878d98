/** What the columns of the data view show: which fields each of them gathers, and what it takes from them. */
module ColumnFaces {
  import opened FormTree
  import opened DataColumns
  import opened DataView

  // ----- Which column each field joins -----

  /** For each element the column that it joined when it was taken in, -1 for one that is no data field. */
  ghost function Homes(els: seq<Element>): (h: seq<int>)
    ensures |h| == |els|
  {
    if els == [] then []
    else
      var n := |els| - 1;
      AddAllMore(els, n);
      AddElementOk(AddAll(els[..n]), els[n]);
      assert els[..n + 1] == els;
      Homes(els[..n]) + [if IsDataField(els[n].kind) then AddAll(els).owner[FieldKey(els[n])] else -1]
  }

  /** What a field is called: its label, or else its name. */
  function NameOf(el: Element): string {
    if el.labelText != "" then el.labelText else el.name
  }

  /** The keys that a field has, in the order in which they are looked at. */
  function KeysOf(el: Element): seq<string> {
    if el.id == "" && el.reference == "" then [""]
    else (if el.id != "" then [el.id] else []) + (if el.reference != "" then [el.reference] else [])
  }

  /** The keys of the fields that joined column c, one field after the other. */
  ghost function Mentions(els: seq<Element>, h: seq<int>, c: int): seq<string>
    requires |h| == |els|
  {
    if els == [] then []
    else
      var n := |els| - 1;
      Mentions(els[..n], h[..n], c) + if h[n] == c then KeysOf(els[n]) else []
  }

  /** The keys mentioned, each once, in the order in which they came up first. */
  ghost predicate InOrderOfMention(keys: seq<string>, mentions: seq<string>) {
    && (forall k :: k in keys <==> k in mentions)
    && (forall i, j :: 0 <= i < j < |keys| ==> MentionedBefore(keys[i], keys[j], mentions))
  }

  ghost predicate MentionedBefore(a: string, b: string, mentions: seq<string>) {
    exists p :: 0 <= p < |mentions| && mentions[p] == a && b !in mentions[..p + 1]
  }

  predicate At(h: seq<int>, c: int, n: int) {
    0 <= n < |h| && h[n] == c
  }

  /** The last field that joined the column. */
  ghost predicate Last(h: seq<int>, c: int, n: int) {
    At(h, c, n) && forall m :: n < m < |h| ==> !At(h, c, m)
  }

  ghost predicate First(h: seq<int>, c: int, n: int) {
    At(h, c, n) && forall m :: 0 <= m < n ==> !At(h, c, m)
  }

  /** The last field of the column that is called something. */
  ghost predicate LastNamed(els: seq<Element>, h: seq<int>, c: int, n: int)
    requires |h| == |els|
  {
    At(h, c, n) && NameOf(els[n]) != "" && forall m :: n < m < |h| && At(h, c, m) ==> NameOf(els[m]) == ""
  }

  /** The last field of the column that has a reference. */
  ghost predicate LastReferenced(els: seq<Element>, h: seq<int>, c: int, n: int)
    requires |h| == |els|
  {
    At(h, c, n) && els[n].reference != "" && forall m :: n < m < |h| && At(h, c, m) ==> els[m].reference == ""
  }

  /** The column is of the kind of its last field. */
  ghost predicate KindFace(els: seq<Element>, h: seq<int>, c: int, col: Col)
    requires |h| == |els|
  {
    (exists n :: Last(h, c, n)) && forall n :: Last(h, c, n) ==> col.kind == els[n].kind
  }

  /** It is headed by the last field that is called something, or else by the key of its first field. */
  ghost predicate CaptionFace(els: seq<Element>, h: seq<int>, c: int, col: Col)
    requires |h| == |els|
  {
    && (forall n :: LastNamed(els, h, c, n) ==> col.caption == NameOf(els[n]))
    && ((forall n :: At(h, c, n) ==> NameOf(els[n]) == "") ==>
          forall n :: First(h, c, n) ==> col.caption == FieldKey(els[n]))
  }

  /** Its reference and its id are the last reference, or else its id is that of its first field. */
  ghost predicate ReferenceFace(els: seq<Element>, h: seq<int>, c: int, col: Col)
    requires |h| == |els|
  {
    && (forall n :: LastReferenced(els, h, c, n) ==> col.reference == els[n].reference && col.id == els[n].reference)
    && ((forall n :: At(h, c, n) ==> els[n].reference == "") ==>
          col.reference == "" && forall n :: First(h, c, n) ==> col.id == els[n].id)
  }

  ghost predicate Face(els: seq<Element>, h: seq<int>, c: int, col: Col)
    requires |h| == |els|
  {
    && KindFace(els, h, c, col) && CaptionFace(els, h, c, col) && ReferenceFace(els, h, c, col)
    && InOrderOfMention(col.aliases, Mentions(els, h, c))
  }

  // ----- One more field -----

  lemma MentionsMore(els: seq<Element>, h: seq<int>, el: Element, c0: int, c: int)
    requires |h| == |els|
    ensures Mentions(els + [el], h + [c0], c) == Mentions(els, h, c) + if c0 == c then KeysOf(el) else []
  {
    assert (els + [el])[..|els|] == els && (h + [c0])[..|els|] == h;
  }

  lemma AtMore(h: seq<int>, c0: int, c: int)
    ensures forall n :: At(h + [c0], c, n) <==> At(h, c, n) || (n == |h| && c0 == c)
  {
  }

  /** The column of another field stays as it was. */
  lemma FaceOther(els: seq<Element>, h: seq<int>, el: Element, c0: int, c: int, col: Col)
    requires |h| == |els| && c != c0 && Face(els, h, c, col)
    ensures Face(els + [el], h + [c0], c, col)
  {
    MentionsMore(els, h, el, c0, c);
    hide InOrderOfMention, Mentions, KindFace, CaptionFace, ReferenceFace;
    assert Mentions(els, h, c) + [] == Mentions(els, h, c);
    OtherKind(els, h, el, c0, c, col);
    OtherCaption(els, h, el, c0, c, col);
    OtherReference(els, h, el, c0, c, col);
  }

  lemma OtherKind(els: seq<Element>, h: seq<int>, el: Element, c0: int, c: int, col: Col)
    requires |h| == |els| && c != c0 && KindFace(els, h, c, col)
    ensures KindFace(els + [el], h + [c0], c, col)
  {
    AtMore(h, c0, c);
    var n :| Last(h, c, n);
    assert Last(h + [c0], c, n);
    forall m | Last(h + [c0], c, m)
      ensures Last(h, c, m)
    {
    }
  }

  lemma OtherCaption(els: seq<Element>, h: seq<int>, el: Element, c0: int, c: int, col: Col)
    requires |h| == |els| && c != c0 && CaptionFace(els, h, c, col)
    ensures CaptionFace(els + [el], h + [c0], c, col)
  {
    var more, hh := els + [el], h + [c0];
    AtMore(h, c0, c);
    forall n | LastNamed(more, hh, c, n)
      ensures LastNamed(els, h, c, n)
    {
      assert forall m :: At(h, c, m) ==> more[m] == els[m] && At(hh, c, m);
    }
    forall n | First(hh, c, n)
      ensures First(h, c, n)
    {
    }
    assert forall m :: At(h, c, m) ==> more[m] == els[m] && At(hh, c, m);
  }

  lemma OtherReference(els: seq<Element>, h: seq<int>, el: Element, c0: int, c: int, col: Col)
    requires |h| == |els| && c != c0 && ReferenceFace(els, h, c, col)
    ensures ReferenceFace(els + [el], h + [c0], c, col)
  {
    var more, hh := els + [el], h + [c0];
    AtMore(h, c0, c);
    forall n | LastReferenced(more, hh, c, n)
      ensures LastReferenced(els, h, c, n)
    {
      assert forall m :: At(h, c, m) ==> more[m] == els[m] && At(hh, c, m);
    }
    forall n | First(hh, c, n)
      ensures First(h, c, n)
    {
    }
    assert forall m :: At(h, c, m) ==> more[m] == els[m] && At(hh, c, m);
  }

  lemma MentionOne(keys: seq<string>, mentions: seq<string>, key: string)
    requires InOrderOfMention(keys, mentions)
    ensures InOrderOfMention(AddAlias(keys, key), mentions + [key])
  {
    var after, more := AddAlias(keys, key), mentions + [key];
    forall k
      ensures k in after <==> k in more
    {
    }
    forall i, j | 0 <= i < j < |after|
      ensures MentionedBefore(after[i], after[j], more)
    {
      if j < |keys| {
        assert MentionedBefore(keys[i], keys[j], mentions);
        var p :| 0 <= p < |mentions| && mentions[p] == keys[i] && keys[j] !in mentions[..p + 1];
        assert more[..p + 1] == mentions[..p + 1] && more[p] == keys[i];
      } else {
        assert keys[i] in mentions;
        var p :| 0 <= p < |mentions| && mentions[p] == keys[i];
        assert more[..p + 1] == mentions[..p + 1] && more[p] == keys[i];
      }
    }
  }

  /** The keys of a field, mentioned one after the other. */
  lemma MentionField(aliases: seq<string>, mentions: seq<string>, el: Element)
    requires InOrderOfMention(aliases, mentions) && (el.id != "" || el.reference != "")
    ensures InOrderOfMention(AddIfSet(AddIfSet(aliases, el.id), el.reference), mentions + KeysOf(el))
  {
    hide InOrderOfMention;
    if el.id != "" {
      MentionOne(aliases, mentions, el.id);
      assert mentions + [el.id] + [] == mentions + [el.id];
      if el.reference != "" {
        MentionOne(AddAlias(aliases, el.id), mentions + [el.id], el.reference);
        assert mentions + [el.id] + [el.reference] == mentions + ([el.id] + [el.reference]);
      } else {
        assert KeysOf(el) == [el.id];
      }
    } else {
      MentionOne(aliases, mentions, el.reference);
      assert KeysOf(el) == [el.reference];
    }
  }

  lemma JoinedKind(els: seq<Element>, h: seq<int>, el: Element, c: int, col: Col)
    requires |h| == |els| && col.kind == el.kind
    ensures KindFace(els + [el], h + [c], c, col)
  {
    AtMore(h, c, c);
    assert Last(h + [c], c, |h|);
  }

  lemma JoinedCaption(els: seq<Element>, h: seq<int>, el: Element, c: int, col: Col, more: Col)
    requires |h| == |els| && CaptionFace(els, h, c, col)
    requires more.caption == if NameOf(el) != "" then NameOf(el) else col.caption
    requires exists n :: At(h, c, n)
    ensures CaptionFace(els + [el], h + [c], c, more)
  {
    var es, hh := els + [el], h + [c];
    AtMore(h, c, c);
    assert At(hh, c, |h|) && es[|h|] == el;
    assert forall m :: At(h, c, m) ==> es[m] == els[m] && At(hh, c, m);
    forall n | LastNamed(es, hh, c, n)
      ensures more.caption == NameOf(es[n])
    {
      if n < |h| {
        assert NameOf(el) == "" && LastNamed(els, h, c, n);
      }
    }
    if forall n :: At(hh, c, n) ==> NameOf(es[n]) == "" {
      forall n | First(hh, c, n)
        ensures First(h, c, n)
      {
      }
    }
  }

  lemma JoinedReference(els: seq<Element>, h: seq<int>, el: Element, c: int, col: Col, more: Col)
    requires |h| == |els| && ReferenceFace(els, h, c, col)
    requires more.reference == if el.reference != "" then el.reference else col.reference
    requires more.id == if el.reference != "" then el.reference else col.id
    requires exists n :: At(h, c, n)
    ensures ReferenceFace(els + [el], h + [c], c, more)
  {
    var es, hh := els + [el], h + [c];
    AtMore(h, c, c);
    assert At(hh, c, |h|) && es[|h|] == el;
    assert forall m :: At(h, c, m) ==> es[m] == els[m] && At(hh, c, m);
    forall n | LastReferenced(es, hh, c, n)
      ensures more.reference == es[n].reference && more.id == es[n].reference
    {
      if n < |h| {
        assert el.reference == "" && LastReferenced(els, h, c, n);
      }
    }
    if forall n :: At(hh, c, n) ==> es[n].reference == "" {
      forall n | First(hh, c, n)
        ensures First(h, c, n)
      {
      }
    }
  }

  /** A field that joins the column changes how it looks. */
  lemma FaceJoined(els: seq<Element>, h: seq<int>, el: Element, c: int, col: Col)
    requires |h| == |els| && Face(els, h, c, col) && (el.id != "" || el.reference != "")
    ensures Face(els + [el], h + [c], c, Joined(col, el))
  {
    MentionsMore(els, h, el, c, c);
    assert exists n :: At(h, c, n) by {
      var n :| Last(h, c, n);
      assert At(h, c, n);
    }
    hide InOrderOfMention, Mentions, KindFace, CaptionFace, ReferenceFace, At, KeysOf, AddIfSet;
    MentionField(col.aliases, Mentions(els, h, c), el);
    JoinedKind(els, h, el, c, Joined(col, el));
    JoinedCaption(els, h, el, c, col, Joined(col, el));
    JoinedReference(els, h, el, c, col, Joined(col, el));
  }

  lemma {:induction false} NoMentions(els: seq<Element>, h: seq<int>, c: int)
    requires |h| == |els| && forall n :: 0 <= n < |h| ==> h[n] != c
    ensures Mentions(els, h, c) == []
  {
    if els != [] {
      NoMentions(els[..|els| - 1], h[..|els| - 1], c);
    }
  }

  lemma NewAliases(el: Element)
    ensures InOrderOfMention(NewCol(el).aliases, KeysOf(el))
  {
    if el.id == "" && el.reference == "" {
      assert NewCol(el).aliases == [""];
    } else {
      MentionField([], [], el);
      assert [] + KeysOf(el) == KeysOf(el);
      assert FieldKey(el) in AddIfSet(AddIfSet([], el.id), el.reference);
    }
  }

  /** A field that opens a column decides all of it. */
  lemma FaceNew(els: seq<Element>, h: seq<int>, el: Element, c: int)
    requires |h| == |els| && forall n :: 0 <= n < |h| ==> h[n] != c
    ensures Face(els + [el], h + [c], c, NewCol(el))
  {
    var hh := h + [c];
    NoMentions(els, h, c);
    MentionsMore(els, h, el, c, c);
    assert [] + KeysOf(el) == KeysOf(el);
    NewAliases(el);
    JoinedKind(els, h, el, c, NewCol(el));
    assert forall n :: At(hh, c, n) <==> n == |h|;
    assert (els + [el])[|h|] == el;
    hide InOrderOfMention, Mentions, KindFace, KeysOf;
  }

  // ----- All fields -----

  /** The last field before position n that has the key. */
  ghost predicate LastWith(els: seq<Element>, n: nat, key: string, m: int)
    requires n <= |els|
  {
    && 0 <= m < n && IsDataField(els[m].kind) && key in KeysOf(els[m])
    && forall i :: m < i < n && IsDataField(els[i].kind) ==> key !in KeysOf(els[i])
  }

  /** A key leads to the column of the last field that has it. */
  ghost predicate LeadsToLast(els: seq<Element>, h: seq<int>, t: Table)
    requires |h| == |els|
  {
    && (forall k, m :: LastWith(els, |els|, k, m) ==> k in t.owner && t.owner[k] == h[m])
    && (forall k :: k in t.owner ==> Known(els, k))
  }

  ghost predicate Known(els: seq<Element>, key: string) {
    exists m :: LastWith(els, |els|, key, m)
  }

  ghost predicate Taken(h: seq<int>, c: int) {
    exists n :: First(h, c, n)
  }

  /** Columns are numbered in the order of their first fields. */
  ghost predicate Numbered(h: seq<int>, size: nat) {
    && (forall n :: 0 <= n < |h| ==> -1 <= h[n] < size)
    && (forall c :: 0 <= c < size ==> Taken(h, c))
    && (forall c, d, n, m :: 0 <= c < d && First(h, c, n) && First(h, d, m) ==> n < m)
  }

  ghost predicate Faces(els: seq<Element>, h: seq<int>, columns: seq<Col>)
    requires |h| == |els|
  {
    forall c :: 0 <= c < |columns| ==> Face(els, h, c, columns[c])
  }

  lemma HomesMore(els: seq<Element>, el: Element)
    ensures AddAll(els + [el]) == AddElement(AddAll(els), el)
    ensures IsDataField(el.kind) ==> FieldKey(el) in AddAll(els + [el]).owner
    ensures Homes(els + [el]) ==
      Homes(els) + [if IsDataField(el.kind) then AddAll(els + [el]).owner[FieldKey(el)] else -1]
  {
    var more := els + [el];
    assert more[..|els|] == els && more[..|els| + 1] == more;
    AddAllMore(more, |els|);
    AddElementOk(AddAll(els), el);
  }

  /** The column that a field joins, on the table before it. */
  lemma HomeOn(els: seq<Element>, el: Element)
    requires IsDataField(el.kind)
    ensures var t, u := AddAll(els), AddAll(els + [el]);
      FieldKey(el) in u.owner && u.owner[FieldKey(el)] == if HasColumn(t, el) then ColumnOf(t, el) else |t.columns|
  {
    HomesMore(els, el);
    AddElementOk(AddAll(els), el);
  }

  lemma FacesMore(els: seq<Element>, el: Element)
    requires IsDataField(el.kind) && Faces(els, Homes(els), AddAll(els).columns)
    requires Numbered(Homes(els), |AddAll(els).columns|)
    ensures Faces(els + [el], Homes(els + [el]), AddAll(els + [el]).columns)
  {
    var t, h := AddAll(els), Homes(els);
    var u, hh := AddAll(els + [el]), Homes(els + [el]);
    HomesMore(els, el);
    HomeOn(els, el);
    hide Face, Homes, AddAll, Joined, NewCol;
    var c0 := u.owner[FieldKey(el)];
    forall c | 0 <= c < |u.columns|
      ensures Face(els + [el], hh, c, u.columns[c])
    {
      if c != c0 {
        assert u.columns[c] == t.columns[c];
        FaceOther(els, h, el, c0, c, t.columns[c]);
      } else if HasColumn(t, el) {
        assert u.columns[c] == Joined(t.columns[c], el);
        FaceJoined(els, h, el, c, t.columns[c]);
      } else {
        assert u.columns[c] == NewCol(el);
        FaceNew(els, h, el, c);
      }
    }
  }

  /** An element that is no data field joins nothing. */
  lemma FacesSkip(els: seq<Element>, el: Element)
    requires !IsDataField(el.kind) && Faces(els, Homes(els), AddAll(els).columns)
    ensures Faces(els + [el], Homes(els + [el]), AddAll(els + [el]).columns)
  {
    var t := AddAll(els);
    HomesMore(els, el);
    hide Face, Homes, AddAll;
    forall c | 0 <= c < |t.columns|
      ensures Face(els + [el], Homes(els) + [-1], c, t.columns[c])
    {
      FaceOther(els, Homes(els), el, -1, c, t.columns[c]);
    }
  }

  lemma NumberedMore(h: seq<int>, size: nat, c0: int, more: nat)
    requires Numbered(h, size) && ((-1 <= c0 < size && more == size) || (c0 == size && more == size + 1))
    ensures Numbered(h + [c0], more)
  {
    var hh := h + [c0];
    forall c | 0 <= c < size
      ensures Taken(hh, c)
    {
      assert Taken(h, c);
      var n :| First(h, c, n);
      assert forall m :: 0 <= m <= n ==> (At(hh, c, m) <==> At(h, c, m));
      assert First(hh, c, n);
    }
    if more == size + 1 {
      assert forall m :: 0 <= m < |h| ==> !At(hh, size, m);
      assert First(hh, size, |h|);
    }
    forall c, n | 0 <= c < size && First(hh, c, n)
      ensures First(h, c, n)
    {
      assert Taken(h, c);
      var m :| First(h, c, m);
      assert At(hh, c, m);
      assert forall i :: 0 <= i < |h| ==> (At(hh, c, i) <==> At(h, c, i));
    }
  }

  lemma LastWithMore(els: seq<Element>, el: Element, k: string, m: int)
    ensures LastWith(els + [el], |els| + 1, k, m) <==>
      (if IsDataField(el.kind) && k in KeysOf(el) then m == |els| else LastWith(els, |els|, k, m))
  {
    var more := els + [el];
    assert more[|els|] == el && forall i :: 0 <= i < |els| ==> more[i] == els[i];
  }

  lemma OwnerMore(t: Table, el: Element, c: nat, k: string)
    requires OwnersExist(t) && IsDataField(el.kind) && c == if HasColumn(t, el) then ColumnOf(t, el) else |t.columns|
    ensures var u := AddElement(t, el);
      if k in KeysOf(el) then k in u.owner && u.owner[k] == c
      else (k in u.owner <==> k in t.owner) && (k in t.owner ==> u.owner[k] == t.owner[k])
  {
    hide Joined, NewCol;
  }

  lemma LeadsMore(els: seq<Element>, el: Element)
    requires LeadsToLast(els, Homes(els), AddAll(els))
    ensures LeadsToLast(els + [el], Homes(els + [el]), AddAll(els + [el]))
  {
    var t, u := AddAll(els), AddAll(els + [el]);
    HomesMore(els, el);
    AddElementOk(t, el);
    if IsDataField(el.kind) {
      HomeOn(els, el);
      hide Homes, AddAll, LeadsToLast, TableOk;
      LeadsJoin(els, Homes(els), el, t, u.owner[FieldKey(el)]);
    } else {
      SkipTable(t, el);
      hide Homes, AddAll, LeadsToLast;
      LeadsSkip(els, Homes(els), el, t);
    }
  }

  lemma LeadsSkip(els: seq<Element>, h: seq<int>, el: Element, t: Table)
    requires |h| == |els| && LeadsToLast(els, h, t) && !IsDataField(el.kind)
    ensures LeadsToLast(els + [el], h + [-1], t)
  {
    var more := els + [el];
    assert |more| == |els| + 1;
    hide LastWith;
    forall k, m | LastWith(more, |more|, k, m)
      ensures k in t.owner && t.owner[k] == (h + [-1])[m]
    {
      LastWithMore(els, el, k, m);
      LastIsBefore(els, k, m);
    }
    forall k | k in t.owner
      ensures Known(more, k)
    {
      assert Known(els, k);
      var m :| LastWith(els, |els|, k, m);
      LastWithMore(els, el, k, m);
    }
  }

  lemma LastIsBefore(els: seq<Element>, k: string, m: int)
    ensures LastWith(els, |els|, k, m) ==> 0 <= m < |els|
  {
  }

  lemma LeadsJoin(els: seq<Element>, h: seq<int>, el: Element, t: Table, c: nat)
    requires |h| == |els| && LeadsToLast(els, h, t) && IsDataField(el.kind) && OwnersExist(t)
    requires c == if HasColumn(t, el) then ColumnOf(t, el) else |t.columns|
    ensures LeadsToLast(els + [el], h + [c], AddElement(t, el))
  {
    var u, more := AddElement(t, el), els + [el];
    assert |more| == |els| + 1;
    hide AddElement, HasColumn, ColumnOf, LastWith, KeysOf, Known;
    forall k, m | LastWith(more, |more|, k, m)
      ensures k in u.owner && u.owner[k] == (h + [c])[m]
    {
      LastJoined(els, h, el, t, c, k, m);
    }
    forall k | k in u.owner
      ensures Known(more, k)
    {
      KnownJoined(els, h, el, t, c, k);
    }
  }

  lemma LastJoined(els: seq<Element>, h: seq<int>, el: Element, t: Table, c: nat, k: string, m: int)
    requires |h| == |els| && LeadsToLast(els, h, t) && IsDataField(el.kind) && OwnersExist(t)
    requires c == if HasColumn(t, el) then ColumnOf(t, el) else |t.columns|
    requires LastWith(els + [el], |els| + 1, k, m)
    ensures 0 <= m <= |els| && k in AddElement(t, el).owner && AddElement(t, el).owner[k] == (h + [c])[m]
  {
    hide AddElement, HasColumn, ColumnOf, KeysOf;
    LastWithMore(els, el, k, m);
    LastIsBefore(els, k, m);
    OwnerMore(t, el, c, k);
  }

  lemma KnownJoined(els: seq<Element>, h: seq<int>, el: Element, t: Table, c: nat, k: string)
    requires |h| == |els| && LeadsToLast(els, h, t) && IsDataField(el.kind) && OwnersExist(t)
    requires c == if HasColumn(t, el) then ColumnOf(t, el) else |t.columns|
    requires k in AddElement(t, el).owner
    ensures Known(els + [el], k)
  {
    hide AddElement, HasColumn, ColumnOf, KeysOf, LastWith;
    OwnerMore(t, el, c, k);
    if k in KeysOf(el) {
      LastWithMore(els, el, k, |els|);
      assert LastWith(els + [el], |els + [el]|, k, |els|);
    } else {
      assert Known(els, k);
      var m :| LastWith(els, |els|, k, m);
      LastWithMore(els, el, k, m);
      assert LastWith(els + [el], |els + [el]|, k, m);
    }
  }

  lemma SkipTable(t: Table, el: Element)
    requires OwnersExist(t) && !IsDataField(el.kind)
    ensures AddElement(t, el) == t
  {
  }

  /** For every list of fields: what every column shows, how columns are numbered, and where every key leads. */
  lemma {:induction false} ColumnsShow(els: seq<Element>)
    ensures Faces(els, Homes(els), AddAll(els).columns)
    ensures Numbered(Homes(els), |AddAll(els).columns|)
    ensures LeadsToLast(els, Homes(els), AddAll(els))
  {
    if els != [] {
      var n := |els| - 1;
      var front, el := els[..n], els[n];
      assert front + [el] == els;
      ColumnsShow(front);
      HomesMore(front, el);
      LeadsMore(front, el);
      hide Faces, Homes, Numbered, LeadsToLast, AddAll;
      if IsDataField(el.kind) {
        FacesMore(front, el);
        HomeOn(front, el);
        SizeMore(AddAll(front), el);
        NumberedMore(Homes(front), |AddAll(front).columns|, AddAll(els).owner[FieldKey(el)], |AddAll(els).columns|);
      } else {
        FacesSkip(front, el);
        SkipTable(AddAll(front), el);
        NumberedMore(Homes(front), |AddAll(front).columns|, -1, |AddAll(front).columns|);
      }
    }
  }

  lemma SizeMore(t: Table, el: Element)
    requires TableOk(t) && OwnersExist(t) && IsDataField(el.kind)
    ensures |AddElement(t, el).columns| == |t.columns| + if HasColumn(t, el) then 0 else 1
    ensures HasColumn(t, el) ==> ColumnOf(t, el) < |t.columns|
  {
  }

  lemma {:induction false} HomesPrefix(els: seq<Element>, n: nat)
    requires n <= |els|
    ensures Homes(els)[..n] == Homes(els[..n])
    decreases |els|
  {
    if n < |els| {
      HomesPrefix(els[..|els| - 1], n);
      assert els[..|els| - 1][..n] == els[..n];
    } else {
      assert els[..n] == els;
    }
  }

  lemma LastWithPrefix(els: seq<Element>, n: nat, k: string, m: int)
    requires n <= |els|
    ensures LastWith(els[..n], n, k, m) <==> LastWith(els, n, k, m)
  {
    assert forall i :: 0 <= i < n ==> els[..n][i] == els[i];
  }

  /**
   Which column a field joins: that of the last field with its id; or else that of the last field with its
   reference; or else a new one, behind all others.
   */
  lemma HomeLaw(els: seq<Element>, n: nat)
    requires n < |els| && IsDataField(els[n].kind)
    ensures var h, el := Homes(els), els[n];
      && (forall m :: el.id != "" && LastWith(els, n, el.id, m) ==> h[n] == h[m])
      && ((forall m :: !(el.id != "" && LastWith(els, n, el.id, m))) ==>
            && (forall m :: el.reference != "" && LastWith(els, n, el.reference, m) ==> h[n] == h[m])
            && ((forall m :: !(el.reference != "" && LastWith(els, n, el.reference, m))) ==>
                  forall m :: 0 <= m < n ==> h[m] < h[n]))
  {
    HomeOnPrefix(els, n);
    LeadsOnPrefix(els, n);
    hide Homes, AddAll, LastWith, KeysOf;
    var t := AddAll(els[..n]);
    assert els[n].id in t.owner ==> KnownBefore(els, n, els[n].id);
    assert els[n].reference in t.owner ==> KnownBefore(els, n, els[n].reference);
  }

  ghost predicate KnownBefore(els: seq<Element>, n: nat, key: string)
    requires n <= |els|
  {
    exists m :: LastWith(els, n, key, m)
  }

  lemma HomeOnPrefix(els: seq<Element>, n: nat)
    requires n < |els| && IsDataField(els[n].kind)
    ensures var h, t := Homes(els), AddAll(els[..n]);
      && h[n] == (if HasColumn(t, els[n]) then ColumnOf(t, els[n]) else |t.columns|)
      && forall m :: 0 <= m < n ==> h[m] < |t.columns|
  {
    var front, el, h := els[..n], els[n], Homes(els);
    ColumnsShow(front);
    HomeOn(front, el);
    HomesMore(front, el);
    assert front + [el] == els[..n + 1];
    HomesPrefix(els, n);
    HomesPrefix(els, n + 1);
    assert h[n] == h[..n + 1][n];
    hide Homes, AddAll, Faces, LeadsToLast, HasColumn, ColumnOf, TableOk;
    forall m | 0 <= m < n
      ensures h[m] < |AddAll(front).columns|
    {
      assert h[m] == h[..n][m];
    }
  }

  lemma LeadsOnPrefix(els: seq<Element>, n: nat)
    requires n <= |els|
    ensures var h, t := Homes(els), AddAll(els[..n]);
      && (forall k, m :: LastWith(els, n, k, m) ==> 0 <= m < n && k in t.owner && t.owner[k] == h[m])
      && (forall k :: k in t.owner ==> KnownBefore(els, n, k))
  {
    var front, h := els[..n], Homes(els);
    var t := AddAll(front);
    ColumnsShow(front);
    HomesPrefix(els, n);
    hide Homes, AddAll, Faces, Numbered, TableOk, LastWith;
    forall k, m | LastWith(els, n, k, m)
      ensures 0 <= m < n && k in t.owner && t.owner[k] == h[m]
    {
      LastWithPrefix(els, n, k, m);
      LastIsBefore(front, k, m);
      assert h[m] == h[..n][m];
    }
    forall k | k in t.owner
      ensures KnownBefore(els, n, k)
    {
      assert Known(front, k);
      var m :| LastWith(front, |front|, k, m);
      LastWithPrefix(els, n, k, m);
    }
  }

  // ----- The whole view -----

  /** The columns of keys that no field has. */
  ghost predicate Extras(t: Table, u: Table) {
    && |t.columns| <= |u.columns|
    && (forall c :: |t.columns| <= c < |u.columns| ==>
          var k := u.columns[c].id;
          u.columns[c] == Col(k, k, Text, k, [k]) && k !in t.owner && k in u.owner && u.owner[k] == c)
    && (forall k :: k in u.owner && k !in t.owner ==>
          |t.columns| <= u.owner[k] < |u.columns| && u.columns[u.owner[k]].id == k)
  }

  lemma KeyExtras(t: Table, u: Table, key: string)
    requires Extras(t, u) && (forall k :: k in t.owner ==> k in u.owner)
    ensures Extras(t, AddKey(u, key))
  {
  }

  lemma {:induction false} KeysExtras(t: Table, u: Table, keys: seq<string>)
    requires TableOk(u) && Extends(t, u) && Extras(t, u)
    ensures Extras(t, AddKeys(u, keys)) && Extends(t, AddKeys(u, keys))
  {
    if keys != [] {
      var front := keys[..|keys| - 1];
      KeysExtras(t, u, front);
      AddKeysKeep(u, front);
      KeyExtras(t, AddKeys(u, front), keys[|keys| - 1]);
    }
  }

  lemma {:induction false} EntriesExtras(t: Table, entries: seq<Entry>)
    requires TableOk(t)
    ensures Extras(t, AddEntries(t, entries)) && Extends(t, AddEntries(t, entries))
  {
    if entries != [] {
      var front := entries[..|entries| - 1];
      EntriesExtras(t, front);
      AddEntriesKeep(t, front);
      KeysExtras(t, AddEntries(t, front), entries[|entries| - 1].keys);
    }
  }

  /** The number of columns that the fields take. */
  ghost function Size(els: seq<Element>): nat {
    |AddAll(els).columns|
  }

  /**
   The data view on any list of fields and submissions: its first columns are those of the fields and show what the
   fields say, in the order of their first fields; a key of a field leads to the column of the last field that has
   it; and every other submitted key has a plain column of its own.
   */
  lemma ViewShows(els: seq<Element>, entries: seq<Entry>)
    ensures var t := ViewColumns(els, entries);
      && Size(els) <= |t.columns| && Numbered(Homes(els), Size(els))
      && (forall c :: 0 <= c < Size(els) ==> Face(els, Homes(els), c, t.columns[c]))
      && (forall k, m :: LastWith(els, |els|, k, m) ==> k in t.owner && t.owner[k] == Homes(els)[m])
      && (forall c :: Size(els) <= c < |t.columns| ==>
            var k := t.columns[c].id;
            t.columns[c] == Col(k, k, Text, k, [k]) && !Known(els, k) && k in t.owner && t.owner[k] == c)
      && (forall i, k :: 0 <= i < |entries| && k in entries[i].keys && !Known(els, k) ==>
            k in t.owner && Size(els) <= t.owner[k] < |t.columns| && t.columns[t.owner[k]].id == k)
  {
    var t := AddAll(els);
    ColumnsShow(els);
    EntriesExtras(t, entries);
    AddEntriesKeep(t, entries);
    hide Face, Homes, AddAll, AddEntries, LastWith;
    var u := ViewColumns(els, entries);
    assert forall c :: 0 <= c < Size(els) ==> u.columns[c] == u.columns[..|t.columns|][c] == t.columns[c];
    forall k | k in t.owner
      ensures Known(els, k)
    {
    }
    forall k | Known(els, k)
      ensures k in t.owner
    {
    }
  }
}
