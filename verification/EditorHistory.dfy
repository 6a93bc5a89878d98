/** Undo and redo of the form editor: a list of at most fifty snapshots and an index into it. */
module EditorHistory {

  const DEPTH: nat := 50

  /** Snapshots before the present one, oldest first, and after it. */
  datatype Zipper<S> = Zipper(past: seq<S>, present: S, future: seq<S>)

  datatype Timeline<S> = Timeline(history: seq<S>, index: nat)

  predicate Valid<S>(t: Timeline<S>) {
    t.index < |t.history| <= DEPTH
  }

  function View<S>(t: Timeline<S>): Zipper<S>
    requires Valid(t)
  {
    Zipper(t.history[..t.index], t.history[t.index], t.history[t.index + 1..])
  }

  // ----- What the editor means -----

  /** The newest entries that fit besides the present one. */
  function Newest<S>(past: seq<S>): seq<S> {
    if |past| >= DEPTH then past[|past| - DEPTH + 1..] else past
  }

  /** A new snapshot drops the future, and the oldest entry when there are too many; a repeated one does nothing. */
  function Record<S(==)>(z: Zipper<S>, next: S): Zipper<S> {
    if next == z.present then z else Zipper(Newest(z.past + [z.present]), next, [])
  }

  function StepBack<S>(z: Zipper<S>): Zipper<S> {
    if z.past == [] then z
    else Zipper(z.past[..|z.past| - 1], z.past[|z.past| - 1], [z.present] + z.future)
  }

  function StepForward<S>(z: Zipper<S>): Zipper<S> {
    if z.future == [] then z
    else Zipper(z.past + [z.present], z.future[0], z.future[1..])
  }

  lemma StepBackAndForward<S>(z: Zipper<S>)
    ensures z.past != [] ==> StepForward(StepBack(z)) == z
    ensures z.future != [] ==> StepBack(StepForward(z)) == z
  {
    if z.past != [] {
      assert z.past[..|z.past| - 1] + [z.past[|z.past| - 1]] == z.past;
    }
    if z.future != [] {
      assert [z.future[0]] + z.future[1..] == z.future;
    }
  }

  /**
   A new snapshot becomes the present, with nothing to redo; undoing it shows the one before, and all older ones that
   fit are still behind that; redoing brings it back.
   */
  lemma RecordThenUndo<S>(z: Zipper<S>, next: S)
    requires next != z.present && |z.past| < DEPTH
    ensures var r := Record(z, next);
      && r.present == next && r.future == [] && StepBack(r).present == z.present && StepForward(StepBack(r)) == r
      && StepBack(r).past == z.past[if |z.past| + 1 < 50 then 0 else |z.past| + 2 - 50..]
  {
    StepBackAndForward(Record(z, next));
    var all := z.past + [z.present];
    if |all| >= DEPTH {
      assert Newest(all) == z.past[|all| - DEPTH + 1..] + [z.present];
    } else {
      assert z.past[0..] == z.past;
    }
  }

  // ----- What the code does -----

  /** The entries up to the present one; all of them when the index is past the end. */
  function Trimmed<S>(t: Timeline<S>): seq<S> {
    if t.index + 1 <= |t.history| then t.history[..t.index + 1] else t.history
  }

  function PushState<S(==)>(t: Timeline<S>, next: S): Timeline<S> {
    var trimmed := Trimmed(t);
    var updated := trimmed + [next];
    Timeline(
      if trimmed != [] && trimmed[|trimmed| - 1] == next then t.history
      else if |updated| > DEPTH then updated[1..]
      else updated,
      if t.index + 1 < DEPTH - 1 then t.index + 1 else DEPTH - 1)
  }

  function Undo<S>(t: Timeline<S>): Timeline<S> {
    if t.index > 0 then t.(index := t.index - 1) else t
  }

  function Redo<S>(t: Timeline<S>): Timeline<S> {
    if t.index + 1 < |t.history| then t.(index := t.index + 1) else t
  }

  /**
   Pushing does what it should exactly when the snapshot differs from the present one, or the list is
   full and its last entry is the present one: a repeated push leaves the list but moves the index.
   */
  lemma PushRefinesIff<S>(t: Timeline<S>, next: S)
    requires Valid(t)
    ensures (Valid(PushState(t, next)) && View(PushState(t, next)) == Record(View(t), next))
       <==> (next != t.history[t.index] || t.index == DEPTH - 1)
  {
    var u := PushState(t, next);
    var past := t.history[..t.index] + [t.history[t.index]];
    assert t.history[..t.index + 1] == past;
    if next != t.history[t.index] {
      assert u.history == Newest(past) + [next];
    } else if t.index < DEPTH - 1 && Valid(u) {
      assert |View(u).past| == |View(t).past| + 1;
    }
  }

  lemma UndoRefines<S>(t: Timeline<S>)
    requires Valid(t)
    ensures Valid(Undo(t)) && View(Undo(t)) == StepBack(View(t))
    ensures Valid(Redo(t)) && View(Redo(t)) == StepForward(View(t))
  {
    if t.index > 0 {
      assert [t.history[t.index]] + t.history[t.index + 1..] == t.history[t.index..];
      assert t.history[..t.index][..t.index - 1] == t.history[..t.index - 1];
    }
    if t.index + 1 < |t.history| {
      assert t.history[..t.index] + [t.history[t.index]] == t.history[..t.index + 1];
    }
  }

  datatype Edit<S> = Push(next: S) | Back | Forward

  function Perform<S(==)>(t: Timeline<S>, e: Edit<S>): Timeline<S>
    requires Valid(t)
  {
    match e
    case Push(next) => PushState(t, next)
    case Back => Undo(t)
    case Forward => Redo(t)
  }

  function Meant<S(==)>(z: Zipper<S>, e: Edit<S>): Zipper<S> {
    match e
    case Push(next) => Record(z, next)
    case Back => StepBack(z)
    case Forward => StepForward(z)
  }

  function MeantAll<S(==)>(z: Zipper<S>, edits: seq<Edit<S>>): Zipper<S>
    decreases |edits|
  {
    if edits == [] then z else MeantAll(Meant(z, edits[0]), edits[1..])
  }

  /** No push of the run repeats the snapshot that is present when it comes, unless the past is full. */
  ghost predicate NoRepeat<S>(z: Zipper<S>, edits: seq<Edit<S>>)
    decreases |edits|
  {
    || edits == []
    || ((edits[0].Push? ==> edits[0].next != z.present || |z.past| == DEPTH - 1)
        && NoRepeat(Meant(z, edits[0]), edits[1..]))
  }

  ghost predicate Runs<S>(t: Timeline<S>, edits: seq<Edit<S>>, u: Timeline<S>)
    requires Valid(t)
    decreases |edits|
  {
    if edits == [] then t == u
    else Valid(Perform(t, edits[0])) && Runs(Perform(t, edits[0]), edits[1..], u)
  }

  /** Over every run without repeated pushes the list is the bounded zipper, and stays within its depth. */
  lemma {:induction false} RunRefines<S>(t: Timeline<S>, edits: seq<Edit<S>>) returns (u: Timeline<S>)
    requires Valid(t) && NoRepeat(View(t), edits)
    ensures Runs(t, edits, u) && Valid(u) && View(u) == MeantAll(View(t), edits)
    decreases |edits|
  {
    if edits == [] {
      u := t;
    } else {
      if edits[0].Push? {
        PushRefinesIff(t, edits[0].next);
      }
      UndoRefines(t);
      u := RunRefines(Perform(t, edits[0]), edits[1..]);
    }
  }

  /** The state of the hook; `canUndo` and `canRedo` are the guards of the two methods. */
  class FormBuilderHistory<S(==)> {
    var history: seq<S>
    var currentIndex: nat

    ghost function State(): Timeline<S>
      reads this
    {
      Timeline(history, currentIndex)
    }

    constructor (initial: S)
      ensures Valid(State()) && View(State()) == Zipper([], initial, [])
    {
      history, currentIndex := [initial], 0;
    }

    method Push(next: S)
      requires Valid(State())
      modifies this
      ensures State() == PushState(old(State()), next)
      ensures next != old(State().history[State().index]) ==>
        Valid(State()) && View(State()) == Record(View(old(State())), next)
    {
      PushRefinesIff(State(), next);
      var trimmed := history[..currentIndex + 1];
      if trimmed[|trimmed| - 1] != next {
        var updated := trimmed + [next];
        if |updated| > DEPTH {
          updated := updated[1..];
        }
        history := updated;
      }
      currentIndex := if currentIndex + 1 < 49 then currentIndex + 1 else 49;
    }

    method UndoLast() returns (done: bool, snapshot: S)
      requires Valid(State())
      modifies this`currentIndex
      ensures Valid(State()) && View(State()) == StepBack(View(old(State())))
      ensures done == (View(old(State())).past != []) && snapshot == View(State()).present
    {
      UndoRefines(State());
      done := currentIndex > 0;
      if done {
        currentIndex := currentIndex - 1;
      }
      snapshot := history[currentIndex];
    }

    method RedoNext() returns (done: bool, snapshot: S)
      requires Valid(State())
      modifies this`currentIndex
      ensures Valid(State()) && View(State()) == StepForward(View(old(State())))
      ensures done == (View(old(State())).future != []) && snapshot == View(State()).present
    {
      UndoRefines(State());
      done := currentIndex + 1 < |history|;
      if done {
        currentIndex := currentIndex + 1;
      }
      snapshot := history[currentIndex];
    }

    method ResetHistory(state: S)
      modifies this
      ensures Valid(State()) && View(State()) == Zipper([], state, [])
    {
      history, currentIndex := [state], 0;
    }
  }
}
