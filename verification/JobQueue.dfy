/**
 The job queue: a list in Redis that any number of workers take jobs from. Each call to Redis and each
 handler is one step, and the steps of the workers interleave.
 */
module JobQueue {

  const MAX_ATTEMPTS: nat := 3

  datatype Job = Job(id: string, kind: string, attempts: nat)

  /** What a worker holds: a job whose handler runs, one to push back, or one to push on the dead letter list. */
  datatype Phase = Idle | Running(job: Job) | Returning(job: Job) | Burying(job: Job)

  datatype Worker = Worker(handlers: set<string>, phase: Phase)

  /**
   The head of `queue` is where jobs are pushed, its end where they are taken. `done`, `dispatched` and `runs`
   are history: the jobs whose handler succeeded, the kind of every job, and how often its handler was started.
   */
  datatype State = State(
    queue: seq<Job>,
    workers: seq<Worker>,
    done: seq<Job>,
    dead: seq<Job>,
    dispatched: map<string, string>,
    runs: map<string, nat>)

  datatype Action =
    | Dispatch(id: string, kind: string)
    | Register(w: nat, kind: string)
    | Pop(w: nat)
    | Finish(w: nat, ok: bool)
    | Push(w: nat)

  predicate Enabled(s: State, a: Action) {
    match a
    case Dispatch(id, _) => id !in s.dispatched
    case Register(w, _) => w < |s.workers|
    case Pop(w) => w < |s.workers| && s.workers[w].phase.Idle? && s.queue != []
    case Finish(w, _) => w < |s.workers| && s.workers[w].phase.Running?
    case Push(w) => w < |s.workers| && (s.workers[w].phase.Returning? || s.workers[w].phase.Burying?)
  }

  function WithPhase(s: State, w: nat, p: Phase): State
    requires w < |s.workers|
  {
    s.(workers := s.workers[w := s.workers[w].(phase := p)])
  }

  function RunsOf(runs: map<string, nat>, id: string): nat {
    if id in runs then runs[id] else 0
  }

  function Tried(job: Job): Job {
    job.(attempts := job.attempts + 1)
  }

  function Next(s: State): Job
    requires s.queue != []
  {
    s.queue[|s.queue| - 1]
  }

  /** A worker takes the oldest job and, if it has a handler for it, starts it. */
  function Taken(s: State, w: nat): State
    requires Enabled(s, Pop(w))
  {
    var job, rest := Next(s), s.(queue := s.queue[..|s.queue| - 1]);
    if job.kind !in s.workers[w].handlers then WithPhase(rest, w, Burying(job))
    else WithPhase(rest, w, Running(Tried(job))).(runs := s.runs[job.id := RunsOf(s.runs, job.id) + 1])
  }

  function Finished(s: State, w: nat, ok: bool): State
    requires Enabled(s, Finish(w, ok))
  {
    var job := s.workers[w].phase.job;
    if ok then WithPhase(s, w, Idle).(done := s.done + [job])
    else WithPhase(s, w, if job.attempts < MAX_ATTEMPTS then Returning(job) else Burying(job))
  }

  function Pushed(s: State, w: nat): State
    requires Enabled(s, Push(w))
  {
    var p := s.workers[w].phase;
    if p.Returning? then WithPhase(s, w, Idle).(queue := [p.job] + s.queue)
    else WithPhase(s, w, Idle).(dead := [p.job] + s.dead)
  }

  function Step(s: State, a: Action): State
    requires Enabled(s, a)
  {
    match a
    case Dispatch(id, kind) => s.(queue := [Job(id, kind, 0)] + s.queue, dispatched := s.dispatched[id := kind])
    case Register(w, kind) => s.(workers := s.workers[w := s.workers[w].(handlers := s.workers[w].handlers + {kind})])
    case Pop(w) => Taken(s, w)
    case Finish(w, ok) => Finished(s, w, ok)
    case Push(w) => Pushed(s, w)
  }

  ghost predicate Leads(s: State, run: seq<Action>, t: State)
    decreases |run|
  {
    if run == [] then s == t
    else Enabled(s, run[0]) && Leads(Step(s, run[0]), run[1..], t)
  }

  function Start(workers: seq<Worker>): State {
    State([], workers, [], [], map[], map[])
  }

  predicate AllIdle(workers: seq<Worker>) {
    forall w :: 0 <= w < |workers| ==> workers[w].phase.Idle?
  }

  ghost predicate Reachable(s: State) {
    exists workers, run :: AllIdle(workers) && Leads(Start(workers), run, s)
  }

  // ----- Conservation -----

  function HeldBy(p: Phase): multiset<Job> {
    if p.Idle? then multiset{} else multiset{p.job}
  }

  /** The jobs in flight. */
  function Held(workers: seq<Worker>): multiset<Job> {
    if workers == [] then multiset{} else HeldBy(workers[0].phase) + Held(workers[1..])
  }

  lemma {:induction false} HeldUpdate(workers: seq<Worker>, w: nat, x: Worker)
    requires w < |workers|
    ensures Held(workers[w := x]) + HeldBy(workers[w].phase) == Held(workers) + HeldBy(x.phase)
  {
    if w == 0 {
      assert workers[w := x][1..] == workers[1..];
    } else {
      var rest := workers[1..];
      assert workers[w := x][1..] == rest[w - 1 := x];
      HeldUpdate(rest, w - 1, x);
      Behind(HeldBy(workers[0].phase), Held(rest[w - 1 := x]), Held(rest), HeldBy(workers[w].phase), HeldBy(x.phase));
    }
  }

  lemma Behind(first: multiset<Job>, r': multiset<Job>, r: multiset<Job>, out: multiset<Job>, x: multiset<Job>)
    requires r' + out == r + x
    ensures (first + r') + out == (first + r) + x
  {
    assert (first + r') + out == first + (r' + out);
  }

  /** Every job: queued, in flight, done or dead. */
  function Everywhere(s: State): multiset<Job> {
    multiset(s.queue) + Held(s.workers) + multiset(s.done) + multiset(s.dead)
  }

  lemma PopParts(s: State, w: nat)
    requires Enabled(s, Pop(w))
    ensures var t := Taken(s, w);
      && multiset(s.queue) == multiset(t.queue) + multiset{Next(s)}
      && Held(t.workers) == Held(s.workers) +
          multiset{if Next(s).kind in s.workers[w].handlers then Tried(Next(s)) else Next(s)}
      && t.done == s.done && t.dead == s.dead
  {
    hide Held;
    var t := Taken(s, w);
    HeldUpdate(s.workers, w, t.workers[w]);
    assert HeldBy(s.workers[w].phase) == multiset{};
    assert s.queue == t.queue + [Next(s)];
  }

  /** A taken job stays where it was counted, but with one more attempt when its handler starts. */
  lemma PopMoves(s: State, w: nat)
    requires Enabled(s, Pop(w))
    ensures Next(s) in Everywhere(s)
    ensures Everywhere(Taken(s, w)) + multiset{Next(s)} ==
      Everywhere(s) + multiset{if Next(s).kind in s.workers[w].handlers then Tried(Next(s)) else Next(s)}
  {
    hide Held, HeldBy, Taken;
    var t := Taken(s, w);
    PopParts(s, w);
    Regroup(s);
    Regroup(t);
    Shift(multiset(s.queue), multiset(t.queue), Held(s.workers), Held(t.workers),
          multiset{Next(s)}, multiset{if Next(s).kind in s.workers[w].handlers then Tried(Next(s)) else Next(s)},
          multiset(s.done) + multiset(s.dead));
    assert Next(s) in multiset(s.queue);
  }

  lemma Regroup(s: State)
    ensures Everywhere(s) == multiset(s.queue) + Held(s.workers) + (multiset(s.done) + multiset(s.dead))
  {
  }

  lemma Shift(q: multiset<Job>, q': multiset<Job>, h: multiset<Job>, h': multiset<Job>,
              n: multiset<Job>, x: multiset<Job>, rest: multiset<Job>)
    requires q == q' + n && h' == h + x
    ensures (q' + h' + rest) + n == (q + h + rest) + x
  {
  }

  lemma Cancel(a: multiset<Job>, b: multiset<Job>, c: multiset<Job>)
    requires a + c == b + c
    ensures a == b
  {
    forall j
      ensures a[j] == b[j]
    {
      assert (a + c)[j] == (b + c)[j];
    }
  }

  /** `x` moves from the workers to the jobs in `a`. */
  lemma LetGo(h: multiset<Job>, h': multiset<Job>, a: multiset<Job>, a': multiset<Job>, x: multiset<Job>,
              b: multiset<Job>, c: multiset<Job>)
    requires h' + x == h && a' == a + x
    ensures h' + a' + b + c == h + a + b + c
  {
  }

  lemma Sums(s: State)
    ensures Everywhere(s) == Held(s.workers) + multiset(s.done) + multiset(s.queue) + multiset(s.dead)
    ensures Everywhere(s) == Held(s.workers) + multiset(s.queue) + multiset(s.done) + multiset(s.dead)
    ensures Everywhere(s) == Held(s.workers) + multiset(s.dead) + multiset(s.queue) + multiset(s.done)
  {
    hide Held;
  }

  lemma FinishMoves(s: State, w: nat, ok: bool)
    requires Enabled(s, Finish(w, ok))
    ensures Everywhere(Finished(s, w, ok)) == Everywhere(s)
  {
    hide Held, Everywhere;
    var t, held := Finished(s, w, ok), HeldBy(s.workers[w].phase);
    HeldUpdate(s.workers, w, t.workers[w]);
    Sums(s);
    Sums(t);
    if ok {
      LetGo(Held(s.workers), Held(t.workers), multiset(s.done), multiset(t.done), held, multiset(s.queue),
          multiset(s.dead));
    } else {
      Cancel(Held(t.workers), Held(s.workers), held);
    }
  }

  lemma PushMoves(s: State, w: nat)
    requires Enabled(s, Push(w))
    ensures Everywhere(Pushed(s, w)) == Everywhere(s)
  {
    hide Held, Everywhere;
    var t, held := Pushed(s, w), HeldBy(s.workers[w].phase);
    HeldUpdate(s.workers, w, t.workers[w]);
    Sums(s);
    Sums(t);
    if s.workers[w].phase.Returning? {
      LetGo(Held(s.workers), Held(t.workers), multiset(s.queue), multiset(t.queue), held, multiset(s.done),
          multiset(s.dead));
    } else {
      LetGo(Held(s.workers), Held(t.workers), multiset(s.dead), multiset(t.dead), held, multiset(s.queue),
          multiset(s.done));
    }
  }

  lemma RegisterMoves(s: State, w: nat, kind: string)
    requires Enabled(s, Register(w, kind))
    ensures Everywhere(Step(s, Register(w, kind))) == Everywhere(s)
  {
    var t := Step(s, Register(w, kind));
    HeldUpdate(s.workers, w, t.workers[w]);
    Cancel(Held(t.workers), Held(s.workers), HeldBy(s.workers[w].phase));
  }

  /** No two jobs have the same id. */
  ghost predicate Distinct(all: multiset<Job>) {
    && (forall j :: j in all ==> all[j] == 1)
    && (forall j, k :: j in all && k in all && j.id == k.id ==> j == k)
  }

  predicate JobOk(j: Job, dispatched: map<string, string>, runs: map<string, nat>) {
    j.id in dispatched && dispatched[j.id] == j.kind && RunsOf(runs, j.id) == j.attempts && j.attempts <= MAX_ATTEMPTS
  }

  predicate PhaseOk(p: Phase) {
    match p
    case Idle => true
    case Running(j) => 0 < j.attempts <= MAX_ATTEMPTS
    case Returning(j) => 0 < j.attempts < MAX_ATTEMPTS
    case Burying(j) => j.attempts <= MAX_ATTEMPTS
  }

  ghost predicate LimitsOk(s: State) {
    && (forall i :: 0 <= i < |s.queue| ==> s.queue[i].attempts < MAX_ATTEMPTS)
    && (forall w :: 0 <= w < |s.workers| ==> PhaseOk(s.workers[w].phase))
  }

  ghost predicate Present(all: multiset<Job>, id: string) {
    exists j :: j in all && j.id == id
  }

  ghost predicate Accounted(all: multiset<Job>, dispatched: map<string, string>, runs: map<string, nat>) {
    && Distinct(all)
    && (forall j :: j in all ==> JobOk(j, dispatched, runs))
    && (forall id :: id in dispatched ==> Present(all, id))
    && (forall id :: id in runs ==> id in dispatched)
  }

  /** Every dispatched job is in exactly one place, and its attempts are the starts of its handler. */
  ghost predicate QueueInv(s: State) {
    Accounted(Everywhere(s), s.dispatched, s.runs) && LimitsOk(s)
  }

  lemma LimitsStep(s: State, a: Action)
    requires LimitsOk(s) && Enabled(s, a)
    ensures LimitsOk(Step(s, a))
  {
    var t := Step(s, a);
    forall w | 0 <= w < |t.workers|
      ensures PhaseOk(t.workers[w].phase)
    {
      assert PhaseOk(s.workers[w].phase);
    }
    forall i | 0 <= i < |t.queue|
      ensures t.queue[i].attempts < MAX_ATTEMPTS
    {
      match a
      case Dispatch(_, _) =>
        assert i > 0 ==> t.queue[i] == s.queue[i - 1];
      case Push(w) =>
        assert PhaseOk(s.workers[w].phase);
        assert t.queue != s.queue && i > 0 ==> t.queue[i] == s.queue[i - 1];
      case _ =>
        assert t.queue[i] == s.queue[i];
    }
  }

  lemma AddAccounted(all: multiset<Job>, dispatched: map<string, string>, runs: map<string, nat>,
                     id: string, kind: string)
    requires Accounted(all, dispatched, runs) && id !in dispatched
    ensures Accounted(all + multiset{Job(id, kind, 0)}, dispatched[id := kind], runs)
  {
    var more := all + multiset{Job(id, kind, 0)};
    assert forall j :: j in all ==> JobOk(j, dispatched, runs) && j.id != id;
    assert Job(id, kind, 0) in more;
    forall i | i in dispatched[id := kind]
      ensures Present(more, i)
    {
      if i != id {
        assert Present(all, i);
        var j :| j in all && j.id == i;
        assert j in more;
      }
    }
  }

  lemma TryAccounted(all: multiset<Job>, after: multiset<Job>, dispatched: map<string, string>,
                     runs: map<string, nat>, job: Job)
    requires Accounted(all, dispatched, runs) && job in all && job.attempts < MAX_ATTEMPTS
    requires after + multiset{job} == all + multiset{Tried(job)}
    ensures Accounted(after, dispatched, runs[job.id := RunsOf(runs, job.id) + 1])
  {
    var more := runs[job.id := RunsOf(runs, job.id) + 1];
    assert JobOk(job, dispatched, runs);
    forall j
      ensures after[j] == all[j] + (if j == Tried(job) then 1 else 0) - (if j == job then 1 else 0)
    {
      assert (after + multiset{job})[j] == (all + multiset{Tried(job)})[j];
    }
    assert Tried(job) !in all;
    forall j | j in after
      ensures JobOk(j, dispatched, more) && (j != Tried(job) ==> j in all && j.id != job.id)
    {
      if j != Tried(job) {
        assert j in all && JobOk(j, dispatched, runs);
      }
    }
    forall id | id in dispatched
      ensures Present(after, id)
    {
      if id == job.id {
        assert Tried(job) in after;
      } else {
        assert Present(all, id);
        var j :| j in all && j.id == id;
        assert j in after;
      }
    }
  }

  lemma PopKeepsJobs(s: State, w: nat)
    requires QueueInv(s) && Enabled(s, Pop(w))
    ensures QueueInv(Taken(s, w))
  {
    hide Accounted, LimitsOk, Everywhere;
    var job := Next(s);
    LimitsStep(s, Pop(w));
    PopMoves(s, w);
    NextIsFresh(s);
    if job.kind in s.workers[w].handlers {
      TryAccounted(Everywhere(s), Everywhere(Taken(s, w)), s.dispatched, s.runs, job);
    } else {
      Cancel(Everywhere(Taken(s, w)), Everywhere(s), multiset{job});
    }
  }

  lemma DispatchKeepsJobs(s: State, id: string, kind: string)
    requires QueueInv(s) && Enabled(s, Dispatch(id, kind))
    ensures QueueInv(Step(s, Dispatch(id, kind)))
  {
    hide Accounted, LimitsOk, Everywhere;
    LimitsStep(s, Dispatch(id, kind));
    AddAccounted(Everywhere(s), s.dispatched, s.runs, id, kind);
    DispatchMoves(s, id, kind);
  }

  lemma DispatchMoves(s: State, id: string, kind: string)
    requires Enabled(s, Dispatch(id, kind))
    ensures Everywhere(Step(s, Dispatch(id, kind))) == Everywhere(s) + multiset{Job(id, kind, 0)}
  {
    hide Held;
    var t := Step(s, Dispatch(id, kind));
    assert multiset(t.queue) == multiset(s.queue) + multiset{Job(id, kind, 0)};
  }

  lemma OtherMoves(s: State, a: Action)
    requires Enabled(s, a) && !a.Dispatch? && !a.Pop?
    ensures Everywhere(Step(s, a)) == Everywhere(s)
    ensures Step(s, a).dispatched == s.dispatched && Step(s, a).runs == s.runs
  {
    hide Everywhere;
    match a
    case Register(w, kind) => RegisterMoves(s, w, kind);
    case Finish(w, ok) => FinishMoves(s, w, ok);
    case Push(w) => PushMoves(s, w);
  }

  lemma StepKeepsJobs(s: State, a: Action)
    requires QueueInv(s) && Enabled(s, a)
    ensures QueueInv(Step(s, a))
  {
    if a.Pop? {
      PopKeepsJobs(s, a.w);
    } else if a.Dispatch? {
      DispatchKeepsJobs(s, a.id, a.kind);
    } else {
      hide Accounted, LimitsOk, Everywhere;
      LimitsStep(s, a);
      OtherMoves(s, a);
    }
  }

  lemma NextIsFresh(s: State)
    requires LimitsOk(s) && s.queue != []
    ensures Next(s).attempts < MAX_ATTEMPTS
  {
  }

  lemma {:induction false} RunKeepsJobs(s: State, run: seq<Action>, t: State)
    requires QueueInv(s) && Leads(s, run, t)
    ensures QueueInv(t)
    decreases |run|
  {
    if run != [] {
      StepKeepsJobs(s, run[0]);
      RunKeepsJobs(Step(s, run[0]), run[1..], t);
    }
  }

  lemma {:induction false} IdleHoldNothing(workers: seq<Worker>)
    requires AllIdle(workers)
    ensures Held(workers) == multiset{}
  {
    if workers != [] {
      IdleHoldNothing(workers[1..]);
    }
  }

  /** In every reachable state each dispatched job is in one place; its handler was started at most three times. */
  lemma JobsConserved(s: State)
    requires Reachable(s)
    ensures QueueInv(s)
    ensures forall id :: RunsOf(s.runs, id) <= MAX_ATTEMPTS
  {
    var workers, run :| AllIdle(workers) && Leads(Start(workers), run, s);
    IdleHoldNothing(workers);
    RunKeepsJobs(Start(workers), run, s);
    forall id
      ensures RunsOf(s.runs, id) <= MAX_ATTEMPTS
    {
      if id in s.runs {
        assert Present(Everywhere(s), id);
        var j :| j in Everywhere(s) && j.id == id;
        assert JobOk(j, s.dispatched, s.runs);
      }
    }
  }

  // ----- First in, first out -----

  function Reversed(q: seq<Job>): seq<Job> {
    if q == [] then [] else Reversed(q[1..]) + [q[0]]
  }

  lemma {:induction false} ReversedLast(q: seq<Job>)
    requires q != []
    ensures Reversed(q) == [q[|q| - 1]] + Reversed(q[..|q| - 1])
  {
    if |q| > 1 {
      ReversedLast(q[1..]);
      assert q[1..][..|q| - 2] == q[..|q| - 1][1..];
    }
  }

  lemma {:induction false} ReversedAt(q: seq<Job>, k: nat)
    requires k < |q|
    ensures |Reversed(q)| == |q| && Reversed(q)[k] == q[|q| - 1 - k]
  {
    if |q| > 1 {
      ReversedAt(q[1..], if k < |q| - 1 then k else 0);
    }
  }

  /** The jobs pushed by a step, at most one. */
  function PushedBy(s: State, a: Action): seq<Job>
    requires Enabled(s, a)
  {
    match a
    case Dispatch(id, kind) => [Job(id, kind, 0)]
    case Push(w) => if s.workers[w].phase.Returning? then [s.workers[w].phase.job] else []
    case _ => []
  }

  function PoppedBy(s: State, a: Action): seq<Job>
    requires Enabled(s, a)
  {
    if a.Pop? then [Next(s)] else []
  }

  ghost function Pushes(s: State, run: seq<Action>, t: State): seq<Job>
    requires Leads(s, run, t)
    decreases |run|
  {
    if run == [] then [] else PushedBy(s, run[0]) + Pushes(Step(s, run[0]), run[1..], t)
  }

  ghost function Pops(s: State, run: seq<Action>, t: State): seq<Job>
    requires Leads(s, run, t)
    decreases |run|
  {
    if run == [] then [] else PoppedBy(s, run[0]) + Pops(Step(s, run[0]), run[1..], t)
  }

  lemma StepOrder(s: State, a: Action)
    requires Enabled(s, a)
    ensures Reversed(s.queue) + PushedBy(s, a) == PoppedBy(s, a) + Reversed(Step(s, a).queue)
  {
    if a.Pop? {
      ReversedLast(s.queue);
    } else if PushedBy(s, a) != [] {
      assert Step(s, a).queue[1..] == s.queue;
    }
  }

  /** What was queued, followed by what was pushed, comes out in that order. */
  lemma {:induction false} FirstInFirstOut(s: State, run: seq<Action>, t: State)
    requires Leads(s, run, t)
    ensures Reversed(s.queue) + Pushes(s, run, t) == Pops(s, run, t) + Reversed(t.queue)
    decreases |run|
  {
    if run != [] {
      var u := Step(s, run[0]);
      StepOrder(s, run[0]);
      FirstInFirstOut(u, run[1..], t);
      Exchange(Reversed(s.queue), PushedBy(s, run[0]), Pushes(u, run[1..], t),
               PoppedBy(s, run[0]), Reversed(u.queue), Pops(u, run[1..], t), Reversed(t.queue));
    }
  }

  lemma Exchange(q: seq<Job>, push: seq<Job>, more: seq<Job>, pop: seq<Job>, mid: seq<Job>, less: seq<Job>,
      end: seq<Job>)
    requires q + push == pop + mid && mid + more == less + end
    ensures q + (push + more) == (pop + less) + end
  {
    assert q + (push + more) == (q + push) + more;
    assert (pop + mid) + more == pop + (mid + more);
  }

  /** A job with `k` ahead of it is the one taken by pop number `k + 1`, whatever is pushed meanwhile. */
  lemma TakenInTurn(s: State, run: seq<Action>, t: State, k: nat)
    requires Leads(s, run, t) && k < |s.queue| && k < |Pops(s, run, t)|
    ensures Pops(s, run, t)[k] == s.queue[|s.queue| - 1 - k]
  {
    FirstInFirstOut(s, run, t);
    ReversedAt(s.queue, k);
    assert (Reversed(s.queue) + Pushes(s, run, t))[k] == Reversed(s.queue)[k];
    assert (Pops(s, run, t) + Reversed(t.queue))[k] == Pops(s, run, t)[k];
  }

  // ----- Draining -----

  /** Steps left for a queued job at most. */
  function JobWork(j: Job): int {
    9 - 3 * j.attempts
  }

  function PhaseWork(p: Phase): int {
    match p
    case Idle => 0
    case Running(j) => 11 - 3 * j.attempts
    case Returning(j) => 10 - 3 * j.attempts
    case Burying(_) => 1
  }

  function QueueWork(q: seq<Job>): int {
    if q == [] then 0 else JobWork(q[0]) + QueueWork(q[1..])
  }

  function WorkersWork(ws: seq<Worker>): int {
    if ws == [] then 0 else PhaseWork(ws[0].phase) + WorkersWork(ws[1..])
  }

  function Work(s: State): int {
    QueueWork(s.queue) + WorkersWork(s.workers)
  }

  lemma {:induction false} WorkersWorkUpdate(ws: seq<Worker>, w: nat, x: Worker)
    requires w < |ws|
    ensures WorkersWork(ws[w := x]) == WorkersWork(ws) - PhaseWork(ws[w].phase) + PhaseWork(x.phase)
  {
    if w == 0 {
      assert ws[w := x][1..] == ws[1..];
    } else {
      assert ws[w := x][1..] == ws[1..][w - 1 := x];
      WorkersWorkUpdate(ws[1..], w - 1, x);
    }
  }

  lemma {:induction false} QueueWorkLast(q: seq<Job>)
    requires q != []
    ensures QueueWork(q) == QueueWork(q[..|q| - 1]) + JobWork(q[|q| - 1])
  {
    if |q| > 1 {
      QueueWorkLast(q[1..]);
      assert q[1..][..|q| - 2] == q[..|q| - 1][1..];
    }
  }

  lemma {:induction false} WorkIsPositive(s: State)
    requires LimitsOk(s)
    ensures QueueWork(s.queue) >= 3 * |s.queue| && WorkersWork(s.workers) >= 0
    ensures WorkersWork(s.workers) == 0 ==> AllIdle(s.workers)
    decreases |s.queue| + |s.workers|
  {
    if s.queue != [] {
      WorkIsPositive(s.(queue := s.queue[1..]));
    } else if s.workers != [] {
      var rest := s.(workers := s.workers[1..]);
      assert forall w :: 0 <= w < |rest.workers| ==> rest.workers[w] == s.workers[w + 1];
      WorkIsPositive(rest);
      assert PhaseOk(s.workers[0].phase);
    }
  }

  predicate WorkerStep(a: Action) {
    a.Pop? || a.Finish? || a.Push?
  }

  /** Every step of a worker leaves less work. */
  lemma StepWorks(s: State, a: Action)
    requires LimitsOk(s) && Enabled(s, a) && WorkerStep(a)
    ensures Work(Step(s, a)) < Work(s)
  {
    var t := Step(s, a);
    assert PhaseOk(s.workers[a.w].phase);
    WorkersWorkUpdate(s.workers, a.w, t.workers[a.w]);
    if a.Pop? {
      QueueWorkLast(s.queue);
      assert Next(s).attempts < MAX_ATTEMPTS;
    } else if a.Push? && s.workers[a.w].phase.Returning? {
      assert t.queue[1..] == s.queue;
    }
  }

  /** Handler starts in a run. */
  function StartedBy(s: State, a: Action): nat
    requires Enabled(s, a)
  {
    if a.Pop? && Next(s).kind in s.workers[a.w].handlers then 1 else 0
  }

  ghost function Starts(s: State, run: seq<Action>, t: State): nat
    requires Leads(s, run, t)
    decreases |run|
  {
    if run == [] then 0 else StartedBy(s, run[0]) + Starts(Step(s, run[0]), run[1..], t)
  }

  /** Handler starts that the queued and held jobs have left. */
  function PhaseChances(p: Phase): int {
    if p.Running? || p.Returning? then MAX_ATTEMPTS - p.job.attempts else 0
  }

  function QueueChances(q: seq<Job>): int {
    if q == [] then 0 else MAX_ATTEMPTS - q[0].attempts + QueueChances(q[1..])
  }

  function WorkersChances(ws: seq<Worker>): int {
    if ws == [] then 0 else PhaseChances(ws[0].phase) + WorkersChances(ws[1..])
  }

  function Chances(s: State): int {
    QueueChances(s.queue) + WorkersChances(s.workers)
  }

  lemma {:induction false} WorkersChancesUpdate(ws: seq<Worker>, w: nat, x: Worker)
    requires w < |ws|
    ensures WorkersChances(ws[w := x]) == WorkersChances(ws) - PhaseChances(ws[w].phase) + PhaseChances(x.phase)
  {
    if w == 0 {
      assert ws[w := x][1..] == ws[1..];
    } else {
      assert ws[w := x][1..] == ws[1..][w - 1 := x];
      WorkersChancesUpdate(ws[1..], w - 1, x);
    }
  }

  lemma {:induction false} QueueChancesLast(q: seq<Job>)
    requires q != []
    ensures QueueChances(q) == QueueChances(q[..|q| - 1]) + MAX_ATTEMPTS - q[|q| - 1].attempts
  {
    if |q| > 1 {
      QueueChancesLast(q[1..]);
      assert q[1..][..|q| - 2] == q[..|q| - 1][1..];
    }
  }

  lemma StepUsesChances(s: State, a: Action)
    requires LimitsOk(s) && Enabled(s, a) && WorkerStep(a)
    ensures Chances(Step(s, a)) + StartedBy(s, a) <= Chances(s)
  {
    var t := Step(s, a);
    assert PhaseOk(s.workers[a.w].phase);
    WorkersChancesUpdate(s.workers, a.w, t.workers[a.w]);
    if a.Pop? {
      QueueChancesLast(s.queue);
      assert Next(s).attempts < MAX_ATTEMPTS;
    } else if a.Push? && s.workers[a.w].phase.Returning? {
      assert t.queue[1..] == s.queue;
    }
  }

  lemma {:induction false} ChancesArePositive(s: State)
    requires LimitsOk(s)
    ensures QueueChances(s.queue) >= 0 && WorkersChances(s.workers) >= 0
    decreases |s.queue| + |s.workers|
  {
    if s.queue != [] {
      ChancesArePositive(s.(queue := s.queue[1..]));
    } else if s.workers != [] {
      var rest := s.(workers := s.workers[1..]);
      assert forall w :: 0 <= w < |rest.workers| ==> rest.workers[w] == s.workers[w + 1];
      ChancesArePositive(rest);
      assert PhaseOk(s.workers[0].phase);
    }
  }

  predicate OnlyWorkers(run: seq<Action>) {
    forall i :: 0 <= i < |run| ==> WorkerStep(run[i])
  }

  /** Without new jobs a run is bounded, and so are its handler starts. */
  lemma {:induction false} RunIsBounded(s: State, run: seq<Action>, t: State)
    requires LimitsOk(s) && Leads(s, run, t) && OnlyWorkers(run)
    ensures LimitsOk(t) && Work(t) + |run| <= Work(s) && Chances(t) + Starts(s, run, t) <= Chances(s)
    decreases |run|
  {
    if run != [] {
      var u := Step(s, run[0]);
      LimitsStep(s, run[0]);
      StepWorks(s, run[0]);
      StepUsesChances(s, run[0]);
      RunIsBounded(u, run[1..], t);
    }
  }

  /** No worker can do anything. */
  ghost predicate AtRest(s: State) {
    forall a :: WorkerStep(a) ==> !Enabled(s, a)
  }

  lemma RestIsEmpty(s: State)
    requires AtRest(s) && s.workers != []
    ensures s.queue == [] && AllIdle(s.workers)
  {
    forall w | 0 <= w < |s.workers|
      ensures s.workers[w].phase.Idle?
    {
      assert !Enabled(s, Finish(w, true)) && !Enabled(s, Push(w));
    }
    assert !Enabled(s, Pop(0));
  }

  lemma {:induction false} FreshChances(q: seq<Job>)
    requires forall i :: 0 <= i < |q| ==> q[i].attempts == 0
    ensures QueueChances(q) == 3 * |q| && QueueWork(q) == 9 * |q|
  {
    if q != [] {
      FreshChances(q[1..]);
    }
  }

  lemma {:induction false} IdleWorkers(ws: seq<Worker>)
    requires AllIdle(ws)
    ensures WorkersChances(ws) == 0 && WorkersWork(ws) == 0
  {
    if ws != [] {
      IdleWorkers(ws[1..]);
    }
  }

  /**
   From n fresh jobs and no new ones: at most 9n steps and 3n handler starts happen, and when the workers
   come to rest every job that was ever dispatched is done or dead.
   */
  lemma FreshJobsDrain(s: State, run: seq<Action>, t: State)
    requires Reachable(s) && AllIdle(s.workers) && s.workers != []
    requires forall i :: 0 <= i < |s.queue| ==> s.queue[i].attempts == 0
    requires Leads(s, run, t) && OnlyWorkers(run)
    ensures |run| <= 9 * |s.queue| && Starts(s, run, t) <= 3 * |s.queue|
    ensures AtRest(t) ==> forall id :: id in s.dispatched ==> Present(multiset(t.done) + multiset(t.dead), id)
  {
    hide Accounted, Everywhere, Leads;
    JobsConserved(s);
    FreshChances(s.queue);
    IdleWorkers(s.workers);
    RunIsBounded(s, run, t);
    WorkIsPositive(t);
    ChancesArePositive(t);
    if AtRest(t) {
      RunKeepsJobs(s, run, t);
      RunKeepsCrew(s, run, t);
      AllSettled(t);
    }
  }

  lemma AllSettled(t: State)
    requires QueueInv(t) && AtRest(t) && t.workers != []
    ensures forall id :: id in t.dispatched ==> Present(multiset(t.done) + multiset(t.dead), id)
  {
    RestIsEmpty(t);
    IdleHoldNothing(t.workers);
    assert Everywhere(t) == multiset(t.done) + multiset(t.dead);
  }

  lemma {:induction false} RunKeepsCrew(s: State, run: seq<Action>, t: State)
    requires Leads(s, run, t)
    ensures |t.workers| == |s.workers| && forall id :: id in s.dispatched ==> id in t.dispatched
    decreases |run|
  {
    if run != [] {
      RunKeepsCrew(Step(s, run[0]), run[1..], t);
    }
  }
}
