/** The queue service of one process: its methods change the lists in Redis; its loop refines the protocol. */
module QueueWorker {
  import opened JobQueue

  datatype Lists = Lists(queue: seq<Job>, done: seq<Job>, dead: seq<Job>)

  /** What a worker makes of one job when nothing else happens in between. */
  function Handled(l: Lists, handlers: set<string>, job: Job, ok: bool): Lists {
    if job.kind !in handlers then l.(dead := [job] + l.dead)
    else if ok then l.(done := l.done + [Tried(job)])
    else if Tried(job).attempts < MAX_ATTEMPTS then l.(queue := [Tried(job)] + l.queue)
    else l.(dead := [Tried(job)] + l.dead)
  }

  function Round(l: Lists, handlers: set<string>, ok: bool): Lists {
    if l.queue == [] then l
    else
      var n := |l.queue| - 1;
      Handled(l.(queue := l.queue[..n]), handlers, l.queue[n], ok)
  }

  /** `outcome` tells, for each round, whether the handler succeeds. */
  function Rounds(l: Lists, handlers: set<string>, outcome: nat -> bool, rounds: nat): Lists {
    if rounds == 0 then l else Round(Rounds(l, handlers, outcome, rounds - 1), handlers, outcome(rounds - 1))
  }

  /**
   A handled job ends up in one list: dead without a handler or after its third failure, done on success, else
   queued.
   */
  lemma HandledIff(l: Lists, handlers: set<string>, job: Job, ok: bool)
    ensures var r, after := Handled(l, handlers, job, ok), if job.kind in handlers then Tried(job) else job;
      && multiset(r.queue) + multiset(r.done) + multiset(r.dead)
           == multiset(l.queue) + multiset(l.done) + multiset(l.dead) + multiset{after}
      && (r.dead != l.dead <==> job.kind !in handlers || (!ok && job.attempts + 1 >= 3))
      && (r.done != l.done <==> job.kind in handlers && ok)
      && (r.queue != l.queue <==> job.kind in handlers && !ok && job.attempts + 1 < 3)
      && (r.queue == l.queue || r.queue == [after] + l.queue) && (r.dead == l.dead || r.dead == [after] + l.dead)
  {
    var r := Handled(l, handlers, job, ok);
    assert |r.dead| != |l.dead| || r.dead == l.dead;
    assert |r.queue| != |l.queue| || r.queue == l.queue;
    assert |r.done| != |l.done| || r.done == l.done;
  }

  class QueueService {
    var queue: seq<Job>
    var dlq: seq<Job>
    var handlers: set<string>
    ghost var done: seq<Job>

    ghost function State(): Lists
      reads this
    {
      Lists(queue, done, dlq)
    }

    constructor ()
      ensures State() == Lists([], [], []) && handlers == {}
    {
      queue, dlq, done, handlers := [], [], [], {};
    }

    /** From now on jobs of the kind are run, and jobs of other kinds fare as before. */
    method RegisterHandler(kind: string)
      modifies `handlers
      ensures handlers == old(handlers) + {kind}
      ensures forall l, job, ok ::
        Handled(l, handlers, job, ok) == Handled(l, if job.kind == kind then {kind} else old(handlers), job, ok)
    {
      handlers := handlers + {kind};
    }

    /** The job will be taken after all that are queued already. */
    method Dispatch(id: string, kind: string)
      modifies `queue
      ensures queue == [Job(id, kind, 0)] + old(queue)
      ensures Reversed(queue) == Reversed(old(queue)) + [Job(id, kind, 0)]
    {
      queue := [Job(id, kind, 0)] + queue;
    }

    method MoveToDlq(job: Job)
      modifies `dlq
      ensures dlq == [job] + old(dlq)
    {
      dlq := [job] + dlq;
    }

    method ProcessJobMessage(rawJob: Job, ok: bool)
      modifies `queue, `dlq, `done
      ensures State() == Handled(old(State()), handlers, rawJob, ok)
    {
      if rawJob.kind !in handlers {
        MoveToDlq(rawJob);
        return;
      }
      var job := rawJob.(attempts := rawJob.attempts + 1);
      if ok {
        done := done + [job];
      } else if job.attempts < 3 {
        queue := [job] + queue;
      } else {
        MoveToDlq(job);
      }
    }

    method ProcessQueueLoop(outcome: nat -> bool, rounds: nat)
      modifies `queue, `dlq, `done
      ensures State() == Rounds(old(State()), handlers, outcome, rounds)
    {
      for i := 0 to rounds
        invariant State() == Rounds(old(State()), handlers, outcome, i)
      {
        if queue != [] {
          var rawJob := queue[|queue| - 1];
          queue := queue[..|queue| - 1];
          ProcessJobMessage(rawJob, outcome(i));
        }
      }
    }
  }

  // ----- The loop against the protocol -----

  predicate Matches(s: State, l: Lists) {
    s.queue == l.queue && s.done == l.done && s.dead == l.dead
  }

  /** The worker steps that make up one round. */
  function RoundSteps(s: State, w: nat, ok: bool): seq<Action>
    requires w < |s.workers| && s.queue != []
  {
    if Next(s).kind !in s.workers[w].handlers then [Pop(w), Push(w)]
    else if ok then [Pop(w), Finish(w, ok)]
    else [Pop(w), Finish(w, ok), Push(w)]
  }

  lemma LeadsThrough(s: State, a: Action, rest: seq<Action>, t: State)
    requires Enabled(s, a) && Leads(Step(s, a), rest, t)
    ensures Leads(s, [a] + rest, t)
  {
    assert ([a] + rest)[1..] == rest;
  }

  /** A round of a worker that nobody disturbs is a run of the protocol with the same effect. */
  lemma RoundIsRun(s: State, w: nat, l: Lists, ok: bool) returns (t: State)
    requires w < |s.workers| && s.workers[w].phase.Idle? && s.queue != [] && Matches(s, l)
    ensures Leads(s, RoundSteps(s, w, ok), t) && Matches(t, Round(l, s.workers[w].handlers, ok))
    ensures |t.workers| == |s.workers| && t.workers[w] == s.workers[w]
  {
    var s1 := Taken(s, w);
    if Next(s).kind !in s.workers[w].handlers {
      t := Pushed(s1, w);
      assert Leads(t, [], t);
      LeadsThrough(s1, Push(w), [], t);
      LeadsThrough(s, Pop(w), [Push(w)], t);
    } else {
      var s2 := Finished(s1, w, ok);
      if ok {
        t := s2;
        assert Leads(t, [], t);
        LeadsThrough(s1, Finish(w, ok), [], t);
        LeadsThrough(s, Pop(w), [Finish(w, ok)], t);
      } else {
        t := Pushed(s2, w);
        assert Leads(t, [], t);
        LeadsThrough(s2, Push(w), [], t);
        LeadsThrough(s1, Finish(w, ok), [Push(w)], t);
        LeadsThrough(s, Pop(w), [Finish(w, ok), Push(w)], t);
      }
    }
  }

  // ----- How long the loop takes -----

  predicate Retriable(q: seq<Job>) {
    forall i :: 0 <= i < |q| ==> q[i].attempts < MAX_ATTEMPTS
  }

  /** A round that finds a job uses up one of the attempts left, and keeps every other job. */
  lemma RoundUsesChance(l: Lists, handlers: set<string>, ok: bool)
    requires Retriable(l.queue) && l.queue != []
    ensures Retriable(Round(l, handlers, ok).queue)
    ensures QueueChances(Round(l, handlers, ok).queue) < QueueChances(l.queue)
    ensures var r := Round(l, handlers, ok); |r.queue| + |r.done| + |r.dead| == |l.queue| + |l.done| + |l.dead|
  {
    var r := Round(l, handlers, ok);
    QueueChancesLast(l.queue);
    if |r.queue| == |l.queue| {
      assert r.queue[1..] == l.queue[..|l.queue| - 1];
    }
  }

  lemma {:induction false} ChancesCover(q: seq<Job>)
    requires Retriable(q)
    ensures QueueChances(q) >= |q|
  {
    if q != [] {
      ChancesCover(q[1..]);
    }
  }

  lemma {:induction false} RoundsUseChances(l: Lists, handlers: set<string>, outcome: nat -> bool, rounds: nat)
    requires Retriable(l.queue)
    ensures var r := Rounds(l, handlers, outcome, rounds);
      && Retriable(r.queue) && (r.queue == [] || QueueChances(r.queue) + rounds <= QueueChances(l.queue))
      && |r.queue| + |r.done| + |r.dead| == |l.queue| + |l.done| + |l.dead|
  {
    if rounds > 0 {
      RoundsUseChances(l, handlers, outcome, rounds - 1);
      var r := Rounds(l, handlers, outcome, rounds - 1);
      if r.queue != [] {
        RoundUsesChance(r, handlers, outcome(rounds - 1));
      }
    }
  }

  /** Whatever the handlers do, 3n rounds of one worker settle n fresh jobs. */
  lemma LoopDrains(l: Lists, handlers: set<string>, outcome: nat -> bool, rounds: nat)
    requires forall i :: 0 <= i < |l.queue| ==> l.queue[i].attempts == 0
    requires rounds >= 3 * |l.queue|
    ensures var r := Rounds(l, handlers, outcome, rounds);
      r.queue == [] && |r.done| + |r.dead| == |l.queue| + |l.done| + |l.dead|
  {
    FreshChances(l.queue);
    RoundsUseChances(l, handlers, outcome, rounds);
    ChancesCover(Rounds(l, handlers, outcome, rounds).queue);
  }
}
