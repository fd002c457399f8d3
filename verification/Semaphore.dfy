// The backfill's promise-based semaphore: the object, and the jobs that use it as
// a step machine. A waiter that `release` wakes takes its place only when it
// resumes; until then it is `woken`.
module Semaphores {
  import opened Wrappers

  type Job = nat

  class Semaphore {
    const max: nat
    var active: int
    var queue: seq<Job>

    constructor (max: nat)
      ensures this.max == max && active == 0 && queue == []
    {
      this.max := max;
      active, queue := 0, [];
    }

    // The code of acquire up to its await: whether the caller goes on at once.
    method Acquire(job: Job) returns (goes: bool)
      modifies this
      ensures goes == (old(active) < max)
      ensures active == (if goes then old(active) + 1 else old(active))
      ensures queue == (if goes then old(queue) else old(queue) + [job])
    {
      goes := active < max;
      if goes {
        active := active + 1;
      } else {
        queue := queue + [job];
      }
    }

    // What a woken waiter does when it resumes.
    method Resume()
      modifies this`active
      ensures active == old(active) + 1
    {
      active := active + 1;
    }

    method Release() returns (woken: Option<Job>)
      modifies this
      ensures active == old(active) - 1
      ensures woken == if old(queue) == [] then None else Some(old(queue)[0])
      ensures queue == if old(queue) == [] then [] else old(queue)[1..]
    {
      active := active - 1;
      if queue == [] {
        return None;
      }
      woken := Some(queue[0]);
      queue := queue[1..];
    }
  }

  // ---- The machine ----

  datatype State = State(active: int, queue: seq<Job>, woken: set<Job>, running: set<Job>, done: set<Job>)

  datatype Label = Acquire(j: Job) | Resume(j: Job) | Release(j: Job)

  ghost const INIT := State(0, [], {}, {}, {})

  ghost predicate Acquired(s: State, j: Job) {
    j in s.queue || j in s.woken || j in s.running || j in s.done
  }

  ghost predicate Enabled(s: State, l: Label) {
    match l
    case Acquire(j) => !Acquired(s, j)
    case Resume(j) => j in s.woken
    case Release(j) => j in s.running
  }

  ghost function Next(s: State, l: Label, max: nat): State
    requires Enabled(s, l)
  {
    match l
    case Acquire(j) =>
      if s.active < max then s.(active := s.active + 1, running := s.running + {j})
      else s.(queue := s.queue + [j])
    case Resume(j) => s.(active := s.active + 1, woken := s.woken - {j}, running := s.running + {j})
    case Release(j) =>
      var s1 := s.(active := s.active - 1, running := s.running - {j}, done := s.done + {j});
      if s.queue == [] then s1 else s1.(queue := s.queue[1..], woken := s.woken + {s.queue[0]})
  }

  ghost function After(run: seq<Label>, max: nat): Option<State> {
    if run == [] then Some(INIT)
    else
      var last := run[|run| - 1];
      match After(run[..|run| - 1], max)
      case None => None
      case Some(s) => if Enabled(s, last) then Some(Next(s, last, max)) else None
  }

  // ---- Jobs are never lost, whatever the timing ----

  ghost predicate IsSet(queue: seq<Job>) {
    forall i, j | 0 <= i < j < |queue| :: queue[i] != queue[j]
  }

  // Each job is in one place.
  ghost predicate PlaceInv(s: State) {
    && IsSet(s.queue)
    && (forall j | j in s.queue :: j !in s.woken && j !in s.running && j !in s.done)
    && (forall j | j in s.woken :: j !in s.running && j !in s.done)
    && (forall j | j in s.running :: j !in s.done)
  }

  ghost predicate JobInv(s: State) {
    PlaceInv(s) && s.active == |s.running|
  }

  lemma PlaceAcquire(s: State, l: Label, max: nat)
    requires PlaceInv(s) && Enabled(s, l) && l.Acquire?
    ensures PlaceInv(Next(s, l, max))
  {}

  lemma PlaceResume(s: State, l: Label, max: nat)
    requires PlaceInv(s) && Enabled(s, l) && l.Resume?
    ensures PlaceInv(Next(s, l, max))
  {}

  lemma PlaceRelease(s: State, l: Label, max: nat)
    requires PlaceInv(s) && Enabled(s, l) && l.Release?
    ensures PlaceInv(Next(s, l, max))
  {
    if s.queue != [] {
      forall j | j in s.queue[1..] ensures j != s.queue[0] && j in s.queue {
        var i :| 0 <= i < |s.queue| - 1 && s.queue[1..][i] == j;
        assert s.queue[i + 1] == j;
      }
    }
  }

  lemma JobStep(s: State, l: Label, max: nat)
    requires JobInv(s) && Enabled(s, l)
    ensures JobInv(Next(s, l, max))
  {
    match l
    case Acquire(_) => PlaceAcquire(s, l, max);
    case Resume(_) => PlaceResume(s, l, max);
    case Release(_) => PlaceRelease(s, l, max);
  }

  // No step loses a job.
  lemma JobsStay(s: State, l: Label, max: nat, j: Job)
    requires Enabled(s, l)
    ensures Acquired(Next(s, l, max), j) <==> Acquired(s, j) || l == Acquire(j)
  {
    if l.Release? && s.queue != [] {
      assert s.queue == [s.queue[0]] + s.queue[1..];
    }
  }

  lemma {:induction false} JobRun(run: seq<Label>, max: nat)
    requires After(run, max).Some?
    ensures JobInv(After(run, max).value)
  {
    if run == [] {
    } else {
      JobRun(run[..|run| - 1], max);
      JobStep(After(run[..|run| - 1], max).value, run[|run| - 1], max);
    }
  }

  // ---- First come, first served ----

  // Step `i` is an acquire of `j` that has to wait.
  ghost predicate QueuesAt(run: seq<Label>, max: nat, i: nat, j: Job) {
    i < |run| && run[i] == Acquire(j) && After(run[..i], max).Some? && After(run[..i], max).value.active >= max
  }

  // As long as `j` waits, `k` waits behind it.
  ghost predicate WaitsBehind(s: State, j: Job, k: Job) {
    && Acquired(s, j)
    && (j in s.queue ==> exists a, b :: 0 <= a < b < |s.queue| && s.queue[a] == j && s.queue[b] == k)
  }

  lemma BehindStep(s: State, l: Label, max: nat, j: Job, k: Job)
    requires JobInv(s) && WaitsBehind(s, j, k) && Enabled(s, l)
    ensures WaitsBehind(Next(s, l, max), j, k)
  {
    JobsStay(s, l, max, j);
    var s' := Next(s, l, max);
    if j in s'.queue {
      assert j in s.queue;
      var a, b :| 0 <= a < b < |s.queue| && s.queue[a] == j && s.queue[b] == k;
      if s'.queue == s.queue[1..] && l.Release? {
        assert s'.queue[a - 1] == j && s'.queue[b - 1] == k;
      } else {
        assert s'.queue[a] == j && s'.queue[b] == k;
      }
    }
  }

  lemma QueuedEarlier(run: seq<Label>, max: nat, i: nat, j: Job)
    requires QueuesAt(run, max, i, j) && i < |run| - 1
    ensures QueuesAt(run[..|run| - 1], max, i, j)
  {
    assert run[..|run| - 1][..i] == run[..i];
  }

  lemma {:induction false} Queued(run: seq<Label>, max: nat, i: nat, j: Job)
    requires After(run, max).Some? && QueuesAt(run, max, i, j)
    ensures Acquired(After(run, max).value, j)
  {
    var init, last := run[..|run| - 1], run[|run| - 1];
    if i < |run| - 1 {
      QueuedEarlier(run, max, i, j);
      Queued(init, max, i, j);
    }
    JobsStay(After(init, max).value, last, max, j);
  }

  // Waiters are woken in the order in which they came: while one is in the queue,
  // so is everyone who queued after it.
  lemma {:induction false} WokenInOrder(run: seq<Label>, max: nat, i: nat, m: nat, j: Job, k: Job)
    requires After(run, max).Some? && i < m && QueuesAt(run, max, i, j) && QueuesAt(run, max, m, k)
    ensures WaitsBehind(After(run, max).value, j, k)
  {
    var init, last := run[..|run| - 1], run[|run| - 1];
    QueuedEarlier(run, max, i, j);
    if m < |run| - 1 {
      QueuedEarlier(run, max, m, k);
      WokenInOrder(init, max, i, m, j, k);
      JobRun(init, max);
      BehindStep(After(init, max).value, last, max, j, k);
    } else {
      Queued(init, max, i, j);
      QueuesBehind(After(init, max).value, max, j, k);
    }
  }

  lemma QueuesBehind(s: State, max: nat, j: Job, k: Job)
    requires Acquired(s, j) && Enabled(s, Acquire(k)) && s.active >= max
    ensures WaitsBehind(Next(s, Acquire(k), max), j, k)
  {
    var queue := Next(s, Acquire(k), max).queue;
    if a :| 0 <= a < |s.queue| && s.queue[a] == j {
      assert queue[a] == j && queue[|s.queue|] == k;
    }
  }

  // ---- The bound ----

  // Places taken, and places owed to woken waiters.
  ghost function Owed(s: State): int {
    s.active + |s.woken|
  }

  // A waiter is queued only while every place is taken or owed.
  ghost predicate BoundInv(s: State, max: nat) {
    && Owed(s) <= max
    && (s.queue != [] ==> Owed(s) == max)
  }

  // The bound breaks exactly when a newcomer takes the place owed to a woken waiter.
  lemma BoundBreaks(s: State, l: Label, max: nat)
    requires JobInv(s) && BoundInv(s, max) && Enabled(s, l)
    ensures BoundInv(Next(s, l, max), max) <==> !(l.Acquire? && s.active < max && Owed(s) == max)
  {
    var s' := Next(s, l, max);
    if l.Release? {
      assert s.running - {l.j} < s.running;
      if s.queue != [] {
        assert s'.woken == s.woken + {s.queue[0]} && s.queue[0] !in s.woken;
      }
    }
  }

  // The backfill acquires for every job before the first release.
  ghost predicate AcquiresFirst(run: seq<Label>) {
    forall i, j | 0 <= i < j < |run| && run[i].Release? :: !run[j].Acquire?
  }

  lemma {:induction false} NoneWokenYet(run: seq<Label>, max: nat)
    requires After(run, max).Some? && forall i | 0 <= i < |run| :: !run[i].Release?
    ensures After(run, max).value.woken == {}
  {
    if run == [] {
    } else {
      NoneWokenYet(run[..|run| - 1], max);
    }
  }

  // Then at most `max` jobs run, a waiter is queued only while no place is free,
  // and it will be woken: somebody holds a place or is about to.
  lemma {:induction false} BackfillBound(run: seq<Label>, max: nat)
    requires After(run, max).Some? && AcquiresFirst(run)
    ensures var s := After(run, max).value;
            && JobInv(s) && BoundInv(s, max)
            && |s.running| <= max
            && (s.queue != [] && max > 0 ==> s.running != {} || s.woken != {})
  {
    if run == [] {
    } else {
      var init, l := run[..|run| - 1], run[|run| - 1];
      BackfillBound(init, max);
      var s := After(init, max).value;
      JobStep(s, l, max);
      if l.Acquire? {
        forall i | 0 <= i < |init| ensures !init[i].Release? {
          assert init[i] == run[i];
        }
        NoneWokenYet(init, max);
      }
      BoundBreaks(s, l, max);
    }
  }

  // When nothing more can happen, every job that acquired has run to its end.
  lemma AllDone(run: seq<Label>, max: nat)
    requires After(run, max).Some? && AcquiresFirst(run) && max > 0
    requires forall l: Label | !l.Acquire? :: !Enabled(After(run, max).value, l)
    ensures forall j | Acquired(After(run, max).value, j) :: j in After(run, max).value.done
  {
    var s := After(run, max).value;
    BackfillBound(run, max);
    forall j ensures j !in s.woken && j !in s.running {
      assert !Enabled(s, Resume(j)) && !Enabled(s, Release(j));
    }
  }

  lemma Do(run: seq<Label>, s: State, l: Label, max: nat, s': State) returns (run': seq<Label>)
    requires After(run, max) == Some(s) && Enabled(s, l) && s' == Next(s, l, max)
    ensures run' == run + [l] && After(run', max) == Some(s')
  {
    run' := run + [l];
    assert run'[..|run|] == run;
  }

  // With other timing a newcomer can overtake a woken waiter, and more than `max`
  // jobs run.
  lemma OvertakingExceeds() returns (run: seq<Label>)
    ensures After(run, 1).Some?
    ensures |After(run, 1).value.running| == 2 && !AcquiresFirst(run)
  {
    run := Do([], INIT, Acquire(0), 1, State(1, [], {}, {0}, {}));
    run := Do(run, State(1, [], {}, {0}, {}), Acquire(1), 1, State(1, [1], {}, {0}, {}));
    run := Do(run, State(1, [1], {}, {0}, {}), Release(0), 1, State(0, [], {1}, {}, {0}));
    run := OvertakingGoesOn(run);
  }

  lemma OvertakingGoesOn(run: seq<Label>) returns (run': seq<Label>)
    requires After(run, 1) == Some(State(0, [], {1}, {}, {0})) && |run| == 3 && run[2] == Release(0)
    ensures After(run', 1) == Some(State(2, [], {}, {1, 2}, {0})) && !AcquiresFirst(run')
    ensures |{1, 2}| == 2
  {
    run' := Do(run, State(0, [], {1}, {}, {0}), Acquire(2), 1, State(1, [], {1}, {2}, {0}));
    run' := Do(run', State(1, [], {1}, {2}, {0}), Resume(1), 1, State(2, [], {}, {1, 2}, {0}));
    assert run'[2] == Release(0) && run'[3] == Acquire(2);
  }
}
