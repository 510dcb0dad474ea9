// The bounded task group (src/seven_lens/analysis/concurrency.py:33-91) as a state machine
// over worker and caller steps.
//
// Tasks start atomically, in submission order, on at most `workers` threads.  Failure
// callbacks may cancel waiting tasks at any later moment.  The caller submits, waits for a
// failure or for all, settles the earlier tasks that were running, and picks the outcome.

module Barrier {
  import opened Orders

  datatype TaskState = Unsubmitted | Waiting | Running | Finished | Cancelled

  /** Where the caller stands; in `Settling`, `watched` are the running tasks it waits for and `first` the failure it saw. */
  datatype Phase<T, E> =
    | Submitting
    | Observing
    | Settling(first: nat, watched: set<nat>)
    | Ended(outcome: Result<seq<T>, E>)

  datatype Group<T, E> = Group(
    tasks: seq<Result<T, E>>,
    workers: nat,
    states: seq<TaskState>,
    phase: Phase<T, E>,
    starts: seq<nat>)

  predicate Started(s: TaskState) { s.Running? || s.Finished? }

  predicate FailureSeen<T, E>(g: Group<T, E>) {
    |g.states| == |g.tasks| && exists i :: 0 <= i < |g.tasks| && g.states[i].Finished? && g.tasks[i].Err?
  }

  function RunningCount(states: seq<TaskState>): nat {
    if states == [] then 0
    else RunningCount(states[..|states| - 1]) + (if states[|states| - 1].Running? then 1 else 0)
  }

  /** The least failing task finished so far, if any. */
  predicate LeastFinishedFailure<T, E>(g: Group<T, E>, i: nat) {
    && |g.states| == |g.tasks| && i < |g.tasks| && g.states[i].Finished? && g.tasks[i].Err?
    && forall j :: 0 <= j < i ==> !(g.states[j].Finished? && g.tasks[j].Err?)
  }

  // ---------------------------------------------------------------- the steps

  /** Submits the next task; it waits, or is cancelled at once when a failure was already seen. */
  ghost predicate Submit<T, E>(g: Group<T, E>, h: Group<T, E>, i: nat) {
    && g.phase.Submitting? && |g.states| == |g.tasks| && i < |g.tasks|
    && g.states[i].Unsubmitted? && (forall j :: 0 <= j < i ==> !g.states[j].Unsubmitted?)
    && h == g.(states := g.states[i := Waiting])
  }

  ghost predicate SubmittedAll<T, E>(g: Group<T, E>, h: Group<T, E>) {
    && g.phase.Submitting? && (forall j :: 0 <= j < |g.states| ==> !g.states[j].Unsubmitted?)
    && h == g.(phase := Observing)
  }

  /** A free worker takes the first waiting task. */
  ghost predicate Start<T, E>(g: Group<T, E>, h: Group<T, E>, i: nat) {
    && |g.states| == |g.tasks| && i < |g.tasks|
    && g.states[i].Waiting? && (forall j :: 0 <= j < i ==> !g.states[j].Waiting?)
    && RunningCount(g.states) < g.workers
    && h == g.(states := g.states[i := Running], starts := g.starts + [i])
  }

  ghost predicate Finish<T, E>(g: Group<T, E>, h: Group<T, E>, i: nat) {
    && |g.states| == |g.tasks| && i < |g.tasks| && g.states[i].Running?
    && h == g.(states := g.states[i := Finished])
  }

  /** Only a failure cancels, and only work that has not started. */
  ghost predicate Cancel<T, E>(g: Group<T, E>, h: Group<T, E>, i: nat) {
    && FailureSeen(g) && i < |g.tasks| && g.states[i].Waiting?
    && h == g.(states := g.states[i := Cancelled])
  }

  /** The wait returned with some failure in view; earlier tasks still running are to be settled. */
  ghost predicate ObserveFailure<T, E>(g: Group<T, E>, h: Group<T, E>, first: nat) {
    && g.phase.Observing? && |g.states| == |g.tasks| && first < |g.tasks|
    && g.states[first].Finished? && g.tasks[first].Err?
    && h == g.(phase := Settling(first, set j | 0 <= j < first && g.states[j].Running?))
  }

  /** The settled tasks are done: the least failure among the finished tasks is raised. */
  ghost predicate RaiseFailure<T, E>(g: Group<T, E>, h: Group<T, E>, i: nat) {
    && g.phase.Settling? && |g.states| == |g.tasks|
    && (forall j :: j in g.phase.watched && j < |g.states| ==> !g.states[j].Running?)
    && LeastFinishedFailure(g, i)
    && h == g.(phase := Ended(Err(g.tasks[i].error)))
  }

  /** Every task finished well: their results, in submission order. */
  ghost predicate ReturnAll<T, E>(g: Group<T, E>, h: Group<T, E>) {
    && g.phase.Observing? && |g.states| == |g.tasks|
    && (forall j :: 0 <= j < |g.states| ==> g.states[j].Finished? && g.tasks[j].Ok?)
    && h == g.(phase := Ended(Ok(seq(|g.tasks|, j requires 0 <= j < |g.tasks| && g.tasks[j].Ok? => g.tasks[j].value))))
  }

  ghost predicate Step<T, E>(g: Group<T, E>, h: Group<T, E>) {
    || SubmittedAll(g, h) || ReturnAll(g, h)
    || (exists i: nat :: Submit(g, h, i))
    || (exists i: nat :: Start(g, h, i))
    || (exists i: nat :: Finish(g, h, i))
    || (exists i: nat :: Cancel(g, h, i))
    || (exists i: nat :: ObserveFailure(g, h, i))
    || (exists i: nat :: RaiseFailure(g, h, i))
  }

  function Initial<T, E>(tasks: seq<Result<T, E>>, workers: nat): Group<T, E> {
    Group(tasks, workers, seq(|tasks|, _ => Unsubmitted), Submitting, [])
  }

  ghost predicate Run<T, E>(trace: seq<Group<T, E>>) {
    && trace != []
    && trace[0] == Initial(trace[0].tasks, trace[0].workers)
    && 1 <= trace[0].workers <= |trace[0].tasks|
    && forall k :: 0 <= k < |trace| - 1 ==> Step(trace[k], trace[k + 1])
  }

  // ---------------------------------------------------------------- what every interleaving keeps

  /** A finished failure before `bound` whose predecessors all started. */
  ghost predicate FailedBefore<T, E>(g: Group<T, E>, f: nat, bound: nat)
    requires |g.states| == |g.tasks|
  {
    && f < bound && f < |g.tasks| && g.states[f].Finished? && g.tasks[f].Err?
    && forall i :: 0 <= i <= f ==> Started(g.states[i])
  }

  ghost predicate InOrder<T, E>(g: Group<T, E>)
    requires |g.states| == |g.tasks|
  {
    && (forall i, j :: 0 <= i < j < |g.states| && !g.states[j].Unsubmitted? ==> !g.states[i].Unsubmitted?)
    && (forall i, j :: 0 <= i < j < |g.states| && Started(g.states[j]) ==> Started(g.states[i]) || g.states[i].Cancelled?)
    && (forall j :: 0 <= j < |g.states| && g.states[j].Cancelled? ==> exists f: nat :: FailedBefore(g, f, j))
    && (!g.phase.Submitting? ==> forall i :: 0 <= i < |g.states| ==> !g.states[i].Unsubmitted?)
  }

  /** While settling, everything before the failure seen is finished, watched or cancelled. */
  ghost predicate Watches<T, E>(g: Group<T, E>)
    requires |g.states| == |g.tasks|
  {
    g.phase.Settling? ==>
      && g.phase.first < |g.tasks| && g.states[g.phase.first].Finished? && g.tasks[g.phase.first].Err?
      && forall j :: 0 <= j < g.phase.first ==> g.states[j].Finished? || g.states[j].Cancelled? || j in g.phase.watched
  }

  ghost predicate StartsOnce<T, E>(g: Group<T, E>)
    requires |g.states| == |g.tasks|
  {
    && (forall i: nat :: i in g.starts <==> i < |g.states| && Started(g.states[i]))
    && (forall k, l :: 0 <= k < l < |g.starts| ==> g.starts[k] != g.starts[l])
  }

  /** The error of the least failing task, or every result in submission order. */
  ghost predicate Canonical<T, E>(tasks: seq<Result<T, E>>, outcome: Result<seq<T>, E>) {
    if outcome.Ok? then
      |outcome.value| == |tasks| && forall i :: 0 <= i < |tasks| ==> tasks[i] == Ok(outcome.value[i])
    else
      exists i :: 0 <= i < |tasks| && tasks[i] == Err(outcome.error) && forall j :: 0 <= j < i ==> tasks[j].Ok?
  }

  ghost predicate Inv<T, E>(g: Group<T, E>) {
    && |g.states| == |g.tasks| && g.workers >= 1
    && InOrder(g) && Watches(g) && StartsOnce(g)
    && (g.phase.Ended? ==> Canonical(g.tasks, g.phase.outcome))
  }

  lemma InitialInv<T, E>(tasks: seq<Result<T, E>>, workers: nat)
    requires 1 <= workers
    ensures Inv(Initial(tasks, workers))
  {
  }

  lemma FailedBeforeStays<T, E>(g: Group<T, E>, h: Group<T, E>, f: nat, bound: nat)
    requires |g.states| == |g.tasks| && h.tasks == g.tasks && |h.states| == |g.states| && FailedBefore(g, f, bound)
    requires forall i :: 0 <= i < |g.states| && Started(g.states[i]) ==> Started(h.states[i])
    requires forall i :: 0 <= i < |g.states| && g.states[i].Finished? ==> h.states[i].Finished?
    ensures FailedBefore(h, f, bound)
  {
  }

  lemma CancelledKeep<T, E>(g: Group<T, E>, h: Group<T, E>)
    requires Inv(g) && h.tasks == g.tasks && |h.states| == |g.states|
    requires forall i :: 0 <= i < |g.states| && Started(g.states[i]) ==> Started(h.states[i])
    requires forall i :: 0 <= i < |g.states| && g.states[i].Finished? ==> h.states[i].Finished?
    requires forall i :: 0 <= i < |g.states| && h.states[i].Cancelled? ==> g.states[i].Cancelled?
    ensures forall j :: 0 <= j < |h.states| && h.states[j].Cancelled? ==> exists f: nat :: FailedBefore(h, f, j)
  {
    forall j | 0 <= j < |h.states| && h.states[j].Cancelled?
      ensures exists f: nat :: FailedBefore(h, f, j)
    {
      var f: nat :| FailedBefore(g, f, j);
      FailedBeforeStays(g, h, f, j);
    }
  }

  /** A finished failure, or one before it, has only started predecessors. */
  lemma SomeFailureIsCovered<T, E>(g: Group<T, E>, first: nat) returns (f: nat)
    requires Inv(g) && first < |g.tasks| && g.states[first].Finished? && g.tasks[first].Err?
    ensures f <= first && FailedBefore(g, f, first + 1)
  {
    if c :| 0 <= c < first && g.states[c].Cancelled? {
      f :| FailedBefore(g, f, c);
    } else {
      f := first;
    }
  }

  lemma StartKeepsInv<T, E>(g: Group<T, E>, h: Group<T, E>, i: nat)
    requires Inv(g) && Start(g, h, i)
    ensures Inv(h)
  {
    CancelledKeep(g, h);
  }

  lemma FinishKeepsInv<T, E>(g: Group<T, E>, h: Group<T, E>, i: nat)
    requires Inv(g) && Finish(g, h, i)
    ensures Inv(h)
  {
    CancelledKeep(g, h);
  }

  lemma SubmitKeepsInv<T, E>(g: Group<T, E>, h: Group<T, E>, i: nat)
    requires Inv(g) && Submit(g, h, i)
    ensures Inv(h)
  {
    CancelledKeep(g, h);
  }

  lemma CancelKeepsInv<T, E>(g: Group<T, E>, h: Group<T, E>, i: nat)
    requires Inv(g) && Cancel(g, h, i)
    ensures Inv(h)
  {
    var seen :| 0 <= seen < |g.tasks| && g.states[seen].Finished? && g.tasks[seen].Err?;
    var f := SomeFailureIsCovered(g, seen);
    assert f < i;
    assert FailedBefore(h, f, i);
    forall j | 0 <= j < |h.states| && h.states[j].Cancelled?
      ensures exists e: nat :: FailedBefore(h, e, j)
    {
      if j != i {
        var e: nat :| FailedBefore(g, e, j);
        FailedBeforeStays(g, h, e, j);
      }
    }
  }

  lemma ObserveKeepsInv<T, E>(g: Group<T, E>, h: Group<T, E>, first: nat)
    requires Inv(g) && ObserveFailure(g, h, first)
    ensures Inv(h)
  {
    CancelledKeep(g, h);
  }

  /** Once the watched tasks are done, the least finished failure is the least failing task. */
  lemma RaiseIsCanonical<T, E>(g: Group<T, E>, h: Group<T, E>, i: nat)
    requires Inv(g) && RaiseFailure(g, h, i)
    ensures Inv(h)
  {
    CancelledKeep(g, h);
    var f := SomeFailureIsCovered(g, g.phase.first);
    assert forall j :: 0 <= j <= f ==> g.states[j].Finished?;
    assert i <= f;
    assert g.tasks[i] == Err(h.phase.outcome.error);
  }

  lemma StepKeepsInv<T, E>(g: Group<T, E>, h: Group<T, E>)
    requires Inv(g) && Step(g, h)
    ensures Inv(h) && h.tasks == g.tasks && h.workers == g.workers
  {
    if SubmittedAll(g, h) || ReturnAll(g, h) { CancelledKeep(g, h); }
    else if i: nat :| Submit(g, h, i) { SubmitKeepsInv(g, h, i); }
    else if i: nat :| Start(g, h, i) { StartKeepsInv(g, h, i); }
    else if i: nat :| Finish(g, h, i) { FinishKeepsInv(g, h, i); }
    else if i: nat :| Cancel(g, h, i) { CancelKeepsInv(g, h, i); }
    else if i: nat :| ObserveFailure(g, h, i) { ObserveKeepsInv(g, h, i); }
    else { var i: nat :| RaiseFailure(g, h, i); RaiseIsCanonical(g, h, i); }
  }

  /**
   * Barrier determinism: however workers, callbacks and the caller interleave, the group ends
   * with the error of the least failing task or with all results in submission order, and no
   * task ever starts twice.
   */
  lemma {:induction false} EveryRunIsCanonical<T, E>(trace: seq<Group<T, E>>, k: nat)
    requires Run(trace) && k < |trace|
    ensures Inv(trace[k]) && trace[k].tasks == trace[0].tasks
    ensures trace[k].phase.Ended? ==> Canonical(trace[0].tasks, trace[k].phase.outcome)
    ensures forall i, j :: 0 <= i < j < |trace[k].starts| ==> trace[k].starts[i] != trace[k].starts[j]
  {
    if k == 0 {
      InitialInv(trace[0].tasks, trace[0].workers);
    } else {
      EveryRunIsCanonical(trace, k - 1);
      StepKeepsInv(trace[k - 1], trace[k]);
    }
  }

  lemma CanonicalIsUnique<T, E>(tasks: seq<Result<T, E>>, a: Result<seq<T>, E>, b: Result<seq<T>, E>)
    requires Canonical(tasks, a) && Canonical(tasks, b)
    ensures a == b
  {
    if a.Ok? && b.Ok? {
      forall i | 0 <= i < |tasks| ensures a.value[i] == b.value[i] { assert tasks[i] == Ok(a.value[i]); }
      assert a.value == b.value;
    }
  }

  // ---------------------------------------------------------------- it always ends

  function Weight(s: TaskState): nat {
    match s case Unsubmitted => 3 case Waiting => 2 case Running => 1 case _ => 0
  }

  function Work(states: seq<TaskState>): nat {
    if states == [] then 0 else Work(states[..|states| - 1]) + Weight(states[|states| - 1])
  }

  function PhaseWork<T, E>(p: Phase<T, E>): nat {
    match p case Submitting => 3 case Observing => 2 case Settling(_, _) => 1 case Ended(_) => 0
  }

  lemma {:induction false} WorkDrops(states: seq<TaskState>, i: nat, s: TaskState)
    requires i < |states| && Weight(s) < Weight(states[i])
    ensures Work(states[i := s]) < Work(states)
  {
    var last := |states| - 1;
    if i == last {
      assert states[i := s][..last] == states[..last];
    } else {
      WorkDrops(states[..last], i, s);
      assert states[i := s][..last] == states[..last][i := s];
    }
  }

  /** Every step uses up work, so every interleaving is finite. */
  lemma StepUsesWork<T, E>(g: Group<T, E>, h: Group<T, E>)
    requires Step(g, h)
    ensures Work(h.states) + PhaseWork(h.phase) < Work(g.states) + PhaseWork(g.phase)
  {
    if i: nat :| Submit(g, h, i) { WorkDrops(g.states, i, Waiting); }
    else if i: nat :| Start(g, h, i) { WorkDrops(g.states, i, Running); }
    else if i: nat :| Finish(g, h, i) { WorkDrops(g.states, i, Finished); }
    else if i: nat :| Cancel(g, h, i) { WorkDrops(g.states, i, Cancelled); }
    else {
      assert h.states == g.states;
      assert PhaseWork(h.phase) < PhaseWork(g.phase);
    }
  }

  lemma {:induction false} NoneRunning(states: seq<TaskState>)
    requires forall i :: 0 <= i < |states| ==> !states[i].Running?
    ensures RunningCount(states) == 0
  {
    if states != [] { NoneRunning(states[..|states| - 1]); }
  }

  function FirstWhere(states: seq<TaskState>, s: TaskState): (i: nat)
    ensures i <= |states| && (i < |states| ==> states[i] == s) && forall j :: 0 <= j < i ==> states[j] != s
  {
    if states == [] || states[0] == s then 0 else 1 + FirstWhere(states[1..], s)
  }

  lemma LeastFailure<T, E>(g: Group<T, E>, i: nat) returns (least: nat)
    requires |g.states| == |g.tasks| && i < |g.tasks| && g.states[i].Finished? && g.tasks[i].Err?
    ensures LeastFinishedFailure(g, least)
  {
    least := 0;
    while !(g.states[least].Finished? && g.tasks[least].Err?)
      invariant least <= i && forall j :: 0 <= j < least ==> !(g.states[j].Finished? && g.tasks[j].Err?)
      decreases i - least
    {
      least := least + 1;
    }
  }

  /** No interleaving gets stuck: until the group has ended some step is possible. */
  lemma NeverStuck<T, E>(g: Group<T, E>) returns (h: Group<T, E>)
    requires Inv(g) && !g.phase.Ended?
    ensures Step(g, h)
  {
    var running := FirstWhere(g.states, Running);
    if running < |g.states| {
      h := g.(states := g.states[running := Finished]);
      assert Finish(g, h, running);
      return;
    }
    if g.phase.Submitting? {
      var next := FirstWhere(g.states, Unsubmitted);
      if next < |g.states| {
        h := g.(states := g.states[next := Waiting]);
        assert Submit(g, h, next);
      } else {
        h := g.(phase := Observing);
        assert SubmittedAll(g, h);
      }
    } else if g.phase.Settling? {
      var least := LeastFailure(g, g.phase.first);
      h := g.(phase := Ended(Err(g.tasks[least].error)));
      assert RaiseFailure(g, h, least);
    } else if i :| 0 <= i < |g.tasks| && g.states[i].Finished? && g.tasks[i].Err? {
      h := g.(phase := Settling(i, set j | 0 <= j < i && g.states[j].Running?));
      assert ObserveFailure(g, h, i);
    } else {
      var next := FirstWhere(g.states, Waiting);
      if next < |g.states| {
        NoneRunning(g.states);
        h := g.(states := g.states[next := Running], starts := g.starts + [next]);
        assert Start(g, h, next);
      } else {
        h := g.(phase := Ended(Ok(seq(|g.tasks|, j requires 0 <= j < |g.tasks| && g.tasks[j].Ok? => g.tasks[j].value))));
        assert ReturnAll(g, h);
      }
    }
  }
}
