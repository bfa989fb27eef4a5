/** The sequential engine: steps in list order, each after its dependencies, while other
    threads may pause or cancel the execution at any moment. */
module Sequential {
  import opened Retry
  import opened Wrappers

  datatype ExecutionState = Pending | Running | Paused | Completed | Failed | Cancelled | TimedOut

  datatype Step = Step(id: string, dependencies: seq<string>, optional: bool, retry: RetryPolicy)

  datatype Workflow = Workflow(steps: seq<Step>, allowPartialFailure: bool, defaultRetry: RetryPolicy)

  /** One try of a step: no request could be submitted, or one was, and its wait ended well
      or not. */
  datatype Try = NotSubmitted | Submitted(request: string, ok: bool)

  /** What lies outside the engine: the outcome of every try of every step, and the states
      other threads write just before the engine looks at step `i` and while it works on it. */
  datatype World = World(tries: (nat, nat) -> Try, before: nat -> Option<ExecutionState>,
                         during: nat -> Option<ExecutionState>)

  predicate Undisturbed(w: World, n: nat)
  {
    forall i | 0 <= i <= n :: w.before(i) == None && w.during(i) == None
  }

  /** The part of an execution the engine works on. `submitted` lists the steps for which a
      request was submitted, in order. */
  datatype Exec = Exec(state: ExecutionState, results: map<string, string>, submitted: seq<nat>)
  {
    function Write(s: Option<ExecutionState>): Exec { if s.Some? then this.(state := s.value) else this }
  }

  function Policy(wf: Workflow, i: nat): RetryPolicy
    requires i < |wf.steps|
  {
    ChosenPolicy(wf.steps[i].retry, wf.defaultRetry)
  }

  /** Number of tries of step `i` up to the first good one, counted from try `k`. */
  function Tries(wf: Workflow, w: World, i: nat, k: nat): nat
    requires i < |wf.steps|
    decreases Policy(wf, i).maxRetries - k + 1
  {
    if k > Policy(wf, i).maxRetries then k
    else if w.tries(i, k) != NotSubmitted && w.tries(i, k).ok then k + 1
    else Tries(wf, w, i, k + 1)
  }

  predicate StepSucceeds(wf: Workflow, w: World, i: nat)
    requires i < |wf.steps|
  {
    exists k: nat | k <= Policy(wf, i).maxRetries :: w.tries(i, k) != NotSubmitted && w.tries(i, k).ok
  }

  /** The last request submitted in the first `n` tries of a step. */
  function LastRequest(w: World, i: nat, n: nat): Option<string>
  {
    if n == 0 then None
    else
      match w.tries(i, n - 1)
      case Submitted(request, _) => Some(request)
      case NotSubmitted => LastRequest(w, i, n - 1)
  }

  function Executed(wf: Workflow, w: World, e: Exec, i: nat): Exec
    requires i < |wf.steps|
  {
    var last := LastRequest(w, i, Tries(wf, w, i, 0));
    (if last.None? then e
     else e.(results := e.results[wf.steps[i].id := last.value], submitted := e.submitted + [i]))
    .Write(w.during(i))
  }

  predicate DependenciesMet(wf: Workflow, e: Exec, i: nat)
    requires i < |wf.steps|
  {
    forall d | d in wf.steps[i].dependencies :: d in e.results
  }

  /** The rest of a run, from step `i` on. */
  function RunFrom(wf: Workflow, w: World, e: Exec, i: nat): Exec
    requires i <= |wf.steps|
    decreases |wf.steps| - i
  {
    var f := e.Write(w.before(i));
    if i == |wf.steps| || f.state != Running then
      if f.state == Running then f.(state := Completed) else f
    else if !DependenciesMet(wf, f, i) then
      if wf.steps[i].optional then RunFrom(wf, w, f, i + 1) else f.(state := Failed)
    else
      var g := Executed(wf, w, f, i);
      if !StepSucceeds(wf, w, i) && !wf.steps[i].optional && !wf.allowPartialFailure then g.(state := Failed)
      else RunFrom(wf, w, g, i + 1)
  }

  const STARTED := Exec(Running, map[], [])

  // ---- dependency safety

  /** Step number `k` of the submissions has `d` as a dependency that an earlier submission,
      of a step earlier in the list, fulfils. */
  ghost predicate FulfilledBefore(wf: Workflow, submitted: seq<nat>, k: nat, d: string)
    requires k < |submitted|
  {
    exists j: nat :: j < k && submitted[j] < submitted[k] && submitted[j] < |wf.steps| && wf.steps[submitted[j]].id == d
  }

  ghost predicate DependencySafe(wf: Workflow, submitted: seq<nat>)
  {
    && (forall k | 0 <= k < |submitted| :: submitted[k] < |wf.steps|)
    && (forall k, d | 0 <= k < |submitted| && d in wf.steps[submitted[k]].dependencies ::
          FulfilledBefore(wf, submitted, k, d))
  }

  /** Between the steps: what has a result is what was submitted, all of it before step `i`. */
  ghost predicate Orderly(wf: Workflow, e: Exec, i: nat)
  {
    && DependencySafe(wf, e.submitted)
    && (forall k | 0 <= k < |e.submitted| :: e.submitted[k] < i)
    && (forall d | d in e.results :: exists k :: 0 <= k < |e.submitted| && wf.steps[e.submitted[k]].id == d)
  }

  lemma SubmittedKeepsOrder(wf: Workflow, e: Exec, i: nat, request: string)
    requires i < |wf.steps| && Orderly(wf, e, i) && DependenciesMet(wf, e, i)
    ensures Orderly(wf, e.(results := e.results[wf.steps[i].id := request], submitted := e.submitted + [i]), i + 1)
  {
    var f := e.(results := e.results[wf.steps[i].id := request], submitted := e.submitted + [i]);
    var n := |e.submitted|;
    assert f.submitted[n] == i;
    forall k, d | 0 <= k < |f.submitted| && d in wf.steps[f.submitted[k]].dependencies
      ensures FulfilledBefore(wf, f.submitted, k, d)
    {
      if k < n {
        assert FulfilledBefore(wf, e.submitted, k, d);
        var j: nat :| j < k && e.submitted[j] < e.submitted[k] && wf.steps[e.submitted[j]].id == d;
        assert f.submitted[j] == e.submitted[j];
      } else {
        var j :| 0 <= j < n && wf.steps[e.submitted[j]].id == d;
        assert f.submitted[j] == e.submitted[j];
      }
    }
    forall d | d in f.results ensures exists k :: 0 <= k < |f.submitted| && wf.steps[f.submitted[k]].id == d {
      if d == wf.steps[i].id {
        assert wf.steps[f.submitted[n]].id == d;
      } else {
        var k :| 0 <= k < n && wf.steps[e.submitted[k]].id == d;
        assert wf.steps[f.submitted[k]].id == d;
      }
    }
  }

  lemma {:induction false} RunKeepsOrder(wf: Workflow, w: World, e: Exec, i: nat)
    requires i <= |wf.steps| && Orderly(wf, e, i)
    ensures DependencySafe(wf, RunFrom(wf, w, e, i).submitted)
    decreases |wf.steps| - i
  {
    hide Tries, LastRequest, StepSucceeds, DependenciesMet, DependencySafe;
    var f := e.Write(w.before(i));
    if i < |wf.steps| && f.state == Running {
      if !DependenciesMet(wf, f, i) {
        if wf.steps[i].optional { RunKeepsOrder(wf, w, f, i + 1); }
      } else {
        var g := Executed(wf, w, f, i);
        var last := LastRequest(w, i, Tries(wf, w, i, 0));
        if last.Some? { SubmittedKeepsOrder(wf, f, i, last.value); }
        assert Orderly(wf, g, i + 1);
        if !(!StepSucceeds(wf, w, i) && !wf.steps[i].optional && !wf.allowPartialFailure) {
          RunKeepsOrder(wf, w, g, i + 1);
        }
      }
    }
  }

  /** In every run, however disturbed: whenever a step was submitted, each of its dependencies
      had been submitted before, by a step strictly earlier in the list. */
  lemma DependenciesFirst(wf: Workflow, w: World)
    ensures DependencySafe(wf, RunFrom(wf, w, STARTED, 0).submitted)
  {
    RunKeepsOrder(wf, w, STARTED, 0);
  }

  // ---- how an undisturbed run ends

  /** The steps with a result when an undisturbed run that has not failed reaches step `i`. */
  function Known(wf: Workflow, w: World, i: nat): set<string>
    requires i <= |wf.steps|
  {
    if i == 0 then {}
    else
      var before := Known(wf, w, i - 1);
      if Ready(wf, before, i - 1) && LastRequest(w, i - 1, Tries(wf, w, i - 1, 0)).Some?
      then before + {wf.steps[i - 1].id} else before
  }

  predicate Ready(wf: Workflow, known: set<string>, i: nat)
    requires i < |wf.steps|
  {
    forall d | d in wf.steps[i].dependencies :: d in known
  }

  /** Step `i` does not end an undisturbed run that reaches it. */
  predicate Passes(wf: Workflow, w: World, i: nat)
    requires i < |wf.steps|
  {
    wf.steps[i].optional ||
    (Ready(wf, Known(wf, w, i), i) && (wf.allowPartialFailure || StepSucceeds(wf, w, i)))
  }

  lemma {:induction false} UndisturbedFrom(wf: Workflow, w: World, e: Exec, i: nat)
    requires i <= |wf.steps| && Undisturbed(w, |wf.steps|)
    requires e.state == Running && e.results.Keys == Known(wf, w, i)
    ensures var s := RunFrom(wf, w, e, i).state;
            s == if forall j | i <= j < |wf.steps| :: Passes(wf, w, j) then Completed else Failed
    decreases |wf.steps| - i
  {
    hide Tries, LastRequest, StepSucceeds;
    if i < |wf.steps| {
      assert w.before(i) == None && w.during(i) == None;
      assert DependenciesMet(wf, e, i) == Ready(wf, Known(wf, w, i), i);
      if DependenciesMet(wf, e, i) {
        var g := Executed(wf, w, e, i);
        assert g.results.Keys == Known(wf, w, i + 1);
        if Passes(wf, w, i) {
          UndisturbedFrom(wf, w, g, i + 1);
        }
      } else if wf.steps[i].optional {
        assert Known(wf, w, i + 1) == Known(wf, w, i);
        UndisturbedFrom(wf, w, e, i + 1);
      } else {
        assert !Passes(wf, w, i);
      }
    } else {
      assert w.before(i) == None;
    }
  }

  /** An undisturbed run ends as completed exactly when every step that is not optional has
      all its dependencies among the steps submitted before it and, unless partial failure is
      allowed, succeeds within its tries; otherwise it ends as failed. */
  lemma CompletedExactly(wf: Workflow, w: World)
    requires Undisturbed(w, |wf.steps|)
    ensures var s := RunFrom(wf, w, STARTED, 0).state;
            s == if forall i | 0 <= i < |wf.steps| :: Passes(wf, w, i) then Completed else Failed
  {
    UndisturbedFrom(wf, w, STARTED, 0);
  }

  // ---- how any run ends

  /** The state the engine finds when it looks at step `i`, or at the end of the list: the last
      one another thread wrote, or running. A step that is passed over gives no time for writes. */
  function Seen(wf: Workflow, w: World, i: nat): ExecutionState
    requires i <= |wf.steps|
    decreases i, 0
  {
    if w.before(i).Some? then w.before(i).value else if i == 0 then Running else LeftBy(wf, w, i - 1)
  }

  /** The state behind step `i`. */
  function LeftBy(wf: Workflow, w: World, i: nat): ExecutionState
    requires i < |wf.steps|
    decreases i, 1
  {
    if Ready(wf, Known(wf, w, i), i) && w.during(i).Some? then w.during(i).value else Seen(wf, w, i)
  }

  /** Every look before the one at `k` finds the execution running, and no step before ends it. */
  predicate Reaches(wf: Workflow, w: World, k: nat)
    requires k <= |wf.steps|
  {
    forall j | 0 <= j < k :: Seen(wf, w, j) == Running && Passes(wf, w, j)
  }

  /** A run ends at look `k` in state `s`: in what another thread wrote, when that is not
      running; else as completed when the list is at its end; else as failed when the step there
      lacks a dependency or has failed, whatever is written while it is at work. */
  predicate EndsAt(wf: Workflow, w: World, k: nat, s: ExecutionState)
  {
    && k <= |wf.steps| && Reaches(wf, w, k)
    && (if Seen(wf, w, k) != Running then s == Seen(wf, w, k)
        else if k == |wf.steps| then s == Completed
        else !Passes(wf, w, k) && s == Failed)
  }

  lemma OneEnd(wf: Workflow, w: World, k: nat, s: ExecutionState, l: nat, t: ExecutionState)
    requires EndsAt(wf, w, k, s) && EndsAt(wf, w, l, t)
    ensures k == l && s == t
  {
    hide Seen, Passes;
  }

  /** The steps submitted before look `i` of a run that comes to it. */
  function SubmittedBefore(wf: Workflow, w: World, i: nat): seq<nat>
    requires i <= |wf.steps|
  {
    if i == 0 then []
    else
      SubmittedBefore(wf, w, i - 1) +
      (if Ready(wf, Known(wf, w, i - 1), i - 1) && LastRequest(w, i - 1, Tries(wf, w, i - 1, 0)).Some? then [i - 1]
       else [])
  }

  /** How far a run that ends at look `k` has worked: through step `k` when that is what ended
      it. */
  function WorkedThrough(wf: Workflow, w: World, k: nat): nat
    requires k <= |wf.steps|
  {
    if k < |wf.steps| && Seen(wf, w, k) == Running then k + 1 else k
  }

  /** Before look `i` of a run that comes to it. */
  ghost predicate Arrived(wf: Workflow, w: World, e: Exec, i: nat)
  {
    && i <= |wf.steps| && Reaches(wf, w, i) && e.results.Keys == Known(wf, w, i)
    && e.submitted == SubmittedBefore(wf, w, i)
    && e.state == if i == 0 then Running else LeftBy(wf, w, i - 1)
  }

  lemma WorkedOn(wf: Workflow, w: World, f: Exec, i: nat)
    requires i < |wf.steps| && Ready(wf, Known(wf, w, i), i)
    requires f.results.Keys == Known(wf, w, i) && f.submitted == SubmittedBefore(wf, w, i) && f.state == Seen(wf, w, i)
    ensures var g := Executed(wf, w, f, i);
            && g.results.Keys == Known(wf, w, i + 1) && g.submitted == SubmittedBefore(wf, w, i + 1)
            && g.state == LeftBy(wf, w, i)
  {
    hide Tries, LastRequest, StepSucceeds;
    assert f.submitted + [] == f.submitted;
  }

  lemma PassedOver(wf: Workflow, w: World, f: Exec, i: nat)
    requires i < |wf.steps| && !Ready(wf, Known(wf, w, i), i)
    requires f.results.Keys == Known(wf, w, i) && f.submitted == SubmittedBefore(wf, w, i) && f.state == Seen(wf, w, i)
    ensures f.results.Keys == Known(wf, w, i + 1) && f.submitted == SubmittedBefore(wf, w, i + 1)
    ensures f.state == LeftBy(wf, w, i)
  {
    hide Tries, LastRequest;
    assert f.submitted + [] == f.submitted;
  }

  lemma {:induction false} EndsFrom(wf: Workflow, w: World, e: Exec, i: nat)
    requires Arrived(wf, w, e, i)
    ensures var r := RunFrom(wf, w, e, i);
            exists k: nat :: EndsAt(wf, w, k, r.state) && r.submitted == SubmittedBefore(wf, w, WorkedThrough(wf, w, k))
    decreases |wf.steps| - i
  {
    hide Tries, LastRequest, StepSucceeds, Executed, Known, SubmittedBefore;
    var f := e.Write(w.before(i));
    assert f.state == Seen(wf, w, i);
    if i == |wf.steps| || f.state != Running {
      assert EndsAt(wf, w, i, RunFrom(wf, w, e, i).state) && WorkedThrough(wf, w, i) == i;
    } else {
      assert DependenciesMet(wf, f, i) == Ready(wf, Known(wf, w, i), i);
      var g := if DependenciesMet(wf, f, i) then Executed(wf, w, f, i) else f;
      if DependenciesMet(wf, f, i) { WorkedOn(wf, w, f, i); } else { PassedOver(wf, w, f, i); }
      if Passes(wf, w, i) {
        assert Arrived(wf, w, g, i + 1);
        EndsFrom(wf, w, g, i + 1);
      } else {
        assert EndsAt(wf, w, i, RunFrom(wf, w, e, i).state);
      }
    }
  }

  lemma Starts(wf: Workflow, w: World)
    ensures Arrived(wf, w, STARTED, 0)
  {
  }

  /** Whatever other threads write and whenever, there is exactly one look and one state a run
      can end with, and it does. */
  lemma FinalStateExactly(wf: Workflow, w: World, s: ExecutionState)
    ensures RunFrom(wf, w, STARTED, 0).state == s <==> exists k: nat :: EndsAt(wf, w, k, s)
  {
    Starts(wf, w);
    hide EndsAt, RunFrom;
    EndsFrom(wf, w, STARTED, 0);
    var k: nat :| EndsAt(wf, w, k, RunFrom(wf, w, STARTED, 0).state);
    if exists l: nat :: EndsAt(wf, w, l, s) {
      var l: nat :| EndsAt(wf, w, l, s);
      OneEnd(wf, w, k, RunFrom(wf, w, STARTED, 0).state, l, s);
    }
  }

  /** So it is completed exactly when every look, also the last one behind the list, finds it
      running and no step ends it, or when another thread wrote just that. */
  lemma CompletedOnlyThen(wf: Workflow, w: World)
    ensures RunFrom(wf, w, STARTED, 0).state == Completed
       <==> || (Reaches(wf, w, |wf.steps|) && Seen(wf, w, |wf.steps|) == Running)
            || exists k: nat :: k <= |wf.steps| && Reaches(wf, w, k) && Seen(wf, w, k) == Completed
  {
    FinalStateExactly(wf, w, Completed);
    hide Seen, Passes, RunFrom, Reaches;
    if exists k: nat :: EndsAt(wf, w, k, Completed) {
      var k: nat :| EndsAt(wf, w, k, Completed);
    }
    if Reaches(wf, w, |wf.steps|) && Seen(wf, w, |wf.steps|) == Running {
      assert EndsAt(wf, w, |wf.steps|, Completed);
    } else if exists k: nat :: k <= |wf.steps| && Reaches(wf, w, k) && Seen(wf, w, k) == Completed {
      var k: nat :| k <= |wf.steps| && Reaches(wf, w, k) && Seen(wf, w, k) == Completed;
      assert EndsAt(wf, w, k, Completed);
    }
  }

  /** A step that fails while another thread cancels or pauses the execution leaves it failed:
      the engine writes over what was written. */
  lemma FailureOverwrites(wf: Workflow, w: World, k: nat)
    requires k < |wf.steps| && Reaches(wf, w, k) && Seen(wf, w, k) == Running && !Passes(wf, w, k)
    ensures RunFrom(wf, w, STARTED, 0).state == Failed
  {
    assert EndsAt(wf, w, k, Failed);
    FinalStateExactly(wf, w, Failed);
  }

  /** What was submitted: the steps the engine came to while the execution was running, whose
      dependencies had results, and for which a request could be submitted in some try. */
  lemma SubmittedExactly(wf: Workflow, w: World, k: nat, s: ExecutionState)
    requires EndsAt(wf, w, k, s)
    ensures RunFrom(wf, w, STARTED, 0).submitted == SubmittedBefore(wf, w, WorkedThrough(wf, w, k))
  {
    Starts(wf, w);
    hide Passes, Reaches, RunFrom, SubmittedBefore;
    EndsFrom(wf, w, STARTED, 0);
    var r := RunFrom(wf, w, STARTED, 0);
    var l: nat :| EndsAt(wf, w, l, r.state) && r.submitted == SubmittedBefore(wf, w, WorkedThrough(wf, w, l));
    OneEnd(wf, w, k, s, l, r.state);
  }

  // ---- what the tries of a step come to

  /** A step is tried up to its first success, and else once more than it has retries. */
  lemma {:induction false} TriesAre(wf: Workflow, w: World, i: nat, k: nat)
    requires i < |wf.steps| && k <= Policy(wf, i).maxRetries
    ensures var n := Tries(wf, w, i, k);
            && k < n <= Policy(wf, i).maxRetries + 1
            && (forall j | k <= j < n - 1 :: w.tries(i, j) == NotSubmitted || !w.tries(i, j).ok)
            && (n <= Policy(wf, i).maxRetries ==> w.tries(i, n - 1) != NotSubmitted && w.tries(i, n - 1).ok)
    decreases Policy(wf, i).maxRetries - k
  {
    if (w.tries(i, k) == NotSubmitted || !w.tries(i, k).ok) && k < Policy(wf, i).maxRetries {
      TriesAre(wf, w, i, k + 1);
    }
  }

  /** With no success a step is tried once more than the retries it asks for, or than those of
      the workflow when it asks for none. */
  lemma FailedTriesAre(wf: Workflow, w: World, i: nat)
    requires i < |wf.steps| && !StepSucceeds(wf, w, i)
    requires if wf.steps[i].retry.maxRetries == 0 then wf.defaultRetry.maxRetries >= 0
             else wf.steps[i].retry.maxRetries > 0
    ensures wf.steps[i].retry.maxRetries != 0 ==> Tries(wf, w, i, 0) == wf.steps[i].retry.maxRetries + 1
    ensures wf.steps[i].retry.maxRetries == 0 ==> Tries(wf, w, i, 0) == wf.defaultRetry.maxRetries + 1
  {
    TriesAre(wf, w, i, 0);
    hide Tries;
  }

  /** The result of a step is the last request submitted for it. */
  lemma {:induction false} LastRequestIs(w: World, i: nat, n: nat)
    ensures var last := LastRequest(w, i, n);
            if last.None? then forall k | 0 <= k < n :: w.tries(i, k) == NotSubmitted
            else exists k, ok :: 0 <= k < n && w.tries(i, k) == Submitted(last.value, ok)
                                 && forall j | k < j < n :: w.tries(i, j) == NotSubmitted
    decreases n
  {
    if n > 0 {
      match w.tries(i, n - 1)
      case Submitted(request, ok) => assert w.tries(i, n - 1) == Submitted(request, ok);
      case NotSubmitted => LastRequestIs(w, i, n - 1);
    }
  }

  lemma {:induction false} KnownAreEarlier(wf: Workflow, w: World, i: nat, d: string)
    requires i <= |wf.steps| && d in Known(wf, w, i)
    ensures exists j :: 0 <= j < i && wf.steps[j].id == d
    decreases i
  {
    if d in Known(wf, w, i - 1) {
      KnownAreEarlier(wf, w, i - 1, d);
      var j :| 0 <= j < i - 1 && wf.steps[j].id == d;
    } else {
      assert wf.steps[i - 1].id == d;
    }
  }

  predicate Precedes(wf: Workflow, d: string, i: nat)
    requires i <= |wf.steps|
  {
    exists j :: 0 <= j < i && wf.steps[j].id == d
  }

  /** Completed undisturbed means that the dependencies of every non-optional step precede it
      in the list; so a forward or cyclic dependency of such a step fails the run. */
  lemma ForwardDependencyFails(wf: Workflow, w: World, i: nat, d: string)
    requires Undisturbed(w, |wf.steps|)
    requires i < |wf.steps| && !wf.steps[i].optional && d in wf.steps[i].dependencies
    ensures RunFrom(wf, w, STARTED, 0).state == Completed ==> Precedes(wf, d, i)
    ensures !Precedes(wf, d, i) ==> RunFrom(wf, w, STARTED, 0).state == Failed
  {
    CompletedExactly(wf, w);
    if RunFrom(wf, w, STARTED, 0).state == Completed {
      assert Passes(wf, w, i);
      KnownAreEarlier(wf, w, i, d);
    }
  }

  // ---- pausing and cancelling

  predicate AllBelow(xs: seq<nat>, k: nat) { forall x | x in xs :: x < k }

  lemma ExecutedBelow(wf: Workflow, w: World, e: Exec, i: nat)
    requires i < |wf.steps| && AllBelow(e.submitted, i)
    ensures AllBelow(Executed(wf, w, e, i).submitted, i + 1)
  {
  }

  lemma {:induction false} PauseFrom(wf: Workflow, w: World, e: Exec, i: nat, k: nat)
    requires i <= k <= |wf.steps|
    requires w.before(k).Some? && w.before(k).value != Running
    requires AllBelow(e.submitted, i)
    ensures AllBelow(RunFrom(wf, w, e, i).submitted, k)
    decreases |wf.steps| - i
  {
    var f := e.Write(w.before(i));
    if i < k && f.state == Running {
      if !DependenciesMet(wf, f, i) {
        if wf.steps[i].optional {
          PauseFrom(wf, w, f, i + 1, k);
        }
      } else {
        ExecutedBelow(wf, w, f, i);
        PauseFrom(wf, w, Executed(wf, w, f, i), i + 1, k);
      }
    }
  }

  /** A pause or cancellation that is in place when the engine looks at step `k` keeps that
      step and all later ones from being submitted, whatever is written afterwards. */
  lemma PauseStopsSubmission(wf: Workflow, w: World, k: nat)
    requires k <= |wf.steps|
    requires w.before(k).Some? && w.before(k).value != Running
    ensures AllBelow(RunFrom(wf, w, STARTED, 0).submitted, k)
  {
    PauseFrom(wf, w, STARTED, 0, k);
  }

  // ---- the engine as it runs

  class WorkflowExecution {
    var state: ExecutionState
    var results: map<string, string>
    var submitted: seq<nat>

    constructor ()
      ensures Value() == STARTED
    {
      state, results, submitted := Running, map[], [];
    }

    function Value(): Exec
      reads this
    {
      Exec(state, results, submitted)
    }

    method Written(s: Option<ExecutionState>)
      modifies this`state
      ensures Value() == old(Value()).Write(s)
    {
      if s.Some? { state := s.value; }
    }

    /** The tries of one step with its policy. */
    method ExecuteStep(wf: Workflow, w: World, i: nat) returns (ok: bool)
      requires i < |wf.steps|
      modifies this
      ensures ok == StepSucceeds(wf, w, i)
      ensures Value() == old(Value()).(results := results, submitted := submitted)
      ensures var last := LastRequest(w, i, Tries(wf, w, i, 0));
              && results == (if last.None? then old(results) else old(results)[wf.steps[i].id := last.value])
              && submitted == (if last.None? then old(submitted) else old(submitted) + [i])
    {
      var policy := ChosenPolicy(wf.steps[i].retry, wf.defaultRetry);
      var attempt := 0;
      ok := false;
      while attempt <= policy.maxRetries && !ok
        invariant 0 <= attempt
        invariant !ok ==> Tries(wf, w, i, attempt) == Tries(wf, w, i, 0)
        invariant ok ==> attempt == Tries(wf, w, i, 0) && StepSucceeds(wf, w, i)
        invariant !ok ==> forall k: nat | k < attempt :: w.tries(i, k) == NotSubmitted || !w.tries(i, k).ok
        invariant state == old(state)
        invariant var last := LastRequest(w, i, attempt);
                  && results == (if last.None? then old(results) else old(results)[wf.steps[i].id := last.value])
                  && submitted == (if last.None? then old(submitted) else old(submitted) + [i])
        decreases policy.maxRetries - attempt, !ok
      {
        match w.tries(i, attempt) {
          case NotSubmitted =>
          case Submitted(request, good) =>
            if LastRequest(w, i, attempt).None? { submitted := submitted + [i]; }
            results := results[wf.steps[i].id := request];
            ok := good;
        }
        attempt := attempt + 1;
      }
    }

    method ExecuteSequential(wf: Workflow, w: World)
      modifies this
      ensures Value() == RunFrom(wf, w, old(Value()), 0)
    {
      var i := 0;
      Written(w.before(0));
      while i < |wf.steps| && state == Running
        invariant i <= |wf.steps|
        invariant Value() == Value().Write(w.before(i))
        invariant RunFrom(wf, w, Value(), i) == RunFrom(wf, w, old(Value()), 0)
        decreases |wf.steps| - i
      {
        var step := wf.steps[i];
        var met := DependenciesHere(step);
        if !met {
          if !step.optional {
            state := Failed;
            return;
          }
        } else {
          var ok := ExecuteStep(wf, w, i);
          Written(w.during(i));
          if !ok && !step.optional && !wf.allowPartialFailure {
            state := Failed;
            return;
          }
        }
        i := i + 1;
        Written(w.before(i));
      }
      if state == Running { state := Completed; }
    }

    method DependenciesHere(step: Step) returns (met: bool)
      ensures met == forall d | d in step.dependencies :: d in results
    {
      var k := 0;
      while k < |step.dependencies|
        invariant k <= |step.dependencies|
        invariant forall j | 0 <= j < k :: step.dependencies[j] in results
      {
        if step.dependencies[k] !in results { return false; }
        k := k + 1;
      }
      met := true;
    }
  }
}
