/** Executions of workflows from their issue to the completed map: orchestrator threads that
    pick and process them, clients that pause, resume and cancel, and waiting callers that
    time out. The engines and the waiting callers write states without the lock, so reading
    and writing are separate steps for them. */
module Executions {

  type Id = nat

  datatype State = Pending | Running | Paused | Completed | Failed | Cancelled | TimedOut

  /** Where an execution is: waiting for a thread, with one (which may have seen it running
      when it came to its end), or moved to the completed map. */
  datatype Place = Waiting | Picked(sawRunning: bool) | Moved

  datatype Execution = Execution(state: State, place: Place, callerSawRunning: bool)
  {
    /** An execution nobody has picked is pending or cancelled and was not seen running; one
        that was picked is not pending. */
    predicate Fits()
    {
      if place == Waiting then (state == Pending || state == Cancelled) && !callerSawRunning else state != Pending
    }
  }

  datatype Action =
    | Issue(id: Id)
    | Pick(id: Id)
    | SeeRunning(id: Id)     // the engine, at its end, finds the execution running
    | Complete(id: Id)       // and writes that it is completed
    | Fail(id: Id)           // the engine, or the handler around it, writes that it failed
    | Move(id: Id)
    | Pause(id: Id)
    | Resume(id: Id)
    | Cancel(id: Id)
    | CallerSees(id: Id)     // a waiting caller whose time is up finds it running
    | CallerTimesOut(id: Id) // and writes that it timed out

  /** `picked` lists the executions taken by orchestrator threads, in order. */
  datatype Sys = Sys(executions: map<Id, Execution>, active: set<Id>, completed: set<Id>, picked: seq<Id>)
  {
    predicate Is(id: Id, s: State) { id in executions && executions[id].state == s }

    predicate At(id: Id, p: Place) { id in executions && executions[id].place == p }

    predicate InHand(id: Id) { id in executions && executions[id].place.Picked? }

    /** Active, waiting to be picked, and the first such in the order of the map. */
    predicate Next(id: Id)
    {
      id in active && Is(id, Pending) && forall other | other in active && Is(other, Pending) :: id <= other
    }

    predicate Enabled(a: Action)
    {
      match a
      case Issue(id) => id !in executions
      case Pick(id) => Next(id)
      case SeeRunning(id) => InHand(id) && Is(id, Running)
      case Complete(id) => InHand(id) && executions[id].place.sawRunning
      case Fail(id) => InHand(id)
      case Move(id) => InHand(id)
      case Pause(id) => id in active && Is(id, Running)
      case Resume(id) => id in active && Is(id, Paused)
      case Cancel(id) => id in active && id in executions
      case CallerSees(id) => Is(id, Running)
      case CallerTimesOut(id) => id in executions && executions[id].callerSawRunning
    }

    function Put(id: Id, e: Execution): Sys { this.(executions := executions[id := e]) }

    function Step(a: Action): Sys
    {
      if !Enabled(a) then this
      else if a.Issue? then
        Put(a.id, Execution(Pending, Waiting, false)).(active := active + {a.id})
      else
        var e := executions[a.id];
        match a
        case Pick(id) => Put(id, e.(state := Running, place := Picked(false))).(picked := picked + [id])
        case SeeRunning(id) => Put(id, e.(place := Picked(true)))
        case Complete(id) => Put(id, e.(state := Completed, place := Picked(false)))
        case Fail(id) => Put(id, e.(state := Failed, place := Picked(false)))
        case Move(id) => Put(id, e.(place := Moved)).(active := active - {id}, completed := completed + {id})
        case Pause(id) => Put(id, e.(state := Paused))
        case Resume(id) => Put(id, e.(state := Running))
        case Cancel(id) => Put(id, e.(state := Cancelled))
        case CallerSees(id) => Put(id, e.(callerSawRunning := true))
        case CallerTimesOut(id) => Put(id, e.(state := TimedOut, callerSawRunning := false))
        case Issue(_) => this
    }

    function Run(actions: seq<Action>): Sys
      decreases |actions|
    {
      if actions == [] then this else Step(actions[0]).Run(actions[1..])
    }

    /** An execution is active or completed and never both; what was picked was picked once
        and is no longer pending. */
    ghost predicate Valid()
    {
      && active + completed == executions.Keys && active !! completed
      && (forall id | id in executions :: id in completed <==> executions[id].place == Moved)
      && (forall id | id in executions :: executions[id].place == Waiting <==> id !in picked)
      && (forall id | id in picked :: id in executions)
      && (forall id | id in executions :: executions[id].Fits())
      && (forall i, j | 0 <= i < j < |picked| :: picked[i] != picked[j])
    }
  }

  const INITIAL := Sys(map[], {}, {}, [])

  /** Rewriting an execution where it is. */
  lemma PutValid(s: Sys, id: Id, e: Execution)
    requires s.Valid() && id in s.executions && e.Fits()
    requires (e.place == Moved) == (s.executions[id].place == Moved)
    requires (e.place == Waiting) == (s.executions[id].place == Waiting)
    ensures s.Put(id, e).Valid()
  {
  }

  lemma IssueValid(s: Sys, id: Id)
    requires s.Valid() && id !in s.executions
    ensures s.Step(Issue(id)).Valid()
  {
  }

  lemma PickValid(s: Sys, id: Id)
    requires s.Valid() && s.Next(id)
    ensures s.Step(Pick(id)).Valid()
  {
    assert id !in s.picked;
  }

  lemma MoveValid(s: Sys, id: Id)
    requires s.Valid() && s.InHand(id)
    ensures s.Step(Move(id)).Valid()
  {
  }

  lemma StepValid(s: Sys, a: Action)
    requires s.Valid()
    ensures s.Step(a).Valid()
  {
    if s.Enabled(a) {
      match a
      case Issue(id) => IssueValid(s, id);
      case Pick(id) => PickValid(s, id);
      case Move(id) => MoveValid(s, id);
      case _ =>
        assert s.executions[a.id].Fits();
        hide Sys.Valid;
        PutValid(s, a.id, s.Step(a).executions[a.id]);
    }
  }

  lemma {:induction false} RunValid(s: Sys, actions: seq<Action>)
    requires s.Valid()
    ensures s.Run(actions).Valid()
    decreases |actions|
  {
    if actions != [] {
      StepValid(s, actions[0]);
      hide Sys.Valid, Sys.Step;
      RunValid(s.Step(actions[0]), actions[1..]);
    }
  }

  function Issued(actions: seq<Action>): set<Id> { set a | a in actions && a.Issue? :: a.id }

  lemma IssuedStep(s: Sys, a: Action)
    ensures s.Step(a).executions.Keys == s.executions.Keys + (if a.Issue? then {a.id} else {})
  {
  }

  lemma {:induction false} IssuedRun(s: Sys, actions: seq<Action>)
    ensures s.Run(actions).executions.Keys == s.executions.Keys + Issued(actions)
    decreases |actions|
  {
    if actions == [] {
      assert Issued(actions) == {};
    } else {
      IssuedStep(s, actions[0]);
      hide Sys.Step;
      IssuedRun(s.Step(actions[0]), actions[1..]);
      assert actions == [actions[0]] + actions[1..];
      assert Issued(actions) == Issued(actions[1..]) + (if actions[0].Issue? then {actions[0].id} else {});
    }
  }

  /** In every run: the active and the completed map are disjoint and together hold every id
      issued, and each execution is picked at most once. */
  lemma ExecutionsAreConserved(actions: seq<Action>)
    ensures var s := INITIAL.Run(actions);
            && s.active !! s.completed
            && s.active + s.completed == Issued(actions)
            && (forall i, j | 0 <= i < j < |s.picked| :: s.picked[i] != s.picked[j])
  {
    RunValid(INITIAL, actions);
    IssuedRun(INITIAL, actions);
  }

  /** No action brings an execution back to pending. */
  lemma NeverPendingAgain(s: Sys, a: Action, id: Id)
    requires id in s.executions && !s.Is(id, Pending)
    ensures id in s.Step(a).executions && !s.Step(a).Is(id, Pending)
  {
  }

  // ---- the completed map

  /** Pausing, resuming and cancelling never change an execution in the completed map. */
  lemma ClientsLeaveCompleted(s: Sys, a: Action, id: Id)
    requires s.Valid() && id in s.completed
    requires a.Pause? || a.Resume? || a.Cancel?
    ensures id in s.Step(a).completed && s.Step(a).executions[id] == s.executions[id]
  {
  }

  /** What is in the completed map stays there, and keeps its state unless a waiting caller
      that has seen it running writes that it timed out. */
  lemma CompletedStays(s: Sys, a: Action, id: Id)
    requires s.Valid() && id in s.completed
    ensures id in s.Step(a).completed && id in s.Step(a).executions
    ensures s.Step(a).executions[id].state ==
            if a == CallerTimesOut(id) && s.executions[id].callerSawRunning then TimedOut
            else s.executions[id].state
  {
  }

  /** Moved, not running and not seen running by a caller whose time is up. */
  predicate Final(s: Sys, id: Id, state: State)
  {
    id in s.executions && id in s.completed && s.executions[id] == Execution(state, Moved, false) && state != Running
  }

  lemma FinalStays(s: Sys, a: Action, id: Id, state: State)
    requires Final(s, id, state) && id !in s.active
    ensures Final(s.Step(a), id, state)
  {
    assert !s.InHand(id);
  }

  /** Once no caller has seen it running and it is not running any more, an execution in the
      completed map keeps its state in every run. */
  lemma {:induction false} SettledForEver(s: Sys, actions: seq<Action>, id: Id, state: State)
    requires s.Valid() && Final(s, id, state)
    ensures Final(s.Run(actions), id, state)
    decreases |actions|
  {
    if actions != [] {
      StepValid(s, actions[0]);
      FinalStays(s, actions[0], id, state);
      hide Sys.Valid, Sys.Step, Final;
      SettledForEver(s.Step(actions[0]), actions[1..], id, state);
    }
  }

  /** From any running execution a caller can time it out after it has completed and moved:
      the caller reads the state, the engine completes and moves the execution, and then the
      caller writes. */
  lemma LateTimeout(s: Sys, id: Id)
    requires s.InHand(id) && s.Is(id, Running)
    ensures var t := s.Step(SeeRunning(id)).Step(CallerSees(id)).Step(Complete(id)).Step(Move(id));
            t.Is(id, Completed) && id in t.completed && t.Step(CallerTimesOut(id)).Is(id, TimedOut)
  {
    var e := s.executions[id];
    var s1 := s.Step(SeeRunning(id));
    assert s1 == s.Put(id, e.(place := Picked(true)));
    var s2 := s1.Step(CallerSees(id));
    assert s2 == s1.Put(id, e.(place := Picked(true), callerSawRunning := true));
    var s3 := s2.Step(Complete(id));
    assert s3 == s2.Put(id, Execution(Completed, Picked(false), true));
    var s4 := s3.Step(Move(id));
    assert s4.executions[id] == Execution(Completed, Moved, true);
  }

  // ---- executions that wait for ever

  /** Nobody will pick it: it waits in the active map and is not pending any more. */
  predicate Abandoned(s: Sys, id: Id) { id in s.active && s.At(id, Waiting) && !s.Is(id, Pending) }

  lemma AbandonedStays(s: Sys, a: Action, id: Id)
    requires Abandoned(s, id) && s.executions[id].Fits()
    ensures Abandoned(s.Step(a), id)
  {
  }

  lemma {:induction false} AbandonedForEver(s: Sys, actions: seq<Action>, id: Id)
    requires s.Valid() && Abandoned(s, id)
    ensures Abandoned(s.Run(actions), id)
    decreases |actions|
  {
    if actions != [] {
      AbandonedStays(s, actions[0], id);
      StepValid(s, actions[0]);
      hide Sys.Valid, Sys.Step, Abandoned;
      AbandonedForEver(s.Step(actions[0]), actions[1..], id);
    }
  }

  /** A waiting execution can still leave the active map exactly when it is pending, that is
      when it has not been cancelled: then picking and moving it is possible, and otherwise
      it stays in the active map in every run. */
  lemma WaitingLeavesExactly(s: Sys, id: Id)
    requires s.Valid() && s.At(id, Waiting)
    ensures s.Is(id, Pending) <==> exists actions :: id !in s.Run(actions).active
  {
    assert id in s.active;
    if s.Is(id, Pending) {
      var actions := PickDown(s, id);
      assert id !in s.Run(actions).active;
    } else {
      forall actions: seq<Action> ensures id in s.Run(actions).active {
        AbandonedForEver(s, actions, id);
      }
    }
  }

  /** Two calls are enough for an execution that nobody will ever process. */
  lemma AbandonedIsReached(id: Id)
    ensures Abandoned(INITIAL.Run([Issue(id), Cancel(id)]), id)
    ensures forall actions :: id in INITIAL.Run([Issue(id), Cancel(id)]).Run(actions).active
  {
    assert [Issue(id), Cancel(id)] == [Issue(id)] + ([Cancel(id)] + []);
    var s := INITIAL.Step(Issue(id));
    var t := s.Step(Cancel(id));
    assert s.executions == map[id := Execution(Pending, Waiting, false)] && s.active == {id};
    assert t.executions == map[id := Execution(Cancelled, Waiting, false)] && t.active == {id};
    RunFirst(INITIAL, Issue(id), [Cancel(id)] + []);
    RunFirst(s, Cancel(id), []);
    assert t.Valid();
    forall actions: seq<Action> ensures id in t.Run(actions).active {
      AbandonedForEver(t, actions, id);
    }
  }

  lemma RunFirst(s: Sys, a: Action, rest: seq<Action>)
    ensures s.Run([a] + rest) == s.Step(a).Run(rest)
  {
    assert ([a] + rest)[1..] == rest;
  }

  /** Threads that pick everything in front of an execution, and then it, and move it. */
  lemma {:induction false} PickDown(s: Sys, id: Id) returns (actions: seq<Action>)
    requires s.Valid() && s.Is(id, Pending) && id in s.active
    ensures id !in s.Run(actions).active
    decreases |PendingBelow(s, id)|
  {
    if PendingBelow(s, id) == {} {
      forall other | other in s.active && s.Is(other, Pending) ensures id <= other {
        assert other !in PendingBelow(s, id);
      }
      var t := s.Step(Pick(id));
      actions := [Pick(id), Move(id)];
      RunFirst(s, Pick(id), [Move(id)]);
      RunFirst(t, Move(id), []);
      assert actions == [Pick(id)] + [Move(id)] && [Move(id)] == [Move(id)] + [];
    } else {
      var first := Least(PendingBelow(s, id));
      forall other | other in s.active && s.Is(other, Pending) ensures first <= other {
        if other < id { assert other in PendingBelow(s, id); }
      }
      StepValid(s, Pick(first));
      var t := s.Step(Pick(first));
      assert PendingBelow(t, id) == PendingBelow(s, id) - {first};
      var rest := PickDown(t, id);
      actions := [Pick(first)] + rest;
      RunFirst(s, Pick(first), rest);
    }
  }

  function PendingBelow(s: Sys, id: Id): set<Id> { set x | x in s.active && s.Is(x, Pending) && x < id }

  lemma {:induction false} Least(ids: set<Id>) returns (x: Id)
    requires ids != {}
    ensures x in ids && forall y | y in ids :: x <= y
    decreases |ids|
  {
    x :| x in ids;
    if ids - {x} != {} {
      var y := Least(ids - {x});
      assert forall z | z in ids :: z == x || z in ids - {x};
      if y < x { x := y; }
    }
  }

  /** A paused execution that its thread has moved can never be resumed. */
  lemma PausedIsNotResumed(s: Sys, actions: seq<Action>, id: Id)
    requires s.Valid() && s.InHand(id) && s.Is(id, Paused) && !s.executions[id].callerSawRunning
    ensures s.Step(Move(id)).Run(actions).Is(id, Paused)
  {
    StepValid(s, Move(id));
    SettledForEver(s.Step(Move(id)), actions, id, Paused);
  }

  // ---- the orchestrator as an object

  class WorkflowOrchestrator {
    var executions: map<Id, Execution>
    var active: set<Id>
    var completed: set<Id>
    ghost var picked: seq<Id>

    ghost function S(): Sys
      reads this
    {
      Sys(executions, active, completed, picked)
    }

    constructor ()
      ensures S() == INITIAL
    {
      executions, active, completed, picked := map[], {}, {}, [];
    }

    method ExecuteWorkflowAsync(id: Id)
      requires id !in executions
      modifies this
      ensures S() == old(S()).Step(Issue(id))
    {
      executions := executions[id := Execution(Pending, Waiting, false)];
      active := active + {id};
    }

    method PauseExecution(id: Id) returns (ok: bool)
      requires active <= executions.Keys
      modifies this`executions
      ensures ok == old(S()).Enabled(Pause(id)) && S() == old(S()).Step(Pause(id))
    {
      ok := id in active && executions[id].state == Running;
      if ok { executions := executions[id := executions[id].(state := Paused)]; }
    }

    method ResumeExecution(id: Id) returns (ok: bool)
      requires active <= executions.Keys
      modifies this`executions
      ensures ok == old(S()).Enabled(Resume(id)) && S() == old(S()).Step(Resume(id))
    {
      ok := id in active && executions[id].state == Paused;
      if ok { executions := executions[id := executions[id].(state := Running)]; }
    }

    method CancelExecution(id: Id) returns (ok: bool)
      requires active <= executions.Keys
      modifies this`executions
      ensures ok == old(S()).Enabled(Cancel(id)) && S() == old(S()).Step(Cancel(id))
    {
      ok := id in active;
      if ok { executions := executions[id := executions[id].(state := Cancelled)]; }
    }

    /** The search of an orchestrator thread for the first pending execution. `limit` is
        above all ids. */
    method PickExecution(limit: nat) returns (found: bool, id: Id)
      requires S().Valid() && forall x | x in active :: x < limit
      modifies this
      ensures found == exists x :: x in old(active) && old(S()).Is(x, Pending)
      ensures found ==> old(S()).Next(id) && S() == old(S()).Step(Pick(id))
      ensures !found ==> S() == old(S())
    {
      id := 0;
      while id < limit
        invariant id <= limit
        invariant forall x | x in active && S().Is(x, Pending) :: id <= x
        invariant S() == old(S())
      {
        if id in active && executions[id].state == Pending {
          executions := executions[id := executions[id].(state := Running, place := Picked(false))];
          picked := picked + [id];
          return true, id;
        }
        id := id + 1;
      }
      found := false;
    }

    method MoveToCompleted(id: Id)
      requires S().InHand(id)
      modifies this
      ensures S() == old(S()).Step(Move(id))
    {
      active := active - {id};
      completed := completed + {id};
      executions := executions[id := executions[id].(place := Moved)];
    }
  }
}
