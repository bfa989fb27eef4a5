/** Runs of the orchestrator read off their actions: the state of every execution, where it is,
    when a client's call takes effect, and in what order executions are picked. */
module ExecutionRuns {
  import opened Executions
  import opened Wrappers

  /** The state after a run from the start. */
  function After(actions: seq<Action>): Sys { INITIAL.Run(actions) }

  /** Action number `i` takes effect. */
  predicate Takes(actions: seq<Action>, i: nat) { i < |actions| && After(actions[..i]).Enabled(actions[i]) }

  lemma {:induction false} RunConcat(s: Sys, a: seq<Action>, b: seq<Action>)
    ensures s.Run(a + b) == s.Run(a).Run(b)
    decreases |a|
  {
    hide Sys.Step;
    if a == [] {
      assert a + b == b;
    } else {
      assert (a + b)[1..] == a[1..] + b;
      RunConcat(s.Step(a[0]), a[1..], b);
    }
  }

  lemma AfterLast(actions: seq<Action>, a: Action)
    ensures After(actions + [a]) == After(actions).Step(a)
    ensures Takes(actions + [a], |actions|) <==> After(actions).Enabled(a)
  {
    RunConcat(INITIAL, actions, [a]);
    assert [a] + [] == [a];
    RunFirst(INITIAL.Run(actions), a, []);
    assert (actions + [a])[..|actions|] == actions;
    hide Sys.Step, Sys.Enabled;
  }

  lemma AfterNone()
    ensures After([]) == INITIAL
  {
  }

  lemma AfterValid(actions: seq<Action>)
    ensures After(actions).Valid()
  {
    RunValid(INITIAL, actions);
  }

  // ---- what the actions say

  /** The state that an action writes, if it writes one. */
  function Writes(a: Action): Option<State>
  {
    match a
    case Issue(_) => Some(Pending)
    case Pick(_) => Some(Running)
    case Complete(_) => Some(Completed)
    case Fail(_) => Some(Failed)
    case Pause(_) => Some(Paused)
    case Resume(_) => Some(Running)
    case Cancel(_) => Some(Cancelled)
    case CallerTimesOut(_) => Some(TimedOut)
    case _ => None
  }

  /** The state written last. */
  function Written(actions: seq<Action>, id: Id): Option<State>
    decreases |actions|
  {
    if actions == [] then None
    else
      var n := |actions| - 1;
      if actions[n].id == id && Writes(actions[n]).Some? && Takes(actions, n) then Writes(actions[n])
      else Written(actions[..n], id)
  }

  /** The executions that were picked, in order. */
  function PickedIds(actions: seq<Action>): seq<Id>
    decreases |actions|
  {
    if actions == [] then []
    else
      var n := |actions| - 1;
      PickedIds(actions[..n]) + (if actions[n].Pick? && Takes(actions, n) then [actions[n].id] else [])
  }

  /** The executions that were moved. */
  function MovedIds(actions: seq<Action>): set<Id>
    decreases |actions|
  {
    if actions == [] then {}
    else
      var n := |actions| - 1;
      MovedIds(actions[..n]) + (if actions[n].Move? && Takes(actions, n) then {actions[n].id} else {})
  }

  lemma SayLast(actions: seq<Action>, a: Action, id: Id)
    ensures var took := After(actions).Enabled(a);
            && Written(actions + [a], id) ==
                 (if took && a.id == id && Writes(a).Some? then Writes(a) else Written(actions, id))
            && PickedIds(actions + [a]) == PickedIds(actions) + (if took && a.Pick? then [a.id] else [])
            && MovedIds(actions + [a]) == MovedIds(actions) + (if took && a.Move? then {a.id} else {})
  {
    hide After, Takes, Sys.Enabled, Writes;
    assert (actions + [a])[..|actions|] == actions;
    AfterLast(actions, a);
  }

  // ---- the state agrees

  ghost predicate Agrees(s: Sys, actions: seq<Action>, id: Id)
  {
    && (id in s.executions <==> Written(actions, id).Some?)
    && (id in s.executions ==> s.executions[id].state == Written(actions, id).value)
    && (id in s.completed <==> id in MovedIds(actions))
    && s.picked == PickedIds(actions)
  }

  /** What a step does to one execution. */
  lemma ExecutionStep(s: Sys, a: Action, id: Id)
    ensures var t := s.Step(a); var on := s.Enabled(a) && a.id == id;
            && (id in t.executions <==> id in s.executions || (on && a.Issue?))
            && (id in t.executions ==>
                  t.executions[id].state == (if on && Writes(a).Some? then Writes(a).value
                                             else if id in s.executions then s.executions[id].state else Pending))
            && (id in t.completed <==> id in s.completed || (on && a.Move?))
            && t.picked == s.picked + (if s.Enabled(a) && a.Pick? then [a.id] else [])
            && (on ==> a.Issue? || id in s.executions)
  {
  }

  lemma NothingSaid(id: Id)
    ensures Agrees(INITIAL, [], id)
  {
  }

  lemma AgreesStep(s: Sys, actions: seq<Action>, a: Action, id: Id)
    requires s == After(actions) && Agrees(s, actions, id)
    ensures Agrees(s.Step(a), actions + [a], id)
  {
    ExecutionStep(s, a, id);
    SayLast(actions, a, id);
    assert a.Issue? ==> Writes(a).Some?;
    hide After, Sys.Step, Sys.Enabled, Written, PickedIds, MovedIds;
  }

  /** In every run the state of each execution is the one written last by an action that took
      effect on it, it is in the completed map exactly when it was moved, and the executions
      were picked in the order of the picks. */
  lemma {:induction false} ExecutionsAgree(actions: seq<Action>, id: Id)
    ensures Agrees(After(actions), actions, id)
    decreases |actions|
  {
    hide *;
    if actions == [] {
      AfterNone();
      NothingSaid(id);
    } else {
      var front, a := actions[..|actions| - 1], actions[|actions| - 1];
      assert actions == front + [a];
      ExecutionsAgree(front, id);
      AfterLast(front, a);
      AgreesStep(After(front), front, a, id);
    }
  }

  /** In the active map: issued and not moved. */
  predicate Active(actions: seq<Action>, id: Id) { Written(actions, id).Some? && id !in MovedIds(actions) }

  lemma ActiveIs(actions: seq<Action>, id: Id)
    ensures id in After(actions).active <==> Active(actions, id)
  {
    ExecutionsAgree(actions, id);
    AfterValid(actions);
    hide After, Written, MovedIds, PickedIds;
  }

  /** A client's call takes effect on active executions only: a pause exactly on running ones,
      a resumption exactly on paused ones, a cancellation on all. */
  lemma ClientsTakeExactly(actions: seq<Action>, id: Id)
    ensures var s := After(actions);
            && (s.Enabled(Pause(id)) <==> Active(actions, id) && Written(actions, id) == Some(Running))
            && (s.Enabled(Resume(id)) <==> Active(actions, id) && Written(actions, id) == Some(Paused))
            && (s.Enabled(Cancel(id)) <==> Active(actions, id))
  {
    ActiveIs(actions, id);
    ExecutionsAgree(actions, id);
    hide After, Written, MovedIds, PickedIds;
  }

  /** Then the execution is paused, runs again, or is cancelled. */
  lemma ClientsWrite(actions: seq<Action>, a: Action, id: Id)
    requires a in {Pause(id), Resume(id), Cancel(id)} && After(actions).Enabled(a)
    ensures id in After(actions + [a]).executions
    ensures After(actions + [a]).executions[id].state ==
            if a == Pause(id) then Paused else if a == Resume(id) then Running else Cancelled
  {
    ExecutionsAgree(actions + [a], id);
    SayLast(actions, a, id);
    hide After, Sys.Enabled, Written, MovedIds, PickedIds;
  }

  /** Whenever an execution is picked it is active and pending, and has the least id of all
      that are. */
  lemma PicksTheFirst(actions: seq<Action>, k: nat, other: Id)
    requires Takes(actions, k) && actions[k].Pick?
    ensures var before := actions[..k];
            && Active(before, actions[k].id) && Written(before, actions[k].id) == Some(Pending)
            && (Active(before, other) && Written(before, other) == Some(Pending) ==> actions[k].id <= other)
  {
    var before, id := actions[..k], actions[k].id;
    assert After(before).Enabled(Pick(id));
    ActiveIs(before, id);
    ActiveIs(before, other);
    ExecutionsAgree(before, id);
    ExecutionsAgree(before, other);
    hide After, Written, MovedIds, PickedIds;
  }

  // ---- looks and what follows them

  /** The engine has found the execution running since it was picked, and not written yet. */
  predicate EngineSaw(actions: seq<Action>, id: Id)
    decreases |actions|
  {
    actions != [] &&
    var n, a := |actions| - 1, actions[|actions| - 1];
    if a.id == id && Takes(actions, n) && (a.Pick? || a.SeeRunning? || a.Complete? || a.Fail? || a.Move?)
    then a.SeeRunning? else EngineSaw(actions[..n], id)
  }

  /** A waiting caller whose time is up has found it running, and not written yet. */
  predicate CallerSaw(actions: seq<Action>, id: Id)
    decreases |actions|
  {
    actions != [] &&
    var n, a := |actions| - 1, actions[|actions| - 1];
    if a.id == id && Takes(actions, n) && (a.CallerSees? || a.CallerTimesOut?) then a.CallerSees?
    else CallerSaw(actions[..n], id)
  }

  lemma SawLast(actions: seq<Action>, a: Action, id: Id)
    ensures var on := After(actions).Enabled(a) && a.id == id;
            && EngineSaw(actions + [a], id) ==
                 (if on && (a.Pick? || a.SeeRunning? || a.Complete? || a.Fail? || a.Move?) then a.SeeRunning?
                  else EngineSaw(actions, id))
            && CallerSaw(actions + [a], id) ==
                 (if on && (a.CallerSees? || a.CallerTimesOut?) then a.CallerSees? else CallerSaw(actions, id))
  {
    hide After, Takes, Sys.Enabled;
    assert (actions + [a])[..|actions|] == actions;
    AfterLast(actions, a);
  }

  predicate SawAgrees(s: Sys, id: Id, engine: bool, caller: bool)
  {
    && (engine <==> s.At(id, Picked(true)))
    && (caller <==> id in s.executions && s.executions[id].callerSawRunning)
  }

  lemma SawStep(s: Sys, a: Action, id: Id, engine: bool, caller: bool)
    requires SawAgrees(s, id, engine, caller) && (id in s.executions ==> s.executions[id].Fits())
    ensures var on := s.Enabled(a) && a.id == id;
            SawAgrees(s.Step(a), id,
                      if on && (a.Pick? || a.SeeRunning? || a.Complete? || a.Fail? || a.Move?) then a.SeeRunning?
                      else engine,
                      if on && (a.CallerSees? || a.CallerTimesOut?) then a.CallerSees? else caller)
  {
  }

  lemma NothingSeen(id: Id)
    ensures SawAgrees(INITIAL, id, EngineSaw([], id), CallerSaw([], id))
  {
  }

  lemma FitsNow(s: Sys, id: Id)
    requires s.Valid() && id in s.executions
    ensures s.executions[id].Fits() && (s.At(id, Moved) <==> id in s.completed)
    ensures s.At(id, Waiting) <==> id !in s.picked
  {
  }

  lemma {:induction false} LooksAgree(actions: seq<Action>, id: Id)
    ensures SawAgrees(After(actions), id, EngineSaw(actions, id), CallerSaw(actions, id))
    decreases |actions|
  {
    hide *;
    if actions == [] {
      AfterNone();
      NothingSeen(id);
    } else {
      var front, a := actions[..|actions| - 1], actions[|actions| - 1];
      assert actions == front + [a];
      LooksAgree(front, id);
      AfterValid(front);
      if id in After(front).executions { FitsNow(After(front), id); }
      AfterLast(front, a);
      SawLast(front, a, id);
      SawStep(After(front), a, id, EngineSaw(front, id), CallerSaw(front, id));
    }
  }

  /** The engine writes that an execution completed exactly when it looked before and found it
      running; and a waiting caller that it timed out likewise. Both looks find it exactly when
      that is the state written last; the engine's also needs it picked and not moved. */
  lemma WritesFollowLooks(actions: seq<Action>, id: Id)
    ensures var s := After(actions);
            && (s.Enabled(Complete(id)) <==> EngineSaw(actions, id))
            && (s.Enabled(CallerTimesOut(id)) <==> CallerSaw(actions, id))
            && (s.Enabled(CallerSees(id)) <==> Written(actions, id) == Some(Running))
            && (s.Enabled(SeeRunning(id)) <==>
                  Written(actions, id) == Some(Running) && id in PickedIds(actions) && id !in MovedIds(actions))
  {
    hide *;
    LooksAgree(actions, id);
    ExecutionsAgree(actions, id);
    AfterValid(actions);
    LooksEnabled(After(actions), actions, id);
  }

  lemma LooksEnabled(s: Sys, actions: seq<Action>, id: Id)
    requires s.Valid() && Agrees(s, actions, id) && SawAgrees(s, id, EngineSaw(actions, id), CallerSaw(actions, id))
    ensures s.Enabled(Complete(id)) <==> EngineSaw(actions, id)
    ensures s.Enabled(CallerTimesOut(id)) <==> CallerSaw(actions, id)
    ensures s.Enabled(CallerSees(id)) <==> Written(actions, id) == Some(Running)
    ensures s.Enabled(SeeRunning(id)) <==>
              Written(actions, id) == Some(Running) && id in PickedIds(actions) && id !in MovedIds(actions)
  {
    hide Sys.Valid, Written, PickedIds, MovedIds, EngineSaw, CallerSaw;
    if id in s.executions { FitsNow(s, id); } else { PickedAreKnown(s, id); }
  }

  lemma PickedAreKnown(s: Sys, id: Id)
    requires s.Valid()
    ensures id in s.picked ==> id in s.executions
  {
  }
}
