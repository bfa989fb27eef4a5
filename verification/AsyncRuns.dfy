/** Runs of the async service read off their actions: who is popped first, and the status, the
    promise and the place in the queue of every task. */
module AsyncRuns {
  import opened AsyncService
  import opened Wrappers

  /** The state after a run from the start. */
  function After(maxQueue: nat, actions: seq<Action>): Sys { INITIAL.Run(maxQueue, actions) }

  /** Action number `i` takes effect. */
  predicate Takes(maxQueue: nat, actions: seq<Action>, i: nat)
  {
    i < |actions| && After(maxQueue, actions[..i]).Enabled(actions[i])
  }

  lemma AfterLast(maxQueue: nat, actions: seq<Action>, a: Action)
    ensures After(maxQueue, actions + [a]) == After(maxQueue, actions).Step(maxQueue, a)
    ensures Takes(maxQueue, actions + [a], |actions|) <==> After(maxQueue, actions).Enabled(a)
  {
    hide Sys.Step, Sys.Run, Sys.Enabled;
    RunConcat(INITIAL, maxQueue, actions, [a]);
    RunOne(INITIAL.Run(maxQueue, actions), maxQueue, a);
    assert (actions + [a])[..|actions|] == actions;
  }

  lemma AfterNone(maxQueue: nat)
    ensures After(maxQueue, []) == INITIAL
  {
  }

  lemma AfterValid(maxQueue: nat, actions: seq<Action>)
    ensures After(maxQueue, actions).Valid(maxQueue)
  {
    InitiallyValid(maxQueue);
    RunValid(INITIAL, maxQueue, actions);
  }

  /** The action that a list ends with is on this task, and takes effect. */
  predicate LastOn(maxQueue: nat, actions: seq<Action>, id: Id)
  {
    actions != [] &&
    var a := actions[|actions| - 1];
    !a.Cleanup? && a.id == id && Takes(maxQueue, actions, |actions| - 1)
  }

  // ---- what the actions say about a task

  /** The priority it was submitted with. */
  function Submitted(maxQueue: nat, actions: seq<Action>, id: Id): Option<int>
    decreases |actions|
  {
    if actions == [] then None
    else
      var n := |actions| - 1;
      if LastOn(maxQueue, actions, id) && actions[n].Register? then Some(actions[n].priority)
      else Submitted(maxQueue, actions[..n], id)
  }

  /** The tasks that were pushed when there was room, and not popped since. */
  function Waiting(maxQueue: nat, actions: seq<Action>): set<Id>
    decreases |actions|
  {
    if actions == [] then {}
    else
      var n, a := |actions| - 1, actions[|actions| - 1];
      var before := Waiting(maxQueue, actions[..n]);
      if !Takes(maxQueue, actions, n) then before
      else if a.Enqueue? && |before| < maxQueue then before + {a.id}
      else if a.Pop? then before - {a.id}
      else before
  }

  /** The status that an action writes, if it writes one. */
  function Writes(a: Action, full: bool): Option<Status>
  {
    match a
    case Register(_, _) => Some(Pending)
    case Enqueue(_) => if full then Some(Failed) else None
    case Begin(_) => Some(Running)
    case Settle(_, ok) => Some(if ok then Completed else Failed)
    case CancelWrite(_) => Some(Cancelled)
    case _ => None
  }

  /** The status written last. */
  function Written(maxQueue: nat, actions: seq<Action>, id: Id): Option<Status>
    decreases |actions|
  {
    if actions == [] then None
    else
      var n := |actions| - 1;
      var s := Writes(actions[n], |Waiting(maxQueue, actions[..n])| >= maxQueue);
      if LastOn(maxQueue, actions, id) && s.Some? then s else Written(maxQueue, actions[..n], id)
  }

  /** How often its promise was set: when it was turned away, and when it had been run. */
  function Promised(maxQueue: nat, actions: seq<Action>, id: Id): nat
    decreases |actions|
  {
    if actions == [] then 0
    else
      var n := |actions| - 1;
      var a := actions[n];
      Promised(maxQueue, actions[..n], id) +
      (if LastOn(maxQueue, actions, id)
          && (a.Settle? || (a.Enqueue? && |Waiting(maxQueue, actions[..n])| >= maxQueue)) then 1 else 0)
  }

  lemma FrontIs(actions: seq<Action>, a: Action)
    ensures (actions + [a])[..|actions|] == actions && (actions + [a])[|actions|] == a
  {
  }

  lemma LastOnLast(maxQueue: nat, actions: seq<Action>, a: Action, id: Id)
    ensures LastOn(maxQueue, actions + [a], id) <==> !a.Cleanup? && a.id == id && After(maxQueue, actions).Enabled(a)
  {
    hide After, Takes, Sys.Enabled;
    FrontIs(actions, a);
    AfterLast(maxQueue, actions, a);
  }

  // ---- the state agrees

  ghost predicate Agrees(s: Sys, maxQueue: nat, actions: seq<Action>, id: Id)
  {
    && (id in s.tasks <==> Submitted(maxQueue, actions, id).Some?)
    && (id in s.tasks <==> Written(maxQueue, actions, id).Some?)
    && (id in s.tasks ==>
          && s.tasks[id].priority == Submitted(maxQueue, actions, id).value
          && s.tasks[id].status == Written(maxQueue, actions, id).value
          && s.tasks[id].promisesSet == Promised(maxQueue, actions, id))
    && (id !in s.tasks ==> Promised(maxQueue, actions, id) == 0)
  }

  lemma {:induction false} QueueIsWaiting(maxQueue: nat, actions: seq<Action>)
    ensures After(maxQueue, actions).queue == Waiting(maxQueue, actions)
    decreases |actions|
  {
    hide *;
    if actions == [] {
      AfterNone(maxQueue);
      NothingWaits(maxQueue);
    } else {
      var front, a := actions[..|actions| - 1], actions[|actions| - 1];
      assert actions == front + [a];
      QueueIsWaiting(maxQueue, front);
      AfterLast(maxQueue, front, a);
      QueueStep(After(maxQueue, front), maxQueue, a);
      WaitingLast(maxQueue, front, a);
    }
  }

  lemma NothingWaits(maxQueue: nat)
    ensures Waiting(maxQueue, []) == {} && INITIAL.queue == {}
  {
  }

  lemma QueueStep(s: Sys, maxQueue: nat, a: Action)
    ensures s.Step(maxQueue, a).queue ==
            if !s.Enabled(a) then s.queue
            else if a.Enqueue? && |s.queue| < maxQueue then s.queue + {a.id}
            else if a.Pop? then s.queue - {a.id}
            else s.queue
  {
  }

  lemma WaitingLast(maxQueue: nat, actions: seq<Action>, a: Action)
    ensures var before := Waiting(maxQueue, actions);
            Waiting(maxQueue, actions + [a]) ==
            if !After(maxQueue, actions).Enabled(a) then before
            else if a.Enqueue? && |before| < maxQueue then before + {a.id}
            else if a.Pop? then before - {a.id}
            else before
  {
    hide After, Takes, Sys.Enabled;
    FrontIs(actions, a);
    AfterLast(maxQueue, actions, a);
  }

  /** What a step does to the task it is on. */
  lemma TaskStep(s: Sys, maxQueue: nat, a: Action, id: Id)
    requires !a.Cleanup? && a.id == id && s.Enabled(a)
    ensures var t := s.Step(maxQueue, a); var full := |s.queue| >= maxQueue; var w := Writes(a, full);
            && id in t.tasks && (id in s.tasks <==> !a.Register?)
            && t.tasks[id].priority == (if a.Register? then a.priority else s.tasks[id].priority)
            && t.tasks[id].status == (if w.Some? then w.value else s.tasks[id].status)
            && t.tasks[id].promisesSet == (if a.Register? then 0 else s.tasks[id].promisesSet) +
                                          (if a.Settle? || (a.Enqueue? && full) then 1 else 0)
            && (a.Register? ==> w.Some?)
  {
  }

  lemma OtherTask(s: Sys, maxQueue: nat, a: Action, id: Id)
    requires a.Cleanup? || a.id != id || !s.Enabled(a)
    ensures var t := s.Step(maxQueue, a);
            (id in t.tasks <==> id in s.tasks) && (id in s.tasks ==> t.tasks[id] == s.tasks[id])
  {
  }

  lemma FunctionsLast(maxQueue: nat, actions: seq<Action>, a: Action, id: Id)
    ensures var on := !a.Cleanup? && a.id == id && After(maxQueue, actions).Enabled(a);
            var full := |Waiting(maxQueue, actions)| >= maxQueue; var w := Writes(a, full);
            && Submitted(maxQueue, actions + [a], id) ==
                 (if on && a.Register? then Some(a.priority) else Submitted(maxQueue, actions, id))
            && Written(maxQueue, actions + [a], id) == (if on && w.Some? then w else Written(maxQueue, actions, id))
            && Promised(maxQueue, actions + [a], id) == Promised(maxQueue, actions, id) +
                 (if on && (a.Settle? || (a.Enqueue? && full)) then 1 else 0)
  {
    hide After, Sys.Enabled, LastOn, Writes, Waiting;
    FrontIs(actions, a);
    LastOnLast(maxQueue, actions, a, id);
  }

  lemma NothingSaid(maxQueue: nat, id: Id)
    ensures Agrees(INITIAL, maxQueue, [], id)
  {
  }

  lemma AgreesStep(s: Sys, maxQueue: nat, actions: seq<Action>, a: Action, id: Id)
    requires s == After(maxQueue, actions) && s.queue == Waiting(maxQueue, actions) && Agrees(s, maxQueue, actions, id)
    ensures Agrees(s.Step(maxQueue, a), maxQueue, actions + [a], id)
  {
    hide After, Sys.Enabled, Sys.Step, Submitted, Written, Promised, Writes, Waiting;
    FunctionsLast(maxQueue, actions, a, id);
    if !a.Cleanup? && a.id == id && s.Enabled(a) {
      TaskStep(s, maxQueue, a, id);
    } else {
      OtherTask(s, maxQueue, a, id);
    }
  }

  /** In every run each task has the priority it was submitted with, the status written last,
      and its promise set as often as it was turned away or had been run. */
  lemma {:induction false} TasksAgree(maxQueue: nat, actions: seq<Action>, id: Id)
    ensures Agrees(After(maxQueue, actions), maxQueue, actions, id)
    decreases |actions|
  {
    hide *;
    if actions == [] {
      AfterNone(maxQueue);
      NothingSaid(maxQueue, id);
    } else {
      var front, a := actions[..|actions| - 1], actions[|actions| - 1];
      assert actions == front + [a];
      TasksAgree(maxQueue, front, id);
      QueueIsWaiting(maxQueue, front);
      AfterLast(maxQueue, front, a);
      AgreesStep(After(maxQueue, front), maxQueue, front, a, id);
    }
  }

  // ---- priorities

  lemma PopIsTop(s: Sys, id: Id, other: Id)
    requires s.Enabled(Pop(id)) && other in s.queue && other in s.tasks
    ensures id in s.tasks && s.tasks[other].priority <= s.tasks[id].priority
  {
  }

  /** Whenever a worker pops a task, it was submitted with a priority at least as high as that
      of every other task that waits: pushed while there was room, and not popped yet. */
  lemma PopsByPriority(maxQueue: nat, actions: seq<Action>, k: nat, other: Id)
    requires Takes(maxQueue, actions, k) && actions[k].Pop? && other in Waiting(maxQueue, actions[..k])
    ensures var before := actions[..k];
            && actions[k].id in Waiting(maxQueue, before)
            && Submitted(maxQueue, before, actions[k].id).Some? && Submitted(maxQueue, before, other).Some?
            && Submitted(maxQueue, before, actions[k].id).value >= Submitted(maxQueue, before, other).value
  {
    var before, id := actions[..k], actions[k].id;
    var s := After(maxQueue, before);
    assert s.Enabled(Pop(id));
    QueueIsWaiting(maxQueue, before);
    AfterValid(maxQueue, before);
    QueuedTasks(s, maxQueue, other);
    TasksAgree(maxQueue, before, id);
    TasksAgree(maxQueue, before, other);
    assert id in s.queue;
    hide After, Sys.Valid, Waiting, Submitted, Written, Promised, Sys.Enabled;
    PopIsTop(s, id, other);
  }

  // ---- results and counters

  /** How the run of a task ended. */
  function Ended(maxQueue: nat, actions: seq<Action>, id: Id): Option<bool>
    decreases |actions|
  {
    if actions == [] then None
    else
      var n := |actions| - 1;
      if LastOn(maxQueue, actions, id) && actions[n].Settle? then Some(actions[n].ok)
      else Ended(maxQueue, actions[..n], id)
  }

  /** The tasks that workers have counted. */
  function CountedIds(maxQueue: nat, actions: seq<Action>): set<Id>
    decreases |actions|
  {
    if actions == [] then {}
    else
      var n := |actions| - 1;
      CountedIds(maxQueue, actions[..n]) +
      (if actions[n].Count? && Takes(maxQueue, actions, n) then {actions[n].id} else {})
  }

  /** The number of cancellations that were written. */
  function Cancellations(maxQueue: nat, actions: seq<Action>): nat
    decreases |actions|
  {
    if actions == [] then 0
    else
      var n := |actions| - 1;
      Cancellations(maxQueue, actions[..n]) + (if actions[n].CancelWrite? && Takes(maxQueue, actions, n) then 1 else 0)
  }

  lemma ResultsLast(maxQueue: nat, actions: seq<Action>, a: Action, id: Id)
    ensures var took := After(maxQueue, actions).Enabled(a);
            && Ended(maxQueue, actions + [a], id) ==
                 (if took && a.Settle? && a.id == id then Some(a.ok) else Ended(maxQueue, actions, id))
            && CountedIds(maxQueue, actions + [a]) ==
                 CountedIds(maxQueue, actions) + (if took && a.Count? then {a.id} else {})
            && Cancellations(maxQueue, actions + [a]) ==
                 Cancellations(maxQueue, actions) + (if took && a.CancelWrite? then 1 else 0)
  {
    hide After, Takes, Sys.Enabled, LastOn;
    FrontIs(actions, a);
    LastOnLast(maxQueue, actions, a, id);
    AfterLast(maxQueue, actions, a);
  }

  /** Where the task is, by how it ended and whether it was counted. */
  predicate PlaceAgrees(s: Sys, id: Id, ended: Option<bool>, counted: bool)
  {
    if counted then ended.Some? && s.At(id, Finished(ended.value))
    else if ended.Some? then s.At(id, Settled(ended.value))
    else id in s.tasks ==> !s.tasks[id].place.Settled? && !s.tasks[id].place.Finished?
  }

  lemma PlaceStep(s: Sys, maxQueue: nat, a: Action, id: Id, ended: Option<bool>, counted: bool)
    requires PlaceAgrees(s, id, ended, counted) && (id in s.tasks && id in s.queue ==> s.At(id, Queued))
    ensures var took := s.Enabled(a);
            PlaceAgrees(s.Step(maxQueue, a), id, if took && a.Settle? && a.id == id then Some(a.ok) else ended,
                        counted || (took && a.Count? && a.id == id))
    ensures s.Step(maxQueue, a).cancelled == s.cancelled + (if s.Enabled(a) && a.CancelWrite? then 1 else 0)
  {
    if a.Cleanup? || a.id != id || !s.Enabled(a) {
      OtherTask(s, maxQueue, a, id);
    }
  }

  lemma NoResults(maxQueue: nat, id: Id)
    ensures PlaceAgrees(INITIAL, id, Ended(maxQueue, [], id), id in CountedIds(maxQueue, []))
    ensures INITIAL.cancelled == Cancellations(maxQueue, [])
  {
  }

  lemma {:induction false} ResultsAgree(maxQueue: nat, actions: seq<Action>, id: Id)
    ensures var s := After(maxQueue, actions);
            && PlaceAgrees(s, id, Ended(maxQueue, actions, id), id in CountedIds(maxQueue, actions))
            && s.cancelled == Cancellations(maxQueue, actions)
    decreases |actions|
  {
    hide *;
    if actions == [] {
      AfterNone(maxQueue);
      NoResults(maxQueue, id);
    } else {
      var front, a := actions[..|actions| - 1], actions[|actions| - 1];
      assert actions == front + [a];
      var s := After(maxQueue, front);
      ResultsAgree(maxQueue, front, id);
      AfterValid(maxQueue, front);
      if id in s.tasks && id in s.queue { QueuedTasks(s, maxQueue, id); }
      AfterLast(maxQueue, front, a);
      ResultsLast(maxQueue, front, a, id);
      PlaceStep(s, maxQueue, a, id, Ended(maxQueue, front, id), id in CountedIds(maxQueue, front));
    }
  }

  /** The counted tasks that ended well, or did not. */
  function CountedAs(maxQueue: nat, actions: seq<Action>, ok: bool): set<Id>
  {
    set id | id in CountedIds(maxQueue, actions) && Ended(maxQueue, actions, id) == Some(ok)
  }

  lemma TallyIs(s: Sys, maxQueue: nat)
    requires s.Valid(maxQueue)
    ensures s.completed == |s.Here(Finished(true))| && s.failed == |s.Here(Finished(false))|
  {
  }

  lemma HereIs(s: Sys, id: Id, p: Place)
    ensures id in s.Here(p) <==> s.At(id, p)
  {
  }

  lemma PlaceSays(s: Sys, id: Id, ended: Option<bool>, counted: bool, ok: bool)
    requires PlaceAgrees(s, id, ended, counted)
    ensures s.At(id, Finished(ok)) <==> counted && ended == Some(ok)
  {
  }

  /** In every run the three counters are the numbers of tasks counted after a good end, of
      those counted after a bad one, and of cancellations answered with success. */
  lemma CountersAgree(maxQueue: nat, actions: seq<Action>)
    ensures var s := After(maxQueue, actions);
            && s.completed == |CountedAs(maxQueue, actions, true)|
            && s.failed == |CountedAs(maxQueue, actions, false)|
            && s.cancelled == Cancellations(maxQueue, actions)
  {
    hide After, Sys.Here, CountedIds, Ended, Sys.Valid, Sys.At, PlaceAgrees, Cancellations;
    var s := After(maxQueue, actions);
    AfterValid(maxQueue, actions);
    TallyIs(s, maxQueue);
    forall id, ok ensures id in s.Here(Finished(ok)) <==> id in CountedAs(maxQueue, actions, ok) {
      ResultsAgree(maxQueue, actions, id);
      HereIs(s, id, Finished(ok));
      PlaceSays(s, id, Ended(maxQueue, actions, id), id in CountedIds(maxQueue, actions), ok);
    }
    assert s.Here(Finished(true)) == CountedAs(maxQueue, actions, true);
    assert s.Here(Finished(false)) == CountedAs(maxQueue, actions, false);
    ResultsAgree(maxQueue, actions, 0);
  }

  /** A cleanup forgets exactly the operations that are old and whose status was last written
      as completed, failed or cancelled. */
  lemma CleanupForgetsExactly(maxQueue: nat, actions: seq<Action>, aged: set<Id>, id: Id)
    requires After(maxQueue, actions).Enabled(Cleanup(aged)) && id in After(maxQueue, actions).operations
    ensures id !in After(maxQueue, actions + [Cleanup(aged)]).operations
       <==> id in aged && Written(maxQueue, actions, id) in {Some(Completed), Some(Failed), Some(Cancelled)}
  {
    hide Sys.Valid, Written, Submitted, Promised, After;
    AfterLast(maxQueue, actions, Cleanup(aged));
    TasksAgree(maxQueue, actions, id);
    AfterValid(maxQueue, actions);
    OperationsAreTasks(After(maxQueue, actions), maxQueue);
  }

  lemma OperationsAreTasks(s: Sys, maxQueue: nat)
    requires s.Valid(maxQueue)
    ensures s.operations <= s.tasks.Keys
  {
  }
}
