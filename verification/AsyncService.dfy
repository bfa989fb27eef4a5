/** The async service: a bounded priority queue of tasks, workers that run them, clients that
    cancel them, and a cleaner. Workers and submitters read and write the status of a task
    without the lock that cancellation holds, so each of those accesses is a step of its own,
    and so are the look and the write of a cancellation. */
module AsyncService {
  import opened Wrappers

  type Id = nat

  datatype Status = Pending | Running | Completed | Failed | Cancelled

  /** Where a task is: registered by its submitter, turned away, queued, in a worker's hand
      (just popped, found not cancelled, executing, with its promise set), counted as
      finished, or dropped as cancelled. */
  datatype Place = Registered | Rejected | Queued | Popped | Passed | Executing | Settled(ok: bool) | Finished(ok: bool)
                 | Dropped

  datatype Task = Task(priority: int, status: Status, place: Place, promisesSet: nat)
  {
    /** The status that belongs to a place. A cancellation may write over it at any time. */
    function Expected(): Status
    {
      match place
      case Rejected => Failed
      case Executing => Running
      case Settled(ok) => if ok then Completed else Failed
      case Finished(ok) => if ok then Completed else Failed
      case Dropped => Cancelled
      case _ => Pending
    }

    /** The promise is set exactly when its operation was turned away or has settled. */
    predicate Fits()
    {
      && promisesSet == (if place.Rejected? || place.Settled? || place.Finished? then 1 else 0)
      && (status == Expected() || status == Cancelled)
    }
  }

  datatype Action =
    | Register(id: Id, priority: int)
    | Enqueue(id: Id)
    | Pop(id: Id)
    | CheckCancelled(id: Id)
    | Begin(id: Id)
    | Settle(id: Id, ok: bool)
    | Count(id: Id)
    | CancelLook(id: Id)  // a client finds the operation pending, and holds the lock of the operations
    | CancelWrite(id: Id) // and writes that it is cancelled, and gives the lock back
    | Cleanup(aged: set<Id>)

  /** `operations` are those a client can look up, the counters those of the service, and
      `cancelling` is the operation that a client holding the lock has found pending. */
  datatype Sys = Sys(tasks: map<Id, Task>, operations: set<Id>, queue: set<Id>, completed: nat, failed: nat,
                     cancelled: nat, cancelling: Option<Id>)
  {
    predicate At(id: Id, p: Place) { id in tasks && tasks[id].place == p }

    /** Of highest priority among the queued tasks; which of several such is first is open. */
    predicate Top(id: Id)
    {
      id in queue && id in tasks && forall other | other in queue && other in tasks ::
        tasks[other].priority <= tasks[id].priority
    }

    predicate Enabled(a: Action)
    {
      match a
      case Register(id, _) => id !in tasks && cancelling == None
      case Enqueue(id) => At(id, Registered)
      case Pop(id) => Top(id)
      case CheckCancelled(id) => At(id, Popped)
      case Begin(id) => At(id, Passed)
      case Settle(id, _) => At(id, Executing)
      case Count(id) => id in tasks && tasks[id].place.Settled?
      case CancelLook(id) =>
        cancelling == None && id in operations && id in tasks && tasks[id].status == Pending
      case CancelWrite(id) => cancelling == Some(id) && id in tasks
      case Cleanup(_) => cancelling == None
    }

    function Put(id: Id, t: Task): Sys { this.(tasks := tasks[id := t]) }

    /** Finished or cancelled, as the cleaner sees it. */
    predicate Over(id: Id) { id in tasks && tasks[id].status != Pending && tasks[id].status != Running }

    function Step(maxQueue: nat, a: Action): Sys
    {
      if !Enabled(a) then this
      else
        match a
        case Register(id, priority) =>
          Put(id, Task(priority, Pending, Registered, 0)).(operations := operations + {id})
        case Enqueue(id) =>
          if |queue| >= maxQueue then
            Put(id, tasks[id].(status := Failed, place := Rejected, promisesSet := tasks[id].promisesSet + 1))
          else Put(id, tasks[id].(place := Queued)).(queue := queue + {id})
        case Pop(id) => Put(id, tasks[id].(place := Popped)).(queue := queue - {id})
        case CheckCancelled(id) =>
          Put(id, tasks[id].(place := if tasks[id].status == Cancelled then Dropped else Passed))
        case Begin(id) => Put(id, tasks[id].(status := Running, place := Executing))
        case Settle(id, ok) =>
          Put(id, tasks[id].(status := if ok then Completed else Failed, place := Settled(ok),
                             promisesSet := tasks[id].promisesSet + 1))
        case Count(id) =>
          var ok := tasks[id].place.ok;
          Put(id, tasks[id].(place := Finished(ok)))
          .(completed := if ok then completed + 1 else completed, failed := if ok then failed else failed + 1)
        case CancelLook(id) => this.(cancelling := Some(id))
        case CancelWrite(id) =>
          Put(id, tasks[id].(status := Cancelled)).(cancelled := cancelled + 1, cancelling := None)
        case Cleanup(aged) => this.(operations := set id | id in operations && !(id in aged && Over(id)))
    }

    function Run(maxQueue: nat, actions: seq<Action>): Sys
      decreases |actions|
    {
      if actions == [] then this else Step(maxQueue, actions[0]).Run(maxQueue, actions[1..])
    }

    function Here(p: Place): set<Id> { set id | id in tasks && tasks[id].place == p }

    ghost predicate AllFit() { forall id | id in tasks :: tasks[id].Fits() }

    ghost predicate Tallied() { completed == |Here(Finished(true))| && failed == |Here(Finished(false))| }

    /** What a client is about to cancel has not been cancelled before. */
    predicate NotYet() { cancelling.Some? ==> cancelling.value in tasks && tasks[cancelling.value].status != Cancelled }

    ghost predicate Valid(maxQueue: nat)
    {
      && queue == Here(Queued) && |queue| <= maxQueue && operations <= tasks.Keys
      && AllFit() && Tallied() && NotYet()
    }
  }

  const INITIAL := Sys(map[], {}, {}, 0, 0, 0, None)

  // ---- invariants

  lemma CountWith(ids: set<Id>, id: Id)
    ensures |ids| == |ids - {id}| + (if id in ids then 1 else 0)
  {
    if id in ids {
      assert ids == (ids - {id}) + {id};
    } else {
      assert ids == ids - {id};
    }
  }

  lemma HerePut(s: Sys, id: Id, t: Task, p: Place)
    ensures s.Put(id, t).Here(p) == if t.place == p then s.Here(p) + {id} else s.Here(p) - {id}
    ensures id in s.Here(p) <==> id in s.tasks && s.tasks[id].place == p
  {
  }

  /** Rewriting a task changes who is where by that task. */
  lemma HereChange(s: Sys, id: Id, t: Task, p: Place)
    ensures s.Put(id, t).Here(p) == if t.place == p then s.Here(p) + {id} else s.Here(p) - {id}
    ensures |s.Put(id, t).Here(p)| ==
            |s.Here(p)| - (if id in s.tasks && s.tasks[id].place == p then 1 else 0) + (if t.place == p then 1 else 0)
  {
    HerePut(s, id, t, p);
    hide Sys.Here, Sys.Put;
    CountWith(s.Here(p), id);
  }

  predicate SameCounters(s: Sys, t: Sys) { t.completed == s.completed && t.failed == s.failed }

  lemma SameHere(s: Sys, t: Sys)
    requires s.tasks == t.tasks
    ensures forall p :: t.Here(p) == s.Here(p)
  {
  }

  lemma PutFits(s: Sys, id: Id, t: Task)
    requires s.AllFit() && t.Fits()
    ensures s.Put(id, t).AllFit()
  {
  }

  /** A task stays where it is when one of the two places is counted. */
  predicate SameCount(s: Sys, id: Id, t: Task)
  {
    t.place.Finished? || (id in s.tasks && s.tasks[id].place.Finished?) ==> s.At(id, t.place)
  }

  /** Rewriting a task where it is, or at places that do not count. */
  lemma PutValid(s: Sys, maxQueue: nat, id: Id, t: Task, u: Sys)
    requires s.Valid(maxQueue) && t.Fits() && SameCount(s, id, t)
    requires u.tasks == s.tasks[id := t] && SameCounters(s, u) && u.operations <= s.operations + {id}
    requires u.queue == if t.place == Queued then s.queue + {id} else s.queue - {id}
    requires |u.queue| <= maxQueue && u.NotYet()
    ensures u.Valid(maxQueue)
  {
    PutFits(s, id, t);
    hide Task.Fits, Sys.Here, Sys.AllFit;
    HereChange(s, id, t, Queued);
    HereChange(s, id, t, Finished(true));
    HereChange(s, id, t, Finished(false));
    SameHere(s.Put(id, t), u);
    SameFit(s.Put(id, t), u);
  }

  /** A look changes nothing but who holds the lock. */
  lemma LookValid(s: Sys, maxQueue: nat, id: Id)
    requires s.Valid(maxQueue)
    ensures s.Step(maxQueue, CancelLook(id)).Valid(maxQueue)
  {
    SameHere(s, s.Step(maxQueue, CancelLook(id)));
    SameFit(s, s.Step(maxQueue, CancelLook(id)));
    hide Sys.Here, Sys.AllFit;
  }

  lemma SameFit(s: Sys, t: Sys)
    requires s.tasks == t.tasks
    ensures t.AllFit() == s.AllFit()
  {
  }

  lemma CountValid(s: Sys, maxQueue: nat, id: Id)
    requires s.Valid(maxQueue) && s.Enabled(Count(id))
    ensures s.Step(maxQueue, Count(id)).Valid(maxQueue)
  {
    var ok := s.tasks[id].place.ok;
    var t := s.tasks[id].(place := Finished(ok));
    var u := s.Step(maxQueue, Count(id));
    assert t.Fits() by { assert s.tasks[id].Fits(); }
    FinishedOne(s, maxQueue, id, t, u);
  }

  lemma FinishedTally(s: Sys, id: Id, t: Task)
    requires s.Tallied() && id in s.tasks && s.tasks[id].place.Settled?
    requires t.place == Finished(s.tasks[id].place.ok)
    ensures var ok := s.tasks[id].place.ok;
            && s.completed + (if ok then 1 else 0) == |s.Put(id, t).Here(Finished(true))|
            && s.failed + (if ok then 0 else 1) == |s.Put(id, t).Here(Finished(false))|
  {
    HereChange(s, id, t, Finished(true));
    HereChange(s, id, t, Finished(false));
    hide Sys.Here, Sys.Put;
  }

  lemma FinishedOne(s: Sys, maxQueue: nat, id: Id, t: Task, u: Sys)
    requires s.Valid(maxQueue) && id in s.tasks && s.tasks[id].place.Settled?
    requires t.Fits() && t.place == Finished(s.tasks[id].place.ok)
    requires u.tasks == s.tasks[id := t] && u.queue == s.queue && u.operations == s.operations
    requires u.completed == s.completed + (if s.tasks[id].place.ok then 1 else 0)
    requires u.failed == s.failed + (if s.tasks[id].place.ok then 0 else 1)
    requires u.NotYet()
    ensures u.Valid(maxQueue)
  {
    PutFits(s, id, t);
    SameFit(s.Put(id, t), u);
    FinishedTally(s, id, t);
    HerePut(s, id, t, Queued);
    SameHere(s.Put(id, t), u);
    hide Task.Fits, Sys.Here, Sys.AllFit;
    assert s.Here(Queued) - {id} == s.Here(Queued);
  }

  lemma CleanupValid(s: Sys, maxQueue: nat, aged: set<Id>)
    requires s.Valid(maxQueue)
    ensures s.Step(maxQueue, Cleanup(aged)).Valid(maxQueue)
  {
    SameHere(s, s.Step(maxQueue, Cleanup(aged)));
    SameFit(s, s.Step(maxQueue, Cleanup(aged)));
    hide Sys.Here, Sys.AllFit;
  }

  lemma EnqueueValid(s: Sys, maxQueue: nat, id: Id)
    requires s.Valid(maxQueue) && s.At(id, Registered)
    ensures s.Step(maxQueue, Enqueue(id)).Valid(maxQueue)
  {
    assert s.tasks[id].Fits();
    QueueFits(s, maxQueue);
    hide Sys.Valid, Task.Fits;
    EnqueueIs(s, maxQueue, id);
    hide Sys.Step, SameCount, SameCounters;
    var u := s.Step(maxQueue, Enqueue(id));
    PutValid(s, maxQueue, id, u.tasks[id], u);
  }

  lemma EnqueueIs(s: Sys, maxQueue: nat, id: Id)
    requires s.At(id, Registered) && s.tasks[id].Fits() && id !in s.queue && |s.queue| <= maxQueue && s.NotYet()
    ensures var u := s.Step(maxQueue, Enqueue(id)); var t := u.tasks[id];
            && u.tasks == s.tasks[id := t] && t.Fits() && SameCount(s, id, t) && SameCounters(s, u)
            && u.operations <= s.operations + {id} && |u.queue| <= maxQueue && u.NotYet()
            && u.queue == if t.place == Queued then s.queue + {id} else s.queue - {id}
  {
    assert s.queue - {id} == s.queue;
  }

  lemma QueueFits(s: Sys, maxQueue: nat)
    requires s.Valid(maxQueue)
    ensures |s.queue| <= maxQueue && s.operations <= s.tasks.Keys && s.NotYet()
    ensures forall id | id in s.tasks && id in s.queue :: s.tasks[id].place == Queued
    ensures forall id | id in s.tasks && id !in s.queue :: s.tasks[id].place != Queued
  {
  }

  lemma PopValid(s: Sys, maxQueue: nat, id: Id)
    requires s.Valid(maxQueue) && s.Top(id)
    ensures s.Step(maxQueue, Pop(id)).Valid(maxQueue)
  {
    QueueFits(s, maxQueue);
    assert s.tasks[id].Fits();
    var u := s.Step(maxQueue, Pop(id));
    CountWith(s.queue, id);
    PutValid(s, maxQueue, id, u.tasks[id], u);
  }

  lemma RegisterValid(s: Sys, maxQueue: nat, id: Id, priority: int)
    requires s.Valid(maxQueue) && s.Enabled(Register(id, priority))
    ensures s.Step(maxQueue, Register(id, priority)).Valid(maxQueue)
  {
    QueueFits(s, maxQueue);
    var u := s.Step(maxQueue, Register(id, priority));
    assert id !in s.queue by { HerePut(s, id, u.tasks[id], Queued); }
    assert s.queue - {id} == s.queue;
    hide Sys.Valid;
    PutValid(s, maxQueue, id, u.tasks[id], u);
  }

  lemma OtherFits(s: Sys, maxQueue: nat, a: Action)
    requires s.Enabled(a) && (a.CheckCancelled? || a.Begin? || a.Settle? || a.CancelWrite?)
    requires s.tasks[a.id].Fits()
    ensures var t := s.Step(maxQueue, a).tasks[a.id];
            && t.Fits() && SameCount(s, a.id, t) && (t.place == Queued <==> s.tasks[a.id].place == Queued)
  {
  }

  lemma OtherRest(s: Sys, maxQueue: nat, a: Action)
    requires s.Enabled(a) && (a.CheckCancelled? || a.Begin? || a.Settle? || a.CancelWrite?)
    ensures var u := s.Step(maxQueue, a);
            && u.queue == s.queue && SameCounters(s, u) && u.operations == s.operations
            && u.tasks == s.tasks[a.id := u.tasks[a.id]]
            && (s.NotYet() ==> u.NotYet())
  {
  }

  /** A step that rewrites a task where it is, or moves it on outside the queue. */
  lemma OtherValid(s: Sys, maxQueue: nat, a: Action)
    requires s.Valid(maxQueue) && s.Enabled(a)
    requires a.CheckCancelled? || a.Begin? || a.Settle? || a.CancelWrite?
    ensures s.Step(maxQueue, a).Valid(maxQueue)
  {
    QueueFits(s, maxQueue);
    assert s.tasks[a.id].Fits();
    OtherFits(s, maxQueue, a);
    OtherRest(s, maxQueue, a);
    hide Sys.Valid, Task.Fits, Sys.Step;
    var u := s.Step(maxQueue, a);
    assert u.queue == if u.tasks[a.id].place == Queued then s.queue + {a.id} else s.queue - {a.id};
    PutValid(s, maxQueue, a.id, u.tasks[a.id], u);
  }

  lemma StepValid(s: Sys, maxQueue: nat, a: Action)
    requires s.Valid(maxQueue)
    ensures s.Step(maxQueue, a).Valid(maxQueue)
  {
    hide Sys.Valid;
    if s.Enabled(a) {
      match a
      case Enqueue(id) => EnqueueValid(s, maxQueue, id);
      case Pop(id) => PopValid(s, maxQueue, id);
      case Count(id) => CountValid(s, maxQueue, id);
      case Cleanup(aged) => CleanupValid(s, maxQueue, aged);
      case Register(id, priority) => RegisterValid(s, maxQueue, id, priority);
      case CancelLook(id) => LookValid(s, maxQueue, id);
      case _ => OtherValid(s, maxQueue, a);
    }
  }

  lemma {:induction false} RunValid(s: Sys, maxQueue: nat, actions: seq<Action>)
    requires s.Valid(maxQueue)
    ensures s.Run(maxQueue, actions).Valid(maxQueue)
    decreases |actions|
  {
    if actions != [] {
      StepValid(s, maxQueue, actions[0]);
      hide Sys.Valid, Sys.Step;
      RunValid(s.Step(maxQueue, actions[0]), maxQueue, actions[1..]);
    }
  }

  // ---- conservation

  /** What is in a worker's hand. */
  function InHand(s: Sys): set<Id>
  {
    set id | id in s.tasks && (s.tasks[id].place.Popped? || s.tasks[id].place.Passed? ||
                               s.tasks[id].place.Executing? || s.tasks[id].place.Settled?)
  }

  /** In every run: the queue is within its limit, every promise is set at most once, and
      what was submitted is being registered, turned away, queued, in a worker's hand,
      finished (as many as the two counters say) or dropped as cancelled. */
  lemma TasksAreConserved(maxQueue: nat, actions: seq<Action>)
    ensures var s := INITIAL.Run(maxQueue, actions);
            && |s.queue| <= maxQueue
            && (forall id | id in s.tasks :: s.tasks[id].promisesSet <= 1)
            && (forall id | id in s.tasks && s.tasks[id].place == Rejected :: s.tasks[id].promisesSet == 1)
            && |s.tasks.Keys| == |s.Here(Registered)| + |s.Here(Rejected)| + |s.queue| + |InHand(s)| +
                                 (s.completed + s.failed) + |s.Here(Dropped)|
  {
    InitiallyValid(maxQueue);
    RunValid(INITIAL, maxQueue, actions);
    var s := INITIAL.Run(maxQueue, actions);
    assert forall id | id in s.tasks :: s.tasks[id].Fits();
    Partition(s);
  }

  lemma InitiallyValid(maxQueue: nat)
    ensures INITIAL.Valid(maxQueue)
  {
  }

  /** Every task is in one of these places and in one only. */
  function PlaceClass(p: Place): nat
  {
    match p
    case Registered => 0
    case Rejected => 1
    case Queued => 2
    case Finished(ok) => if ok then 4 else 5
    case Dropped => 6
    case _ => 3
  }

  function InClass(s: Sys, c: nat): set<Id> { set id | id in s.tasks && PlaceClass(s.tasks[id].place) == c }

  function UpToClass(s: Sys, c: nat): set<Id> { set id | id in s.tasks && PlaceClass(s.tasks[id].place) < c }

  lemma OneMoreClass(s: Sys, c: nat)
    ensures |UpToClass(s, c + 1)| == |UpToClass(s, c)| + |InClass(s, c)|
  {
    assert UpToClass(s, c + 1) == UpToClass(s, c) + InClass(s, c);
  }

  lemma ClassesAre(s: Sys)
    ensures InClass(s, 0) == s.Here(Registered) && InClass(s, 1) == s.Here(Rejected)
    ensures InClass(s, 2) == s.Here(Queued) && InClass(s, 3) == InHand(s)
    ensures InClass(s, 4) == s.Here(Finished(true)) && InClass(s, 5) == s.Here(Finished(false))
    ensures InClass(s, 6) == s.Here(Dropped)
    ensures UpToClass(s, 0) == {} && UpToClass(s, 7) == s.tasks.Keys
  {
  }

  lemma Partition(s: Sys)
    ensures |s.tasks.Keys| == |s.Here(Registered)| + |s.Here(Rejected)| + |s.Here(Queued)| + |InHand(s)| +
                              (|s.Here(Finished(true))| + |s.Here(Finished(false))|) + |s.Here(Dropped)|
  {
    ClassesAre(s);
    hide InClass, UpToClass, Sys.Here, InHand;
    OneMoreClass(s, 0);
    OneMoreClass(s, 1);
    OneMoreClass(s, 2);
    OneMoreClass(s, 3);
    OneMoreClass(s, 4);
    OneMoreClass(s, 5);
    OneMoreClass(s, 6);
  }

  // ---- cancellation

  /** Cancelled before its worker looked: it stays cancelled and is dropped, never run. */
  predicate CancelledInTime(s: Sys, id: Id)
  {
    id in s.tasks && s.tasks[id].status == Cancelled &&
    (s.tasks[id].place == Queued || s.tasks[id].place == Popped || s.tasks[id].place == Dropped)
  }

  /** Cancelled when everything was over: it stays cancelled, and is where it was. */
  predicate CancelledLate(s: Sys, id: Id)
  {
    id in s.tasks && s.tasks[id].status == Cancelled && (Executed(s, id) || s.tasks[id].place == Rejected)
  }

  /** The function of the task has returned or thrown. */
  predicate Executed(s: Sys, id: Id) { id in s.tasks && (s.tasks[id].place.Settled? || s.tasks[id].place.Finished?) }

  /** Past the worker's look: whatever is written now, it will be run and not dropped. */
  predicate PastTheLook(s: Sys, id: Id)
  {
    Executed(s, id) || s.At(id, Passed) || s.At(id, Executing)
  }

  /** What an action is about. */
  function About(a: Action): set<Id> { if a.Cleanup? then {} else {a.id} }

  lemma OthersStay(s: Sys, maxQueue: nat, a: Action, id: Id)
    requires id in s.tasks && id !in About(a)
    ensures id in s.Step(maxQueue, a).tasks && s.Step(maxQueue, a).tasks[id] == s.tasks[id]
  {
  }

  lemma CancelledStep(s: Sys, maxQueue: nat, a: Action, id: Id)
    requires About(a) == {id}
    ensures CancelledInTime(s, id) ==> CancelledInTime(s.Step(maxQueue, a), id)
  {
  }

  lemma LateStep(s: Sys, maxQueue: nat, a: Action, id: Id)
    requires About(a) == {id} && id !in s.queue
    ensures CancelledLate(s, id) ==> CancelledLate(s.Step(maxQueue, a), id)
    ensures CancelledLate(s, id) && Executed(s, id) ==> Executed(s.Step(maxQueue, a), id)
  {
  }

  lemma PastStep(s: Sys, maxQueue: nat, a: Action, id: Id)
    requires PastTheLook(s, id) && About(a) == {id} && id !in s.queue
    ensures PastTheLook(s.Step(maxQueue, a), id)
  {
  }

  lemma {:induction false} CancelledRun(s: Sys, maxQueue: nat, actions: seq<Action>, id: Id)
    requires s.Valid(maxQueue)
    ensures CancelledInTime(s, id) ==> CancelledInTime(s.Run(maxQueue, actions), id)
    ensures CancelledLate(s, id) ==> CancelledLate(s.Run(maxQueue, actions), id)
    ensures PastTheLook(s, id) ==> PastTheLook(s.Run(maxQueue, actions), id)
    decreases |actions|
  {
    if actions != [] && (CancelledInTime(s, id) || CancelledLate(s, id) || PastTheLook(s, id)) {
      QueueFits(s, maxQueue);
      StepValid(s, maxQueue, actions[0]);
      hide Sys.Valid, Sys.Step;
      var a := actions[0];
      if id !in About(a) {
        OthersStay(s, maxQueue, a, id);
      } else {
        CancelledStep(s, maxQueue, a, id);
        if CancelledLate(s, id) { LateStep(s, maxQueue, a, id); }
        if PastTheLook(s, id) { PastStep(s, maxQueue, a, id); }
      }
      CancelledRun(s.Step(maxQueue, a), maxQueue, actions[1..], id);
    }
  }

  lemma RunStaysValid(s: Sys, maxQueue: nat, actions: seq<Action>, id: Id)
    requires s.Valid(maxQueue)
    ensures var t := s.Run(maxQueue, actions); id in t.tasks ==> t.tasks[id].Fits()
  {
    RunValid(s, maxQueue, actions);
  }

  // ---- runs put together

  lemma RunNothing(s: Sys, maxQueue: nat)
    ensures s.Run(maxQueue, []) == s
  {
  }

  lemma RunFirst(s: Sys, maxQueue: nat, a: Action, rest: seq<Action>)
    ensures s.Run(maxQueue, [a] + rest) == s.Step(maxQueue, a).Run(maxQueue, rest)
  {
    assert ([a] + rest)[1..] == rest;
  }

  lemma RunOne(s: Sys, maxQueue: nat, a: Action)
    ensures s.Run(maxQueue, [a]) == s.Step(maxQueue, a)
  {
    assert [a] + [] == [a];
    RunFirst(s, maxQueue, a, []);
    RunNothing(s.Step(maxQueue, a), maxQueue);
  }

  lemma RunTwo(s: Sys, maxQueue: nat, a: Action, b: Action, rest: seq<Action>)
    ensures s.Run(maxQueue, [a, b] + rest) == s.Step(maxQueue, a).Step(maxQueue, b).Run(maxQueue, rest)
  {
    assert [a, b] + rest == [a] + ([b] + rest);
    RunFirst(s, maxQueue, a, [b] + rest);
    RunFirst(s.Step(maxQueue, a), maxQueue, b, rest);
  }

  lemma {:induction false} RunConcat(s: Sys, maxQueue: nat, a: seq<Action>, b: seq<Action>)
    ensures s.Run(maxQueue, a + b) == s.Run(maxQueue, a).Run(maxQueue, b)
    decreases |a|
  {
    hide Sys.Step;
    if a == [] {
      assert a + b == b;
    } else {
      assert (a + b)[1..] == a[1..] + b;
      RunConcat(s.Step(maxQueue, a[0]), maxQueue, a[1..], b);
    }
  }

  // ---- a submission that fails

  lemma {:induction false} FreshId(ids: set<Id>) returns (unused: Id)
    ensures forall id | id in ids :: id < unused
    decreases |ids|
  {
    if ids == {} {
      unused := 0;
    } else {
      var id :| id in ids;
      var rest := FreshId(ids - {id});
      unused := if rest <= id then id + 1 else rest;
      forall x | x in ids ensures x < unused {
        if x != id { assert x in ids - {id}; }
      }
    }
  }

  /** Another operation is submitted while there is room. */
  lemma OneMoreQueued(s: Sys, maxQueue: nat, id: Id, other: Id)
    requires s.Valid(maxQueue) && s.At(id, Registered) && other !in s.tasks && |s.queue| < maxQueue
    requires s.cancelling == None
    ensures var t := s.Step(maxQueue, Register(other, 0)).Step(maxQueue, Enqueue(other));
            && t.Valid(maxQueue) && t.At(id, Registered) && |t.queue| == |s.queue| + 1
            && t.cancelling == None && t.cancelled == s.cancelled
  {
    QueueFits(s, maxQueue);
    StepValid(s, maxQueue, Register(other, 0));
    StepValid(s.Step(maxQueue, Register(other, 0)), maxQueue, Enqueue(other));
    assert other !in s.queue by { assert s.queue == s.Here(Queued); }
  }

  /** Other submissions can always fill the queue before a registered operation is pushed,
      which then is turned away. */
  lemma {:induction false} TurnedAway(s: Sys, maxQueue: nat, id: Id) returns (actions: seq<Action>)
    requires s.Valid(maxQueue) && s.At(id, Registered) && s.cancelling == None
    ensures var t := s.Run(maxQueue, actions);
            t.At(id, Rejected) && t.tasks[id].status == Failed && t.cancelled == s.cancelled
    decreases maxQueue - |s.queue|
  {
    if |s.queue| >= maxQueue {
      actions := [Enqueue(id)];
      RunOne(s, maxQueue, Enqueue(id));
    } else {
      var other := FreshId(s.tasks.Keys);
      OneMoreQueued(s, maxQueue, id, other);
      hide Sys.Valid, Sys.Step;
      var rest := TurnedAway(s.Step(maxQueue, Register(other, 0)).Step(maxQueue, Enqueue(other)), maxQueue, id);
      actions := [Register(other, 0), Enqueue(other)] + rest;
      RunTwo(s, maxQueue, Register(other, 0), Enqueue(other), rest);
    }
  }

  // ---- when a cancellation holds

  predicate CancelledAfter(s: Sys, maxQueue: nat, actions: seq<Action>, id: Id)
  {
    var t := s.Run(maxQueue, actions);
    id in t.tasks && t.tasks[id].status == Cancelled
  }

  /** Cancelled, and its function has not been called. */
  predicate NeverRunAfter(s: Sys, maxQueue: nat, actions: seq<Action>, id: Id)
  {
    var t := s.Run(maxQueue, actions);
    CancelledAfter(s, maxQueue, actions, id) && !t.At(id, Executing) && !Executed(t, id)
  }

  /** Where a task is whose cancellation has been looked up and is not written yet. */
  lemma WrittenPlaces(s: Sys, maxQueue: nat, id: Id)
    requires s.Valid(maxQueue) && s.cancelling == Some(id)
    ensures id in s.tasks && s.tasks[id].Fits() && !s.At(id, Dropped)
    ensures var t := s.Step(maxQueue, CancelWrite(id));
            && id in t.tasks && t.tasks[id] == s.tasks[id].(status := Cancelled)
            && t.cancelling == None && t.cancelled == s.cancelled + 1
  {
    assert s.tasks[id].Fits();
  }

  /** From the three places at which the status is written again it does not hold. */
  lemma CancelLost(s: Sys, maxQueue: nat, id: Id) returns (actions: seq<Action>)
    requires s.Valid(maxQueue) && id in s.tasks && s.cancelling == None
    requires s.At(id, Registered) || s.At(id, Passed) || s.At(id, Executing)
    ensures !CancelledAfter(s, maxQueue, actions, id)
    ensures var t := s.Run(maxQueue, actions);
            t.cancelled == s.cancelled && id in t.tasks && t.tasks[id].status != Cancelled
  {
    if s.At(id, Registered) {
      actions := TurnedAway(s, maxQueue, id);
    } else if s.At(id, Passed) {
      actions := [Begin(id)];
      RunOne(s, maxQueue, Begin(id));
    } else {
      actions := [Settle(id, true)];
      RunOne(s, maxQueue, Settle(id, true));
    }
  }

  /** A cancellation that was answered with success holds for ever exactly when, at the moment
      it is written, the task is in the queue or just popped, or everything is over. Before
      the push a full queue overwrites it, past the worker's look the run does. */
  lemma CancelHoldsExactly(s: Sys, maxQueue: nat, id: Id)
    requires s.Valid(maxQueue) && s.Enabled(CancelWrite(id))
    ensures (forall actions :: CancelledAfter(s.Step(maxQueue, CancelWrite(id)), maxQueue, actions, id))
       <==> s.At(id, Queued) || s.At(id, Popped) || s.At(id, Rejected) || Executed(s, id)
  {
    var t := s.Step(maxQueue, CancelWrite(id));
    WrittenPlaces(s, maxQueue, id);
    StepValid(s, maxQueue, CancelWrite(id));
    hide Sys.Valid, Sys.Step, Sys.Run;
    if s.At(id, Registered) || s.At(id, Passed) || s.At(id, Executing) {
      var actions := CancelLost(t, maxQueue, id);
      assert !CancelledAfter(t, maxQueue, actions, id);
    } else {
      assert CancelledInTime(t, id) || CancelledLate(t, id);
      forall actions: seq<Action> ensures CancelledAfter(t, maxQueue, actions, id) {
        CancelledRun(t, maxQueue, actions, id);
      }
    }
  }

  /** And the task is never run either exactly when it is in the queue or just popped then, or
      was turned away. In the first two cases its promise is never set. */
  lemma CancelPreventsExactly(s: Sys, maxQueue: nat, id: Id)
    requires s.Valid(maxQueue) && s.Enabled(CancelWrite(id))
    ensures (forall actions :: NeverRunAfter(s.Step(maxQueue, CancelWrite(id)), maxQueue, actions, id))
       <==> s.At(id, Queued) || s.At(id, Popped) || s.At(id, Rejected)
    ensures s.At(id, Queued) || s.At(id, Popped) ==> forall actions ::
              var u := s.Step(maxQueue, CancelWrite(id)).Run(maxQueue, actions);
              id in u.tasks && u.tasks[id].promisesSet == 0
  {
    var t := s.Step(maxQueue, CancelWrite(id));
    WrittenPlaces(s, maxQueue, id);
    StepValid(s, maxQueue, CancelWrite(id));
    CancelHoldsExactly(s, maxQueue, id);
    hide Sys.Valid, Sys.Step, Sys.Run, CancelledAfter;
    if s.At(id, Queued) || s.At(id, Popped) {
      forall actions: seq<Action>
        ensures NeverRunAfter(t, maxQueue, actions, id)
        ensures var u := t.Run(maxQueue, actions); id in u.tasks && u.tasks[id].promisesSet == 0
      {
        Prevented(t, maxQueue, actions, id);
      }
    } else if s.At(id, Rejected) {
      forall actions: seq<Action> ensures NeverRunAfter(t, maxQueue, actions, id) {
        RejectedRun(t, maxQueue, actions, id);
        NeverRunHere(t, maxQueue, actions, id);
      }
    } else if Executed(s, id) {
      RunNothing(t, maxQueue);
      assert !NeverRunAfter(t, maxQueue, [], id);
    } else {
      var actions :| !CancelledAfter(t, maxQueue, actions, id);
      assert !NeverRunAfter(t, maxQueue, actions, id);
    }
  }

  lemma NeverRunHere(s: Sys, maxQueue: nat, actions: seq<Action>, id: Id)
    requires var t := s.Run(maxQueue, actions); t.At(id, Rejected) && t.tasks[id].status == Cancelled
    ensures NeverRunAfter(s, maxQueue, actions, id)
  {
  }

  lemma Prevented(s: Sys, maxQueue: nat, actions: seq<Action>, id: Id)
    requires s.Valid(maxQueue) && CancelledInTime(s, id)
    ensures NeverRunAfter(s, maxQueue, actions, id)
    ensures var t := s.Run(maxQueue, actions); id in t.tasks && t.tasks[id].promisesSet == 0
  {
    CancelledRun(s, maxQueue, actions, id);
    RunStaysValid(s, maxQueue, actions, id);
    hide Sys.Valid, Sys.Run;
  }

  /** An operation that was turned away is at its end, but for a cancellation of it. */
  lemma {:induction false} RejectedRun(s: Sys, maxQueue: nat, actions: seq<Action>, id: Id)
    requires s.Valid(maxQueue) && s.At(id, Rejected) && s.tasks[id].status == Cancelled
    ensures var t := s.Run(maxQueue, actions); t.At(id, Rejected) && t.tasks[id].status == Cancelled
    decreases |actions|
  {
    if actions != [] {
      QueueFits(s, maxQueue);
      StepValid(s, maxQueue, actions[0]);
      var t := s.Step(maxQueue, actions[0]);
      if id !in About(actions[0]) { OthersStay(s, maxQueue, actions[0], id); }
      assert t.At(id, Rejected) && t.tasks[id].status == Cancelled;
      hide Sys.Valid, Sys.Step;
      RejectedRun(t, maxQueue, actions[1..], id);
    }
  }

  // ---- no look is safe

  lemma {:induction false} TopExists(tasks: map<Id, Task>, queue: set<Id>) returns (top: Id)
    requires queue != {} && queue <= tasks.Keys
    ensures top in queue && forall other | other in queue :: tasks[other].priority <= tasks[top].priority
    decreases |queue|
  {
    var id :| id in queue;
    top := id;
    if queue != {id} {
      var rest := TopExists(tasks, queue - {id});
      top := if tasks[id].priority <= tasks[rest].priority then rest else id;
      forall other | other in queue ensures tasks[other].priority <= tasks[top].priority {
        if other != id { assert other in queue - {id}; }
      }
    }
  }

  lemma QueuedTasks(s: Sys, maxQueue: nat, id: Id)
    requires s.Valid(maxQueue)
    ensures s.queue <= s.tasks.Keys
    ensures s.At(id, Queued) <==> id in s.queue
  {
    assert s.queue == s.Here(Queued);
  }

  lemma PoppedOne(s: Sys, maxQueue: nat, top: Id)
    requires s.Top(top)
    ensures var t := s.Step(maxQueue, Pop(top));
            && t.cancelling == s.cancelling && t.cancelled == s.cancelled
            && t.tasks == s.tasks[top := s.tasks[top].(place := Popped)] && t.queue == s.queue - {top}
  {
  }

  /** Workers can always pop a queued task, after those in front of it. */
  lemma {:induction false} DrainedTo(s: Sys, maxQueue: nat, id: Id) returns (actions: seq<Action>)
    requires s.Valid(maxQueue) && s.At(id, Queued)
    ensures var t := s.Run(maxQueue, actions);
            && t.Valid(maxQueue) && t.At(id, Popped) && t.tasks[id].status == s.tasks[id].status
            && t.cancelling == s.cancelling && t.cancelled == s.cancelled
    decreases |s.queue|
  {
    QueuedTasks(s, maxQueue, id);
    var top := TopExists(s.tasks, s.queue);
    var t := s.Step(maxQueue, Pop(top));
    PoppedOne(s, maxQueue, top);
    StepValid(s, maxQueue, Pop(top));
    hide Sys.Valid, Sys.Step;
    if top == id {
      actions := [Pop(id)];
      RunOne(s, maxQueue, Pop(id));
    } else {
      CountWith(s.queue, top);
      var rest := DrainedTo(t, maxQueue, id);
      actions := [Pop(top)] + rest;
      RunFirst(s, maxQueue, Pop(top), rest);
    }
  }

  /** The worker looks and begins between the look and the write of a cancellation, and
      settles behind it. */
  lemma OvertakenFrom(s: Sys, maxQueue: nat, id: Id, ok: bool)
    requires s.At(id, Popped) && s.tasks[id].status == Pending && s.cancelling == Some(id)
    ensures var t := s.Run(maxQueue, [CheckCancelled(id), Begin(id)] + ([CancelWrite(id), Settle(id, ok)] + []));
            t.At(id, Settled(ok)) && t.tasks[id].status == (if ok then Completed else Failed)
            && t.cancelled == s.cancelled + 1
  {
    var t := s.Step(maxQueue, CheckCancelled(id)).Step(maxQueue, Begin(id));
    assert t.At(id, Executing) && t.cancelling == Some(id) && t.cancelled == s.cancelled;
    var u := t.Step(maxQueue, CancelWrite(id)).Step(maxQueue, Settle(id, ok));
    assert u.At(id, Settled(ok)) && u.cancelled == s.cancelled + 1;
    hide Sys.Step, Sys.Run;
    RunTwo(s, maxQueue, CheckCancelled(id), Begin(id), [CancelWrite(id), Settle(id, ok)] + []);
    RunTwo(t, maxQueue, CancelWrite(id), Settle(id, ok), []);
    RunNothing(u, maxQueue);
  }

  lemma LookIs(s: Sys, maxQueue: nat, id: Id)
    requires s.Valid(maxQueue) && s.Enabled(CancelLook(id))
    ensures s.Step(maxQueue, CancelLook(id)) == s.(cancelling := Some(id))
    ensures s.At(id, Registered) || s.At(id, Queued) || s.At(id, Popped) || s.At(id, Passed)
  {
    assert s.tasks[id].Fits();
  }

  /** Wherever the task is when a client finds it pending, the cancellation can still be
      answered with success and lost. */
  lemma NoLookIsSafe(s: Sys, maxQueue: nat, id: Id) returns (actions: seq<Action>)
    requires s.Valid(maxQueue) && s.Enabled(CancelLook(id))
    ensures var t := s.Step(maxQueue, CancelLook(id)).Run(maxQueue, actions);
            t.cancelled == s.cancelled + 1 && id in t.tasks && t.tasks[id].status != Cancelled
  {
    var t := s.Step(maxQueue, CancelLook(id));
    assert s.tasks[id].status == Pending;
    LookIs(s, maxQueue, id);
    StepValid(s, maxQueue, CancelLook(id));
    WrittenPlaces(t, maxQueue, id);
    var u := t.Step(maxQueue, CancelWrite(id));
    StepValid(t, maxQueue, CancelWrite(id));
    hide Sys.Valid, Sys.Step, Sys.Run;
    if s.At(id, Registered) || s.At(id, Passed) {
      var rest := CancelLost(u, maxQueue, id);
      actions := [CancelWrite(id)] + rest;
      RunFirst(t, maxQueue, CancelWrite(id), rest);
    } else {
      var first := [];
      if s.At(id, Queued) { first := DrainedTo(t, maxQueue, id); } else { RunNothing(t, maxQueue); }
      var rest := [CheckCancelled(id), Begin(id)] + ([CancelWrite(id), Settle(id, true)] + []);
      OvertakenFrom(t.Run(maxQueue, first), maxQueue, id, true);
      RunConcat(t, maxQueue, first, rest);
      actions := first + rest;
    }
  }

  // ---- runs from the start

  /** Submitted and popped, and found pending by a client. */
  lemma FoundAtTheWorker(maxQueue: nat)
    requires maxQueue > 0
    ensures var s := INITIAL.Run(maxQueue, [Register(0, 0), Enqueue(0)] + ([Pop(0), CancelLook(0)] + []));
            && s.Valid(maxQueue) && s.tasks == map[0 := Task(0, Pending, Popped, 0)] && s.cancelling == Some(0)
            && s.cancelled == 0 && s.completed == 0
  {
    var s := INITIAL.Step(maxQueue, Register(0, 0)).Step(maxQueue, Enqueue(0));
    assert s.queue == {0} && s.tasks == map[0 := Task(0, Pending, Queued, 0)] && s.operations == {0};
    var t := s.Step(maxQueue, Pop(0)).Step(maxQueue, CancelLook(0));
    assert t.tasks == map[0 := Task(0, Pending, Popped, 0)];
    InitiallyValid(maxQueue);
    RunValid(INITIAL, maxQueue, [Register(0, 0), Enqueue(0)] + ([Pop(0), CancelLook(0)] + []));
    hide Sys.Step, Sys.Run, Sys.Valid;
    RunTwo(INITIAL, maxQueue, Register(0, 0), Enqueue(0), [Pop(0), CancelLook(0)] + []);
    RunTwo(s, maxQueue, Pop(0), CancelLook(0), []);
    RunNothing(t, maxQueue);
  }

  /** A run from the start in which a cancellation is answered with success and the task is
      run to its end all the same, which is what its status says. */
  lemma CancelledAndRun(maxQueue: nat)
    requires maxQueue > 0
    ensures var s := INITIAL.Run(maxQueue, [Register(0, 0), Enqueue(0), Pop(0), CancelLook(0), CheckCancelled(0),
                                            Begin(0), CancelWrite(0), Settle(0, true)]);
            s.cancelled == 1 && s.At(0, Settled(true)) && s.tasks[0].status == Completed
  {
    var start := [Register(0, 0), Enqueue(0)] + ([Pop(0), CancelLook(0)] + []);
    var rest := [CheckCancelled(0), Begin(0)] + ([CancelWrite(0), Settle(0, true)] + []);
    FoundAtTheWorker(maxQueue);
    hide Sys.Step, Sys.Run, Sys.Valid;
    OvertakenFrom(INITIAL.Run(maxQueue, start), maxQueue, 0, true);
    RunConcat(INITIAL, maxQueue, start, rest);
    assert start + rest == [Register(0, 0), Enqueue(0), Pop(0), CancelLook(0), CheckCancelled(0), Begin(0),
                            CancelWrite(0), Settle(0, true)];
  }

  /** The worker is done before the write of the cancellation. */
  lemma LateFrom(s: Sys, maxQueue: nat)
    requires s.tasks == map[0 := Task(0, Pending, Popped, 0)] && s.cancelling == Some(0)
    requires s.cancelled == 0 && s.completed == 0
    ensures var t := s.Run(maxQueue, [CheckCancelled(0), Begin(0)] + ([Settle(0, true), CancelWrite(0)] + [Count(0)]));
            && t.tasks == map[0 := Task(0, Cancelled, Finished(true), 1)] && t.completed == 1 && t.cancelled == 1
  {
    var t := s.Step(maxQueue, CheckCancelled(0)).Step(maxQueue, Begin(0));
    assert t.tasks == map[0 := Task(0, Running, Executing, 0)] && t.cancelling == Some(0);
    var u := t.Step(maxQueue, Settle(0, true)).Step(maxQueue, CancelWrite(0));
    assert u.tasks == map[0 := Task(0, Cancelled, Settled(true), 1)] && u.cancelled == 1 && u.completed == 0;
    assert u.Step(maxQueue, Count(0)).tasks == map[0 := Task(0, Cancelled, Finished(true), 1)];
    RunOne(u, maxQueue, Count(0));
    RunTwo(s, maxQueue, CheckCancelled(0), Begin(0), [Settle(0, true), CancelWrite(0)] + [Count(0)]);
    RunTwo(t, maxQueue, Settle(0, true), CancelWrite(0), [Count(0)]);
    hide Sys.Run;
  }

  /** And one in which a task that was run, delivered its result and is counted as completed
      is cancelled for ever. */
  lemma CompletedAndCancelled(maxQueue: nat)
    requires maxQueue > 0
    ensures var s := INITIAL.Run(maxQueue, [Register(0, 0), Enqueue(0), Pop(0), CancelLook(0), CheckCancelled(0),
                                            Begin(0), Settle(0, true), CancelWrite(0), Count(0)]);
            && s.tasks == map[0 := Task(0, Cancelled, Finished(true), 1)] && s.completed == 1 && s.cancelled == 1
            && forall actions :: CancelledAfter(s, maxQueue, actions, 0)
  {
    var start := [Register(0, 0), Enqueue(0)] + ([Pop(0), CancelLook(0)] + []);
    var rest := [CheckCancelled(0), Begin(0)] + ([Settle(0, true), CancelWrite(0)] + [Count(0)]);
    FoundAtTheWorker(maxQueue);
    hide Sys.Step, Sys.Run, Sys.Valid;
    var s := INITIAL.Run(maxQueue, start);
    LateFrom(s, maxQueue);
    RunConcat(INITIAL, maxQueue, start, rest);
    assert start + rest == [Register(0, 0), Enqueue(0), Pop(0), CancelLook(0), CheckCancelled(0), Begin(0),
                            Settle(0, true), CancelWrite(0), Count(0)];
    RunValid(s, maxQueue, rest);
    forall actions: seq<Action> ensures CancelledAfter(s.Run(maxQueue, rest), maxQueue, actions, 0) {
      CancelledRun(s.Run(maxQueue, rest), maxQueue, actions, 0);
    }
  }

  /** And one, for every limit of the queue, in which a cancelled operation fails: the
      cancellation comes between the two sections of its submission. */
  lemma CancelledAndTurnedAway(maxQueue: nat) returns (actions: seq<Action>)
    ensures var s := INITIAL.Run(maxQueue, [Register(0, 0)] + ([CancelLook(0), CancelWrite(0)] + actions));
            s.cancelled == 1 && s.At(0, Rejected) && s.tasks[0].status == Failed
  {
    var s := INITIAL.Step(maxQueue, Register(0, 0));
    var t := s.Step(maxQueue, CancelLook(0)).Step(maxQueue, CancelWrite(0));
    assert t.At(0, Registered) && t.cancelled == 1 && t.cancelling == None;
    InitiallyValid(maxQueue);
    StepValid(INITIAL, maxQueue, Register(0, 0));
    StepValid(s, maxQueue, CancelLook(0));
    StepValid(s.Step(maxQueue, CancelLook(0)), maxQueue, CancelWrite(0));
    hide Sys.Run, Sys.Step, Sys.Valid;
    actions := TurnedAway(t, maxQueue, 0);
    RunFirst(INITIAL, maxQueue, Register(0, 0), [CancelLook(0), CancelWrite(0)] + actions);
    RunTwo(s, maxQueue, CancelLook(0), CancelWrite(0), actions);
  }

  // ---- the service as an object

  class AsyncServiceLayer {
    const maxQueueSize: nat
    var tasks: map<Id, Task>
    var operations: set<Id>
    var queue: set<Id>
    var completed: nat
    var failed: nat
    var cancelled: nat

    /** The state between the sections, when nobody holds the lock of the operations. */
    function S(): Sys
      reads this
    {
      Sys(tasks, operations, queue, completed, failed, cancelled, None)
    }

    constructor (maxQueueSize: nat)
      ensures this.maxQueueSize == maxQueueSize && S() == INITIAL
    {
      this.maxQueueSize := maxQueueSize;
      tasks, operations, queue := map[], {}, {};
      completed, failed, cancelled := 0, 0, 0;
    }

    /** The first section of a submission. */
    method RegisterOperation(id: Id, priority: int)
      requires id !in tasks
      modifies this
      ensures S() == old(S()).Step(maxQueueSize, Register(id, priority))
    {
      tasks := tasks[id := Task(priority, Pending, Registered, 0)];
      operations := operations + {id};
    }

    /** The second: the check of the queue and the push are one. */
    method EnqueueTask(id: Id) returns (rejected: bool)
      requires S().At(id, Registered)
      modifies this
      ensures rejected == (|old(queue)| >= maxQueueSize)
      ensures S() == old(S()).Step(maxQueueSize, Enqueue(id))
    {
      var task := tasks[id];
      rejected := |queue| >= maxQueueSize;
      if rejected {
        tasks := tasks[id := task.(status := Failed, place := Rejected, promisesSet := task.promisesSet + 1)];
      } else {
        tasks := tasks[id := task.(place := Queued)];
        queue := queue + {id};
      }
    }

    /** What a worker gets: a queued task of highest priority. */
    method PopTask() returns (found: bool, id: Id)
      requires queue <= tasks.Keys
      modifies this
      ensures found == (old(queue) != {})
      ensures found ==> old(S()).Top(id) && S() == old(S()).Step(maxQueueSize, Pop(id))
      ensures !found ==> S() == old(S())
    {
      found, id := queue != {}, 0;
      if found {
        id := FindTop();
        tasks := tasks[id := tasks[id].(place := Popped)];
        queue := queue - {id};
      }
    }

    method FindTop() returns (id: Id)
      requires queue != {} && queue <= tasks.Keys
      ensures S().Top(id)
    {
      id :| id in queue;
      var rest := queue - {id};
      while rest != {}
        invariant rest <= queue && id in queue
        invariant forall other | other in queue && other !in rest :: tasks[other].priority <= tasks[id].priority
        decreases |rest|
      {
        var next :| next in rest;
        rest := rest - {next};
        if tasks[id].priority < tasks[next].priority { id := next; }
      }
    }

    /** A worker with a task: looks whether it is cancelled, runs it, settles its promise and
        counts it, when nobody comes in between. */
    method ProcessTask(id: Id, ok: bool)
      requires S().At(id, Popped)
      modifies this
      ensures var s := old(S()).Step(maxQueueSize, CheckCancelled(id));
              S() == if old(tasks)[id].status == Cancelled then s
                     else s.Step(maxQueueSize, Begin(id)).Step(maxQueueSize, Settle(id, ok))
                           .Step(maxQueueSize, Count(id))
    {
      var task := tasks[id];
      if task.status == Cancelled {
        tasks := tasks[id := task.(place := Dropped)];
        return;
      }
      ghost var s := S().Step(maxQueueSize, CheckCancelled(id));
      tasks := tasks[id := task.(place := Passed)];
      assert S() == s;
      s := s.Step(maxQueueSize, Begin(id));
      tasks := tasks[id := tasks[id].(status := Running, place := Executing)];
      assert S() == s;
      s := s.Step(maxQueueSize, Settle(id, ok));
      tasks := tasks[id := tasks[id].(status := if ok then Completed else Failed, place := Settled(ok),
                                      promisesSet := tasks[id].promisesSet + 1)];
      assert S() == s;
      tasks := tasks[id := tasks[id].(place := Finished(ok))];
      if ok { completed := completed + 1; } else { failed := failed + 1; }
    }

    /** The look and the write of a cancellation, when nobody writes the status in between. */
    method CancelOperation(id: Id) returns (ok: bool)
      requires operations <= tasks.Keys
      modifies this
      ensures ok == old(S()).Enabled(CancelLook(id))
      ensures S() == if ok then old(S()).Step(maxQueueSize, CancelLook(id)).Step(maxQueueSize, CancelWrite(id))
                     else old(S())
    {
      ok := id in operations && tasks[id].status == Pending;
      if ok {
        tasks := tasks[id := tasks[id].(status := Cancelled)];
        cancelled := cancelled + 1;
      }
    }

    /** Forgets the operations that are over and old. */
    method CleanupCompletedOperations(aged: set<Id>)
      requires operations <= tasks.Keys
      modifies this`operations
      ensures S() == old(S()).Step(maxQueueSize, Cleanup(aged))
    {
      var rest := operations;
      ghost var before, s := operations, S();
      while rest != {}
        invariant rest <= before && before <= tasks.Keys
        invariant operations == set id | id in before && (id in rest || !(id in aged && s.Over(id)))
        decreases |rest|
      {
        var id :| id in rest;
        rest := rest - {id};
        if tasks[id].status != Pending && tasks[id].status != Running && id in aged {
          operations := operations - {id};
        }
      }
    }
  }
}
