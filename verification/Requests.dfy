/** The request manager under any interleaving of submitting threads, workers, cancellations
    and timeouts. Every action is one critical section of the program; threads are the
    stages a request can be in between two of them. */
module Requests {

  type Id = nat

  datatype Status = Pending | Processing | Completed | Failed | TimedOut | Cancelled
  {
    predicate Terminal() { this != Pending && this != Processing }
  }

  /** Where a request is: in the queue, in a worker's hand (just taken, executing, or with
      its outcome recorded), or laid down by the worker for good. */
  datatype Place = Queued | Taken | Started | Settled | LaidDown

  /** A request, with the time it was created at. */
  datatype Request = Request(status: Status, time: int, place: Place)
  {
    /** What the place of a request says about its status. */
    predicate Fits()
    {
      match place
      case Queued => status == Pending || status == Cancelled
      case Taken => status == Pending || status == Cancelled
      case Started => status == Processing || status == Cancelled
      case Settled => status.Terminal()
      case LaidDown => status.Terminal()
    }
  }

  /** How the execution of a request ended. */
  datatype Outcome = Returned | Threw | Expired
  {
    function Result(): Status { match this case Returned => Completed case Threw => Failed case Expired => TimedOut }
  }

  /** The limits: length of the queue, size of the history, number of submitting threads. */
  datatype Config = Config(maxQueue: nat, maxHistory: nat, submitters: nat)

  datatype Action =
    | Check                        // a submitter finds room in the queue
    | Push(id: Id, time: int)      // a submitter past the check creates and queues a request
    | Insert(id: Id)               // the same submitter enters it into the active map, and returns
    | Take                         // a worker takes the first request of the queue
    | Start(id: Id)                // it marks it as processing unless it is cancelled
    | Settle(id: Id, outcome: Outcome)
    | Move(id: Id)                 // it moves it to the completed map
    | Cancel(id: Id)               // a client cancels an active request
    | MoveCancelled(id: Id)        // and moves it to the completed map
    | Cleanup(keep: nat)           // a client trims the history

  // ---- the history

  predicate Older(requests: map<Id, Request>, a: Id, b: Id)
    requires a in requests && b in requests
  {
    requests[a].time < requests[b].time || (requests[a].time == requests[b].time && a < b)
  }

  ghost predicate IsOldest(requests: map<Id, Request>, done: set<Id>, x: Id)
    requires done <= requests.Keys
  {
    x in done && forall y | y in done && y != x :: Older(requests, x, y)
  }

  lemma {:induction false} OldestExists(requests: map<Id, Request>, done: set<Id>)
    requires done != {} && done <= requests.Keys
    ensures exists x :: IsOldest(requests, done, x)
    decreases |done|
  {
    var z :| z in done;
    var rest := done - {z};
    assert forall y | y in done :: y == z || y in rest;
    if rest == {} {
      assert IsOldest(requests, done, z);
    } else {
      OldestExists(requests, rest);
      var x :| IsOldest(requests, rest, x);
      if Older(requests, z, x) {
        assert IsOldest(requests, done, z);
      } else {
        assert IsOldest(requests, done, x);
      }
    }
  }

  ghost function Oldest(requests: map<Id, Request>, done: set<Id>): (x: Id)
    requires done != {} && done <= requests.Keys
    ensures IsOldest(requests, done, x)
  {
    OldestExists(requests, done);
    var x :| IsOldest(requests, done, x);
    x
  }

  /** The history without its `n` oldest requests. */
  ghost function Drop(requests: map<Id, Request>, done: set<Id>, n: nat): (r: set<Id>)
    requires n <= |done| && done <= requests.Keys
    ensures r <= done
    decreases n
  {
    if n == 0 then done else Drop(requests, done - {Oldest(requests, done)}, n - 1)
  }

  /** Dropping leaves as many as it should, and no survivor is older than a dropped one. */
  lemma {:induction false} DropKeepsNewest(requests: map<Id, Request>, done: set<Id>, n: nat)
    requires n <= |done| && done <= requests.Keys
    ensures var r := Drop(requests, done, n);
            && |r| == |done| - n
            && forall kept, dropped | kept in r && dropped in done - r :: Older(requests, dropped, kept)
    decreases n
  {
    if n > 0 {
      DropKeepsNewest(requests, done - {Oldest(requests, done)}, n - 1);
    }
  }

  /** What is kept of a history that is over its limit: four fifths of the limit. */
  ghost function Trimmed(requests: map<Id, Request>, done: set<Id>, maxHistory: nat): (r: set<Id>)
    requires done <= requests.Keys
    ensures r <= done
  {
    var target := maxHistory * 4 / 5;
    if |done| > maxHistory && |done| > target then Drop(requests, done, |done| - target) else done
  }

  /** After a trim the history is within its limit; when it was over, exactly four fifths,
      rounded down, are left, and no survivor is older than an evicted request. */
  lemma TrimmedIsBounded(requests: map<Id, Request>, done: set<Id>, maxHistory: nat)
    requires done <= requests.Keys
    ensures var r := Trimmed(requests, done, maxHistory);
            && |r| <= maxHistory
            && (|done| > maxHistory ==> |r| == maxHistory * 4 / 5)
            && forall kept, evicted | kept in r && evicted in done - r :: Older(requests, evicted, kept)
  {
    var target := maxHistory * 4 / 5;
    assert target <= maxHistory;
    if |done| > maxHistory {
      DropKeepsNewest(requests, done, |done| - target);
    }
  }

  // ---- the manager

  /** `evicted` are the requests dropped from the history, `dequeued` those taken from the
      queue so far, in order, `pushed` those queued by a submitter that has not returned, and
      `cancelling` those cancelled by a client and not moved by it yet. */
  datatype Sys = Sys(
    queue: seq<Id>,
    requests: map<Id, Request>,
    active: set<Id>,
    done: set<Id>,
    evicted: set<Id>,
    checked: nat,
    pushed: set<Id>,
    cancelling: set<Id>,
    dequeued: seq<Id>,
    completed: nat,
    failed: nat,
    timedOut: nat)
  {
    predicate At(id: Id, place: Place) { id in requests && requests[id].place == place }

    function Put(id: Id, r: Request): Sys { this.(requests := requests[id := r]) }

    function Counted(status: Status): Sys
    {
      match status
      case Completed => this.(completed := completed + 1)
      case Failed => this.(failed := failed + 1)
      case TimedOut => this.(timedOut := timedOut + 1)
      case _ => this
    }

    predicate Enabled(c: Config, a: Action)
    {
      match a
      case Check => |queue| < c.maxQueue && checked + |pushed| < c.submitters
      case Push(id, _) => checked > 0 && id !in requests
      case Insert(id) => id in pushed
      case Take => queue != [] && queue[0] in requests
      case Start(id) => At(id, Taken)
      case Settle(id, _) => At(id, Started)
      case Move(id) => At(id, Settled)
      case Cancel(id) => id in active && id in requests && !requests[id].status.Terminal()
      case MoveCancelled(id) => id in cancelling && id in requests
      case Cleanup(keep) => true
    }

    function AfterPush(id: Id, time: int): Sys
      requires checked > 0
    {
      Put(id, Request(Pending, time, Queued))
      .(checked := checked - 1, queue := queue + [id], pushed := pushed + {id})
    }

    function AfterTake(): Sys
      requires queue != [] && queue[0] in requests
    {
      Put(queue[0], requests[queue[0]].(place := Taken)).(queue := queue[1..], dequeued := dequeued + [queue[0]])
    }

    function AfterStart(id: Id): Sys
      requires id in requests
    {
      var r := requests[id];
      Put(id, r.(status := if r.status != Cancelled then Processing else Cancelled, place := Started))
    }

    function AfterSettle(id: Id, status: Status): Sys
      requires id in requests
    {
      var r := requests[id];
      if r.status != Cancelled then Put(id, r.(status := status, place := Settled)).Counted(status)
      else Put(id, r.(place := Settled))
    }

    function AfterCancel(id: Id): Sys
      requires id in requests
    {
      Put(id, requests[id].(status := Cancelled)).(cancelling := cancelling + {id})
    }

    /** Moving to the completed map, with the trim that keeps the history bounded. */
    ghost function Moved(c: Config, id: Id): Sys
      requires done <= requests.Keys && id in requests
    {
      var all := done + {id};
      var kept := Trimmed(requests, all, c.maxHistory);
      this.(active := active - {id}, done := kept, evicted := (evicted - {id}) + (all - kept))
    }

    ghost function AfterCleanup(keep: nat): Sys
      requires done <= requests.Keys
    {
      if |done| <= keep then this
      else
        var kept := Drop(requests, done, |done| - keep);
        this.(done := kept, evicted := evicted + (done - kept))
    }

    ghost function Step(c: Config, a: Action): Sys
      requires done <= requests.Keys
    {
      if !Enabled(c, a) then this
      else
        match a
        case Check => this.(checked := checked + 1)
        case Push(id, time) => AfterPush(id, time)
        case Insert(id) => this.(active := active + {id}, pushed := pushed - {id})
        case Take => AfterTake()
        case Start(id) => AfterStart(id)
        case Settle(id, outcome) => AfterSettle(id, outcome.Result())
        case Move(id) => Moved(c, id).Put(id, requests[id].(place := LaidDown))
        case Cancel(id) => AfterCancel(id)
        case MoveCancelled(id) => Moved(c, id).(cancelling := cancelling - {id})
        case Cleanup(keep) => AfterCleanup(keep)
    }

    function WithStatus(status: Status): set<Id> { set id | id in requests && requests[id].status == status }

    // ---- invariants

    static predicate Distinct(ids: seq<Id>) { forall i, j | 0 <= i < j < |ids| :: ids[i] != ids[j] }

    /** A request is in the queue, or it has been taken from it, once. */
    ghost predicate Queues()
    {
      && Distinct(queue) && Distinct(dequeued)
      && (forall id | id in queue :: At(id, Queued))
      && (forall id | id in dequeued :: id in requests && !At(id, Queued))
      && (forall id | id in requests :: id in queue || id in dequeued)
    }

    ghost predicate Known()
    {
      && active <= requests.Keys && done <= requests.Keys && evicted <= requests.Keys
      && pushed <= requests.Keys && cancelling <= requests.Keys
      && pushed !! active && pushed !! cancelling
    }

    ghost predicate Staged()
    {
      && (forall id | id in requests :: requests[id].Fits())
      && (forall id | id in cancelling && id in requests :: requests[id].status == Cancelled)
    }

    /** The counters are the numbers of requests in the three states. */
    ghost predicate Tallied()
    {
      completed == |WithStatus(Completed)| && failed == |WithStatus(Failed)| && timedOut == |WithStatus(TimedOut)|
    }

    /** The check and the push are separate critical sections: what is in the queue and what
        is past the check together stay below the limit plus the submitters. */
    predicate Room(c: Config)
    {
      && checked + |pushed| <= c.submitters
      && (checked > 0 || queue != [] ==> |queue| + checked <= c.maxQueue - 1 + c.submitters)
    }

    /** Once a submission has returned its request is never lost. */
    ghost predicate Kept() { forall id | id in requests && id !in pushed :: id in active || id in done || id in evicted }

    ghost predicate Valid(c: Config)
    {
      Queues() && Known() && Staged() && Tallied() && Room(c) && |done| <= c.maxHistory && Kept()
    }
  }

  const INITIAL := Sys([], map[], {}, {}, {}, 0, {}, {}, [], 0, 0, 0)

  // ---- every action keeps the invariants

  lemma QueuesKept(c: Config, s: Sys, a: Action)
    requires s.Queues() && s.Known()
    ensures s.Step(c, a).Queues()
  {
    hide Trimmed, Drop, Sys.Queues;
    if s.Enabled(c, a) {
      match a
      case Push(id, time) => PushQueues(s, id, time);
      case Take => TakeQueues(s);
      case Start(id) => SameQueues(s, s.Step(c, a));
      case Settle(id, _) => SameQueues(s, s.Step(c, a));
      case Move(id) => SameQueues(s, s.Step(c, a));
      case Cancel(id) => SameQueues(s, s.Step(c, a));
      case _ => SameQueues(s, s.Step(c, a));
    }
  }

  lemma PushQueues(s: Sys, id: Id, time: int)
    requires s.Queues() && s.checked > 0 && id !in s.requests
    ensures s.AfterPush(id, time).Queues()
  {
    assert id !in s.queue;
    DistinctPlus(s.queue, id);
  }

  lemma DistinctPlus(ids: seq<Id>, x: Id)
    requires Sys.Distinct(ids) && x !in ids
    ensures Sys.Distinct(ids + [x])
  {
  }

  lemma TakeQueues(s: Sys)
    requires s.Queues() && s.queue != [] && s.queue[0] in s.requests
    ensures s.AfterTake().Queues()
  {
    var t := s.AfterTake();
    var first := s.queue[0];
    assert s.queue == [first] + t.queue;
    assert first !in t.queue;
    assert s.At(first, Queued);
    DistinctPlus(s.dequeued, first);
    forall id | id in t.queue ensures t.At(id, Queued) {
      assert id != first && id in s.queue;
    }
    forall id | id in t.requests ensures id in t.queue || id in t.dequeued {
      if id in s.queue && id != first { assert id in t.queue; }
    }
  }

  lemma SameQueues(s: Sys, t: Sys)
    requires s.Queues() && t.queue == s.queue && t.dequeued == s.dequeued
    requires t.requests.Keys == s.requests.Keys
    requires forall id | id in s.requests :: (t.requests[id].place == Queued) == (s.requests[id].place == Queued)
    ensures t.Queues()
  {
  }

  lemma KnownKept(c: Config, s: Sys, a: Action)
    requires s.Known()
    ensures s.Step(c, a).Known()
  {
    hide Trimmed, Drop;
  }

  lemma StagedKept(c: Config, s: Sys, a: Action)
    requires s.Queues() && s.Known() && s.Staged()
    ensures s.Step(c, a).Staged()
  {
    hide Trimmed, Drop, Sys.Staged;
    if s.Enabled(c, a) {
      match a
      case Push(id, time) => PutStaged(s, id, Request(Pending, time, Queued), s.Step(c, a));
      case Take =>
        assert s.queue[0] in s.queue && s.At(s.queue[0], Queued);
        FitsAt(s, s.queue[0]);
        PutStaged(s, s.queue[0], s.requests[s.queue[0]].(place := Taken), s.Step(c, a));
      case Start(id) => FitsAt(s, id); PutStaged(s, id, s.Step(c, a).requests[id], s.Step(c, a));
      case Settle(id, _) => FitsAt(s, id); PutStaged(s, id, s.Step(c, a).requests[id], s.Step(c, a));
      case Move(id) => FitsAt(s, id); PutStaged(s, id, s.Step(c, a).requests[id], s.Step(c, a));
      case Cancel(id) => FitsAt(s, id); PutStaged(s, id, s.Step(c, a).requests[id], s.Step(c, a));
      case _ => SameStaged(s, s.Step(c, a));
    }
  }

  lemma FitsAt(s: Sys, id: Id)
    requires s.Staged() && id in s.requests
    ensures s.requests[id].Fits() && (id in s.cancelling ==> s.requests[id].status == Cancelled)
    ensures s.At(id, Queued) ==> s.requests[id].(place := Taken).Fits()
  {
  }

  lemma PutStaged(s: Sys, id: Id, r: Request, t: Sys)
    requires s.Staged() && t.requests == s.requests[id := r]
    requires t.cancelling <= s.cancelling + {id}
    requires r.Fits() && (id in t.cancelling ==> r.status == Cancelled)
    ensures t.Staged()
  {
  }

  lemma SameStaged(s: Sys, t: Sys)
    requires s.Staged() && t.requests == s.requests && t.cancelling <= s.cancelling
    ensures t.Staged()
  {
  }

  lemma CountWith(ids: set<Id>, id: Id)
    ensures |ids| == |ids - {id}| + (if id in ids then 1 else 0)
  {
    if id in ids {
      assert ids == (ids - {id}) + {id};
    } else {
      assert ids == ids - {id};
    }
  }

  /** Rewriting one request changes the counts by that request. */
  lemma CountChange(s: Sys, id: Id, r: Request, which: Status)
    ensures |s.Put(id, r).WithStatus(which)| ==
            |s.WithStatus(which)| - (if id in s.requests && s.requests[id].status == which then 1 else 0)
                                  + (if r.status == which then 1 else 0)
  {
    var before, after := s.WithStatus(which), s.Put(id, r).WithStatus(which);
    assert before - {id} == after - {id};
    assert id in before <==> id in s.requests && s.requests[id].status == which;
    assert id in after <==> r.status == which;
    hide Sys.WithStatus;
    CountWith(before, id);
    CountWith(after, id);
  }

  lemma TalliedKept(c: Config, s: Sys, a: Action)
    requires s.Known() && s.Staged() && s.Tallied()
    ensures s.Step(c, a).Tallied()
  {
    hide Trimmed, Drop, Sys.WithStatus;
    if s.Enabled(c, a) {
      match a
      case Push(id, time) => TallyPut(s, id, Request(Pending, time, Queued), s.Step(c, a));
      case Take => TallyPut(s, s.queue[0], s.requests[s.queue[0]].(place := Taken), s.Step(c, a));
      case Start(id) => TallyPut(s, id, s.Step(c, a).requests[id], s.Step(c, a));
      case Settle(id, outcome) => SettleTallied(s, id, outcome);
      case Move(id) => TallyPut(s, id, s.requests[id].(place := LaidDown), s.Step(c, a));
      case Cancel(id) => TallyPut(s, id, s.requests[id].(status := Cancelled), s.Step(c, a));
      case _ => SameTally(s, s.Step(c, a));
    }
  }

  predicate Tallies(status: Status) { status == Completed || status == Failed || status == TimedOut }

  /** Rewriting a request without moving it into or out of a counted state. */
  lemma TallyPut(s: Sys, id: Id, r: Request, t: Sys)
    requires s.Tallied() && t.requests == s.requests[id := r]
    requires t.completed == s.completed && t.failed == s.failed && t.timedOut == s.timedOut
    requires if id in s.requests then
               r.status == s.requests[id].status || (!Tallies(r.status) && !Tallies(s.requests[id].status))
             else !Tallies(r.status)
    ensures t.Tallied()
  {
    CountChange(s, id, r, Completed);
    CountChange(s, id, r, Failed);
    CountChange(s, id, r, TimedOut);
    SameCounts(s.Put(id, r), t);
    hide Sys.WithStatus;
  }

  lemma SameCounts(s: Sys, t: Sys)
    requires s.requests == t.requests
    ensures forall which :: t.WithStatus(which) == s.WithStatus(which)
  {
  }

  lemma SameTally(s: Sys, t: Sys)
    requires s.Tallied() && t.requests == s.requests
    requires t.completed == s.completed && t.failed == s.failed && t.timedOut == s.timedOut
    ensures t.Tallied()
  {
    SameCounts(s, t);
    hide Sys.WithStatus;
  }

  lemma SettleTallied(s: Sys, id: Id, outcome: Outcome)
    requires s.Tallied() && s.Staged() && s.At(id, Started)
    ensures s.AfterSettle(id, outcome.Result()).Tallied()
  {
    hide Sys.WithStatus;
    var r := s.requests[id];
    assert r.Fits();
    var t := s.AfterSettle(id, outcome.Result());
    if r.status == Cancelled {
      TallyPut(s, id, r.(place := Settled), t);
    } else {
      var done := r.(status := outcome.Result(), place := Settled);
      CountChange(s, id, done, Completed);
      CountChange(s, id, done, Failed);
      CountChange(s, id, done, TimedOut);
      SameCounts(s.Put(id, done), t);
    }
  }

  lemma RoomKept(c: Config, s: Sys, a: Action)
    requires s.Known() && s.Room(c)
    ensures s.Step(c, a).Room(c)
  {
    hide Trimmed, Drop;
    if s.Enabled(c, a) && a.Insert? {
      assert |s.pushed - {a.id}| == |s.pushed| - 1;
    }
  }

  lemma HistoryKept(c: Config, s: Sys, a: Action)
    requires s.Known() && |s.done| <= c.maxHistory
    ensures |s.Step(c, a).done| <= c.maxHistory
  {
    hide Trimmed, Drop;
    if s.Enabled(c, a) {
      match a
      case Move(id) => TrimmedIsBounded(s.requests, s.done + {id}, c.maxHistory);
      case MoveCancelled(id) => TrimmedIsBounded(s.requests, s.done + {id}, c.maxHistory);
      case Cleanup(keep) =>
        if |s.done| > keep { DropKeepsNewest(s.requests, s.done, |s.done| - keep); }
      case _ =>
    }
  }

  lemma KeptKept(c: Config, s: Sys, a: Action)
    requires s.Known() && s.Kept()
    ensures s.Step(c, a).Kept()
  {
    hide Trimmed, Drop;
  }

  lemma StepValid(c: Config, s: Sys, a: Action)
    requires s.Valid(c)
    ensures s.done <= s.requests.Keys && s.Step(c, a).Valid(c)
  {
    assert s.done <= s.requests.Keys;
    hide Sys.Queues, Sys.Known, Sys.Staged, Sys.Tallied, Sys.Room, Sys.Kept, Sys.Step;
    QueuesKept(c, s, a);
    KnownKept(c, s, a);
    StagedKept(c, s, a);
    TalliedKept(c, s, a);
    RoomKept(c, s, a);
    HistoryKept(c, s, a);
    KeptKept(c, s, a);
  }

  /** No action takes a request out of a terminal state. */
  lemma TerminalStays(c: Config, s: Sys, a: Action, id: Id)
    requires s.Known() && s.Staged() && id in s.requests && s.requests[id].status.Terminal()
    ensures id in s.Step(c, a).requests && s.Step(c, a).requests[id].status == s.requests[id].status
  {
    hide Trimmed, Drop;
  }

  // ---- every run

  ghost function Run(c: Config, s: Sys, actions: seq<Action>): (r: Sys)
    requires s.Valid(c)
    ensures r.Valid(c)
    decreases |actions|
  {
    if actions == [] then s
    else
      StepValid(c, s, actions[0]);
      Run(c, s.Step(c, actions[0]), actions[1..])
  }

  lemma InitiallyValid(c: Config)
    ensures INITIAL.Valid(c)
  {
  }

  /** Completed, failed, timed-out and cancelled are absorbing under every interleaving. */
  lemma {:induction false} TerminalIsAbsorbing(c: Config, s: Sys, actions: seq<Action>, id: Id)
    requires s.Valid(c) && id in s.requests && s.requests[id].status.Terminal()
    ensures id in Run(c, s, actions).requests
    ensures Run(c, s, actions).requests[id].status == s.requests[id].status
    decreases |actions|
  {
    if actions != [] {
      StepValid(c, s, actions[0]);
      TerminalStays(c, s, actions[0], id);
      hide Sys.Step, Sys.Valid;
      TerminalIsAbsorbing(c, s.Step(c, actions[0]), actions[1..], id);
    }
  }

  /** In every reachable state: no request was taken from the queue twice, the counters are
      the numbers of requests in the three states, the history is within its limit, every
      request whose submission returned is active, completed or evicted, and the queue is at
      most as long as its limit and all but one of the submitters together. */
  lemma ReachableStates(c: Config, actions: seq<Action>)
    ensures INITIAL.Valid(c)
    ensures var s := Run(c, INITIAL, actions);
            && Sys.Distinct(s.dequeued)
            && s.completed == |s.WithStatus(Completed)| && s.failed == |s.WithStatus(Failed)|
            && s.timedOut == |s.WithStatus(TimedOut)|
            && |s.done| <= c.maxHistory
            && (forall id | id in s.requests && id !in s.pushed :: id in s.active || id in s.done || id in s.evicted)
            && (s.queue != [] ==> |s.queue| <= c.maxQueue - 1 + c.submitters)
  {
    InitiallyValid(c);
  }

  // ---- the bound on the queue is reached

  function Checks(n: nat): seq<Action> { seq(n, _ => Check) }

  function Pushes(first: Id, n: nat): seq<Action> { seq(n, i requires 0 <= i => Push(first + i, 0)) }

  lemma {:induction false} RunConcat(c: Config, s: Sys, a: seq<Action>, b: seq<Action>)
    requires s.Valid(c)
    ensures Run(c, s, a + b) == Run(c, Run(c, s, a), b)
    decreases |a|
  {
    hide *;
    if a == [] {
      assert a + b == b;
      RunEnds(c, s);
    } else {
      assert (a + b)[1..] == a[1..] + b && (a + b)[0] == a[0];
      RunFirst(c, s, a);
      RunFirst(c, s, a + b);
      RunConcat(c, s.Step(c, a[0]), a[1..], b);
    }
  }

  /** Submitters that all pass the check before any of them pushes. */
  lemma {:induction false} ChecksPass(c: Config, s: Sys, n: nat)
    requires s.Valid(c) && |s.queue| < c.maxQueue && s.checked + |s.pushed| + n <= c.submitters
    ensures Run(c, s, Checks(n)) == s.(checked := s.checked + n)
    decreases n
  {
    if n > 0 {
      StepValid(c, s, Check);
      var t := s.Step(c, Check);
      assert t == s.(checked := s.checked + 1);
      assert Checks(n)[1..] == Checks(n - 1);
      hide Sys.Valid, Sys.Step;
      ChecksPass(c, t, n - 1);
    }
  }

  lemma RunFirst(c: Config, s: Sys, actions: seq<Action>)
    requires s.Valid(c) && actions != []
    ensures s.done <= s.requests.Keys && s.Step(c, actions[0]).Valid(c)
    ensures Run(c, s, actions) == Run(c, s.Step(c, actions[0]), actions[1..])
  {
    StepValid(c, s, actions[0]);
    hide Sys.Step, Sys.Valid;
  }

  lemma PushLands(c: Config, s: Sys, id: Id)
    requires s.done <= s.requests.Keys && s.checked > 0 && forall x | x in s.requests :: x < id
    ensures var t := s.Step(c, Push(id, 0));
            && |t.queue| == |s.queue| + 1 && t.checked == s.checked - 1
            && forall x | x in t.requests :: x < id + 1
  {
  }

  /** All of them push. */
  lemma {:induction false} PushesLand(c: Config, s: Sys, first: Id, n: nat)
    requires s.Valid(c) && n <= s.checked && forall id | id in s.requests :: id < first
    ensures |Run(c, s, Pushes(first, n)).queue| == |s.queue| + n
    decreases n
  {
    hide Sys.Valid, Sys.Step, Run;
    if n == 0 {
      assert Pushes(first, 0) == [];
      RunEnds(c, s);
    } else {
      assert Pushes(first, n)[0] == Push(first, 0);
      assert Pushes(first, n)[1..] == Pushes(first + 1, n - 1);
      RunFirst(c, s, Pushes(first, n));
      PushLands(c, s, first);
      PushesLand(c, s.Step(c, Push(first, 0)), first + 1, n - 1);
    }
  }

  /** One submitter filling the queue, one request after the other. */
  function Fill(n: nat): seq<Action>
  {
    if n == 0 then [] else Fill(n - 1) + [Check, Push(n - 1, 0), Insert(n - 1)]
  }

  ghost predicate Full(s: Sys, n: nat)
  {
    |s.queue| == n && s.checked == 0 && s.pushed == {} && forall id | id in s.requests :: id < n
  }

  lemma {:induction false} Filled(c: Config, n: nat)
    requires n <= c.maxQueue && c.submitters > 0
    ensures INITIAL.Valid(c) && Full(Run(c, INITIAL, Fill(n)), n)
    decreases n
  {
    InitiallyValid(c);
    if n > 0 {
      hide Sys.Valid, Full, Run;
      Filled(c, n - 1);
      RunConcat(c, INITIAL, Fill(n - 1), [Check, Push(n - 1, 0), Insert(n - 1)]);
      OneMore(c, Run(c, INITIAL, Fill(n - 1)), n - 1);
    } else {
      assert Run(c, INITIAL, Fill(0)) == INITIAL;
    }
  }

  lemma OneMore(c: Config, s: Sys, n: nat)
    requires s.Valid(c) && Full(s, n) && n < c.maxQueue && c.submitters > 0
    ensures Full(Run(c, s, [Check, Push(n, 0), Insert(n)]), n + 1)
  {
    hide Sys.Valid, Run;
    var actions := [Check, Push(n, 0), Insert(n)];
    RunFirst(c, s, actions);
    var t := s.Step(c, Check);
    assert actions[1..] == [Push(n, 0), Insert(n)];
    RunFirst(c, t, actions[1..]);
    var u := t.Step(c, Push(n, 0));
    assert actions[1..][1..] == [Insert(n)];
    RunFirst(c, u, actions[1..][1..]);
    var v := u.Step(c, Insert(n));
    assert actions[1..][1..][1..] == [];
    RunEnds(c, v);
    assert v.pushed == {};
  }

  lemma RunEnds(c: Config, s: Sys)
    requires s.Valid(c)
    ensures Run(c, s, []) == s
  {
  }

  lemma FullIs(s: Sys, n: nat)
    requires Full(s, n)
    ensures |s.queue| == n && s.checked == 0 && |s.pushed| == 0 && forall id | id in s.requests :: id < n
  {
  }

  /** The bound is tight: for every limit of at least one and any number of submitters some
      run makes the queue that long. */
  lemma QueueBoundIsReached(c: Config)
    requires c.maxQueue > 0 && c.submitters > 0
    ensures INITIAL.Valid(c)
    ensures exists actions :: |Run(c, INITIAL, actions).queue| == c.maxQueue - 1 + c.submitters
  {
    hide *;
    InitiallyValid(c);
    var n := c.maxQueue - 1;
    Filled(c, n);
    var s := Run(c, INITIAL, Fill(n));
    FullIs(s, n);
    ChecksPass(c, s, c.submitters);
    var t := Run(c, s, Checks(c.submitters));
    PushesLand(c, t, n, c.submitters);
    RunConcat(c, s, Checks(c.submitters), Pushes(n, c.submitters));
    RunConcat(c, INITIAL, Fill(n), Checks(c.submitters) + Pushes(n, c.submitters));
    assert |Run(c, INITIAL, Fill(n) + (Checks(c.submitters) + Pushes(n, c.submitters))).queue|
           == c.maxQueue - 1 + c.submitters;
  }

  // ---- requests that stay active for ever

  /** A request that is active although its worker has moved it: it was queued, processed and
      moved before its submitter entered it into the active map. */
  predicate Stuck(s: Sys, id: Id)
  {
    id in s.active && s.At(id, LaidDown) && id !in s.cancelling
  }

  lemma StuckStays(c: Config, s: Sys, a: Action, id: Id)
    requires s.Queues() && s.Known() && s.Staged() && Stuck(s, id)
    ensures Stuck(s.Step(c, a), id)
  {
    hide Trimmed, Drop, Sys.Staged, Sys.AfterCleanup;
    assert id !in s.queue;
    hide Sys.Queues;
    FitsAt(s, id);
    assert s.requests[id].status.Terminal();
    if a.Cleanup? {
      CleanupRest(s, a.keep);
    }
  }

  lemma CleanupRest(s: Sys, keep: nat)
    requires s.done <= s.requests.Keys
    ensures var t := s.AfterCleanup(keep); t == s.(done := t.done, evicted := t.evicted)
  {
    hide Drop;
  }

  /** It never leaves the active map again, in any run. */
  lemma {:induction false} StuckForEver(c: Config, s: Sys, actions: seq<Action>, id: Id)
    requires s.Valid(c) && Stuck(s, id)
    ensures Stuck(Run(c, s, actions), id)
    decreases |actions|
  {
    if actions != [] {
      StepValid(c, s, actions[0]);
      StuckStays(c, s, actions[0], id);
      hide Sys.Step, Sys.Valid, Stuck;
      StuckForEver(c, s.Step(c, actions[0]), actions[1..], id);
    }
  }

  /** A submitter's last step leaves its request stuck exactly when the worker laid it down
      before. */
  lemma InsertedTooLateExactly(c: Config, s: Sys, id: Id)
    requires s.Valid(c) && id in s.pushed
    ensures Stuck(s.Step(c, Insert(id)), id) <==> s.At(id, LaidDown)
  {
  }

  lemma RunOneMore(c: Config, s: Sys, a: Action, rest: seq<Action>)
    requires s.Valid(c)
    ensures s.done <= s.requests.Keys && s.Step(c, a).Valid(c)
    ensures Run(c, s, [a] + rest) == Run(c, s.Step(c, a), rest)
  {
    assert ([a] + rest)[1..] == rest;
    hide Run, Sys.Valid, Sys.Step;
    RunFirst(c, s, [a] + rest);
  }

  /** Request 0 and no other, pushed by a submitter that has not returned. */
  ghost predicate OnlyRequest(s: Sys, status: Status, place: Place)
  {
    s.requests == map[0 := Request(status, 0, place)] && s.pushed == {0} && s.cancelling == {}
  }

  /** The first part of the run: a submitter is past its push when the worker has started. */
  lemma PushedAndStarted(c: Config)
    requires c.maxQueue > 0 && c.submitters > 0
    ensures INITIAL.Valid(c)
    ensures OnlyRequest(Run(c, INITIAL, [Check] + ([Push(0, 0)] + ([Take] + ([Start(0)] + [])))), Processing, Started)
  {
    InitiallyValid(c);
    var s := INITIAL.Step(c, Check);
    var t := s.Step(c, Push(0, 0));
    assert t.queue == [0] && OnlyRequest(t, Pending, Queued);
    var u := t.Step(c, Take);
    assert OnlyRequest(u, Pending, Taken);
    var v := u.Step(c, Start(0));
    assert OnlyRequest(v, Processing, Started);
    hide Run, Sys.Valid, Sys.Step;
    RunOneMore(c, INITIAL, Check, [Push(0, 0)] + ([Take] + ([Start(0)] + [])));
    RunOneMore(c, s, Push(0, 0), [Take] + ([Start(0)] + []));
    RunOneMore(c, t, Take, [Start(0)] + []);
    RunOneMore(c, u, Start(0), []);
    RunEnds(c, v);
  }

  lemma SettledOnly(c: Config, s: Sys)
    requires OnlyRequest(s, Processing, Started) && s.done <= s.requests.Keys
    ensures OnlyRequest(s.Step(c, Settle(0, Returned)), Completed, Settled)
  {
  }

  lemma MovedOnly(c: Config, s: Sys)
    requires OnlyRequest(s, Completed, Settled) && s.done <= s.requests.Keys
    ensures OnlyRequest(s.Step(c, Move(0)), Completed, LaidDown)
  {
    hide Trimmed;
  }

  lemma InsertedOnly(c: Config, s: Sys)
    requires s.Valid(c) && OnlyRequest(s, Completed, LaidDown)
    ensures Stuck(s.Step(c, Insert(0)), 0)
  {
    hide Sys.Valid, Sys.Step;
    assert s.done <= s.requests.Keys by { RunOneMore(c, s, Insert(0), []); }
    InsertedTooLateExactly(c, s, 0);
  }

  /** The second part: the worker moves the request before the submitter enters it. */
  lemma MovedBeforeInserted(c: Config, s: Sys)
    requires s.Valid(c) && OnlyRequest(s, Processing, Started)
    ensures Stuck(Run(c, s, [Settle(0, Returned)] + ([Move(0)] + ([Insert(0)] + []))), 0)
  {
    hide Run, Sys.Valid, Sys.Step, OnlyRequest, Stuck;
    RunOneMore(c, s, Settle(0, Returned), [Move(0)] + ([Insert(0)] + []));
    SettledOnly(c, s);
    var t := s.Step(c, Settle(0, Returned));
    RunOneMore(c, t, Move(0), [Insert(0)] + []);
    MovedOnly(c, t);
    var u := t.Step(c, Move(0));
    RunOneMore(c, u, Insert(0), []);
    InsertedOnly(c, u);
    RunEnds(c, u.Step(c, Insert(0)));
  }

  /** A run from the start that leaves a finished request in the active map for ever. */
  lemma StuckIsReached(c: Config)
    requires c.maxQueue > 0 && c.submitters > 0
    ensures INITIAL.Valid(c)
    ensures Stuck(Run(c, INITIAL, [Check, Push(0, 0), Take, Start(0), Settle(0, Returned), Move(0), Insert(0)]), 0)
  {
    hide Run, Sys.Valid, Sys.Step, Stuck, OnlyRequest;
    var first := [Check] + ([Push(0, 0)] + ([Take] + ([Start(0)] + [])));
    var second := [Settle(0, Returned)] + ([Move(0)] + ([Insert(0)] + []));
    PushedAndStarted(c);
    RunConcat(c, INITIAL, first, second);
    MovedBeforeInserted(c, Run(c, INITIAL, first));
    assert first + second == [Check, Push(0, 0), Take, Start(0), Settle(0, Returned), Move(0), Insert(0)];
  }

  /** A request entered in time, before its worker moves it, does leave the active map when
      that happens, and is in the history or evicted then. */
  lemma MoveLeavesActive(c: Config, s: Sys, id: Id)
    requires s.Valid(c) && s.At(id, Settled)
    ensures var t := s.Step(c, Move(id));
            id !in t.active && t.At(id, LaidDown) && (id in t.done || id in t.evicted)
  {
    hide Trimmed;
  }
}
