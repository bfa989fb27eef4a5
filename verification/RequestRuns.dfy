/** Runs of the request manager read off their actions: the order of the queue, the status and
    the time of every request, and the counters. */
module RequestRuns {
  import opened Requests
  import opened Wrappers

  /** The state before action number `i` of a run from the start. */
  ghost function Before(c: Config, actions: seq<Action>, i: nat): (s: Sys)
    requires i <= |actions|
    ensures s.Valid(c)
  {
    InitiallyValid(c);
    Run(c, INITIAL, actions[..i])
  }

  /** Action number `i` takes effect. */
  ghost predicate Takes(c: Config, actions: seq<Action>, i: nat)
  {
    i < |actions| && Before(c, actions, i).Enabled(c, actions[i])
  }

  lemma {:induction false} RunLast(c: Config, s: Sys, actions: seq<Action>, a: Action)
    requires s.Valid(c)
    ensures Run(c, s, actions).done <= Run(c, s, actions).requests.Keys
    ensures Run(c, s, actions + [a]) == Run(c, s, actions).Step(c, a)
  {
    hide *;
    RunConcat(c, s, actions, [a]);
    var t := Run(c, s, actions);
    StepValid(c, t, a);
    assert [a] + [] == [a];
    RunOneMore(c, t, a, []);
    RunEnds(c, t.Step(c, a));
  }

  /** One action more: earlier states and effects are as before. */
  lemma {:induction false} BeforeLast(c: Config, actions: seq<Action>, a: Action)
    ensures Before(c, actions + [a], |actions|) == Before(c, actions, |actions|)
    ensures forall i: nat | i < |actions| :: Takes(c, actions + [a], i) <==> Takes(c, actions, i)
  {
    hide Run;
    assert (actions + [a])[..|actions|] == actions[..|actions|];
    forall i: nat | i < |actions| ensures Takes(c, actions + [a], i) <==> Takes(c, actions, i) {
      assert (actions + [a])[..i] == actions[..i];
    }
  }

  /** The state after all actions. */
  ghost function After(c: Config, actions: seq<Action>): (s: Sys)
    ensures s.Valid(c)
  {
    InitiallyValid(c);
    Run(c, INITIAL, actions)
  }

  lemma AfterLast(c: Config, actions: seq<Action>, a: Action)
    ensures After(c, actions).done <= After(c, actions).requests.Keys
    ensures After(c, actions + [a]) == After(c, actions).Step(c, a)
    ensures Takes(c, actions + [a], |actions|) <==> After(c, actions).Enabled(c, a)
  {
    InitiallyValid(c);
    hide Run, Sys.Valid;
    RunLast(c, INITIAL, actions, a);
    assert (actions + [a])[..|actions|] == actions;
  }

  lemma AfterNone(c: Config)
    ensures After(c, []) == INITIAL
  {
    InitiallyValid(c);
    RunEnds(c, INITIAL);
  }

  // ---- first in, first out

  /** The ids of the pushes that took effect, in order. */
  ghost function PushedIds(c: Config, actions: seq<Action>): seq<Id>
    decreases |actions|
  {
    if actions == [] then []
    else
      var n := |actions| - 1;
      PushedIds(c, actions[..n]) +
      (if actions[n].Push? && Takes(c, actions, n) then [actions[n].id] else [])
  }

  /** The number of times a worker took a request. */
  ghost function TakeCount(c: Config, actions: seq<Action>): nat
    decreases |actions|
  {
    if actions == [] then 0
    else
      var n := |actions| - 1;
      TakeCount(c, actions[..n]) + (if actions[n].Take? && Takes(c, actions, n) then 1 else 0)
  }

  lemma CountsLast(c: Config, actions: seq<Action>, a: Action)
    ensures PushedIds(c, actions + [a]) ==
            PushedIds(c, actions) + (if a.Push? && After(c, actions).Enabled(c, a) then [a.id] else [])
    ensures TakeCount(c, actions + [a]) ==
            TakeCount(c, actions) + (if a.Take? && After(c, actions).Enabled(c, a) then 1 else 0)
  {
    assert (actions + [a])[..|actions|] == actions;
    hide Takes, After;
    AfterLast(c, actions, a);
  }

  /** What a step does to the queue. */
  lemma QueueStep(c: Config, s: Sys, a: Action)
    requires s.done <= s.requests.Keys
    ensures var t := s.Step(c, a);
            && t.dequeued + t.queue == s.dequeued + s.queue + (if a.Push? && s.Enabled(c, a) then [a.id] else [])
            && |t.dequeued| == |s.dequeued| + (if a.Take? && s.Enabled(c, a) then 1 else 0)
  {
    hide Trimmed, Drop, Sys.AfterCleanup;
    assert s.dequeued + s.queue + [] == s.dequeued + s.queue;
    if a.Cleanup? {
      CleanupRest(s, a.keep);
    } else if s.Enabled(c, a) {
      match a
      case Take =>
        assert s.queue == [s.queue[0]] + s.queue[1..];
        assert s.dequeued + [s.queue[0]] + s.queue[1..] == s.dequeued + s.queue;
      case Push(id, time) => assert s.dequeued + (s.queue + [id]) == s.dequeued + s.queue + [id];
      case _ =>
    }
  }

  /** In every run: the requests taken by workers, in order, and then those still in the queue
      are exactly the requests pushed, in the order in which they were pushed. */
  lemma {:induction false} QueueIsInOrder(c: Config, actions: seq<Action>)
    ensures var s := After(c, actions);
            && s.dequeued + s.queue == PushedIds(c, actions) && |s.dequeued| == TakeCount(c, actions)
    decreases |actions|
  {
    hide *;
    if actions == [] {
      AfterNone(c);
      NothingCounted(c);
    } else {
      var front, a := actions[..|actions| - 1], actions[|actions| - 1];
      assert actions == front + [a];
      QueueIsInOrder(c, front);
      AfterLast(c, front, a);
      CountsLast(c, front, a);
      QueueStep(c, After(c, front), a);
    }
  }

  lemma NothingCounted(c: Config)
    ensures PushedIds(c, []) == [] && TakeCount(c, []) == 0 && INITIAL.dequeued == [] && INITIAL.queue == []
  {
  }

  lemma WaitingIsQueued(c: Config, s: Sys, id: Id)
    requires s.Valid(c)
    ensures id in s.queue ==> s.At(id, Queued)
    ensures id in s.dequeued ==> id in s.requests && !s.At(id, Queued)
    ensures Sys.Distinct(s.dequeued)
  {
  }

  /** So the n-th request pushed has been taken exactly when workers took n requests or more:
      first in, first out. */
  lemma TakenExactly(c: Config, actions: seq<Action>, k: nat)
    requires k < |PushedIds(c, actions)|
    ensures var s := After(c, actions); var id := PushedIds(c, actions)[k];
            && (k < TakeCount(c, actions) <==> id in s.requests && !s.At(id, Queued))
            && (k >= TakeCount(c, actions) <==> s.At(id, Queued))
  {
    hide *;
    QueueIsInOrder(c, actions);
    var s, ids := After(c, actions), PushedIds(c, actions);
    WaitingIsQueued(c, s, ids[k]);
    if k < TakeCount(c, actions) {
      assert ids[k] == s.dequeued[k];
    } else {
      assert ids[k] == s.queue[k - |s.dequeued|];
    }
    QueuedIsKnown(s, ids[k]);
  }

  lemma QueuedIsKnown(s: Sys, id: Id)
    ensures s.At(id, Queued) ==> id in s.requests
  {
  }

  lemma EarlierPushedEarlierTaken(c: Config, actions: seq<Action>, i: nat, j: nat)
    requires i < j < |PushedIds(c, actions)| && !After(c, actions).At(PushedIds(c, actions)[j], Queued)
    ensures var id := PushedIds(c, actions)[i];
            id in After(c, actions).requests && !After(c, actions).At(id, Queued)
  {
    hide *;
    TakenExactly(c, actions, i);
    TakenExactly(c, actions, j);
  }

  // ---- one request

  /** What the actions that took effect on a request say about it: when it was pushed, whether
      it was started, how its execution ended, whether it was cancelled, whether it was last
      entered into the active map or moved out of it, and whether it was ever moved. */
  datatype Record = Record(pushed: Option<int>, started: bool, ended: Option<Outcome>, cancelled: bool, active: bool,
                           moved: bool)

  function Noted(r: Record, a: Action): Record
  {
    match a
    case Push(_, time) => r.(pushed := Some(time))
    case Insert(_) => r.(active := true)
    case Start(_) => r.(started := true)
    case Settle(_, outcome) => r.(ended := Some(outcome))
    case Move(_) => r.(active := false, moved := true)
    case MoveCancelled(_) => r.(active := false, moved := true)
    case Cancel(_) => r.(cancelled := true)
    case _ => r
  }

  predicate On(a: Action, id: Id) { !a.Check? && !a.Take? && !a.Cleanup? && a.id == id }

  /** Read off the list of actions. */
  ghost function RecordOf(c: Config, actions: seq<Action>, id: Id): Record
    decreases |actions|
  {
    if actions == [] then Record(None, false, None, false, false, false)
    else
      var n := |actions| - 1;
      var r := RecordOf(c, actions[..n], id);
      if On(actions[n], id) && Takes(c, actions, n) then Noted(r, actions[n]) else r
  }

  lemma RecordLast(c: Config, actions: seq<Action>, a: Action, id: Id)
    ensures RecordOf(c, actions + [a], id) ==
            var r := RecordOf(c, actions, id);
            if On(a, id) && After(c, actions).Enabled(c, a) then Noted(r, a) else r
  {
    assert (actions + [a])[..|actions|] == actions;
    hide Takes, After, Noted;
    AfterLast(c, actions, a);
  }

  /** The status that a record amounts to: a cancellation counts for more than how the
      execution ends, and an execution ends as completed when the agent has returned, as
      failed when it threw, and as timed out when the wait expired. */
  function StatusOf(r: Record): Status
  {
    if r.cancelled then Cancelled
    else if r.ended == Some(Returned) then Completed
    else if r.ended == Some(Threw) then Failed
    else if r.ended == Some(Expired) then TimedOut
    else if r.started then Processing
    else Pending
  }

  /** The state agrees with the record of a request. */
  ghost predicate Agrees(s: Sys, id: Id, r: Record)
  {
    && (id in s.requests <==> r.pushed.Some?)
    && (id in s.active <==> r.active)
    && (id in s.done || id in s.evicted <==> r.moved)
    && (id in s.requests ==>
          var q := s.requests[id];
          && q.time == r.pushed.value && q.status == StatusOf(r)
          && (r.started <==> q.place == Started || q.place == Settled || q.place == LaidDown)
          && (r.ended.Some? <==> q.place == Settled || q.place == LaidDown))
    && (id !in s.requests ==> r == Record(None, false, None, false, false, false))
  }

  /** What stays with a request when an action is on another one. */
  ghost predicate SameHere(s: Sys, t: Sys, id: Id)
  {
    && (id in t.requests <==> id in s.requests) && (id in t.active <==> id in s.active)
    && (id in t.done || id in t.evicted <==> id in s.done || id in s.evicted)
    && (id in s.requests && id in t.requests ==>
          var q, r := s.requests[id], t.requests[id];
          && r.time == q.time && r.status == q.status
          && (r.place == q.place || (q.place == Queued && r.place == Taken)))
  }

  lemma SameAgrees(s: Sys, t: Sys, id: Id, r: Record)
    requires Agrees(s, id, r) && SameHere(s, t, id)
    ensures Agrees(t, id, r)
  {
  }

  lemma OtherStays(c: Config, s: Sys, a: Action, id: Id)
    requires s.Queues() && s.done <= s.requests.Keys && !On(a, id)
    ensures SameHere(s, s.Step(c, a), id)
  {
    hide Trimmed, Drop;
    if a.Take? {
      if s.queue != [] { assert s.queue[0] in s.queue && s.At(s.queue[0], Queued); }
    } else if a.Cleanup? {
      hide Sys.AfterCleanup;
      CleanupMoves(s, a.keep, id);
    } else if s.Enabled(c, a) && !a.Check? {
      hide Sys.Queues;
      OtherOneStays(c, s, a, id);
    }
  }

  lemma OtherOneStays(c: Config, s: Sys, a: Action, id: Id)
    requires s.done <= s.requests.Keys && s.Enabled(c, a) && !a.Check? && !a.Take? && !a.Cleanup? && a.id != id
    ensures SameHere(s, s.Step(c, a), id)
  {
    hide Trimmed, Drop;
    match a
    case Push(_, _) =>
    case Insert(_) =>
    case Start(_) =>
    case Settle(_, _) =>
    case Move(_) =>
    case Cancel(_) =>
    case MoveCancelled(_) =>
  }

  lemma CleanupMoves(s: Sys, keep: nat, id: Id)
    requires s.done <= s.requests.Keys
    ensures var t := s.AfterCleanup(keep);
            && t.requests == s.requests && t.active == s.active
            && (id in t.done || id in t.evicted <==> id in s.done || id in s.evicted)
  {
    hide Drop;
  }

  lemma OnStep(c: Config, s: Sys, a: Action, id: Id, r: Record)
    requires s.Staged() && s.Known() && On(a, id) && s.Enabled(c, a) && Agrees(s, id, r)
    ensures Agrees(s.Step(c, a), id, Noted(r, a))
  {
    hide Trimmed, Drop;
    if id in s.requests { FitsAt(s, id); }
    hide Sys.Staged;
  }

  lemma AgreesStep(c: Config, s: Sys, a: Action, id: Id, r: Record)
    requires s.Valid(c) && Agrees(s, id, r)
    ensures s.done <= s.requests.Keys
    ensures Agrees(s.Step(c, a), id, if On(a, id) && s.Enabled(c, a) then Noted(r, a) else r)
  {
    hide Agrees, SameHere, Noted, Sys.Step, Sys.Enabled, Sys.Staged, Sys.Queues;
    if On(a, id) && s.Enabled(c, a) {
      OnStep(c, s, a, id, r);
    } else if On(a, id) {
      DisabledStays(c, s, a);
    } else {
      OtherStays(c, s, a, id);
      SameAgrees(s, s.Step(c, a), id, r);
    }
  }

  lemma DisabledStays(c: Config, s: Sys, a: Action)
    requires s.done <= s.requests.Keys && !s.Enabled(c, a)
    ensures s.Step(c, a) == s
  {
  }

  lemma InitiallyAgrees(c: Config, id: Id)
    ensures Agrees(INITIAL, id, RecordOf(c, [], id))
  {
  }

  /** In every run the state of every request is what the actions say that took effect on it:
      its status, the time it was created at, whether it is active, and whether it has been
      in the history. */
  lemma {:induction false} RecordsAgree(c: Config, actions: seq<Action>, id: Id)
    ensures Agrees(After(c, actions), id, RecordOf(c, actions, id))
    decreases |actions|
  {
    hide *;
    if actions == [] {
      AfterNone(c);
      InitiallyAgrees(c, id);
    } else {
      var front, a := actions[..|actions| - 1], actions[|actions| - 1];
      assert actions == front + [a];
      RecordsAgree(c, front, id);
      AfterLast(c, front, a);
      RecordLast(c, front, a, id);
      AgreesStep(c, After(c, front), a, id, RecordOf(c, front, id));
    }
  }

  /** When a request was pushed, by the list of actions. */
  ghost function PushTime(c: Config, actions: seq<Action>, id: Id): int
    requires id in After(c, actions).requests
  {
    RecordsAgree(c, actions, id);
    RecordOf(c, actions, id).pushed.value
  }

  lemma TimeIs(c: Config, actions: seq<Action>, id: Id)
    requires id in After(c, actions).requests
    ensures After(c, actions).requests[id].time == PushTime(c, actions, id)
  {
    RecordsAgree(c, actions, id);
  }

  /** How many requests are left of a history of `n` after an action, by its kind. */
  function HistoryLeft(c: Config, a: Action, n: nat): nat
  {
    if a.Cleanup? then if n <= a.keep then n else a.keep
    else if n > c.maxHistory then c.maxHistory * 4 / 5
    else n
  }

  lemma HistoryStep(c: Config, s: Sys, a: Action, all: set<Id>)
    requires s.done <= s.requests.Keys && s.Enabled(c, a) && (a.Move? || a.MoveCancelled? || a.Cleanup?)
    requires all == if a.Cleanup? then s.done else s.done + {a.id}
    ensures all <= s.requests.Keys && s.Step(c, a).done <= all
    ensures |s.Step(c, a).done| == HistoryLeft(c, a, |all|)
    ensures forall kept, dropped | kept in s.Step(c, a).done && dropped in all - s.Step(c, a).done ::
              Older(s.requests, dropped, kept)
  {
    if a.Cleanup? {
      if |s.done| > a.keep { DropKeepsNewest(s.requests, s.done, |s.done| - a.keep); }
    } else {
      TrimmedIsBounded(s.requests, all, c.maxHistory);
    }
    hide Drop, Older;
  }

  /** Whenever the history loses requests, by the move of a worker or client or by a cleanup,
      it keeps exactly the number it should, and those that were pushed last: by the times in
      the pushes, and by the ids at equal times. */
  lemma NewestAreKept(c: Config, actions: seq<Action>, a: Action, kept: Id, dropped: Id)
    requires var s := After(c, actions);
             && s.Enabled(c, a) && (a.Move? || a.MoveCancelled? || a.Cleanup?)
             && kept in After(c, actions + [a]).done && dropped !in After(c, actions + [a]).done
             && (dropped in s.done || (!a.Cleanup? && dropped == a.id))
    ensures var s := After(c, actions);
            && kept in s.requests && dropped in s.requests
            && (PushTime(c, actions, dropped) < PushTime(c, actions, kept)
                || (PushTime(c, actions, dropped) == PushTime(c, actions, kept) && dropped < kept))
    ensures var all := After(c, actions).done + (if a.Cleanup? then {} else {a.id});
            |After(c, actions + [a]).done| == HistoryLeft(c, a, |all|)
  {
    hide After, Run, Sys.Valid, Sys.Step, PushTime, HistoryLeft, Sys.Enabled;
    var s := After(c, actions);
    AfterLast(c, actions, a);
    var all := if a.Cleanup? then s.done else s.done + {a.id};
    HistoryStep(c, s, a, all);
    assert dropped in all - s.Step(c, a).done;
    assert Older(s.requests, dropped, kept);
    assert s.done + {} == s.done;
    TimeIs(c, actions, kept);
    TimeIs(c, actions, dropped);
  }
}
