/** The request manager as an object: one method for each critical section, proved to take
    the step of the state machine, with the loops that trim the history. */
module RequestManagers {
  import opened Requests

  // ---- ordering the history

  ghost predicate OldestFirst(requests: map<Id, Request>, ids: seq<Id>)
  {
    && (forall i | 0 <= i < |ids| :: ids[i] in requests)
    && forall i, j | 0 <= i < j < |ids| :: Older(requests, ids[i], ids[j])
  }

  function Members(ids: seq<Id>): set<Id> { set id | id in ids }

  /** Everything from place `i` on is younger than a request that the one there is not older
      than. */
  lemma RestIsYounger(requests: map<Id, Request>, ids: seq<Id>, id: Id, i: nat)
    requires OldestFirst(requests, ids) && id in requests && id !in ids
    requires i < |ids| ==> !Older(requests, ids[i], id)
    ensures forall j | i <= j < |ids| :: Older(requests, id, ids[j])
  {
  }

  lemma InsertedFits(requests: map<Id, Request>, ids: seq<Id>, id: Id, i: nat)
    requires OldestFirst(requests, ids) && id in requests && i <= |ids|
    requires forall j | 0 <= j < i :: Older(requests, ids[j], id)
    requires forall j | i <= j < |ids| :: Older(requests, id, ids[j])
    ensures OldestFirst(requests, ids[..i] + [id] + ids[i..])
  {
    hide Older;
    var r := ids[..i] + [id] + ids[i..];
    forall j, k | 0 <= j < k < |r| ensures Older(requests, r[j], r[k]) {
      assert r[j] == if j < i then ids[j] else if j == i then id else ids[j - 1];
      assert r[k] == if k < i then ids[k] else if k == i then id else ids[k - 1];
    }
  }

  method InsertByAge(requests: map<Id, Request>, ids: seq<Id>, id: Id) returns (r: seq<Id>)
    requires OldestFirst(requests, ids) && id in requests && id !in ids
    ensures OldestFirst(requests, r) && Members(r) == Members(ids) + {id} && |r| == |ids| + 1
  {
    var i := 0;
    while i < |ids| && Older(requests, ids[i], id)
      invariant i <= |ids|
      invariant forall j | 0 <= j < i :: Older(requests, ids[j], id)
    {
      i := i + 1;
    }
    RestIsYounger(requests, ids, id, i);
    InsertedFits(requests, ids, id, i);
    hide OldestFirst, Older;
    r := ids[..i] + [id] + ids[i..];
    assert ids == ids[..i] + ids[i..];
  }

  /** All ids of a history, the oldest request first. */
  method SortByAge(requests: map<Id, Request>, done: set<Id>) returns (ids: seq<Id>)
    requires done <= requests.Keys
    ensures OldestFirst(requests, ids) && Members(ids) == done && |ids| == |done|
  {
    ids := [];
    var rest := done;
    while rest != {}
      invariant rest <= done && OldestFirst(requests, ids) && Members(ids) == done - rest
      invariant |ids| == |done| - |rest|
      decreases |rest|
    {
      var id :| id in rest;
      assert id !in Members(ids);
      ids := InsertByAge(requests, ids, id);
      rest := rest - {id};
    }
  }

  /** Dropping the oldest is cutting off the front of the sorted history. */
  lemma {:induction false} DropIsCut(requests: map<Id, Request>, done: set<Id>, ids: seq<Id>, n: nat)
    requires done <= requests.Keys && n <= |done| == |ids|
    requires OldestFirst(requests, ids) && Members(ids) == done
    ensures Drop(requests, done, n) == Members(ids[n..])
    decreases n
  {
    if n == 0 {
      assert ids[0..] == ids;
    } else {
      var first := ids[0];
      assert first in done && IsOldest(requests, done, first);
      assert Oldest(requests, done) == first;
      var rest := ids[1..];
      assert ids == [first] + rest;
      assert Members(rest) == done - {first} by {
        assert first !in rest;
      }
      DropIsCut(requests, done - {first}, rest, n - 1);
      assert rest[n - 1..] == ids[n..];
    }
  }

  class RequestManager {
    const limits: Config
    var queue: seq<Id>
    var requests: map<Id, Request>
    var active: set<Id>
    var completed: set<Id>
    var completedCount: nat
    var failedCount: nat
    var timeoutCount: nat
    ghost var evicted: set<Id>
    ghost var checked: nat
    ghost var pushed: set<Id>
    ghost var cancelling: set<Id>
    ghost var dequeued: seq<Id>

    ghost function S(): Sys
      reads this
    {
      Sys(queue, requests, active, completed, evicted, checked, pushed, cancelling, dequeued, completedCount,
          failedCount, timeoutCount)
    }

    constructor (limits: Config)
      ensures this.limits == limits && S() == INITIAL
    {
      this.limits := limits;
      queue, requests, active, completed := [], map[], {}, {};
      completedCount, failedCount, timeoutCount := 0, 0, 0;
      evicted, checked, pushed, cancelling, dequeued := {}, 0, {}, {}, [];
    }

    /** The first section of a submission. `full` is the error for a queue without room. */
    method CheckQueue() returns (full: bool)
      modifies this`checked
      ensures full == (|queue| >= limits.maxQueue)
      ensures S() == if full then old(S()) else old(S()).(checked := old(checked) + 1)
    {
      full := |queue| >= limits.maxQueue;
      if !full {
        checked := checked + 1;
      }
    }

    method PushRequest(id: Id, time: int)
      requires checked > 0
      modifies this
      ensures S() == old(S()).AfterPush(id, time)
    {
      requests := requests[id := Request(Pending, time, Queued)];
      queue := queue + [id];
      checked, pushed := checked - 1, pushed + {id};
    }

    method InsertActive(id: Id)
      modifies this
      ensures S() == old(S()).(active := old(active) + {id}, pushed := old(pushed) - {id})
    {
      active := active + {id};
      pushed := pushed - {id};
    }

    /** A worker takes the next request, if there is one. */
    method TakeRequest() returns (found: bool, id: Id)
      requires queue != [] ==> queue[0] in requests
      modifies this
      ensures found == (old(queue) != []) && (found ==> id == old(queue)[0])
      ensures S() == if found then old(S()).AfterTake() else old(S())
    {
      found, id := false, 0;
      if queue != [] {
        found, id := true, queue[0];
        requests := requests[id := requests[id].(place := Taken)];
        queue, dequeued := queue[1..], dequeued + [id];
      }
    }

    method StartProcessing(id: Id)
      requires id in requests
      modifies this
      ensures S() == old(S()).AfterStart(id)
    {
      var r := requests[id];
      if r.status != Cancelled {
        r := r.(status := Processing);
      }
      requests := requests[id := r.(place := Started)];
    }

    method RecordOutcome(id: Id, outcome: Outcome)
      requires id in requests
      modifies this
      ensures S() == old(S()).AfterSettle(id, outcome.Result())
    {
      var r := requests[id];
      if r.status != Cancelled {
        r := r.(status := outcome.Result());
        Count(outcome);
      }
      requests := requests[id := r.(place := Settled)];
    }

    method Count(outcome: Outcome)
      modifies this`completedCount, this`failedCount, this`timeoutCount
      ensures S() == old(S()).Counted(outcome.Result())
    {
      match outcome
      case Returned => completedCount := completedCount + 1;
      case Threw => failedCount := failedCount + 1;
      case Expired => timeoutCount := timeoutCount + 1;
    }

    /** Keeps four fifths of the limit, the newest requests. */
    method CleanupOldRequests()
      requires completed <= requests.Keys
      modifies this`completed
      ensures var target := limits.maxHistory * 4 / 5;
              completed == if |old(completed)| <= target then old(completed)
                           else Drop(requests, old(completed), |old(completed)| - target)
    {
      var target := limits.maxHistory * 4 / 5;
      if |completed| <= target { return; }
      var byAge := SortByAge(requests, completed);
      var toRemove := |completed| - target;
      DropIsCut(requests, completed, byAge, toRemove);
      var i := 0;
      while i < toRemove
        invariant i <= toRemove
        invariant completed == Members(byAge[i..])
      {
        AgesDiffer(requests, byAge, i);
        completed := completed - {byAge[i]};
        i := i + 1;
      }
    }

    method MoveToCompleted(id: Id)
      requires id in requests && completed <= requests.Keys
      modifies this
      ensures S() == old(S()).Moved(limits, id)
    {
      hide Drop;
      active := active - {id};
      completed := completed + {id};
      ghost var all := completed;
      if |completed| > limits.maxHistory {
        CleanupOldRequests();
      }
      assert completed == Trimmed(requests, all, limits.maxHistory);
      hide Trimmed;
      evicted := (evicted - {id}) + (all - completed);
    }

    method LayDown(id: Id)
      requires id in requests
      modifies this`requests
      ensures S() == old(S()).Put(id, old(requests)[id].(place := LaidDown))
    {
      requests := requests[id := requests[id].(place := LaidDown)];
    }

    /** The first section of a cancellation. */
    method MarkCancelled(id: Id) returns (cancelled: bool)
      requires active <= requests.Keys
      modifies this
      ensures cancelled == (id in old(active) && !old(requests)[id].status.Terminal())
      ensures S() == if cancelled then old(S()).AfterCancel(id) else old(S())
    {
      cancelled := id in active && (requests[id].status == Pending || requests[id].status == Processing);
      if cancelled {
        requests := requests[id := requests[id].(status := Cancelled)];
        cancelling := cancelling + {id};
      }
    }

    /** A cancellation: the request ends as cancelled and leaves the active map. */
    method CancelRequest(id: Id) returns (cancelled: bool)
      requires S().Valid(limits)
      modifies this
      ensures S().Valid(limits)
      ensures cancelled == (id in old(active) && !old(requests)[id].status.Terminal())
      ensures S() == if cancelled then old(S()).Step(limits, Cancel(id)).Step(limits, MoveCancelled(id)) else old(S())
    {
      hide Sys.Valid, Sys.Step, Sys.Moved, Sys.AfterCancel;
      ghost var s := S();
      CancelTaken(limits, s, id);
      cancelled := MarkCancelled(id);
      if cancelled {
        MoveToCompleted(id);
        cancelling := cancelling - {id};
      }
    }

    /** One submission from start to end when no other thread comes in between. */
    method SubmitRequest(id: Id, time: int) returns (full: bool)
      requires S().Valid(limits) && id !in requests && checked + |pushed| < limits.submitters
      modifies this
      ensures S().Valid(limits)
      ensures full == (|old(queue)| >= limits.maxQueue)
      ensures S() == if full then old(S())
                     else old(S()).Step(limits, Check).Step(limits, Push(id, time)).Step(limits, Insert(id))
    {
      ghost var s := S();
      KnownIds(limits, s);
      hide Sys.Valid;
      StepValid(limits, s, Check);
      full := CheckQueue();
      if !full {
        ghost var t := S();
        assert t == s.Step(limits, Check);
        StepValid(limits, t, Push(id, time));
        PushRequest(id, time);
        ghost var u := S();
        assert u == t.Step(limits, Push(id, time));
        StepValid(limits, u, Insert(id));
        InsertActive(id);
      }
    }

    /** What a worker does with the next request, from the queue to the history. */
    method ProcessNext(outcome: Outcome) returns (found: bool, id: Id)
      requires S().Valid(limits)
      modifies this
      ensures S().Valid(limits)
      ensures found == (old(queue) != []) && (found ==> id == old(queue)[0])
      ensures S() == if found then WorkerSteps(limits, old(S()), id, outcome) else old(S())
    {
      ghost var s := S();
      KnownIds(limits, s);
      FirstIsQueued(limits, s);
      StepValid(limits, s, Take);
      hide Sys.Valid, Sys.Step, Sys.Moved, Sys.AfterTake, Sys.AfterStart, Sys.AfterSettle;
      found, id := TakeRequest();
      if found {
        ghost var t := S();
        TakeSteps(limits, s);
        StepValid(limits, t, Start(id));
        StartSteps(limits, t, id);
        StartProcessing(id);
        ghost var u := S();
        StepValid(limits, u, Settle(id, outcome));
        SettleSteps(limits, u, id, outcome);
        RecordOutcome(id, outcome);
        ghost var v := S();
        StepValid(limits, v, Move(id));
        MoveSteps(limits, v, id);
        MoveToCompleted(id);
        LayDown(id);
      }
    }
  }

  /** The four sections of a worker with one request. */
  ghost function WorkerSteps(c: Config, s: Sys, id: Id, outcome: Outcome): Sys
    requires s.Valid(c)
  {
    StepValid(c, s, Take);
    var t := s.Step(c, Take);
    StepValid(c, t, Start(id));
    var u := t.Step(c, Start(id));
    StepValid(c, u, Settle(id, outcome));
    var v := u.Step(c, Settle(id, outcome));
    StepValid(c, v, Move(id));
    v.Step(c, Move(id))
  }

  lemma KnownIds(c: Config, s: Sys)
    requires s.Valid(c)
    ensures s.active <= s.requests.Keys && s.done <= s.requests.Keys
  {
  }

  lemma FirstIsQueued(c: Config, s: Sys)
    requires s.Valid(c)
    ensures s.queue != [] ==> s.queue[0] in s.requests
  {
    if s.queue != [] {
      assert s.queue[0] in s.queue;
    }
  }

  // ---- the sections as steps

  lemma CancelSteps(c: Config, s: Sys, id: Id)
    requires s.active <= s.requests.Keys && s.done <= s.requests.Keys
    ensures s.Step(c, Cancel(id)) ==
            if id in s.active && !s.requests[id].status.Terminal() then s.AfterCancel(id) else s
    ensures id in s.active ==> id in s.AfterCancel(id).requests && id in s.AfterCancel(id).cancelling
  {
  }

  /** Both sections of a cancellation that takes effect. */
  lemma CancelTaken(c: Config, s: Sys, id: Id)
    requires s.Valid(c)
    ensures s.active <= s.requests.Keys && s.done <= s.requests.Keys
    ensures id in s.active && !s.requests[id].status.Terminal() ==>
              var t := s.AfterCancel(id);
              && t.done <= t.requests.Keys && id in t.requests
              && s.Step(c, Cancel(id)) == t
              && t.Step(c, MoveCancelled(id)) == t.Moved(c, id).(cancelling := t.cancelling - {id})
              && t.Moved(c, id).cancelling == t.cancelling
              && t.Step(c, MoveCancelled(id)).Valid(c)
  {
    KnownIds(c, s);
    if id in s.active && !s.requests[id].status.Terminal() {
      CancelSteps(c, s, id);
      StepValid(c, s, Cancel(id));
      hide Sys.Valid, Sys.Step, Sys.Moved;
      var t := s.AfterCancel(id);
      KnownIds(c, t);
      StepValid(c, t, MoveCancelled(id));
      MoveCancelledSteps(c, t, id);
    }
  }

  lemma MoveCancelledSteps(c: Config, s: Sys, id: Id)
    requires s.done <= s.requests.Keys && id in s.requests && id in s.cancelling
    ensures s.Step(c, MoveCancelled(id)) == s.Moved(c, id).(cancelling := s.cancelling - {id})
    ensures s.Moved(c, id).cancelling == s.cancelling
  {
    hide Trimmed;
  }

  lemma TakeSteps(c: Config, s: Sys)
    requires s.done <= s.requests.Keys && s.queue != [] && s.queue[0] in s.requests
    ensures s.Step(c, Take) == s.AfterTake() && s.AfterTake().At(s.queue[0], Taken)
  {
  }

  lemma StartSteps(c: Config, s: Sys, id: Id)
    requires s.done <= s.requests.Keys && s.At(id, Taken)
    ensures s.Step(c, Start(id)) == s.AfterStart(id) && s.AfterStart(id).At(id, Started)
  {
  }

  lemma SettleSteps(c: Config, s: Sys, id: Id, outcome: Outcome)
    requires s.done <= s.requests.Keys && s.At(id, Started)
    ensures s.Step(c, Settle(id, outcome)) == s.AfterSettle(id, outcome.Result())
    ensures s.AfterSettle(id, outcome.Result()).At(id, Settled)
  {
  }

  lemma MoveSteps(c: Config, s: Sys, id: Id)
    requires s.done <= s.requests.Keys && s.At(id, Settled)
    ensures s.Step(c, Move(id)) == s.Moved(c, id).Put(id, s.requests[id].(place := LaidDown))
  {
    hide Trimmed;
  }

  lemma AgesDiffer(requests: map<Id, Request>, ids: seq<Id>, i: nat)
    requires OldestFirst(requests, ids) && i < |ids|
    ensures Members(ids[i + 1..]) == Members(ids[i..]) - {ids[i]}
  {
    assert ids[i..] == [ids[i]] + ids[i + 1..];
    assert ids[i] !in ids[i + 1..];
  }
}
