/** The conditional engine: steps in list order, each run when its condition holds in the
    context that the steps before it have left. */
module Conditional {
  import opened JsonValues
  import opened Wrappers
  import Conditions
  import Persistence

  datatype State = Running | Paused | Completed | Failed | Cancelled

  /** How the tries of a step ended: whether with success, and the output that the last try
      to complete has left, if one did. A try that succeeds leaves none when the wait for it is
      broken off, and one that completes can still fail, when it took too long. */
  datatype Outcome = Outcome(done: bool, output: Option<Json>)

  /** What lies outside the engine: the outcomes, and the states other threads write just
      before the engine looks at step `i` and while it works on it. */
  datatype World = World(outcome: nat -> Outcome, before: nat -> Option<State>, during: nat -> Option<State>)

  /** The engine looked at a step in a context, and ran it or not. */
  datatype Look = Look(step: nat, context: Json, ran: bool)

  datatype Exec = Exec(state: State, context: map<string, Json>, looks: seq<Look>)
  {
    function Write(s: Option<State>): Exec { if s.Some? then this.(state := s.value) else this }

    /** After a step whose output is kept in the context. */
    function After(id: string, outcome: Outcome): Exec
    {
      if outcome.output.Some? then this.(context := context[OutputKey(id) := outcome.output.value])
      else this
    }

    function Looked(i: nat, ran: bool): Exec { this.(looks := looks + [Look(i, Object(context), ran)]) }
  }

  function OutputKey(id: string): string { id + "_output" }

  /** The decision about a step: an empty condition lets it run. */
  function Decision(conditions: Json, context: Json): Conditions.Verdict
  {
    if conditions.Empty() then Conditions.Holds(true) else Conditions.Evaluate(conditions, context)
  }

  /** The rest of a run, from step `i` on. A type error in a condition fails the execution. */
  function RunFrom(wf: Persistence.Workflow, w: World, e: Exec, i: nat): Exec
    requires i <= |wf.steps|
    decreases |wf.steps| - i
  {
    var f := e.Write(w.before(i));
    if i == |wf.steps| || f.state != Running then
      if f.state == Running then f.(state := Completed) else f
    else
      match Decision(wf.steps[i].conditions, Object(f.context))
      case TypeError => f.(state := Failed)
      case Holds(false) => RunFrom(wf, w, f.Looked(i, false), i + 1)
      case Holds(true) =>
        var g := f.Looked(i, true).After(wf.steps[i].id, w.outcome(i)).Write(w.during(i));
        if !w.outcome(i).done && !wf.steps[i].optional && !wf.allowPartialFailure then g.(state := Failed)
        else RunFrom(wf, w, g, i + 1)
  }

  function Started(context: map<string, Json>): Exec { Exec(Running, context, []) }

  // ---- decisions over a run

  /** The context that a look leaves behind: with the output of the step, when it was run and
      has one. */
  function Left(wf: Persistence.Workflow, w: World, look: Look): Json
    requires look.step < |wf.steps|
  {
    var o := w.outcome(look.step);
    if look.ran && look.context.Object? && o.output.Some? then
      Object(look.context.fields[OutputKey(wf.steps[look.step].id) := o.output.value])
    else look.context
  }

  /** One look at each step in list order, up to some step; each in the context that the look
      before it left, and the step is run exactly when its condition holds there. */
  ghost predicate InOrder(wf: Persistence.Workflow, w: World, context: map<string, Json>, looks: seq<Look>)
  {
    && |looks| <= |wf.steps|
    && (forall p | 0 <= p < |looks| :: IsLook(wf, looks[p], p, ContextAt(wf, w, context, looks, p)))
  }

  /** A look at step `p` in that context, which decided whether the step was run. */
  predicate IsLook(wf: Persistence.Workflow, look: Look, p: nat, context: Json)
  {
    && look.step == p < |wf.steps| && look.context == context
    && Decision(wf.steps[p].conditions, look.context) == Conditions.Holds(look.ran)
  }

  /** The context at look `p`, or behind the last one. */
  function ContextAt(wf: Persistence.Workflow, w: World, context: map<string, Json>, looks: seq<Look>, p: nat): Json
    requires p <= |looks|
  {
    if p == 0 then Object(context)
    else if looks[p - 1].step < |wf.steps| then Left(wf, w, looks[p - 1])
    else looks[p - 1].context
  }

  /** Between the steps: all steps before `i` have been looked at. */
  ghost predicate Between(wf: Persistence.Workflow, w: World, context: map<string, Json>, e: Exec, i: nat)
  {
    && |e.looks| == i && InOrder(wf, w, context, e.looks)
    && Object(e.context) == ContextAt(wf, w, context, e.looks, i)
  }

  lemma LooksKeep(wf: Persistence.Workflow, w: World, context: map<string, Json>, looks: seq<Look>, look: Look)
    requires InOrder(wf, w, context, looks)
    requires IsLook(wf, look, |looks|, ContextAt(wf, w, context, looks, |looks|))
    ensures InOrder(wf, w, context, looks + [look])
    ensures ContextAt(wf, w, context, looks + [look], |looks| + 1) == Left(wf, w, look)
  {
    assert look.step == |looks| < |wf.steps|;
    hide IsLook, Left;
    var more := looks + [look];
    forall p | 0 <= p < |more| ensures IsLook(wf, more[p], p, ContextAt(wf, w, context, more, p)) {
      assert ContextAt(wf, w, context, more, p) == ContextAt(wf, w, context, looks, p);
      assert p < |looks| ==> more[p] == looks[p];
    }
  }

  lemma StepKeeps(wf: Persistence.Workflow, w: World, context: map<string, Json>, e: Exec, i: nat, ran: bool)
    requires i < |wf.steps| && Between(wf, w, context, e, i)
    requires Decision(wf.steps[i].conditions, Object(e.context)) == Conditions.Holds(ran)
    ensures var f := e.Looked(i, ran);
            Between(wf, w, context, if ran then f.After(wf.steps[i].id, w.outcome(i)) else f, i + 1)
  {
    hide Decision, OutputKey, InOrder, ContextAt;
    LooksKeep(wf, w, context, e.looks, Look(i, Object(e.context), ran));
  }

  /** The states that other threads write do not matter to the looks. */
  lemma WriteKeeps(wf: Persistence.Workflow, w: World, context: map<string, Json>, e: Exec, i: nat, s: Option<State>)
    requires Between(wf, w, context, e, i)
    ensures Between(wf, w, context, e.Write(s), i) && e.Write(s).looks == e.looks && e.Write(s).context == e.context
  {
    hide Decision;
  }

  lemma BetweenIsInOrder(wf: Persistence.Workflow, w: World, context: map<string, Json>, e: Exec, i: nat)
    requires Between(wf, w, context, e, i)
    ensures InOrder(wf, w, context, e.looks)
  {
  }

  lemma {:induction false} RunIsInOrder(wf: Persistence.Workflow, w: World, context: map<string, Json>, e: Exec, i: nat)
    requires i <= |wf.steps| && Between(wf, w, context, e, i)
    ensures InOrder(wf, w, context, RunFrom(wf, w, e, i).looks)
    decreases |wf.steps| - i
  {
    hide Between, InOrder, Decision, Exec.Looked, Exec.After, Exec.Write;
    var f := e.Write(w.before(i));
    WriteKeeps(wf, w, context, e, i, w.before(i));
    BetweenIsInOrder(wf, w, context, f, i);
    if i < |wf.steps| && f.state == Running {
      match Decision(wf.steps[i].conditions, Object(f.context))
      case TypeError =>
      case Holds(false) =>
        StepKeeps(wf, w, context, f, i, false);
        RunIsInOrder(wf, w, context, f.Looked(i, false), i + 1);
      case Holds(true) =>
        StepKeeps(wf, w, context, f, i, true);
        var g := f.Looked(i, true).After(wf.steps[i].id, w.outcome(i));
        WriteKeeps(wf, w, context, g, i + 1, w.during(i));
        BetweenIsInOrder(wf, w, context, g.Write(w.during(i)), i + 1);
        if !(!w.outcome(i).done && !wf.steps[i].optional && !wf.allowPartialFailure) {
          RunIsInOrder(wf, w, context, g.Write(w.during(i)), i + 1);
        }
    }
  }

  /** In every run of every workflow, however disturbed: the engine looks at one step after the
      other in list order, each in the initial context with the outputs of the steps run so
      far, and runs exactly those whose condition holds there. */
  lemma RunsWhereConditionsHold(wf: Persistence.Workflow, w: World, context: map<string, Json>)
    ensures InOrder(wf, w, context, RunFrom(wf, w, Started(context), 0).looks)
  {
    RunIsInOrder(wf, w, context, Started(context), 0);
  }

  // ---- growing contexts

  /** The step that was run puts another value in the place of one in the context. */
  predicate WritesOver(wf: Persistence.Workflow, w: World, look: Look)
    requires look.step < |wf.steps|
  {
    var o, key := w.outcome(look.step), OutputKey(wf.steps[look.step].id);
    look.ran && o.output.Some? && look.context.Has(key) && look.context.At(key) != o.output.value
  }

  lemma LeftExtends(wf: Persistence.Workflow, w: World, look: Look)
    requires look.step < |wf.steps| && look.context.Object?
    ensures Left(wf, w, look).Object?
    ensures Conditions.Extends(look.context, Left(wf, w, look)) <==> !WritesOver(wf, w, look)
  {
    hide OutputKey;
    if WritesOver(wf, w, look) {
      assert OutputKey(wf.steps[look.step].id) in look.context.fields;
    }
  }

  /** The step and the context of two looks, one after the other. */
  lemma NextContext(wf: Persistence.Workflow, w: World, context: map<string, Json>, looks: seq<Look>, p: nat)
    requires InOrder(wf, w, context, looks) && p < |looks|
    ensures p < |wf.steps| && looks[p].step == p
    ensures p == 0 ==> looks[p].context == Object(context)
    ensures p + 1 < |looks| ==> looks[p + 1].context == Left(wf, w, looks[p])
  {
    hide Decision, Left;
    assert IsLook(wf, looks[p], p, ContextAt(wf, w, context, looks, p));
    if p + 1 < |looks| {
      assert IsLook(wf, looks[p + 1], p + 1, ContextAt(wf, w, context, looks, p + 1));
    }
  }

  lemma ExtendsThen(a: Json, b: Json, c: Json)
    requires Conditions.Extends(a, b) && Conditions.Extends(b, c)
    ensures Conditions.Extends(a, c)
  {
  }

  lemma ExtendsItself(a: Json)
    requires a.Object?
    ensures Conditions.Extends(a, a)
  {
  }

  lemma {:induction false} ContextsAreObjects(wf: Persistence.Workflow, w: World, context: map<string, Json>,
                                              looks: seq<Look>, p: nat)
    requires InOrder(wf, w, context, looks) && p < |looks|
    ensures looks[p].context.Object?
  {
    hide InOrder, WritesOver, Conditions.Extends, Left;
    NextContext(wf, w, context, looks, p);
    if p > 0 {
      NextContext(wf, w, context, looks, p - 1);
      ContextsAreObjects(wf, w, context, looks, p - 1);
      LeftExtends(wf, w, looks[p - 1]);
    }
  }

  /** While nothing is written over, later contexts extend earlier ones. */
  lemma {:induction false} ExtendedUpTo(wf: Persistence.Workflow, w: World, context: map<string, Json>,
                                        looks: seq<Look>, p: nat, q: nat)
    requires InOrder(wf, w, context, looks) && p <= q < |looks|
    requires forall k | p <= k < q :: looks[k].step < |wf.steps| && !WritesOver(wf, w, looks[k])
    ensures Conditions.Extends(looks[p].context, looks[q].context)
    decreases q
  {
    hide *;
    if p == q {
      ContextsAreObjects(wf, w, context, looks, p);
      ExtendsItself(looks[p].context);
    } else {
      ContextsAreObjects(wf, w, context, looks, q - 1);
      NextContext(wf, w, context, looks, q - 1);
      ExtendedUpTo(wf, w, context, looks, p, q - 1);
      LeftExtends(wf, w, looks[q - 1]);
      ExtendsThen(looks[p].context, looks[q - 1].context, looks[q].context);
    }
  }

  /** The contexts only grow exactly when no step but the last one run writes over a key. */
  lemma ContextsGrowExactly(wf: Persistence.Workflow, w: World, context: map<string, Json>, looks: seq<Look>)
    requires looks == RunFrom(wf, w, Started(context), 0).looks
    ensures |looks| <= |wf.steps| && forall p | 0 <= p < |looks| :: looks[p].step == p
    ensures (forall p, q | 0 <= p < q < |looks| :: Conditions.Extends(looks[p].context, looks[q].context))
       <==> forall p | 0 <= p < |looks| - 1 :: !WritesOver(wf, w, looks[p])
  {
    RunsWhereConditionsHold(wf, w, context);
    assert |looks| <= |wf.steps|;
    hide *;
    forall p | 0 <= p < |looks| ensures looks[p].step == p { NextContext(wf, w, context, looks, p); }
    if forall p | 0 <= p < |looks| - 1 :: !WritesOver(wf, w, looks[p]) {
      forall p, q | 0 <= p < q < |looks| ensures Conditions.Extends(looks[p].context, looks[q].context) {
        ExtendedUpTo(wf, w, context, looks, p, q);
      }
    }
    if forall p, q | 0 <= p < q < |looks| :: Conditions.Extends(looks[p].context, looks[q].context) {
      forall p | 0 <= p < |looks| - 1 ensures !WritesOver(wf, w, looks[p]) {
        ContextsAreObjects(wf, w, context, looks, p);
        NextContext(wf, w, context, looks, p);
        LeftExtends(wf, w, looks[p]);
        assert Conditions.Extends(looks[p].context, looks[p + 1].context);
      }
    }
  }

  /** Steps have ids of their own, and the initial context has none of their keys. */
  predicate FreshOutputs(wf: Persistence.Workflow, context: map<string, Json>)
  {
    && (forall i, j | 0 <= i < j < |wf.steps| :: wf.steps[i].id != wf.steps[j].id)
    && (forall j | 0 <= j < |wf.steps| :: OutputKey(wf.steps[j].id) !in context)
  }

  lemma KeysDiffer(a: string, b: string)
    requires a != b
    ensures OutputKey(a) != OutputKey(b)
  {
    assert OutputKey(a)[..|a|] == a && OutputKey(b)[..|b|] == b;
    assert |OutputKey(a)| == |a| + 7 && |OutputKey(b)| == |b| + 7;
  }

  lemma LeftHas(wf: Persistence.Workflow, w: World, look: Look, key: string)
    requires look.step < |wf.steps| && key != OutputKey(wf.steps[look.step].id)
    ensures Left(wf, w, look).Has(key) <==> look.context.Has(key)
  {
    hide OutputKey;
  }

  lemma {:induction false} KeyToCome(wf: Persistence.Workflow, w: World, context: map<string, Json>,
                                     looks: seq<Look>, p: nat, j: nat)
    requires InOrder(wf, w, context, looks) && FreshOutputs(wf, context) && p < |looks| && p <= j < |wf.steps|
    ensures !looks[p].context.Has(OutputKey(wf.steps[j].id))
    decreases p
  {
    hide InOrder, OutputKey, Left;
    NextContext(wf, w, context, looks, p);
    if p > 0 {
      KeyToCome(wf, w, context, looks, p - 1, j);
      NextContext(wf, w, context, looks, p - 1);
      KeysDiffer(wf.steps[p - 1].id, wf.steps[j].id);
      LeftHas(wf, w, looks[p - 1], OutputKey(wf.steps[j].id));
    }
  }

  /** Then nothing is ever written over. */
  lemma FreshOutputsGrow(wf: Persistence.Workflow, w: World, context: map<string, Json>)
    requires FreshOutputs(wf, context)
    ensures var looks := RunFrom(wf, w, Started(context), 0).looks;
            forall p, q | 0 <= p < q < |looks| :: Conditions.Extends(looks[p].context, looks[q].context)
  {
    var looks := RunFrom(wf, w, Started(context), 0).looks;
    RunsWhereConditionsHold(wf, w, context);
    ContextsGrowExactly(wf, w, context, looks);
    hide RunFrom, Conditions.Extends, FreshOutputs, OutputKey, InOrder;
    forall p | 0 <= p < |looks| - 1 ensures !WritesOver(wf, w, looks[p]) {
      KeyToCome(wf, w, context, looks, p, p);
    }
  }

  /** A condition built with "and" and "or" on non-empty field paths that let one step run lets
      a later step with the same condition run, unless a step in between wrote over a key. */
  lemma LaterStepsRunToo(wf: Persistence.Workflow, w: World, context: map<string, Json>, p: nat, q: nat)
    requires var looks := RunFrom(wf, w, Started(context), 0).looks;
             && p < q < |looks| <= |wf.steps| && looks[p].ran
             && (forall k | p <= k < q :: looks[k].step < |wf.steps| && !WritesOver(wf, w, looks[k]))
    requires wf.steps[q].conditions == wf.steps[p].conditions
    requires Conditions.Positive(wf.steps[p].conditions) && Conditions.WellTyped(wf.steps[p].conditions)
    ensures RunFrom(wf, w, Started(context), 0).looks[q].ran
  {
    var looks := RunFrom(wf, w, Started(context), 0).looks;
    RunsWhereConditionsHold(wf, w, context);
    assert IsLook(wf, looks[p], p, ContextAt(wf, w, context, looks, p));
    assert IsLook(wf, looks[q], q, ContextAt(wf, w, context, looks, q));
    hide RunFrom, WritesOver, Left, InOrder;
    var c := wf.steps[p].conditions;
    ExtendedUpTo(wf, w, context, looks, p, q);
    assert Decision(c, looks[p].context) == Conditions.Holds(true);
    if !c.Empty() {
      Conditions.WellTypedMonotone(c, looks[p].context, looks[q].context);
    }
    assert Decision(c, looks[q].context) == Conditions.Holds(looks[q].ran);
  }

  // ---- how a run ends

  /** The context when the engine looks at step `i`: that of the start, with the outputs of the
      steps before whose conditions held. */
  function ContextBefore(wf: Persistence.Workflow, w: World, context: map<string, Json>, i: nat): map<string, Json>
    requires i <= |wf.steps|
    decreases i, 0
  {
    if i == 0 then context
    else
      var before := ContextBefore(wf, w, context, i - 1);
      if Verdict(wf, w, context, i - 1) == Conditions.Holds(true) && w.outcome(i - 1).output.Some?
      then before[wf.steps[i - 1].id + "_output" := w.outcome(i - 1).output.value]
      else before
  }

  /** The value of the condition of step `i` there. */
  function Verdict(wf: Persistence.Workflow, w: World, context: map<string, Json>, i: nat): Conditions.Verdict
    requires i < |wf.steps|
    decreases i, 1
  {
    Conditions.Evaluate(wf.steps[i].conditions, Object(ContextBefore(wf, w, context, i)))
  }

  /** The state the engine finds at look `i`: the last one another thread wrote, or running. A
      step that is skipped gives no time for writes. */
  function Seen(wf: Persistence.Workflow, w: World, context: map<string, Json>, i: nat): State
    requires i <= |wf.steps|
    decreases i, 0
  {
    if w.before(i).Some? then w.before(i).value else if i == 0 then Running else LeftBy(wf, w, context, i - 1)
  }

  function LeftBy(wf: Persistence.Workflow, w: World, context: map<string, Json>, i: nat): State
    requires i < |wf.steps|
    decreases i, 1
  {
    if Verdict(wf, w, context, i) == Conditions.Holds(true) && w.during(i).Some? then w.during(i).value
    else Seen(wf, w, context, i)
  }

  /** Step `i` does not end a run: its condition does not hold, or it is done, or may fail. */
  predicate Passes(wf: Persistence.Workflow, w: World, context: map<string, Json>, i: nat)
    requires i < |wf.steps|
  {
    || Verdict(wf, w, context, i) == Conditions.Holds(false)
    || (Verdict(wf, w, context, i) == Conditions.Holds(true)
        && (w.outcome(i).done || wf.steps[i].optional || wf.allowPartialFailure))
  }

  predicate Reaches(wf: Persistence.Workflow, w: World, context: map<string, Json>, k: nat)
    requires k <= |wf.steps|
  {
    forall j | 0 <= j < k :: Seen(wf, w, context, j) == Running && Passes(wf, w, context, j)
  }

  /** A run ends at look `k` in state `s`: in what another thread wrote, when that is not
      running; else as completed when the list is at its end; else as failed when the condition
      there is an error or the step has failed, whatever is written while it is at work. */
  predicate EndsAt(wf: Persistence.Workflow, w: World, context: map<string, Json>, k: nat, s: State)
  {
    && k <= |wf.steps| && Reaches(wf, w, context, k)
    && (if Seen(wf, w, context, k) != Running then s == Seen(wf, w, context, k)
        else if k == |wf.steps| then s == Completed
        else !Passes(wf, w, context, k) && s == Failed)
  }

  lemma OneEnd(wf: Persistence.Workflow, w: World, context: map<string, Json>, k: nat, s: State, l: nat, t: State)
    requires EndsAt(wf, w, context, k, s) && EndsAt(wf, w, context, l, t)
    ensures k == l && s == t
  {
    hide Seen, Passes;
  }

  /** How many steps a run has come to that ends at look `k`. */
  function WorkedThrough(wf: Persistence.Workflow, w: World, context: map<string, Json>, k: nat): nat
    requires k <= |wf.steps|
  {
    if k < |wf.steps| && Seen(wf, w, context, k) == Running && Verdict(wf, w, context, k) == Conditions.Holds(true)
    then k + 1 else k
  }

  ghost predicate Arrived(wf: Persistence.Workflow, w: World, context: map<string, Json>, e: Exec, i: nat)
  {
    && i <= |wf.steps| && Reaches(wf, w, context, i) && e.context == ContextBefore(wf, w, context, i) && |e.looks| == i
    && e.state == if i == 0 then Running else LeftBy(wf, w, context, i - 1)
  }

  lemma DecisionIsVerdict(wf: Persistence.Workflow, w: World, context: map<string, Json>, e: Exec, i: nat)
    requires i < |wf.steps| && e.context == ContextBefore(wf, w, context, i)
    ensures Decision(wf.steps[i].conditions, Object(e.context)) == Verdict(wf, w, context, i)
  {
  }

  /** Where the run has come to, and with what. */
  ghost predicate Came(wf: Persistence.Workflow, w: World, context: map<string, Json>, k: nat, r: Exec)
  {
    && EndsAt(wf, w, context, k, r.state) && |r.looks| == WorkedThrough(wf, w, context, k)
    && r.context == ContextBefore(wf, w, context, WorkedThrough(wf, w, context, k))
  }

  /** Looking at step `i` while running, before its condition is evaluated. */
  ghost predicate Looking(wf: Persistence.Workflow, w: World, context: map<string, Json>, f: Exec, i: nat)
  {
    && i < |wf.steps| && Reaches(wf, w, context, i) && f.context == ContextBefore(wf, w, context, i) && |f.looks| == i
    && f.state == Seen(wf, w, context, i) == Running
  }

  lemma MoreReached(wf: Persistence.Workflow, w: World, context: map<string, Json>, i: nat)
    requires i < |wf.steps| && Reaches(wf, w, context, i) && Seen(wf, w, context, i) == Running
    requires Passes(wf, w, context, i)
    ensures Reaches(wf, w, context, i + 1)
  {
    hide Seen, Passes;
  }

  lemma SkippedArrives(wf: Persistence.Workflow, w: World, context: map<string, Json>, f: Exec, i: nat)
    requires Looking(wf, w, context, f, i) && Verdict(wf, w, context, i) == Conditions.Holds(false)
    ensures Arrived(wf, w, context, f.Looked(i, false), i + 1)
  {
    MoreReached(wf, w, context, i);
    hide Verdict, Reaches;
  }

  lemma RanArrives(wf: Persistence.Workflow, w: World, context: map<string, Json>, f: Exec, i: nat)
    requires Looking(wf, w, context, f, i) && Verdict(wf, w, context, i) == Conditions.Holds(true)
    ensures var g := f.Looked(i, true).After(wf.steps[i].id, w.outcome(i)).Write(w.during(i));
            && g.context == ContextBefore(wf, w, context, i + 1) && |g.looks| == i + 1
            && (Passes(wf, w, context, i) ==> Arrived(wf, w, context, g, i + 1))
  {
    if Passes(wf, w, context, i) { MoreReached(wf, w, context, i); }
    hide Verdict, Reaches, Passes;
  }

  lemma LooksFirst(wf: Persistence.Workflow, w: World, context: map<string, Json>, e: Exec, i: nat)
    requires Arrived(wf, w, context, e, i)
    ensures e.Write(w.before(i)).state == Seen(wf, w, context, i)
    ensures e.Write(w.before(i)).context == ContextBefore(wf, w, context, i) && |e.Write(w.before(i)).looks| == i
    ensures i < |wf.steps| && Seen(wf, w, context, i) == Running ==> Looking(wf, w, context, e.Write(w.before(i)), i)
  {
    hide Verdict, Reaches;
  }

  lemma EndsHere(wf: Persistence.Workflow, w: World, context: map<string, Json>, e: Exec, i: nat)
    requires Arrived(wf, w, context, e, i)
    requires i == |wf.steps| || Seen(wf, w, context, i) != Running || Verdict(wf, w, context, i) == Conditions.TypeError
    ensures Came(wf, w, context, i, RunFrom(wf, w, e, i))
  {
    LooksFirst(wf, w, context, e, i);
    if i < |wf.steps| { DecisionIsVerdict(wf, w, context, e.Write(w.before(i)), i); }
    hide Verdict, Reaches, Decision, Seen, ContextBefore;
  }

  lemma FailsHere(wf: Persistence.Workflow, w: World, context: map<string, Json>, r: Exec, i: nat)
    requires i < |wf.steps| && Reaches(wf, w, context, i) && Seen(wf, w, context, i) == Running
    requires Verdict(wf, w, context, i) == Conditions.Holds(true) && !Passes(wf, w, context, i)
    requires r.state == Failed && |r.looks| == i + 1 && r.context == ContextBefore(wf, w, context, i + 1)
    ensures Came(wf, w, context, i, r)
  {
    hide Verdict, Reaches, Seen, Passes, ContextBefore;
  }

  lemma RunStep(wf: Persistence.Workflow, w: World, e: Exec, i: nat)
    requires i < |wf.steps| && e.Write(w.before(i)).state == Running
    ensures var f := e.Write(w.before(i));
            var g := f.Looked(i, true).After(wf.steps[i].id, w.outcome(i)).Write(w.during(i));
            match Decision(wf.steps[i].conditions, Object(f.context))
            case TypeError => true
            case Holds(false) => RunFrom(wf, w, e, i) == RunFrom(wf, w, f.Looked(i, false), i + 1)
            case Holds(true) =>
              RunFrom(wf, w, e, i) ==
              if !w.outcome(i).done && !wf.steps[i].optional && !wf.allowPartialFailure then g.(state := Failed)
              else RunFrom(wf, w, g, i + 1)
  {
    hide Decision;
  }

  lemma PassesIs(wf: Persistence.Workflow, w: World, context: map<string, Json>, i: nat)
    requires i < |wf.steps| && Verdict(wf, w, context, i) == Conditions.Holds(true)
    ensures Passes(wf, w, context, i) <==> w.outcome(i).done || wf.steps[i].optional || wf.allowPartialFailure
  {
    hide Verdict;
  }

  lemma {:induction false} EndsFrom(wf: Persistence.Workflow, w: World, context: map<string, Json>, e: Exec, i: nat)
    requires Arrived(wf, w, context, e, i)
    ensures exists k: nat :: Came(wf, w, context, k, RunFrom(wf, w, e, i))
    decreases |wf.steps| - i
  {
    assert i <= |wf.steps|;
    hide Arrived, Looking, Reaches, Seen, Verdict, ContextBefore, Passes, Came, RunFrom, Decision, WorkedThrough;
    var f := e.Write(w.before(i));
    LooksFirst(wf, w, context, e, i);
    if i == |wf.steps| || Seen(wf, w, context, i) != Running || Verdict(wf, w, context, i) == Conditions.TypeError {
      EndsHere(wf, w, context, e, i);
    } else {
      DecisionIsVerdict(wf, w, context, f, i);
      RunStep(wf, w, e, i);
      if Verdict(wf, w, context, i) == Conditions.Holds(false) {
        SkippedArrives(wf, w, context, f, i);
        EndsFrom(wf, w, context, f.Looked(i, false), i + 1);
      } else {
        var g := f.Looked(i, true).After(wf.steps[i].id, w.outcome(i)).Write(w.during(i));
        RanArrives(wf, w, context, f, i);
        PassesIs(wf, w, context, i);
        if Passes(wf, w, context, i) {
          EndsFrom(wf, w, context, g, i + 1);
        } else {
          ReachesIs(wf, w, context, f, i);
          FailsHere(wf, w, context, g.(state := Failed), i);
        }
      }
    }
  }

  lemma ReachesIs(wf: Persistence.Workflow, w: World, context: map<string, Json>, f: Exec, i: nat)
    requires Looking(wf, w, context, f, i)
    ensures Reaches(wf, w, context, i) && Seen(wf, w, context, i) == Running
  {
  }

  lemma Starts(wf: Persistence.Workflow, w: World, context: map<string, Json>)
    ensures Arrived(wf, w, context, Started(context), 0)
  {
  }

  /** Whatever other threads write and whenever, there is exactly one look and one state a run
      can end with, and it does; it has come to the steps before, and to the one that fails it. */
  lemma FinalStateExactly(wf: Persistence.Workflow, w: World, context: map<string, Json>, s: State)
    ensures RunFrom(wf, w, Started(context), 0).state == s <==> exists k: nat :: EndsAt(wf, w, context, k, s)
    ensures forall k: nat | EndsAt(wf, w, context, k, s) :: Came(wf, w, context, k, RunFrom(wf, w, Started(context), 0))
  {
    Starts(wf, w, context);
    hide Seen, Passes, Reaches, RunFrom, Verdict, ContextBefore, WorkedThrough, Arrived;
    EndsFrom(wf, w, context, Started(context), 0);
    var r := RunFrom(wf, w, Started(context), 0);
    var k: nat :| Came(wf, w, context, k, r);
    forall l: nat | EndsAt(wf, w, context, l, s) ensures l == k && s == r.state {
      OneEnd(wf, w, context, k, r.state, l, s);
    }
  }

  /** A step that fails while another thread cancels or pauses the execution leaves it failed. */
  lemma FailureOverwrites(wf: Persistence.Workflow, w: World, context: map<string, Json>, k: nat)
    requires k < |wf.steps| && Reaches(wf, w, context, k) && Seen(wf, w, context, k) == Running
    requires !Passes(wf, w, context, k)
    ensures RunFrom(wf, w, Started(context), 0).state == Failed
  {
    assert EndsAt(wf, w, context, k, Failed);
    FinalStateExactly(wf, w, context, Failed);
  }

  // ---- after a restart

  lemma {:induction false} RunsEverything(wf: Persistence.Workflow, w: World, e: Exec, i: nat)
    requires i <= |wf.steps|
    requires forall j | 0 <= j < |wf.steps| :: wf.steps[j].conditions == Null
    requires forall p | 0 <= p < |e.looks| :: e.looks[p].ran
    ensures forall p | 0 <= p < |RunFrom(wf, w, e, i).looks| :: RunFrom(wf, w, e, i).looks[p].ran
    decreases |wf.steps| - i
  {
    var f := e.Write(w.before(i));
    if i < |wf.steps| && f.state == Running {
      assert Decision(wf.steps[i].conditions, Object(f.context)) == Conditions.Holds(true);
      var g := f.Looked(i, true).After(wf.steps[i].id, w.outcome(i)).Write(w.during(i));
      assert forall p | 0 <= p < |g.looks| :: g.looks[p].ran;
      if !(!w.outcome(i).done && !wf.steps[i].optional && !wf.allowPartialFailure) {
        RunsEverything(wf, w, g, i + 1);
      }
    }
  }

  /** Saving a workflow and loading it from the file loses its conditions: a run of what was
      loaded skips no step, whatever the conditions were. */
  lemma LoadedWorkflowSkipsNothing(wf: Persistence.Workflow, onto: Persistence.Workflow, delay: int, w: World,
                                   context: map<string, Json>)
    ensures Persistence.Load(Persistence.Save(wf), onto, delay).Some?
    ensures var loaded := Persistence.Load(Persistence.Save(wf), onto, delay).value;
            forall p | 0 <= p < |RunFrom(loaded, w, Started(context), 0).looks| ::
              RunFrom(loaded, w, Started(context), 0).looks[p].ran
  {
    Persistence.WorkflowComesBack(wf, onto, delay);
    var loaded := Persistence.ReturnedInto(wf, onto, delay);
    hide Persistence.Save, Persistence.Load;
    assert forall j | 0 <= j < |loaded.steps| :: loaded.steps[j] == Persistence.Returned(wf.steps[j]);
    RunsEverything(loaded, w, Started(context), 0);
  }

  // ---- the engine as it runs

  class WorkflowExecution {
    var state: State
    var context: map<string, Json>
    ghost var looks: seq<Look>

    constructor (context: map<string, Json>)
      ensures Value() == Started(context)
    {
      this.state, this.context, this.looks := Running, context, [];
    }

    ghost function Value(): Exec
      reads this
    {
      Exec(state, context, looks)
    }

    method Written(s: Option<State>)
      modifies this`state
      ensures Value() == old(Value()).Write(s)
    {
      if s.Some? { state := s.value; }
    }

    method KeepOutput(id: string, outcome: Outcome)
      modifies this`context
      ensures Value() == old(Value()).After(id, outcome)
    {
      if outcome.output.Some? {
        context := context[OutputKey(id) := outcome.output.value];
      }
    }

    method ExecuteConditional(wf: Persistence.Workflow, w: World)
      modifies this
      ensures Value() == RunFrom(wf, w, old(Value()), 0)
    {
      hide Decision;
      var i := 0;
      Written(w.before(0));
      while i < |wf.steps| && state == Running
        invariant i <= |wf.steps|
        invariant Value() == Value().Write(w.before(i))
        invariant RunFrom(wf, w, Value(), i) == RunFrom(wf, w, old(Value()), 0)
        decreases |wf.steps| - i
      {
        var decision := Decision(wf.steps[i].conditions, Object(context));
        if decision.TypeError? {
          state := Failed;
          return;
        }
        looks := looks + [Look(i, Object(context), decision.b)];
        if decision.b {
          KeepOutput(wf.steps[i].id, w.outcome(i));
          Written(w.during(i));
          if !w.outcome(i).done && !wf.steps[i].optional && !wf.allowPartialFailure {
            state := Failed;
            return;
          }
        }
        i := i + 1;
        Written(w.before(i));
      }
      if state == Running { state := Completed; }
    }
  }
}
