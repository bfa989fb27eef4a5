/** Workflow definitions on disk: what saving and loading keep, what they normalise, and what
    they lose. */
module Persistence {
  import opened JsonValues
  import opened Retry
  import opened Wrappers

  datatype Step = Step(
    id: string,
    agent: string,
    model: string,
    functionName: string,
    parameters: Json,
    conditions: Json,
    condition: Json,
    dependencies: seq<string>,
    timeoutMs: int,
    optional: bool,
    retry: RetryPolicy,
    contextInjection: Json)

  datatype LoopConfig = LoopConfig(
    maxIterations: int,
    terminationCondition: Json,
    breakCondition: Json,
    contextKey: string,
    iterationDelayMs: int)

  datatype Workflow = Workflow(
    id: string,
    name: string,
    description: string,
    version: string,
    createdAt: string,
    kind: int,
    steps: seq<Step>,
    globalContext: Json,
    maxExecutionMs: int,
    allowPartialFailure: bool,
    defaultRetry: RetryPolicy,
    retryOverride: Option<RetryPolicy>,
    failFast: bool,
    loop: Option<LoopConfig>)

  const NO_RETRY := RetryPolicy(0, 1.5, 1000, 30000)

  const NEW_STEP := Step("", "", "", "", Null, Null, Null, [], 30000, false, NO_RETRY, Null)

  const NEW_WORKFLOW := Workflow("", "", "", "", "", 0, [], Null, 300000, false, NO_RETRY, None, true, None)

  // ---- saving

  function Int(n: int): Json { Number(n as real) }

  function SaveRetry(p: RetryPolicy): Json
  {
    Object(map["max_retries" := Int(p.maxRetries), "backoff_multiplier" := Number(p.backoffMultiplier),
               "initial_delay_ms" := Int(p.initialDelayMs), "max_delay_ms" := Int(p.maxDelayMs)])
  }

  function SaveStep(s: Step): Json
  {
    var fields := map["id" := String(s.id), "agent_name" := String(s.agent), "function_name" := String(s.functionName),
                      "parameters" := s.parameters, "dependencies" := SaveStrings(s.dependencies),
                      "condition" := s.condition, "llm_model" := String(s.model), "timeout_ms" := Int(s.timeoutMs),
                      "optional" := Bool(s.optional)];
    Object(if s.retry.maxRetries > 0 then fields["retry_policy" := SaveRetry(s.retry)] else fields)
  }

  function SaveStrings(xs: seq<string>): Json { Array(seq(|xs|, i requires 0 <= i < |xs| => String(xs[i]))) }

  function SaveSteps(steps: seq<Step>): Json { Array(seq(|steps|, i requires 0 <= i < |steps| => SaveStep(steps[i]))) }

  function SaveLoop(c: LoopConfig): Json
  {
    Object(map["max_iterations" := Int(c.maxIterations), "break_condition" := c.breakCondition,
               "iteration_context_key" := String(c.contextKey)])
  }

  /** The retry policy that is written: the override, or else the default. */
  function Effective(w: Workflow): RetryPolicy
  {
    if w.retryOverride.Some? then w.retryOverride.value else w.defaultRetry
  }

  function Save(w: Workflow): Json
  {
    var fields := map["id" := String(w.id), "name" := String(w.name), "description" := String(w.description),
                      "type" := Int(w.kind), "version" := String(w.version), "created_at" := String(w.createdAt),
                      "max_execution_time_ms" := Int(w.maxExecutionMs),
                      "allow_partial_failure" := Bool(w.allowPartialFailure), "global_context" := w.globalContext,
                      "retry_policy" := SaveRetry(Effective(w)), "steps" := SaveSteps(w.steps)];
    Object(if w.loop.Some? then fields["loop_config" := SaveLoop(w.loop.value)] else fields)
  }

  // ---- loading

  function AsString(j: Json): Option<string> { if j.String? then Some(j.s) else None }

  function AsInt(j: Json): Option<int> { if j.Number? then Some(Truncated(j.n)) else None }

  function AsReal(j: Json): Option<real> { if j.Number? then Some(j.n) else None }

  function AsBool(j: Json): Option<bool> { if j.Bool? then Some(j.b) else None }

  function AsJson(j: Json): Option<Json> { Some(j) }

  /** The value of a key, or the default where the key is missing; nothing where the value is
      of another type. */
  function ValueOr<T>(j: Json, key: string, read: Json -> Option<T>, default: T): Option<T>
  {
    if !j.Object? then None else if j.Has(key) then read(j.At(key)) else Some(default)
  }

  function LoadRetry(j: Json): Option<RetryPolicy>
  {
    var retries := ValueOr(j, "max_retries", AsInt, 3);
    var backoff := ValueOr(j, "backoff_multiplier", AsReal, 2.0);
    var initial := ValueOr(j, "initial_delay_ms", AsInt, 1000);
    var most := ValueOr(j, "max_delay_ms", AsInt, 30000);
    if retries.None? || backoff.None? || initial.None? || most.None? then None
    else Some(RetryPolicy(retries.value, backoff.value, initial.value, most.value))
  }

  function LoadStrings(items: seq<Json>): Option<seq<string>>
    decreases |items|
  {
    if items == [] then Some([])
    else
      var first, rest := AsString(items[0]), LoadStrings(items[1..]);
      if first.None? || rest.None? then None else Some([first.value] + rest.value)
  }

  function AsStrings(j: Json): Option<seq<string>> { if j.Array? then LoadStrings(j.items) else None }

  function LoadStep(j: Json): Option<Step>
  {
    if !j.Has("id") || !j.Has("agent_name") || !j.Has("function_name") then None
    else
      var id, agent, functionName := AsString(j.At("id")), AsString(j.At("agent_name")), AsString(j.At("function_name"));
      var dependencies := ValueOr(j, "dependencies", AsStrings, []);
      var model := ValueOr(j, "llm_model", AsString, "");
      var timeout := ValueOr(j, "timeout_ms", AsInt, 30000);
      var optional := ValueOr(j, "optional", AsBool, false);
      var retry := if j.Has("retry_policy") then LoadRetry(j.At("retry_policy")) else Some(NO_RETRY);
      if id.None? || agent.None? || functionName.None? || dependencies.None? || model.None? || timeout.None? ||
         optional.None? || retry.None? then None
      else
        Some(NEW_STEP.(id := id.value, agent := agent.value, functionName := functionName.value,
                       parameters := ValueOr(j, "parameters", AsJson, Null).value,
                       dependencies := dependencies.value,
                       condition := ValueOr(j, "condition", AsJson, Null).value,
                       model := model.value, timeoutMs := timeout.value, optional := optional.value,
                       retry := retry.value))
  }

  function LoadSteps(items: seq<Json>): Option<seq<Step>>
    decreases |items|
  {
    if items == [] then Some([])
    else
      var first, rest := LoadStep(items[0]), LoadSteps(items[1..]);
      if first.None? || rest.None? then None else Some([first.value] + rest.value)
  }

  /** A loop configuration. `delay` is what happens to be in the field that is not set. */
  function LoadLoop(j: Json, delay: int): Option<LoopConfig>
  {
    var most := ValueOr(j, "max_iterations", AsInt, 10);
    var breakOn := ValueOr(j, "break_condition", AsJson, Null);
    var key := ValueOr(j, "iteration_context_key", AsString, "iteration");
    if most.None? || breakOn.None? || key.None? then None
    else Some(LoopConfig(most.value, Null, breakOn.value, key.value, delay))
  }

  /** The definition read from a file into the caller's `onto`, whose other fields stay; or
      nothing for a file that is not a definition. */
  function Load(j: Json, onto: Workflow, delay: int): Option<Workflow>
  {
    if !j.Has("id") || !j.Has("name") || !j.Has("type") then None
    else
      var id, name, kind := AsString(j.At("id")), AsString(j.At("name")), AsInt(j.At("type"));
      var description := ValueOr(j, "description", AsString, "");
      var version := ValueOr(j, "version", AsString, "1.0");
      var created := ValueOr(j, "created_at", AsString, "");
      var time := ValueOr(j, "max_execution_time_ms", AsInt, 300000);
      var partial := ValueOr(j, "allow_partial_failure", AsBool, false);
      var retry := if j.Has("retry_policy") then LoadOverride(j.At("retry_policy")) else Some(onto.retryOverride);
      var steps := if j.Has("steps") then AsSteps(j.At("steps")) else Some([]);
      var loop := if j.Has("loop_config") then LoadSomeLoop(j.At("loop_config"), delay) else Some(onto.loop);
      if id.None? || name.None? || kind.None? || description.None? || version.None? || created.None? ||
         time.None? || partial.None? || retry.None? || steps.None? || loop.None? then None
      else
        Some(onto.(id := id.value, name := name.value, kind := kind.value, description := description.value,
                   version := version.value, createdAt := created.value, maxExecutionMs := time.value,
                   allowPartialFailure := partial.value,
                   globalContext := ValueOr(j, "global_context", AsJson, Null).value,
                   retryOverride := retry.value, steps := steps.value, loop := loop.value))
  }

  function AsSteps(j: Json): Option<seq<Step>> { if j.Array? then LoadSteps(j.items) else None }

  function LoadOverride(j: Json): Option<Option<RetryPolicy>>
  {
    var p := LoadRetry(j);
    if p.None? then None else Some(p)
  }

  function LoadSomeLoop(j: Json, delay: int): Option<Option<LoopConfig>>
  {
    var c := LoadLoop(j, delay);
    if c.None? then None else Some(c)
  }

  // ---- what comes back

  /** A step as it comes back: without `conditions` and context injection, and with a retry
      policy only if it asks for retries. */
  function Returned(s: Step): Step
  {
    s.(conditions := Null, contextInjection := Null, retry := if s.retry.maxRetries > 0 then s.retry else NO_RETRY)
  }

  function AllReturned(steps: seq<Step>): seq<Step>
  {
    seq(|steps|, i requires 0 <= i < |steps| => Returned(steps[i]))
  }

  /** A workflow as it comes back into `onto`. */
  function ReturnedInto(w: Workflow, onto: Workflow, delay: int): Workflow
  {
    w.(steps := AllReturned(w.steps), defaultRetry := onto.defaultRetry, retryOverride := Some(Effective(w)),
       failFast := onto.failFast,
       loop := if w.loop.Some? then Some(w.loop.value.(terminationCondition := Null, iterationDelayMs := delay))
               else onto.loop)
  }

  lemma IntComesBack(n: int)
    ensures AsInt(Int(n)) == Some(n)
  {
  }

  lemma RetryComesBack(p: RetryPolicy)
    ensures LoadRetry(SaveRetry(p)) == Some(p)
  {
    hide Truncated;
    IntComesBack(p.maxRetries);
    IntComesBack(p.initialDelayMs);
    IntComesBack(p.maxDelayMs);
  }

  lemma {:induction false} StringsComeBack(xs: seq<string>)
    ensures LoadStrings(SaveStrings(xs).items) == Some(xs)
    decreases |xs|
  {
    if xs != [] {
      StringsComeBack(xs[1..]);
      assert SaveStrings(xs).items[1..] == SaveStrings(xs[1..]).items;
      assert [xs[0]] + xs[1..] == xs;
    }
  }

  lemma StepComesBack(s: Step)
    ensures LoadStep(SaveStep(s)) == Some(Returned(s))
  {
    hide LoadRetry, SaveRetry, Truncated, LoadStrings;
    RetryComesBack(s.retry);
    StringsComeBack(s.dependencies);
    IntComesBack(s.timeoutMs);
  }

  lemma {:induction false} StepsComeBack(steps: seq<Step>)
    ensures LoadSteps(SaveSteps(steps).items) == Some(AllReturned(steps))
    decreases |steps|
  {
    hide LoadStep, SaveStep, Returned;
    if steps == [] {
      assert AllReturned(steps) == [];
    } else {
      StepComesBack(steps[0]);
      StepsComeBack(steps[1..]);
      assert SaveSteps(steps).items[1..] == SaveSteps(steps[1..]).items;
      assert AllReturned(steps) == [Returned(steps[0])] + AllReturned(steps[1..]);
    }
  }

  lemma LoopComesBack(c: LoopConfig, delay: int)
    ensures LoadLoop(SaveLoop(c), delay) == Some(c.(terminationCondition := Null, iterationDelayMs := delay))
  {
    hide Truncated;
    IntComesBack(c.maxIterations);
  }

  // ---- files with keys missing

  /** A retry policy of which the file says nothing: three retries, waits that double from one second up to
      thirty. */
  lemma SparseRetry()
    ensures LoadRetry(Object(map[])) == Some(RetryPolicy(3, 2.0, 1000, 30000))
  {
  }

  /** A step with no more than its identity is not optional, has half a minute and is not retried. */
  lemma SparseStep(id: string, agent: string, functionName: string)
    ensures LoadStep(Object(map["id" := String(id), "agent_name" := String(agent),
                                "function_name" := String(functionName)])) ==
            Some(Step(id, agent, "", functionName, Null, Null, Null, [], 30000, false,
                      RetryPolicy(0, 1.5, 1000, 30000), Null))
  {
  }

  /** A definition with no more than its identity has version 1.0, no steps and five minutes; its retry policy and
      its loop are those it is loaded into. */
  lemma SparseWorkflow(id: string, name: string, kind: int, onto: Workflow, delay: int)
    ensures Load(Object(map["id" := String(id), "name" := String(name), "type" := Int(kind)]), onto, delay) ==
            Some(onto.(id := id, name := name, kind := kind, description := "", version := "1.0", createdAt := "",
                       maxExecutionMs := 300000, allowPartialFailure := false, globalContext := Null, steps := []))
  {
    IntComesBack(kind);
    hide Truncated, Int;
  }

  /** A loop of which the file says nothing. */
  lemma SparseLoop(delay: int)
    ensures LoadLoop(Object(map[]), delay) == Some(LoopConfig(10, Null, Null, "iteration", delay))
  {
  }

  /** A file written by hand, with every key of a retry policy, of a loop and of a step. */
  lemma FullRetry(most: int, factor: real, first: int, cap: int)
    ensures LoadRetry(Object(map["max_retries" := Int(most), "backoff_multiplier" := Number(factor),
                                 "initial_delay_ms" := Int(first), "max_delay_ms" := Int(cap)])) ==
            Some(RetryPolicy(most, factor, first, cap))
  {
    IntComesBack(most);
    IntComesBack(first);
    IntComesBack(cap);
    hide Truncated, Int;
  }

  lemma FullLoop(most: int, breakOn: Json, key: string, delay: int)
    ensures LoadLoop(Object(map["max_iterations" := Int(most), "break_condition" := breakOn,
                                "iteration_context_key" := String(key)]), delay) ==
            Some(LoopConfig(most, Null, breakOn, key, delay))
  {
    IntComesBack(most);
    hide Truncated, Int;
  }

  lemma FullStep(id: string, agent: string, model: string, functionName: string, parameters: Json, condition: Json,
                 time: int, optional: bool)
    ensures LoadStep(Object(map["id" := String(id), "agent_name" := String(agent), "llm_model" := String(model),
                                "function_name" := String(functionName), "parameters" := parameters,
                                "condition" := condition, "timeout_ms" := Int(time), "optional" := Bool(optional)])) ==
            Some(Step(id, agent, model, functionName, parameters, Null, condition, [], time, optional,
                      RetryPolicy(0, 1.5, 1000, 30000), Null))
  {
    IntComesBack(time);
    hide Truncated, Int, LoadRetry, LoadStrings;
  }

  /** A definition without its identity is not loaded, nor one with a step without its own. */
  lemma IdentityNeeded(j: Json, onto: Workflow, delay: int)
    ensures !(j.Has("id") && j.Has("name") && j.Has("type")) ==> Load(j, onto, delay).None?
    ensures !(j.Has("id") && j.Has("agent_name") && j.Has("function_name")) ==> LoadStep(j).None?
  {
    hide ValueOr, LoadRetry, AsSteps, LoadOverride, LoadSomeLoop;
  }

  /** The keys of a saved definition. */
  lemma SavedFields(w: Workflow)
    ensures var j := Save(w);
            && j.Object?
            && j.Has("id") && j.At("id") == String(w.id)
            && j.Has("name") && j.At("name") == String(w.name)
            && j.Has("type") && j.At("type") == Int(w.kind)
            && j.Has("description") && j.At("description") == String(w.description)
            && j.Has("version") && j.At("version") == String(w.version)
            && j.Has("created_at") && j.At("created_at") == String(w.createdAt)
            && j.Has("max_execution_time_ms") && j.At("max_execution_time_ms") == Int(w.maxExecutionMs)
            && j.Has("allow_partial_failure") && j.At("allow_partial_failure") == Bool(w.allowPartialFailure)
            && j.Has("global_context") && j.At("global_context") == w.globalContext
            && j.Has("retry_policy") && j.At("retry_policy") == SaveRetry(Effective(w))
            && j.Has("steps") && j.At("steps") == SaveSteps(w.steps)
            && (j.Has("loop_config") <==> w.loop.Some?)
            && (w.loop.Some? ==> j.At("loop_config") == SaveLoop(w.loop.value))
  {
    hide SaveRetry, SaveSteps, SaveLoop, Effective, Int;
  }

  /** Loading what was saved succeeds, for every definition, and gives this. */
  lemma WorkflowComesBack(w: Workflow, onto: Workflow, delay: int)
    ensures Load(Save(w), onto, delay) == Some(ReturnedInto(w, onto, delay))
  {
    SavedFields(w);
    PlainFieldsComeBack(w);
    PartsComeBack(w, onto, delay);
    hide Save, ValueOr, LoadOverride, LoadSomeLoop, AsSteps, AsInt, AsString, SaveSteps, SaveRetry, SaveLoop, Int,
      AllReturned, Effective;
  }

  lemma PlainFieldsComeBack(w: Workflow)
    ensures var j := Save(w);
            && j.Has("id") && AsString(j.At("id")) == Some(w.id)
            && j.Has("name") && AsString(j.At("name")) == Some(w.name)
            && j.Has("type") && AsInt(j.At("type")) == Some(w.kind)
            && ValueOr(j, "description", AsString, "") == Some(w.description)
            && ValueOr(j, "version", AsString, "1.0") == Some(w.version)
            && ValueOr(j, "created_at", AsString, "") == Some(w.createdAt)
            && ValueOr(j, "max_execution_time_ms", AsInt, 300000) == Some(w.maxExecutionMs)
            && ValueOr(j, "allow_partial_failure", AsBool, false) == Some(w.allowPartialFailure)
            && ValueOr(j, "global_context", AsJson, Null) == Some(w.globalContext)
  {
    SavedFields(w);
    IntComesBack(w.kind);
    IntComesBack(w.maxExecutionMs);
    hide Save, SaveRetry, SaveLoop, SaveSteps, AsInt, Int, Effective;
  }

  lemma PartsComeBack(w: Workflow, onto: Workflow, delay: int)
    ensures var j := Save(w);
            && j.Has("retry_policy") && LoadOverride(j.At("retry_policy")) == Some(Some(Effective(w)))
            && j.Has("steps") && AsSteps(j.At("steps")) == Some(AllReturned(w.steps))
            && (j.Has("loop_config") <==> w.loop.Some?)
            && (w.loop.Some? ==>
                  var r := w.loop.value.(terminationCondition := Null, iterationDelayMs := delay);
                  LoadSomeLoop(j.At("loop_config"), delay) == Some(Some(r)))
  {
    SavedFields(w);
    RetryComesBack(Effective(w));
    StepsComeBack(w.steps);
    if w.loop.Some? { LoopComesBack(w.loop.value, delay); }
    assert SaveSteps(w.steps).Array?;
    hide Save, LoadRetry, SaveRetry, LoadLoop, SaveLoop, SaveSteps, LoadSteps, AllReturned, Effective, Int;
  }

  // ---- the persisted fields

  predicate SamePersistedStep(a: Step, b: Step)
  {
    && a.id == b.id && a.agent == b.agent && a.model == b.model && a.functionName == b.functionName
    && a.parameters == b.parameters && a.condition == b.condition && a.dependencies == b.dependencies
    && a.timeoutMs == b.timeoutMs && a.optional == b.optional
    && (a.retry.maxRetries > 0 || b.retry.maxRetries > 0 ==> a.retry == b.retry)
  }

  predicate SamePersistedLoop(a: Option<LoopConfig>, b: Option<LoopConfig>)
  {
    match (a, b)
    case (Some(x), Some(y)) =>
      x.maxIterations == y.maxIterations && x.breakCondition == y.breakCondition && x.contextKey == y.contextKey
    case (None, None) => true
    case _ => false
  }

  predicate SamePersisted(a: Workflow, b: Workflow)
  {
    && a.id == b.id && a.name == b.name && a.description == b.description && a.version == b.version
    && a.createdAt == b.createdAt && a.kind == b.kind && a.maxExecutionMs == b.maxExecutionMs
    && a.allowPartialFailure == b.allowPartialFailure && a.globalContext == b.globalContext
    && Effective(a) == Effective(b) && SamePersistedLoop(a.loop, b.loop)
    && |a.steps| == |b.steps| && forall i | 0 <= i < |a.steps| :: SamePersistedStep(a.steps[i], b.steps[i])
  }

  /** Two definitions are written to the same file contents exactly when their persisted
      fields agree. */
  lemma SavedAlikeExactly(a: Workflow, b: Workflow)
    ensures Save(a) == Save(b) <==> SamePersisted(a, b)
  {
    if Save(a) == Save(b) {
      WorkflowComesBack(a, NEW_WORKFLOW, 0);
      WorkflowComesBack(b, NEW_WORKFLOW, 0);
      hide Save, Load;
      SameReturned(a, b);
    } else if SamePersisted(a, b) {
      SameSaved(a, b);
    }
  }

  lemma SameReturned(a: Workflow, b: Workflow)
    requires ReturnedInto(a, NEW_WORKFLOW, 0) == ReturnedInto(b, NEW_WORKFLOW, 0)
    ensures SamePersisted(a, b)
  {
    var x, y := ReturnedInto(a, NEW_WORKFLOW, 0), ReturnedInto(b, NEW_WORKFLOW, 0);
    assert x.steps == AllReturned(a.steps) && y.steps == AllReturned(b.steps);
    forall i | 0 <= i < |a.steps| ensures SamePersistedStep(a.steps[i], b.steps[i]) {
      assert x.steps[i] == Returned(a.steps[i]) && y.steps[i] == Returned(b.steps[i]);
    }
    assert x.loop.Some? == y.loop.Some?;
  }

  lemma SameSaved(a: Workflow, b: Workflow)
    requires SamePersisted(a, b)
    ensures Save(a) == Save(b)
  {
    forall i | 0 <= i < |a.steps| ensures SaveStep(a.steps[i]) == SaveStep(b.steps[i]) {
      assert SamePersistedStep(a.steps[i], b.steps[i]);
    }
    hide SaveStep, SaveRetry;
    assert SaveSteps(a.steps) == SaveSteps(b.steps);
  }

  /** Loading a saved definition from disk agrees with the original on every persisted field,
      exactly when the original has a loop configuration or the caller's object has none. */
  lemma PersistedFieldsComeBackExactly(w: Workflow, onto: Workflow, delay: int)
    ensures Load(Save(w), onto, delay).Some?
    ensures SamePersisted(w, Load(Save(w), onto, delay).value) <==> (w.loop.Some? || onto.loop.None?)
  {
    WorkflowComesBack(w, onto, delay);
    hide Save, Load;
    var r := ReturnedInto(w, onto, delay);
    forall i | 0 <= i < |w.steps| ensures SamePersistedStep(w.steps[i], r.steps[i]) {
      assert r.steps[i] == Returned(w.steps[i]);
    }
  }

  /** Persisting normalises once: saving what was loaded writes the same file again, and
      loading that gives the same definition again. */
  lemma SecondRoundChangesNothing(w: Workflow, onto: Workflow, delay: int)
    requires w.loop.Some? || onto.loop.None?
    ensures Load(Save(w), onto, delay).Some?
    ensures var once := Load(Save(w), onto, delay).value;
            Save(once) == Save(w) && Load(Save(once), onto, delay) == Some(once)
  {
    PersistedFieldsComeBackExactly(w, onto, delay);
    SavedAlikeExactly(w, Load(Save(w), onto, delay).value);
  }

  // ---- what is lost

  /** A definition comes back whole exactly when it has an override, asks for retries by
      positive numbers only, and has nothing in the fields that are not written. */
  lemma WholeExactly(w: Workflow, onto: Workflow, delay: int)
    ensures Load(Save(w), onto, delay) == Some(w) <==>
              && w.retryOverride.Some? && w.defaultRetry == onto.defaultRetry && w.failFast == onto.failFast
              && (forall i | 0 <= i < |w.steps| ::
                    w.steps[i].conditions == Null && w.steps[i].contextInjection == Null &&
                    (w.steps[i].retry.maxRetries > 0 || w.steps[i].retry == NO_RETRY))
              && (if w.loop.Some? then
                    w.loop.value.terminationCondition == Null && w.loop.value.iterationDelayMs == delay
                  else onto.loop.None?)
  {
    WorkflowComesBack(w, onto, delay);
    hide Save, Load;
    var r := ReturnedInto(w, onto, delay);
    forall i | 0 <= i < |w.steps|
      ensures r.steps[i] == Returned(w.steps[i])
      ensures Returned(w.steps[i]) == w.steps[i] <==>
              w.steps[i].conditions == Null && w.steps[i].contextInjection == Null &&
              (w.steps[i].retry.maxRetries > 0 || w.steps[i].retry == NO_RETRY)
    {
    }
    if r == w {
      assert forall i | 0 <= i < |w.steps| :: r.steps[i] == w.steps[i];
    } else if forall i | 0 <= i < |w.steps| :: r.steps[i] == w.steps[i] {
      assert r.steps == w.steps;
    }
  }

  /** The policy the engine retries a step with is the default one of the workflow for steps
      without retries, and that is not written: it comes back exactly for steps that ask for
      retries, or when the caller's default is what the step would have used. */
  lemma EnginePolicyComesBackExactly(w: Workflow, onto: Workflow, delay: int, i: nat)
    requires i < |w.steps|
    ensures Load(Save(w), onto, delay).Some? && |Load(Save(w), onto, delay).value.steps| == |w.steps|
    ensures (var r := Load(Save(w), onto, delay).value;
             ChosenPolicy(r.steps[i].retry, r.defaultRetry) == ChosenPolicy(w.steps[i].retry, w.defaultRetry))
       <==> (w.steps[i].retry.maxRetries > 0 ||
             onto.defaultRetry == ChosenPolicy(w.steps[i].retry, w.defaultRetry))
  {
    WorkflowComesBack(w, onto, delay);
    hide Save, Load;
    assert ReturnedInto(w, onto, delay).steps[i] == Returned(w.steps[i]);
  }

  // ---- the store

  /** The files by workflow name, and the definitions held in memory. A file that is open and
      not written holds nothing that parses. */
  class WorkflowStore {
    var files: map<string, Option<Json>>
    var cache: map<string, Workflow>

    constructor ()
      ensures files == map[] && cache == map[]
    {
      files, cache := map[], map[];
    }

    /** `writable` tells whether the file can be opened, and `dumps` whether the JSON can be
        written as text, which strings that are not UTF-8 prevent. The file is opened, and its
        old text is gone, before that shows. */
    method SaveDefinition(w: Workflow, writable: bool, dumps: bool) returns (ok: bool)
      modifies this
      ensures ok == (writable && dumps)
      ensures !writable ==> files == old(files)
      ensures writable ==> files == old(files)[w.name := if dumps then Some(Save(w)) else None]
      ensures cache == if ok then old(cache)[w.name := w] else old(cache)
    {
      if !writable { return false; }
      files := files[w.name := None];
      if !dumps { return false; }
      files := files[w.name := Some(Save(w))];
      cache := cache[w.name := w];
      ok := true;
    }

    /** The definition in memory if there is one, or else the one in the file, which is then
        kept in memory. */
    method LoadDefinition(name: string, onto: Workflow, delay: int) returns (r: Option<Workflow>)
      modifies this`cache
      ensures name in old(cache) ==> r == Some(old(cache)[name]) && cache == old(cache)
      ensures name !in old(cache) ==>
                r == if name in files && files[name].Some? then Load(files[name].value, onto, delay) else None
      ensures r.Some? ==> cache == old(cache)[name := r.value]
      ensures r.None? ==> cache == old(cache)
    {
      if name in cache { return Some(cache[name]); }
      if name !in files || files[name].None? { return None; }
      r := Load(files[name].value, onto, delay);
      if r.Some? { cache := cache[name := r.value]; }
    }

    method DeleteDefinition(name: string) returns (removed: bool)
      modifies this
      ensures removed == (name in old(files))
      ensures files == old(files) - {name} && cache == old(cache) - {name}
    {
      cache := cache - {name};
      removed := name in files;
      files := files - {name};
    }

    /** The program starts again: only the files are left. */
    method Restart()
      modifies this`cache
      ensures cache == map[]
    {
      cache := map[];
    }
  }

  /** What the first load from disk gives, and that it is a fixed point. */
  lemma Normalised(w: Workflow, delay: int) returns (once: Workflow)
    ensures Load(Save(w), NEW_WORKFLOW, delay) == Some(once) && Save(once) == Save(w)
    ensures SamePersisted(w, once) && once.retryOverride == Some(Effective(w)) && once.name == w.name
  {
    WorkflowComesBack(w, NEW_WORKFLOW, delay);
    PersistedFieldsComeBackExactly(w, NEW_WORKFLOW, delay);
    SecondRoundChangesNothing(w, NEW_WORKFLOW, delay);
    hide Save, Load, SamePersisted, AllReturned, Effective;
    once := ReturnedInto(w, NEW_WORKFLOW, delay);
  }

  /** Saving and loading in one run of the program gives the definition itself; after a
      restart it gives the normalised one, and saving that and restarting changes nothing. */
  method SaveRestartLoad(w: Workflow, delay: int)
    returns (same: Option<Workflow>, once: Option<Workflow>, twice: Option<Workflow>)
    ensures same == Some(w)
    ensures once.Some? && SamePersisted(w, once.value) && once.value.retryOverride == Some(Effective(w))
    ensures once.value.name == w.name && twice == once
  {
    hide *;
    ghost var normal := Normalised(w, delay);
    var store := new WorkflowStore();
    var ok := store.SaveDefinition(w, true, true);
    same := store.LoadDefinition(w.name, NEW_WORKFLOW, delay);
    store.Restart();
    once := store.LoadDefinition(w.name, NEW_WORKFLOW, delay);
    ok := store.SaveDefinition(once.value, true, true);
    store.Restart();
    twice := store.LoadDefinition(w.name, NEW_WORKFLOW, delay);
  }

  /** Saving a definition that cannot be dumped fails, and takes the saved definition of that
      name with it: it is still in memory, but gone after a restart. */
  method FailedSaveLosesTheFile(w: Workflow, other: Workflow, delay: int)
    returns (saved: bool, before: Option<Workflow>, after: Option<Workflow>)
    requires other.name == w.name
    ensures !saved && before == Some(w) && after == None
  {
    hide *;
    var store := new WorkflowStore();
    var ok := store.SaveDefinition(w, true, true);
    saved := store.SaveDefinition(other, true, false);
    before := store.LoadDefinition(w.name, NEW_WORKFLOW, delay);
    store.Restart();
    after := store.LoadDefinition(w.name, NEW_WORKFLOW, delay);
  }
}
