/** Conditions of workflow steps: a recursive evaluator over JSON, its meaning in terms of
    "for all" and "exists", and what happens when the context grows. */
module Conditions {
  import opened JsonValues
  import opened Wrappers

  /** The value of a condition, or the exception for a field or operator that is no string. */
  datatype Verdict = Holds(b: bool) | TypeError

  // ---- field paths

  /** The parts of a path between dots; nothing follows a dot at the end. */
  function Parts(path: string): seq<string>
    decreases |path|
  {
    if path == "" then []
    else
      var i := DotFrom(path, 0);
      if i == |path| then [path] else [path[..i]] + Parts(path[i + 1..])
  }

  /** The first dot from `i` on, or the end. */
  function DotFrom(path: string, i: nat): (r: nat)
    requires i <= |path|
    ensures i <= r <= |path|
    ensures r < |path| ==> path[r] == '.'
    ensures forall j | i <= j < r :: path[j] != '.'
    decreases |path| - i
  {
    if i == |path| || path[i] == '.' then i else DotFrom(path, i + 1)
  }

  function Lookup(parts: seq<string>, context: Json): Option<Json>
    decreases |parts|
  {
    if parts == [] then Some(context)
    else if context.Has(parts[0]) then Lookup(parts[1..], context.At(parts[0]))
    else None
  }

  // ---- evaluation

  predicate OccursAt(needle: string, text: string, i: nat)
  {
    i + |needle| <= |text| && text[i..i + |needle|] == needle
  }

  /** Whether `needle` occurs in `text`. */
  predicate Occurs(needle: string, text: string) { exists i | 0 <= i <= |text| :: OccursAt(needle, text, i) }

  predicate Compare(op: string, actual: Json, expected: Json)
  {
    if op == "equals" then actual == expected
    else if op == "not_equals" then actual != expected
    else if op == "exists" then true
    else if op == "contains" && actual.String? && expected.String? then Occurs(expected.s, actual.s)
    else if op == "greater_than" && actual.Number? && expected.Number? then actual.n > expected.n
    else if op == "less_than" && actual.Number? && expected.Number? then actual.n < expected.n
    else if op == "greater_equal" && actual.Number? && expected.Number? then actual.n >= expected.n
    else if op == "less_equal" && actual.Number? && expected.Number? then actual.n <= expected.n
    else true
  }

  predicate IsSimple(condition: Json)
  {
    condition.Has("field") && condition.Has("operator") && condition.Has("value")
  }

  function EvaluateSimple(condition: Json, context: Json): Verdict
    requires IsSimple(condition)
  {
    if !condition.At("field").String? || !condition.At("operator").String? then TypeError
    else
      var actual := Lookup(Parts(condition.At("field").s), context);
      Holds(actual.Some? && Compare(condition.At("operator").s, actual.value, condition.At("value")))
  }

  function Evaluate(condition: Json, context: Json): Verdict
    decreases condition, 2
  {
    if condition.Empty() then Holds(true)
    else if condition.Has("and") || condition.Has("or") then EvaluateComplex(condition, context)
    else if IsSimple(condition) then EvaluateSimple(condition, context)
    else Holds(true)
  }

  function EvaluateComplex(condition: Json, context: Json): Verdict
    decreases condition, 1
  {
    if condition.Has("and") && condition.At("and").Array? then EvaluateAnd(condition.At("and").items, context)
    else if condition.Has("or") && condition.At("or").Array? then EvaluateOr(condition.At("or").items, context)
    else if condition.Has("not") then
      match Evaluate(condition.At("not"), context)
      case Holds(b) => Holds(!b)
      case TypeError => TypeError
    else Holds(true)
  }

  function EvaluateAnd(conditions: seq<Json>, context: Json): Verdict
    decreases conditions, 0
  {
    if conditions == [] then Holds(true)
    else
      var first := Evaluate(conditions[0], context);
      if first == Holds(true) then EvaluateAnd(conditions[1..], context) else first
  }

  function EvaluateOr(conditions: seq<Json>, context: Json): Verdict
    decreases conditions, 0
  {
    if conditions == [] then Holds(false)
    else
      var first := Evaluate(conditions[0], context);
      if first == Holds(false) then EvaluateOr(conditions[1..], context) else first
  }

  // ---- the meaning, with errors

  /** The sub-condition that decides: all before it have the value that keeps going. */
  predicate Decides(conditions: seq<Json>, context: Json, going: Verdict, k: int)
  {
    && 0 <= k < |conditions|
    && Evaluate(conditions[k], context) != going
    && forall j | 0 <= j < k :: Evaluate(conditions[j], context) == going
  }

  /** An "and" is true exactly when all parts are; otherwise its value, false or an error,
      is that of the first part that is not true. */
  lemma {:induction false} AndMeans(conditions: seq<Json>, context: Json)
    ensures EvaluateAnd(conditions, context) == Holds(true)
       <==> forall k | 0 <= k < |conditions| :: Evaluate(conditions[k], context) == Holds(true)
    ensures forall k | Decides(conditions, context, Holds(true), k) ::
              EvaluateAnd(conditions, context) == Evaluate(conditions[k], context)
    decreases |conditions|
  {
    if conditions != [] {
      var rest := conditions[1..];
      AndMeans(rest, context);
      forall k | Decides(conditions, context, Holds(true), k)
        ensures EvaluateAnd(conditions, context) == Evaluate(conditions[k], context)
      {
        if k > 0 {
          assert forall j | 0 <= j < k - 1 :: rest[j] == conditions[j + 1];
          assert Decides(rest, context, Holds(true), k - 1);
        }
      }
      assert forall j | 0 <= j < |rest| :: rest[j] == conditions[j + 1];
      if EvaluateAnd(conditions, context) == Holds(true) {
        forall k | 0 <= k < |conditions| ensures Evaluate(conditions[k], context) == Holds(true) {
          if k > 0 { assert conditions[k] == rest[k - 1]; }
        }
      }
    }
  }

  /** An "or" is false exactly when all parts are; otherwise its value, true or an error, is
      that of the first part that is not false. */
  lemma {:induction false} OrMeans(conditions: seq<Json>, context: Json)
    ensures EvaluateOr(conditions, context) == Holds(false)
       <==> forall k | 0 <= k < |conditions| :: Evaluate(conditions[k], context) == Holds(false)
    ensures forall k | Decides(conditions, context, Holds(false), k) ::
              EvaluateOr(conditions, context) == Evaluate(conditions[k], context)
    decreases |conditions|
  {
    if conditions != [] {
      var rest := conditions[1..];
      OrMeans(rest, context);
      forall k | Decides(conditions, context, Holds(false), k)
        ensures EvaluateOr(conditions, context) == Evaluate(conditions[k], context)
      {
        if k > 0 {
          assert forall j | 0 <= j < k - 1 :: rest[j] == conditions[j + 1];
          assert Decides(rest, context, Holds(false), k - 1);
        }
      }
      assert forall j | 0 <= j < |rest| :: rest[j] == conditions[j + 1];
      if EvaluateOr(conditions, context) == Holds(false) {
        forall k | 0 <= k < |conditions| ensures Evaluate(conditions[k], context) == Holds(false) {
          if k > 0 { assert conditions[k] == rest[k - 1]; }
        }
      }
    }
  }

  // ---- the meaning, without errors

  /** Every simple condition in it names its field and operator by strings. */
  predicate WellTyped(condition: Json)
  {
    if condition.Empty() then true
    else if condition.Has("and") && condition.At("and").Array? then
      forall i | 0 <= i < |condition.At("and").items| :: WellTyped(condition.At("and").items[i])
    else if condition.Has("or") && condition.At("or").Array? then
      forall i | 0 <= i < |condition.At("or").items| :: WellTyped(condition.At("or").items[i])
    else if condition.Has("and") || condition.Has("or") then condition.Has("not") ==> WellTyped(condition.At("not"))
    else IsSimple(condition) ==> condition.At("field").String? && condition.At("operator").String?
  }

  // ---- paths and operators, read independently

  /** The keys with dots in between. */
  function Join(keys: seq<string>): string
    requires keys != []
  {
    if |keys| == 1 then keys[0] else keys[0] + "." + Join(keys[1..])
  }

  /** A path names the keys that it joins with dots; a dot at its end names nothing more, and the
      empty path names no keys at all. */
  predicate Names(path: string, keys: seq<string>)
  {
    && (forall k | k in keys :: '.' !in k)
    && (if keys == [] then path == ""
        else (path == Join(keys) && keys[|keys| - 1] != "") || path == Join(keys) + ".")
  }

  /** From the context by these keys, each of an object nested in the one before. */
  predicate Chain(context: Json, keys: seq<string>, values: seq<Json>)
  {
    && |values| == |keys| + 1 && values[0] == context
    && forall i | 0 <= i < |keys| ::
         values[i].Object? && keys[i] in values[i].fields && values[i + 1] == values[i].fields[keys[i]]
  }

  /** What the operators ask of the value found and the one expected. Those that order or search
      ask nothing of values of other kinds, and unknown ones ask nothing at all. */
  ghost predicate Meets(op: string, actual: Json, expected: Json)
  {
    && (op == "equals" ==> actual == expected)
    && (op == "not_equals" ==> actual != expected)
    && (op == "contains" && actual.String? && expected.String? ==>
          exists before, after :: actual.s == before + expected.s + after)
    && (actual.Number? && expected.Number? ==>
          && (op == "greater_than" ==> expected.n < actual.n)
          && (op == "less_than" ==> actual.n < expected.n)
          && (op == "greater_equal" ==> !(actual.n < expected.n))
          && (op == "less_equal" ==> !(expected.n < actual.n)))
  }

  /** Some value is where the path leads, and meets the operator. */
  ghost predicate Finds(path: string, op: string, expected: Json, context: Json)
  {
    exists keys, values :: Names(path, keys) && Chain(context, keys, values) && Meets(op, values[|keys|], expected)
  }

  lemma DotIs(path: string, key: string, rest: string)
    requires '.' !in key && path == key + "." + rest
    ensures DotFrom(path, 0) == |key| && path[..|key|] == key && path[|key| + 1..] == rest
  {
    hide DotFrom;
    assert path[|key|] == '.';
    assert forall j | 0 <= j < |key| :: path[j] == key[j];
  }

  lemma PartsFirst(path: string, key: string, rest: string)
    requires '.' !in key && path == key + "." + rest
    ensures Parts(path) == [key] + Parts(rest)
  {
    DotIs(path, key, rest);
    hide DotFrom;
  }

  lemma PartsLast(path: string)
    requires '.' !in path
    ensures Parts(path) == if path == "" then [] else [path]
  {
    hide DotFrom;
  }

  lemma JoinFirst(keys: seq<string>)
    requires |keys| > 1
    ensures Join(keys) == keys[0] + "." + Join(keys[1..]) && Join(keys) + "." == keys[0] + "." + (Join(keys[1..]) + ".")
  {
  }

  /** The parts of a path are the keys it names, and no others are. */
  lemma {:induction false} NamedAreParts(path: string, keys: seq<string>)
    requires Names(path, keys)
    ensures Parts(path) == keys
    decreases |keys|
  {
    hide Parts, DotFrom;
    if keys == [] {
      PartsLast("");
    } else if |keys| == 1 {
      PartsLast("");
      if path == keys[0] {
        PartsLast(path);
      } else {
        assert path == keys[0] + "." + "";
        PartsFirst(path, keys[0], "");
      }
      assert keys == [keys[0]] + [];
    } else {
      var rest := keys[1..];
      JoinFirst(keys);
      var more := if path == Join(keys) then Join(rest) else Join(rest) + ".";
      hide Join;
      PartsFirst(path, keys[0], more);
      NamedAreParts(more, rest);
      assert keys == [keys[0]] + rest;
    }
  }

  lemma NamesMore(key: string, path: string, keys: seq<string>)
    requires '.' !in key && Names(path, keys)
    ensures Names(key + "." + path, [key] + keys)
  {
    var all := [key] + keys;
    assert all[1..] == keys;
    if keys != [] {
      JoinFirst(all);
      assert all[|all| - 1] == keys[|keys| - 1];
    }
  }

  lemma {:induction false} PartsAreNamed(path: string)
    ensures Names(path, Parts(path))
    decreases |path|
  {
    var i := DotFrom(path, 0);
    hide Parts, DotFrom, Names;
    if i < |path| {
      var key, rest := path[..i], path[i + 1..];
      assert path == key + "." + rest;
      PartsAreNamed(rest);
      PartsFirst(path, key, rest);
      NamesMore(key, rest, Parts(rest));
    } else {
      PartsLast(path);
      NamesOne(path);
    }
  }

  lemma NamesOne(path: string)
    requires '.' !in path
    ensures Names(path, if path == "" then [] else [path])
  {
  }

  lemma {:induction false} LookupChain(context: Json, keys: seq<string>, values: seq<Json>)
    requires Chain(context, keys, values)
    ensures Lookup(keys, context) == Some(values[|keys|])
    decreases |keys|
  {
    if keys != [] {
      assert Chain(values[1], keys[1..], values[1..]);
      LookupChain(values[1], keys[1..], values[1..]);
    }
  }

  lemma {:induction false} ChainExists(context: Json, keys: seq<string>) returns (values: seq<Json>)
    requires Lookup(keys, context).Some?
    ensures Chain(context, keys, values)
    decreases |keys|
  {
    if keys == [] {
      values := [context];
    } else {
      var rest := ChainExists(context.At(keys[0]), keys[1..]);
      values := [context] + rest;
    }
  }

  lemma OccursIs(needle: string, text: string)
    ensures Occurs(needle, text) <==> exists before, after :: text == before + needle + after
  {
    if Occurs(needle, text) {
      var i :| 0 <= i <= |text| && OccursAt(needle, text, i);
      assert text == text[..i] + needle + text[i + |needle|..];
    }
    if exists before, after :: text == before + needle + after {
      var before, after :| text == before + needle + after;
      assert OccursAt(needle, text, |before|);
    }
  }

  lemma CompareIsMeets(op: string, actual: Json, expected: Json)
    ensures Compare(op, actual, expected) <==> Meets(op, actual, expected)
  {
    if actual.String? && expected.String? { OccursIs(expected.s, actual.s); }
    hide Occurs;
  }

  /** The evaluator finds what the path leads to, and compares as the operator says. */
  lemma SimpleMeans(path: string, op: string, expected: Json, context: Json)
    ensures Finds(path, op, expected, context)
       <==> var actual := Lookup(Parts(path), context); actual.Some? && Compare(op, actual.value, expected)
  {
    hide Names, Meets, Compare, Lookup, Parts;
    if Finds(path, op, expected, context) {
      var keys, values :| Names(path, keys) && Chain(context, keys, values) && Meets(op, values[|keys|], expected);
      NamedAreParts(path, keys);
      LookupChain(context, keys, values);
      CompareIsMeets(op, values[|keys|], expected);
    }
    var actual := Lookup(Parts(path), context);
    if actual.Some? && Compare(op, actual.value, expected) {
      PartsAreNamed(path);
      var values := ChainExists(context, Parts(path));
      LookupChain(context, Parts(path), values);
      CompareIsMeets(op, actual.value, expected);
    }
  }

  /** The condition as a formula: "and" is for all, "or" is exists, a path that leads nowhere
      is false, anything unknown is true. */
  ghost predicate Satisfied(condition: Json, context: Json)
  {
    if condition == Null || condition == Array([]) || condition == Object(map[]) then true
    else if !condition.Object? then true
    else if "and" in condition.fields && condition.fields["and"].Array? then
      forall i | 0 <= i < |condition.fields["and"].items| :: Satisfied(condition.fields["and"].items[i], context)
    else if "or" in condition.fields && condition.fields["or"].Array? then
      exists i | 0 <= i < |condition.fields["or"].items| :: Satisfied(condition.fields["or"].items[i], context)
    else if "and" in condition.fields || "or" in condition.fields then
      "not" in condition.fields ==> !Satisfied(condition.fields["not"], context)
    else if condition.fields.Keys >= {"field", "operator", "value"}
            && condition.fields["field"].String? && condition.fields["operator"].String? then
      Finds(condition.fields["field"].s, condition.fields["operator"].s, condition.fields["value"], context)
    else true
  }

  lemma AndSatisfied(parts: seq<Json>, context: Json)
    requires forall i | 0 <= i < |parts| :: Evaluate(parts[i], context) == Holds(Satisfied(parts[i], context))
    ensures EvaluateAnd(parts, context) == Holds(forall i | 0 <= i < |parts| :: Satisfied(parts[i], context))
  {
    hide Evaluate, Satisfied, EvaluateAnd;
    AndMeans(parts, context);
    if exists i :: 0 <= i < |parts| && Evaluate(parts[i], context) != Holds(true) {
      FirstDecides(parts, context, Holds(true));
    }
  }

  lemma OrSatisfied(parts: seq<Json>, context: Json)
    requires forall i | 0 <= i < |parts| :: Evaluate(parts[i], context) == Holds(Satisfied(parts[i], context))
    ensures EvaluateOr(parts, context) == Holds(exists i | 0 <= i < |parts| :: Satisfied(parts[i], context))
  {
    hide Evaluate, Satisfied, EvaluateOr;
    OrMeans(parts, context);
    if exists i :: 0 <= i < |parts| && Evaluate(parts[i], context) != Holds(false) {
      FirstDecides(parts, context, Holds(false));
    }
  }

  lemma SimpleAgrees(condition: Json, context: Json)
    requires WellTyped(condition) && !condition.Empty() && !condition.Has("and") && !condition.Has("or")
    ensures Evaluate(condition, context) == Holds(Satisfied(condition, context))
  {
    hide Lookup, Parts, Compare, Finds;
    if IsSimple(condition) {
      SimpleMeans(condition.At("field").s, condition.At("operator").s, condition.At("value"), context);
    }
  }

  lemma NotAgrees(condition: Json, context: Json)
    requires !condition.Empty() && (condition.Has("and") || condition.Has("or"))
    requires !(condition.Has("and") && condition.At("and").Array?)
    requires !(condition.Has("or") && condition.At("or").Array?)
    requires condition.Has("not") ==>
               Evaluate(condition.At("not"), context) == Holds(Satisfied(condition.At("not"), context))
    ensures Evaluate(condition, context) == Holds(Satisfied(condition, context))
  {
    hide EvaluateAnd, EvaluateOr, EvaluateSimple, Finds;
  }

  lemma AndAgrees(condition: Json, context: Json)
    requires !condition.Empty() && condition.Has("and") && condition.At("and").Array?
    requires var parts := condition.At("and").items;
             forall i | 0 <= i < |parts| :: Evaluate(parts[i], context) == Holds(Satisfied(parts[i], context))
    ensures Evaluate(condition, context) == Holds(Satisfied(condition, context))
  {
    hide EvaluateAnd, EvaluateOr, EvaluateSimple, Finds;
    AndSatisfied(condition.At("and").items, context);
  }

  lemma OrAgrees(condition: Json, context: Json)
    requires !condition.Empty() && condition.Has("or") && condition.At("or").Array?
    requires !(condition.Has("and") && condition.At("and").Array?)
    requires var parts := condition.At("or").items;
             forall i | 0 <= i < |parts| :: Evaluate(parts[i], context) == Holds(Satisfied(parts[i], context))
    ensures Evaluate(condition, context) == Holds(Satisfied(condition, context))
  {
    hide EvaluateAnd, EvaluateOr, EvaluateSimple, Finds;
    OrSatisfied(condition.At("or").items, context);
  }

  lemma EmptyAgrees(condition: Json, context: Json)
    requires condition.Empty()
    ensures Evaluate(condition, context) == Holds(Satisfied(condition, context))
  {
    hide Finds;
  }

  /** The evaluator agrees with the formula on every well-typed condition, however nested. */
  lemma {:induction false} EvaluateIsSatisfied(condition: Json, context: Json)
    requires WellTyped(condition)
    ensures Evaluate(condition, context) == Holds(Satisfied(condition, context))
    decreases condition
  {
    hide Evaluate, Satisfied;
    if condition.Empty() {
      EmptyAgrees(condition, context);
    } else if condition.Has("and") && condition.At("and").Array? {
      var parts := condition.At("and").items;
      forall i | 0 <= i < |parts|
        ensures Evaluate(parts[i], context) == Holds(Satisfied(parts[i], context))
      {
        EvaluateIsSatisfied(parts[i], context);
      }
      AndAgrees(condition, context);
    } else if condition.Has("or") && condition.At("or").Array? {
      var parts := condition.At("or").items;
      forall i | 0 <= i < |parts|
        ensures Evaluate(parts[i], context) == Holds(Satisfied(parts[i], context))
      {
        EvaluateIsSatisfied(parts[i], context);
      }
      OrAgrees(condition, context);
    } else if condition.Has("and") || condition.Has("or") {
      if condition.Has("not") { EvaluateIsSatisfied(condition.At("not"), context); }
      NotAgrees(condition, context);
    } else {
      SimpleAgrees(condition, context);
    }
  }

  /** A field or operator that is no string is an error, and so is its negation. */
  lemma IllTypedIsError(condition: Json, context: Json)
    requires condition.Object? && "and" !in condition.fields && "or" !in condition.fields
    requires condition.fields.Keys >= {"field", "operator", "value"}
    ensures Evaluate(condition, context) == TypeError
       <==> !condition.fields["field"].String? || !condition.fields["operator"].String?
  {
    assert condition.Has("field");
    hide Lookup, Parts, Compare;
  }

  lemma {:induction false} FirstDecides(conditions: seq<Json>, context: Json, going: Verdict)
    requires exists i :: 0 <= i < |conditions| && Evaluate(conditions[i], context) != going
    ensures exists k :: Decides(conditions, context, going, k)
    decreases |conditions|
  {
    var i :| 0 <= i < |conditions| && Evaluate(conditions[i], context) != going;
    if Evaluate(conditions[0], context) != going {
      assert Decides(conditions, context, going, 0);
    } else {
      var rest := conditions[1..];
      assert rest[i - 1] == conditions[i];
      FirstDecides(rest, context, going);
      var k :| Decides(rest, context, going, k);
      assert forall j | 0 < j <= k + 1 :: conditions[j] == rest[j - 1];
      assert Decides(conditions, context, going, k + 1);
    }
  }

  // ---- a growing context

  /** `after` is `before` with more keys at the top. */
  predicate Extends(before: Json, after: Json)
  {
    before.Object? && after.Object? &&
    forall key | key in before.fields :: key in after.fields && after.fields[key] == before.fields[key]
  }

  /** Built with "and" and "or" from conditions on fields with a non-empty path. */
  predicate Positive(condition: Json)
  {
    if condition.Empty() then true
    else if condition.Has("and") && condition.At("and").Array? then
      forall i | 0 <= i < |condition.At("and").items| :: Positive(condition.At("and").items[i])
    else if condition.Has("or") && condition.At("or").Array? then
      forall i | 0 <= i < |condition.At("or").items| :: Positive(condition.At("or").items[i])
    else if condition.Has("and") || condition.Has("or") then !condition.Has("not")
    else IsSimple(condition) && condition.At("field").String? ==> condition.At("field").s != ""
  }

  /** What is found in a context is found, unchanged, in every extension of it. */
  lemma LookupStays(parts: seq<string>, before: Json, after: Json)
    requires Extends(before, after) && parts != [] && Lookup(parts, before).Some?
    ensures Lookup(parts, after) == Lookup(parts, before)
  {
  }

  /** Steps that finish add their outputs to the context: no condition that holds becomes
      false by that. It can become an error when "or" reaches a part it did not reach. */
  lemma {:induction false} Monotone(condition: Json, before: Json, after: Json)
    requires Positive(condition) && Extends(before, after)
    requires Evaluate(condition, before) == Holds(true)
    ensures Evaluate(condition, after) != Holds(false)
    decreases condition
  {
    if condition.Empty() {
    } else if condition.Has("and") && condition.At("and").Array? {
      var parts := condition.At("and").items;
      AndMeans(parts, before);
      AndMeans(parts, after);
      forall i | 0 <= i < |parts| ensures Evaluate(parts[i], after) != Holds(false) {
        Monotone(parts[i], before, after);
      }
      if exists i :: 0 <= i < |parts| && Evaluate(parts[i], after) != Holds(true) {
        FirstDecides(parts, after, Holds(true));
      }
    } else if condition.Has("or") && condition.At("or").Array? {
      var parts := condition.At("or").items;
      OrMeans(parts, before);
      OrMeans(parts, after);
      FirstDecides(parts, before, Holds(false));
      var k :| Decides(parts, before, Holds(false), k);
      Monotone(parts[k], before, after);
      FirstDecides(parts, after, Holds(false));
    } else if IsSimple(condition) && condition.At("field").String? && condition.At("field").s != ""
              && !condition.Has("and") && !condition.Has("or") {
      LookupStays(Parts(condition.At("field").s), before, after);
    }
  }

  /** A well-typed condition that holds goes on to hold. */
  lemma WellTypedMonotone(condition: Json, before: Json, after: Json)
    requires Positive(condition) && WellTyped(condition) && Extends(before, after)
    requires Evaluate(condition, before) == Holds(true)
    ensures Evaluate(condition, after) == Holds(true)
  {
    Monotone(condition, before, after);
    EvaluateIsSatisfied(condition, after);
  }

  // ---- the empty path

  function WholeContext(op: string, expected: Json): Json
  {
    Object(map["field" := String(""), "operator" := String(op), "value" := expected])
  }

  ghost predicate Steady(condition: Json)
  {
    forall before, after | Extends(before, after) && Evaluate(condition, before) == Holds(true) ::
      Evaluate(condition, after) != Holds(false)
  }

  lemma WholeContextValue(op: string, expected: Json, context: Json)
    ensures Evaluate(WholeContext(op, expected), context) == Holds(Compare(op, context, expected))
  {
    hide Compare;
    var c := WholeContext(op, expected);
    assert c.Has("field") && c.Has("operator") && c.Has("value");
    assert !c.Has("and") && !c.Has("or") && c.fields != map[];
    assert Parts("") == [];
  }

  lemma {:induction false} FreshKey(keys: set<string>) returns (key: string)
    ensures key !in keys
    ensures forall k | k in keys :: |k| < |key|
  {
    if keys == {} {
      key := "x";
    } else {
      var k :| k in keys;
      var shorter := FreshKey(keys - {k});
      key := shorter + k + "x";
    }
  }

  /** A condition on the whole context, the empty path, is steady under growth exactly when
      it does not compare the context with an object: not by "equals", and by "not_equals"
      only with the empty one. */
  lemma EmptyPathSteadyExactly(op: string, expected: Json)
    ensures Steady(WholeContext(op, expected))
       <==> !(expected.Object? && (op == "equals" || (op == "not_equals" && expected.fields != map[])))
  {
    var c := WholeContext(op, expected);
    forall context ensures Evaluate(c, context) == Holds(Compare(op, context, expected)) {
      WholeContextValue(op, expected, context);
    }
    if expected.Object? && op == "equals" {
      var key := FreshKey(expected.fields.Keys);
      var after := Object(expected.fields[key := Null]);
      assert key in after.fields;
      assert Extends(expected, after) && after != expected;
      assert Evaluate(c, expected) == Holds(true) && Evaluate(c, after) == Holds(false);
    } else if expected.Object? && op == "not_equals" && expected.fields != map[] {
      assert Extends(Object(map[]), expected);
      assert Evaluate(c, Object(map[])) == Holds(true) && Evaluate(c, expected) == Holds(false);
    }
  }
}
