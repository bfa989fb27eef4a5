/** Template expansion in step parameters: the loop that rewrites "{{field}}" in place, the
    one-pass substitution it is meant to be, and when the two agree. */
module Templates {
  import opened JsonValues

  /** The text each field of the context is replaced by. */
  type Texts = map<string, string>

  // ---- searching

  predicate PairAt(s: string, c: char, i: nat) { i + 1 < |s| && s[i] == c && s[i + 1] == c }

  /** The first place from `i` on where `c` stands twice, or the length of `s`. */
  function Find(s: string, c: char, i: nat): (r: nat)
    ensures r <= |s|
    ensures r < |s| ==> i <= r && PairAt(s, c, r)
    decreases |s| - i
  {
    if i >= |s| then |s| else if PairAt(s, c, i) then i else Find(s, c, i + 1)
  }

  lemma {:induction false} FindIsFirst(s: string, c: char, i: nat)
    ensures forall j | i <= j < Find(s, c, i) :: !PairAt(s, c, j)
    decreases |s| - i
  {
    if i < |s| && !PairAt(s, c, i) {
      FindIsFirst(s, c, i + 1);
    }
  }

  lemma {:induction false} FindShift(pre: string, s: string, c: char, i: nat)
    ensures Find(pre + s, c, |pre| + i) == |pre| + Find(s, c, i)
    decreases |s| - i
  {
    if i < |s| {
      assert PairAt(pre + s, c, |pre| + i) <==> PairAt(s, c, i);
      FindShift(pre, s, c, i + 1);
    }
  }

  /** The number of places with a double open brace. */
  function Braces(s: string): nat
  {
    if s == "" then 0 else (if PairAt(s, '{', 0) then 1 else 0) + Braces(s[1..])
  }

  // ---- one pass

  /** Every "{{field}}" with a bound field replaced, from left to right, and the text put in
      never looked at again. */
  function Pass(texts: Texts, s: string): string
    decreases |s|
  {
    if s == "" then ""
    else
      var end := Find(s, '}', 0);
      if PairAt(s, '{', 0) && end < |s| && end >= 2 && s[2..end] in texts then
        texts[s[2..end]] + Pass(texts, s[end + 2..])
      else [s[0]] + Pass(texts, s[1..])
  }

  // ---- the loop

  datatype Outcome = Done(text: string) | StillRunning

  /** The text after one round at a double open brace. */
  function Round(texts: Texts, s: string, start: nat): string
    requires PairAt(s, '{', start)
  {
    var end := Find(s, '}', start);
    if end < |s| && start + 2 <= end && s[start + 2..end] in texts then
      s[..start] + texts[s[start + 2..end]] + s[end + 2..]
    else s
  }

  /** Rounds of the loop from the double open brace at `start`, at most `budget` of them. */
  function Rounds(texts: Texts, s: string, start: nat, budget: nat): Outcome
    requires start < |s| ==> PairAt(s, '{', start)
    decreases budget
  {
    if start >= |s| then Done(s)
    else if budget == 0 then StillRunning
    else
      var t := Round(texts, s, start);
      Rounds(texts, t, Find(t, '{', start + 1), budget - 1)
  }

  function Resolve(texts: Texts, s: string, budget: nat): Outcome
  {
    Rounds(texts, s, Find(s, '{', 0), budget)
  }

  /** The loop on a string that it rewrites in place. */
  method ResolveString(texts: Texts, s: string, budget: nat) returns (str: string, done: bool)
    ensures Resolve(texts, s, budget) == if done then Done(str) else StillRunning
    ensures AllHarmless(texts) && Braces(s) <= budget ==> done && str == Pass(texts, s)
  {
    hide Find, Round, Pass, Braces, Harmless;
    str := s;
    var start := Find(str, '{', 0);
    var left := budget;
    while start < |str| && left > 0
      invariant 0 <= start && (start < |str| ==> PairAt(str, '{', start))
      invariant Rounds(texts, str, start, left) == Resolve(texts, s, budget)
      decreases left
    {
      str := Round(texts, str, start);
      start := Find(str, '{', start + 1);
      left := left - 1;
    }
    done := start >= |str|;
    if AllHarmless(texts) && Braces(s) <= budget {
      ResolveIsPass(texts, s, budget);
    }
  }

  // ---- when the loop is one pass

  /** A text that the loop, which goes on one character after the start of what it put in,
      cannot take for the start of a template: it is not empty, and neither in it after its
      first character nor over its end is there a double open brace. */
  predicate Harmless(text: string)
  {
    text != "" && forall i | 0 < i < |text| :: !PairAt(text + "{", '{', i)
  }

  predicate AllHarmless(texts: Texts) { forall k | k in texts :: Harmless(texts[k]) }

  lemma {:induction false} PassSkips(texts: Texts, skipped: string, s: string)
    requires forall i | 0 <= i < |skipped| :: !PairAt(skipped + s, '{', i)
    ensures Pass(texts, skipped + s) == skipped + Pass(texts, s)
    ensures Braces(skipped + s) == Braces(s)
    decreases |skipped|
  {
    hide Pass, Braces, Find, PairAt;
    if skipped == "" {
      assert skipped + s == s;
    } else {
      var later := skipped[1..];
      assert (skipped + s)[1..] == later + s;
      forall i | 0 <= i < |later| ensures !PairAt(later + s, '{', i) {
        PairBehind(skipped + s, later + s, i);
      }
      PassSkips(texts, later, s);
      PassOverOne(texts, skipped + s);
      assert [skipped[0]] + (later + Pass(texts, s)) == skipped + Pass(texts, s);
    }
  }

  lemma PairBehind(s: string, tail: string, i: nat)
    requires s != "" && s[1..] == tail
    ensures PairAt(tail, '{', i) == PairAt(s, '{', i + 1)
  {
  }

  lemma PassOverOne(texts: Texts, s: string)
    requires s != "" && !PairAt(s, '{', 0)
    ensures Pass(texts, s) == [s[0]] + Pass(texts, s[1..]) && Braces(s) == Braces(s[1..])
  {
    hide Find;
  }

  lemma {:induction false} BracesOfSuffix(s: string, i: nat)
    requires i <= |s|
    ensures Braces(s[i..]) <= Braces(s)
    decreases i
  {
    if i > 0 {
      BracesOfSuffix(s[1..], i - 1);
      assert s[1..][i - 1..] == s[i..];
    } else {
      assert s[0..] == s;
    }
  }

  /** What was put in is passed over, and the rest is as if it stood alone. */
  lemma HarmlessPassed(texts: Texts, text: string, rest: string)
    requires Harmless(text)
    ensures Pass(texts, text[1..] + rest) == text[1..] + Pass(texts, rest)
    ensures Braces(text[1..] + rest) == Braces(rest)
  {
    var tail := text[1..];
    forall i | 0 <= i < |tail| ensures !PairAt(tail + rest, '{', i) {
      assert !PairAt(text + "{", '{', i + 1);
      if i + 1 < |tail| {
        assert (tail + rest)[i + 1] == text[i + 2] == (text + "{")[i + 2];
      } else {
        assert (text + "{")[i + 2] == '{';
      }
      assert (tail + rest)[i] == text[i + 1] == (text + "{")[i + 1];
    }
    PassSkips(texts, tail, rest);
  }

  /** The field a text starts with, if it starts with a template of a bound one. */
  predicate StartsBound(texts: Texts, at: string)
  {
    var end := Find(at, '}', 0);
    PairAt(at, '{', 0) && end < |at| && end >= 2 && at[2..end] in texts
  }

  /** The text of that field, and what follows the template. */
  function BoundText(texts: Texts, at: string): string
    requires StartsBound(texts, at)
  {
    texts[at[2..Find(at, '}', 0)]]
  }

  function AfterBound(texts: Texts, at: string): string
    requires StartsBound(texts, at)
  {
    at[Find(at, '}', 0) + 2..]
  }

  lemma SliceAfter(pre: string, at: string, i: nat, j: nat)
    requires i <= j <= |at|
    ensures (pre + at)[|pre| + i..|pre| + j] == at[i..j]
    ensures (pre + at)[|pre| + i..] == at[i..]
    ensures (pre + at)[..|pre|] == pre
  {
  }

  lemma PairAfter(pre: string, at: string, c: char, i: nat)
    ensures PairAt(pre + at, c, |pre| + i) == PairAt(at, c, i)
  {
  }

  /** A pair of closing braces is not over the opening one. */
  lemma EndIsLater(at: string)
    requires PairAt(at, '{', 0) && Find(at, '}', 0) < |at|
    ensures 2 <= Find(at, '}', 0) <= |at| - 2
  {
    hide Find;
  }

  lemma RoundIs(texts: Texts, pre: string, at: string)
    requires PairAt(at, '{', 0)
    ensures PairAt(pre + at, '{', |pre|)
    ensures Round(texts, pre + at, |pre|) ==
            if StartsBound(texts, at) then pre + BoundText(texts, at) + AfterBound(texts, at) else pre + at
  {
    hide Find, PairAt;
    PairAfter(pre, at, '{', 0);
    FindShift(pre, at, '}', 0);
    var end := Find(at, '}', 0);
    if end < |at| {
      EndIsLater(at);
      SliceAfter(pre, at, 2, end);
      SliceAfter(pre, at, end + 2, |at|);
    }
  }

  lemma PassIs(texts: Texts, at: string)
    requires PairAt(at, '{', 0)
    ensures Pass(texts, at) ==
            if StartsBound(texts, at) then BoundText(texts, at) + Pass(texts, AfterBound(texts, at))
            else at[..1] + Pass(texts, at[1..])
    ensures Braces(at[1..]) < Braces(at)
    ensures StartsBound(texts, at) ==> Braces(AfterBound(texts, at)) < Braces(at)
  {
    hide Find, Pass, Braces;
    PassCases(texts, at);
    FewerBraces(at, 1);
    if StartsBound(texts, at) { FewerBraces(at, Find(at, '}', 0) + 2); }
  }

  lemma PassCases(texts: Texts, at: string)
    requires PairAt(at, '{', 0)
    ensures Pass(texts, at) ==
            if StartsBound(texts, at) then BoundText(texts, at) + Pass(texts, AfterBound(texts, at))
            else at[..1] + Pass(texts, at[1..])
  {
    hide Find;
  }

  lemma FewerBraces(at: string, n: nat)
    requires PairAt(at, '{', 0) && 0 < n <= |at|
    ensures Braces(at[n..]) < Braces(at)
  {
    BracesOfSuffix(at[1..], n - 1);
    assert at[1..][n - 1..] == at[n..];
  }

  lemma BoundIsHarmless(texts: Texts, at: string)
    requires AllHarmless(texts) && StartsBound(texts, at)
    ensures Harmless(BoundText(texts, at)) && |BoundText(texts, at)| > 0
  {
    hide Find;
  }

  lemma PairHasTwo(s: string, c: char, i: nat)
    requires PairAt(s, c, i)
    ensures i + 1 < |s|
  {
  }

  /** One round at a double open brace. `done` is what the scan leaves behind; the pass over
      `todo` is still to come. */
  lemma OneRound(texts: Texts, pre: string, at: string) returns (done: string, todo: string)
    requires AllHarmless(texts) && PairAt(at, '{', 0)
    ensures PairAt(pre + at, '{', |pre|) && Round(texts, pre + at, |pre|) == done + todo
    ensures |done| == |pre| + 1 && done + Pass(texts, todo) == pre + Pass(texts, at)
    ensures Braces(todo) < Braces(at)
  {
    hide *;
    RoundIs(texts, pre, at);
    PassIs(texts, at);
    if StartsBound(texts, at) {
      var text, rest := BoundText(texts, at), AfterBound(texts, at);
      BoundIsHarmless(texts, at);
      HarmlessPassed(texts, text, rest);
      done, todo := pre + text[..1], text[1..] + rest;
      assert text == text[..1] + text[1..];
      assert pre + text + rest == done + todo;
      assert done + (text[1..] + Pass(texts, rest)) == pre + (text + Pass(texts, rest));
    } else {
      PairHasTwo(at, '{', 0);
      done, todo := pre + at[..1], at[1..];
      assert at == at[..1] + at[1..];
      assert pre + at == done + todo;
      assert done + Pass(texts, todo) == pre + (at[..1] + Pass(texts, todo));
    }
  }

  /** What stands before the first double open brace stays as it is. */
  lemma SkippedToFirst(texts: Texts, s: string)
    ensures var q := Find(s, '{', 0);
            && Pass(texts, s) == s[..q] + Pass(texts, s[q..]) && Braces(s[q..]) == Braces(s)
            && (q == |s| ==> Pass(texts, s) == s)
            && (q < |s| ==> PairAt(s[q..], '{', 0))
  {
    hide Find;
    var q := Find(s, '{', 0);
    FindIsFirst(s, '{', 0);
    assert s == s[..q] + s[q..];
    PassSkips(texts, s[..q], s[q..]);
    if q == |s| {
      assert s[q..] == "";
      assert s[..q] + Pass(texts, "") == s;
    }
  }

  lemma RoundsUnfold(texts: Texts, s: string, start: nat, budget: nat)
    requires start < |s| ==> PairAt(s, '{', start)
    ensures start >= |s| ==> Rounds(texts, s, start, budget) == Done(s)
    ensures start < |s| && budget > 0 ==>
              var t := Round(texts, s, start);
              Rounds(texts, s, start, budget) == Rounds(texts, t, Find(t, '{', start + 1), budget - 1)
  {
  }

  /** From any point of the scan on, the loop does one pass over what is still to come, in
      at most one round for each double open brace there. */
  lemma {:induction false} RoundsArePass(texts: Texts, pre: string, s: string, budget: nat)
    requires AllHarmless(texts) && Braces(s) <= budget
    ensures Rounds(texts, pre + s, Find(pre + s, '{', |pre|), budget) == Done(pre + Pass(texts, s))
    decreases budget
  {
    hide *;
    var q := Find(s, '{', 0);
    FindShift(pre, s, '{', 0);
    SkippedToFirst(texts, s);
    RoundsUnfold(texts, pre + s, |pre| + q, budget);
    if q < |s| {
      var before, at := pre + s[..q], s[q..];
      assert pre + s == before + at;
      var done, todo := OneRound(texts, before, at);
      RoundsArePass(texts, done, todo, budget - 1);
      assert pre + (s[..q] + Pass(texts, at)) == before + Pass(texts, at);
    }
  }

  /** For every template: when every bound text is harmless the loop ends, in no more rounds
      than there are double open braces, and gives the one-pass substitution. */
  lemma ResolveIsPass(texts: Texts, s: string, budget: nat)
    requires AllHarmless(texts) && Braces(s) <= budget
    ensures Resolve(texts, s, budget) == Done(Pass(texts, s))
  {
    RoundsArePass(texts, "", s, budget);
    assert "" + s == s;
    assert "" + Pass(texts, s) == Pass(texts, s);
  }

  // ---- and when it is not

  predicate Plain(name: string) { '{' !in name && '}' !in name }

  function Template(name: string): string { "{{" + name + "}}" }

  lemma {:induction false} FindIs(s: string, c: char, i: nat, r: nat)
    requires i <= r <= |s| && (r < |s| ==> PairAt(s, c, r))
    requires forall j | i <= j < r :: !PairAt(s, c, j)
    ensures Find(s, c, i) == r
    decreases r - i
  {
    if i < r {
      FindIs(s, c, i + 1, r);
    }
  }

  /** A template of a bound field in front of anything. */
  lemma TemplateStarts(texts: Texts, name: string, rest: string)
    requires name in texts && Plain(name)
    ensures var s := Template(name) + rest;
            && PairAt(s, '{', 0) && StartsBound(texts, s)
            && BoundText(texts, s) == texts[name] && AfterBound(texts, s) == rest
  {
    hide Find;
    var s := Template(name) + rest;
    var end := |name| + 2;
    assert s[2..end] == name;
    assert s[end + 2..] == rest;
    assert s[end] == '}' && s[end + 1] == '}';
    forall j | 0 <= j < end ensures !PairAt(s, '}', j) {
      if 2 <= j { assert s[j] == name[j - 2]; }
    }
    FindIs(s, '}', 0, end);
  }

  lemma BracesOfTemplate(name: string, rest: string)
    requires Plain(name)
    ensures Braces(Template(name) + rest) == 1 + Braces(rest)
  {
    var s := Template(name) + rest;
    var inner := s[1..|name| + 4];
    assert s[1..] == inner + rest;
    forall i | 0 <= i < |inner| ensures !PairAt(inner + rest, '{', i) {
      assert (inner + rest)[i] == s[i + 1];
      if 1 <= i <= |name| {
        assert s[i + 1] == name[i - 1];
      } else if i == 0 {
        assert (inner + rest)[1] == s[2];
        if name != "" { assert s[2] == name[0]; }
      }
    }
    PassSkips(map[], inner, rest);
  }

  /** The first round at a template at the start. */
  lemma FirstRound(texts: Texts, name: string, rest: string, budget: nat)
    requires name in texts && Plain(name) && budget > 0
    ensures var t := texts[name] + rest;
            Resolve(texts, Template(name) + rest, budget) == Rounds(texts, t, Find(t, '{', 1), budget - 1)
  {
    hide *;
    var s := Template(name) + rest;
    TemplateStarts(texts, name, rest);
    PairHasTwo(s, '{', 0);
    FindIs(s, '{', 0, 0);
    RoundIs(texts, "", s);
    assert "" + s == s;
    assert "" + texts[name] + rest == texts[name] + rest;
    ResolveStarts(texts, s, budget);
    RoundsUnfold(texts, s, 0, budget);
  }

  lemma ResolveStarts(texts: Texts, s: string, budget: nat)
    ensures Resolve(texts, s, budget) == Rounds(texts, s, Find(s, '{', 0), budget)
  {
  }

  lemma NotInOneRound(texts: Texts, name: string)
    requires name in texts && Plain(name) && texts[name] != "" && !Harmless(texts[name])
    ensures var s := Template(name) + "{"; Braces(s) == 1 && Resolve(texts, s, 1) == StillRunning
  {
    var t := texts[name] + "{";
    BracesOfTemplate(name, "{");
    assert Braces("{") == 0;
    FirstRound(texts, name, "{", 1);
    var i :| 0 < i < |texts[name]| && PairAt(t, '{', i);
    FindIsFirst(t, '{', 1);
    assert Find(t, '{', 1) < |t|;
  }

  lemma NoSecondTemplate(name: string)
    requires Plain(name)
    ensures Find(Template(name), '{', 1) == |Template(name)|
  {
    hide Find;
    var one := Template(name);
    forall j | 1 <= j < |one| ensures !PairAt(one, '{', j) {
      if 2 <= j < 2 + |name| { assert one[j] == name[j - 2]; }
    }
    FindIs(one, '{', 1, |one|);
  }

  lemma EmptyTextPass(texts: Texts, name: string, rest: string)
    requires name in texts && Plain(name) && texts[name] == ""
    ensures Pass(texts, Template(name) + rest) == Pass(texts, rest)
  {
    hide Pass, Find, Template;
    TemplateStarts(texts, name, rest);
    PassIs(texts, Template(name) + rest);
    assert "" + Pass(texts, rest) == Pass(texts, rest);
  }

  /** After a template whose text is empty the next one, of whatever field, is skipped. */
  lemma EmptyTextSkips(texts: Texts, name: string, next: string)
    requires name in texts && Plain(name) && texts[name] == "" && next in texts && Plain(next)
    ensures var s := Template(name) + Template(next);
            && Braces(s) == 2
            && (forall budget: nat | budget > 0 :: Resolve(texts, s, budget) == Done(Template(next)))
            && Pass(texts, s) == texts[next]
  {
    hide Pass, Braces, Template, Resolve, Find, Round, Plain;
    var second := Template(next);
    assert second + "" == second;
    BracesOfTemplate(name, second);
    BracesOfTemplate(next, "");
    BracesOfNothing();
    forall budget: nat | budget > 0 ensures Resolve(texts, Template(name) + second, budget) == Done(second) {
      FirstRound(texts, name, second, budget);
      assert texts[name] + second == second;
      NoSecondTemplate(next);
    }
    EmptyTextPass(texts, name, second);
    TemplateStarts(texts, next, "");
    PassIs(texts, second);
    PassOfNothing(texts);
    assert texts[next] + "" == texts[next];
  }

  lemma BracesOfNothing()
    ensures Braces("") == 0
  {
  }

  lemma PassOfNothing(texts: Texts)
    ensures Pass(texts, "") == ""
  {
  }

  /** In a context whose field names hold no braces: the loop replaces every template in one
      pass, in at most one round for each double open brace, exactly when all bound texts
      are harmless. */
  lemma OnePassExactly(texts: Texts)
    requires forall k | k in texts :: Plain(k)
    ensures AllHarmless(texts) <==> forall s: string :: Resolve(texts, s, Braces(s)) == Done(Pass(texts, s))
  {
    hide Resolve, Pass, Braces, Template;
    if AllHarmless(texts) {
      forall s: string ensures Resolve(texts, s, Braces(s)) == Done(Pass(texts, s)) {
        ResolveIsPass(texts, s, Braces(s));
      }
    } else {
      var name :| name in texts && !Harmless(texts[name]);
      if texts[name] == "" {
        EmptyTextSkips(texts, name, name);
        TemplateIsText(name);
        var s := Template(name) + Template(name);
        assert Resolve(texts, s, Braces(s)) != Done(Pass(texts, s));
      } else {
        NotInOneRound(texts, name);
        var s := Template(name) + "{";
        assert Resolve(texts, s, Braces(s)) != Done(Pass(texts, s));
      }
    }
  }

  lemma TemplateIsText(name: string)
    ensures Template(name) != ""
  {
  }

  lemma NoPairWithin(pre: string, front: string, at: string, j: nat)
    requires '{' !in front && |pre| <= j < |pre| + |front|
    ensures !PairAt(pre + front + at, '{', j)
  {
    assert (pre + front + at)[j] == front[j - |pre|];
  }

  lemma TemplateOpens(name: string, rest: string)
    ensures PairAt(Template(name) + rest, '{', 0)
  {
  }

  lemma PairBegins(before: string, at: string)
    requires PairAt(at, '{', 0)
    ensures PairAt(before + at, '{', |before|)
  {
    assert (before + at)[|before|] == at[0] && (before + at)[|before| + 1] == at[1];
  }

  /** One round at a text that has its own template behind something: the scan moves on to
      that template, and everything is as before, only longer. */
  lemma MentionFound(pre: string, front: string, name: string, rest: string)
    requires front != "" && '{' !in front
    ensures var s := pre + front + (Template(name) + rest);
            Find(s, '{', |pre| + 1) == |pre| + |front|
  {
    hide *;
    var at := Template(name) + rest;
    TemplateOpens(name, rest);
    var s := pre + front + at;
    forall j | |pre| + 1 <= j < |pre| + |front| ensures !PairAt(s, '{', j) {
      NoPairWithin(pre, front, at, j);
    }
    PairBegins(pre + front, at);
    FindIs(s, '{', |pre| + 1, |pre + front|);
  }

  /** A field whose text mentions the field itself behind its first character is replaced for
      ever: from its template on, whatever stands around it, no number of rounds is enough. */
  lemma {:induction false} SelfMentionNeverEnds(texts: Texts, name: string, front: string, back: string, pre: string,
                                                post: string, budget: nat)
    requires name in texts && Plain(name) && texts[name] == front + Template(name) + back
    requires front != "" && '{' !in front
    ensures PairAt(pre + (Template(name) + post), '{', |pre|)
    ensures Rounds(texts, pre + (Template(name) + post), |pre|, budget) == StillRunning
    decreases budget
  {
    hide *;
    var at := Template(name) + post;
    TemplateStarts(texts, name, post);
    RoundIs(texts, pre, at);
    PairHasTwo(pre + at, '{', |pre|);
    if budget == 0 {
      NoRounds(texts, pre + at, |pre|);
    } else {
      RoundsUnfold(texts, pre + at, |pre|, budget);
      assert pre + texts[name] + post == pre + front + (Template(name) + (back + post));
      MentionFound(pre, front, name, back + post);
      assert |pre + front| == |pre| + |front|;
      SelfMentionNeverEnds(texts, name, front, back, pre + front, back + post, budget - 1);
    }
  }

  lemma NoRounds(texts: Texts, s: string, start: nat)
    requires start < |s| && PairAt(s, '{', start)
    ensures Rounds(texts, s, start, 0) == StillRunning
  {
  }

  /** So no string that comes to such a template first is ever resolved. */
  lemma SelfMentionIsNeverResolved(texts: Texts, name: string, front: string, back: string, pre: string, post: string,
                                   budget: nat)
    requires name in texts && Plain(name) && texts[name] == front + Template(name) + back
    requires front != "" && '{' !in front && '{' !in pre
    ensures Resolve(texts, pre + (Template(name) + post), budget) == StillRunning
  {
    SelfMentionNeverEnds(texts, name, front, back, pre, post, budget);
    hide Rounds, Find, Template;
    var s := pre + (Template(name) + post);
    forall j | 0 <= j < |pre| ensures !PairAt(s, '{', j) {
      assert s[j] == pre[j];
    }
    FindIs(s, '{', 0, |pre|);
  }

  /** A text with one mention of its own field keeps the loop going exactly when the mention
      is not at the very start of the text. */
  lemma SelfMentionExactly(texts: Texts, name: string, front: string, back: string)
    requires name in texts && Plain(name) && texts[name] == front + Template(name) + back
    requires '{' !in front && '{' !in back
    ensures (forall budget :: Resolve(texts, Template(name), budget) == StillRunning) <==> front != ""
  {
    hide Resolve, Template, Find;
    assert "" + (Template(name) + "") == Template(name);
    if front != "" {
      forall budget ensures Resolve(texts, Template(name), budget) == StillRunning {
        SelfMentionIsNeverResolved(texts, name, front, back, "", "", budget);
      }
    } else {
      assert Template(name) + "" == Template(name);
      FirstRound(texts, name, "", 1);
      assert texts[name] + "" == Template(name) + back;
      NoSecondMention(name, back);
      assert Resolve(texts, Template(name), 1) == Done(Template(name) + back);
    }
  }

  lemma NoSecondMention(name: string, back: string)
    requires Plain(name) && '{' !in back
    ensures Find(Template(name) + back, '{', 1) == |Template(name) + back|
  {
    hide Find;
    var s := Template(name) + back;
    forall j | 1 <= j < |s| ensures !PairAt(s, '{', j) {
      if 2 <= j < 2 + |name| { assert s[j] == name[j - 2]; }
      if j >= 4 + |name| { assert s[j] == back[j - 4 - |name|]; }
    }
    FindIs(s, '{', 1, |s|);
  }

  /** Where the scan goes in a text with one double open brace that is never closed. */
  lemma UnclosedFinds(front: string, back: string)
    requires front != "" && Plain(front) && Plain(back)
    ensures var t, at := front + "{{" + back, "{{" + back;
            && t == front + at && |t| >= |front| + 2
            && Find(t, '{', 1) == |front| && Find(t, '{', |front| + 1) == |t| && Find(at, '}', 0) == |at|
            && PairAt(at, '{', 0) && PairAt(t, '{', |front|) && PairAt(t + "{", '{', |front|)
  {
    hide Find;
    var t, at := front + "{{" + back, "{{" + back;
    forall j | 1 <= j < |front| ensures !PairAt(t, '{', j) {
      assert t[j] == front[j];
    }
    FindIs(t, '{', 1, |front|);
    forall j | 0 <= j < |at| ensures !PairAt(at, '}', j) {
      if j >= 2 { assert at[j] == back[j - 2]; }
    }
    FindIs(at, '}', 0, |at|);
    forall j | |front| + 1 <= j < |t| ensures !PairAt(t, '{', j) {
      if j + 1 < |t| { assert t[j + 1] == back[j + 1 - |front| - 2]; }
    }
    FindIs(t, '{', |front| + 1, |t|);
  }

  lemma UnclosedIsNotBound(texts: Texts, at: string)
    requires Find(at, '}', 0) == |at|
    ensures !StartsBound(texts, at)
  {
  }

  lemma NotHarmlessAt(text: string, i: nat)
    requires 0 < i < |text| && PairAt(text + "{", '{', i)
    ensures !Harmless(text)
  {
  }

  /** A text that is not harmless need not do harm: one with a double open brace that is never
      closed takes a second round, and comes out as one pass leaves it. What fails is only
      that one round is enough for each double open brace of the template. */
  lemma UnclosedBraceTakesTwoRounds(texts: Texts, name: string, front: string, back: string)
    requires name in texts && Plain(name) && texts[name] == front + "{{" + back
    requires front != "" && Plain(front) && Plain(back)
    ensures !Harmless(texts[name]) && Braces(Template(name)) == 1
    ensures Resolve(texts, Template(name), 1) == StillRunning
    ensures Resolve(texts, Template(name), 2) == Done(Pass(texts, Template(name)))
  {
    hide *;
    var t, at := texts[name], "{{" + back;
    assert Template(name) + "" == Template(name) && t + "" == t;
    UnclosedFinds(front, back);
    assert |front| > 0;
    NotHarmlessAt(t, |front|);
    BracesOfTemplate(name, "");
    BracesOfNothing();
    EmptyTail(texts, name);
    FirstRound(texts, name, "", 1);
    FirstRound(texts, name, "", 2);
    NoRounds(texts, t, |front|);
    UnclosedIsNotBound(texts, at);
    RoundIs(texts, front, at);
    RoundsUnfold(texts, t, |front|, 1);
    RoundsUnfold(texts, t, |t|, 0);
  }

  lemma EmptyTail(texts: Texts, name: string)
    requires name in texts && Plain(name)
    ensures Pass(texts, Template(name)) == texts[name]
  {
    hide Pass, Template;
    assert Template(name) + "" == Template(name);
    TemplateStarts(texts, name, "");
    PassIs(texts, Template(name));
    PassOfNothing(texts);
    assert texts[name] + "" == texts[name];
  }

  // ---- whole parameters

  function TextOf(v: Json, dump: Json -> string): string { if v.String? then v.s else dump(v) }

  /** The texts of the fields of a context: strings as they are, other values dumped. */
  function TextsOf(context: Json, dump: Json -> string): Texts
  {
    if !context.Object? then map[]
    else map k | k in context.fields :: TextOf(context.fields[k], dump)
  }

  datatype Resolved = Resolved(v: Json) | Unfinished

  /** The values with every string rewritten by the loop, at most `budget` rounds each; keys
      are left alone. Unfinished when one of the strings is. */
  function ResolveValue(texts: Texts, v: Json, budget: nat): Resolved
  {
    match v
    case String(s) =>
      (match Resolve(texts, s, budget)
       case Done(t) => Resolved(String(t))
       case StillRunning => Unfinished)
    case Array(items) =>
      if forall i | 0 <= i < |items| :: ResolveValue(texts, items[i], budget).Resolved? then
        Resolved(Array(seq(|items|, i requires 0 <= i < |items| && ResolveValue(texts, items[i], budget).Resolved? =>
                                     ResolveValue(texts, items[i], budget).v)))
      else Unfinished
    case Object(fields) =>
      if forall k | k in fields :: ResolveValue(texts, fields[k], budget).Resolved? then
        Resolved(Object(map k | k in fields :: ResolveValue(texts, fields[k], budget).v))
      else Unfinished
    case _ => Resolved(v)
  }

  /** The values with one pass over every string. */
  function PassValue(texts: Texts, v: Json): Json
  {
    match v
    case String(s) => String(Pass(texts, s))
    case Array(items) => Array(seq(|items|, i requires 0 <= i < |items| => PassValue(texts, items[i])))
    case Object(fields) => Object(map k | k in fields :: PassValue(texts, fields[k]))
    case _ => v
  }

  /** The parameters of a step: a list of names becomes an object with nothing under each
      name, anything else is resolved. */
  function ResolveParameters(parameters: Json, context: Json, dump: Json -> string, budget: nat): Resolved
  {
    if parameters.Array? then Resolved(Object(map k | k in Names(parameters.items) :: Null))
    else ResolveValue(TextsOf(context, dump), parameters, budget)
  }

  function Names(items: seq<Json>): set<string> { set v | v in items && v.String? :: v.s }

  predicate SameShape(a: Json, b: Json)
  {
    match a
    case String(_) => b.String?
    case Array(items) =>
      b.Array? && |b.items| == |items| && forall i | 0 <= i < |items| :: SameShape(items[i], b.items[i])
    case Object(fields) =>
      b.Object? && b.fields.Keys == fields.Keys && forall k | k in fields :: SameShape(fields[k], b.fields[k])
    case _ => b == a
  }

  /** A string without double open braces. */
  predicate Untouched(v: Json)
  {
    match v
    case String(s) => Braces(s) == 0
    case Array(items) => forall i | 0 <= i < |items| :: Untouched(items[i])
    case Object(fields) => forall k | k in fields :: Untouched(fields[k])
    case _ => true
  }

  lemma NothingToResolve(texts: Texts, s: string, budget: nat)
    requires Braces(s) == 0
    ensures Resolve(texts, s, budget) == Done(s)
  {
    hide Find, Pass;
    SkippedToFirst(texts, s);
    var q := Find(s, '{', 0);
    if q < |s| {
      PassIs(texts, s[q..]);
    }
  }

  /** Whenever resolving finishes, the parameters keep their shape: the same keys, lengths and
      kinds of values at every depth. Where no string has a template it does finish, and
      changes nothing. */
  lemma {:induction false} ShapeStays(texts: Texts, v: Json, budget: nat)
    ensures ResolveValue(texts, v, budget).Resolved? ==> SameShape(v, ResolveValue(texts, v, budget).v)
    ensures Untouched(v) ==> ResolveValue(texts, v, budget) == Resolved(v)
    decreases v
  {
    match v
    case String(s) =>
      if Untouched(v) { NothingToResolve(texts, s, budget); }
    case Array(items) =>
      forall i | 0 <= i < |items|
        ensures ResolveValue(texts, items[i], budget).Resolved? ==>
                  SameShape(items[i], ResolveValue(texts, items[i], budget).v)
        ensures Untouched(items[i]) ==> ResolveValue(texts, items[i], budget) == Resolved(items[i])
      {
        ShapeStays(texts, items[i], budget);
      }
      if Untouched(v) { assert ResolveValue(texts, v, budget).v.items == items; }
    case Object(fields) =>
      forall k | k in fields
        ensures ResolveValue(texts, fields[k], budget).Resolved? ==>
                  SameShape(fields[k], ResolveValue(texts, fields[k], budget).v)
        ensures Untouched(fields[k]) ==> ResolveValue(texts, fields[k], budget) == Resolved(fields[k])
      {
        ShapeStays(texts, fields[k], budget);
      }
      if Untouched(v) { assert ResolveValue(texts, v, budget).v.fields == fields; }
    case _ =>
  }

  /** Enough rounds for every string in a value. */
  predicate Suffices(v: Json, budget: nat)
  {
    match v
    case String(s) => Braces(s) <= budget
    case Array(items) => forall i | 0 <= i < |items| :: Suffices(items[i], budget)
    case Object(fields) => forall k | k in fields :: Suffices(fields[k], budget)
    case _ => true
  }

  lemma {:induction false} MoreSuffices(v: Json, budget: nat, more: nat)
    requires Suffices(v, budget) && budget <= more
    ensures Suffices(v, more)
    decreases v
  {
    match v
    case Array(items) =>
      forall i | 0 <= i < |items| ensures Suffices(items[i], more) { MoreSuffices(items[i], budget, more); }
    case Object(fields) =>
      forall k | k in fields ensures Suffices(fields[k], more) { MoreSuffices(fields[k], budget, more); }
    case _ =>
  }

  lemma {:induction false} SomeBudgetSuffices(v: Json) returns (budget: nat)
    ensures Suffices(v, budget)
    decreases v, 1, 0
  {
    budget := 0;
    match v {
      case String(s) => budget := Braces(s);
      case Array(items) => budget := SomeForItems(v, |items|);
      case Object(fields) => budget := SomeForKeys(v, fields.Keys);
      case _ =>
    }
  }

  lemma {:induction false} SomeForItems(v: Json, n: nat) returns (budget: nat)
    requires v.Array? && n <= |v.items|
    ensures forall i | 0 <= i < n :: Suffices(v.items[i], budget)
    decreases v, 0, n
  {
    budget := 0;
    if n > 0 {
      var before := SomeForItems(v, n - 1);
      var last := SomeBudgetSuffices(v.items[n - 1]);
      budget := before + last;
      forall i | 0 <= i < n ensures Suffices(v.items[i], budget) {
        MoreSuffices(v.items[i], if i < n - 1 then before else last, budget);
      }
    }
  }

  lemma {:induction false} SomeForKeys(v: Json, keys: set<string>) returns (budget: nat)
    requires v.Object? && keys <= v.fields.Keys
    ensures forall k | k in keys :: Suffices(v.fields[k], budget)
    decreases v, 0, |keys|
  {
    budget := 0;
    if keys != {} {
      var key :| key in keys;
      var before := SomeForKeys(v, keys - {key});
      var last := SomeBudgetSuffices(v.fields[key]);
      budget := before + last;
      forall k | k in keys ensures Suffices(v.fields[k], budget) {
        MoreSuffices(v.fields[k], if k == key then last else before, budget);
      }
    }
  }

  /** With harmless texts and enough rounds the loop over all strings finishes and replaces
      every template, at every depth, as one pass does. */
  lemma {:induction false} ValueIsPassed(texts: Texts, v: Json, budget: nat)
    requires AllHarmless(texts) && Suffices(v, budget)
    ensures ResolveValue(texts, v, budget) == Resolved(PassValue(texts, v))
    decreases v
  {
    hide Resolve, Pass, Braces, AllHarmless;
    match v
    case String(s) => ResolveIsPass(texts, s, budget);
    case Array(items) =>
      forall i | 0 <= i < |items|
        ensures ResolveValue(texts, items[i], budget) == Resolved(PassValue(texts, items[i]))
      {
        ValueIsPassed(texts, items[i], budget);
      }
      assert ResolveValue(texts, v, budget).v.items == PassValue(texts, v).items;
    case Object(fields) =>
      forall k | k in fields
        ensures ResolveValue(texts, fields[k], budget) == Resolved(PassValue(texts, fields[k]))
      {
        ValueIsPassed(texts, fields[k], budget);
      }
      assert ResolveValue(texts, v, budget).v.fields == PassValue(texts, v).fields;
    case _ =>
  }

  /** One string that mentions a field that mentions itself keeps the whole parameters from
      ever being resolved. */
  lemma SelfMentionKeepsParameters(texts: Texts, name: string, front: string, back: string, fields: map<string, Json>,
                                   key: string, pre: string, post: string, budget: nat)
    requires name in texts && Plain(name) && texts[name] == front + Template(name) + back
    requires front != "" && '{' !in front && '{' !in pre
    requires key in fields && fields[key] == String(pre + (Template(name) + post))
    ensures ResolveValue(texts, Object(fields), budget) == Unfinished
  {
    SelfMentionIsNeverResolved(texts, name, front, back, pre, post, budget);
    hide Resolve, Template;
    assert ResolveValue(texts, fields[key], budget) == Unfinished;
  }

  /** The parameters of a step: a list becomes an object with nothing under exactly the names
      in it. Anything else keeps its shape whenever the loop finishes; and when the texts of
      all context fields are harmless it does finish, with every template replaced. */
  lemma ParametersResolved(parameters: Json, context: Json, dump: Json -> string)
    ensures parameters.Array? ==> forall budget ::
              var r := ResolveParameters(parameters, context, dump, budget);
              && r.Resolved? && r.v.Object?
              && (forall name :: name in r.v.fields <==> String(name) in parameters.items)
              && forall name | name in r.v.fields :: r.v.fields[name] == Null
    ensures !parameters.Array? ==> forall budget ::
              var r := ResolveParameters(parameters, context, dump, budget);
              r.Resolved? ==> SameShape(parameters, r.v)
    ensures !parameters.Array? && AllHarmless(TextsOf(context, dump)) ==>
              exists budget :: ResolveParameters(parameters, context, dump, budget) ==
                               Resolved(PassValue(TextsOf(context, dump), parameters))
  {
    hide ResolveValue, PassValue, AllHarmless, Suffices;
    var texts := TextsOf(context, dump);
    if parameters.Array? {
      forall name ensures name in Names(parameters.items) <==> String(name) in parameters.items {
        if String(name) in parameters.items {
          assert String(name).s in Names(parameters.items);
        }
      }
    } else {
      forall budget: nat
        ensures var r := ResolveParameters(parameters, context, dump, budget);
                r.Resolved? ==> SameShape(parameters, r.v)
      {
        ShapeStays(texts, parameters, budget);
      }
      if AllHarmless(texts) {
        var budget := SomeBudgetSuffices(parameters);
        ValueIsPassed(texts, parameters, budget);
        assert ResolveParameters(parameters, context, dump, budget) == Resolved(PassValue(texts, parameters));
      }
    }
  }
}
