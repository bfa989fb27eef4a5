/** When the template loop, given as many rounds as it takes, is the one-pass substitution: a
    condition on the bound texts that is met exactly then. */
module TemplatePass {
  import opened JsonValues
  import opened Templates
  import opened Wrappers

  /** One of the two goes on like the other. */
  predicate Comparable(a: string, b: string) { a <= b || b <= a }

  /** Nowhere in this text begins, whatever stands behind it, the template of a field that is
      bound to anything but its own template. */
  predicate Quiet(texts: Texts, v: string)
  {
    forall b, i: nat | b in texts && i < |v| && Comparable(v[i..], Template(b)) :: texts[b] == Template(b)
  }

  /** No bound text is empty, and all of them are quiet behind their first character. */
  predicate AllQuiet(texts: Texts) { forall k | k in texts :: texts[k] != "" && Quiet(texts, texts[k][1..]) }

  predicate AllPlain(texts: Texts) { forall k | k in texts :: Plain(k) }

  /** With enough rounds the loop gives the one-pass text. */
  ghost predicate ComesOut(texts: Texts, s: string)
  {
    exists budget: nat :: Resolve(texts, s, budget) == Done(Pass(texts, s))
  }

  // ---- steps of the pass and of the loop

  lemma PassStep(texts: Texts, s: string)
    requires s != ""
    ensures Pass(texts, s) == if StartsBound(texts, s) then BoundText(texts, s) + Pass(texts, AfterBound(texts, s))
                              else [s[0]] + Pass(texts, s[1..])
  {
    hide Find;
  }

  lemma BoundIs(texts: Texts, s: string) returns (b: string)
    requires StartsBound(texts, s)
    ensures b in texts && s == Template(b) + AfterBound(texts, s) && BoundText(texts, s) == texts[b]
    ensures |AfterBound(texts, s)| < |s|
  {
    EndIsLater(s);
    hide Find;
    b := s[2..Find(s, '}', 0)];
    assert s == s[..2] + b + s[|b| + 2..|b| + 4] + s[|b| + 4..];
    assert s[..2] == "{{" && s[|b| + 2..|b| + 4] == "}}";
  }

  /** The loop with what it has left behind and what it still has to scan. */
  function At(texts: Texts, pre: string, s: string, budget: nat): Outcome
  {
    Rounds(texts, pre + s, Find(pre + s, '{', |pre|), budget)
  }

  lemma AtNothing(texts: Texts, pre: string)
    ensures At(texts, pre, "", 0) == Done(pre)
  {
    assert pre + "" == pre;
  }

  lemma FindStep(s: string, c: char, i: nat)
    ensures i < |s| ==> Find(s, c, i) == if PairAt(s, c, i) then i else Find(s, c, i + 1)
  {
  }

  /** One character further, when the string stays as it is. */
  lemma AtStep(texts: Texts, pre: string, s: string, budget: nat)
    requires s != "" && (StartsBound(texts, s) ==> BoundText(texts, s) + AfterBound(texts, s) == s)
    ensures At(texts, pre, s, if PairAt(s, '{', 0) then budget + 1 else budget) ==
            At(texts, pre + s[..1], s[1..], budget)
  {
    hide Find, PairAt, Rounds, Round, BoundText, AfterBound;
    assert s == s[..1] + s[1..];
    assert pre + s == pre + s[..1] + s[1..];
    FindStep(pre + s, '{', |pre|);
    PairAfter(pre, s, '{', 0);
    if PairAt(s, '{', 0) {
      RoundIs(texts, pre, s);
      if StartsBound(texts, s) {
        assert pre + BoundText(texts, s) + AfterBound(texts, s) == pre + (BoundText(texts, s) + AfterBound(texts, s));
      }
      RoundsUnfold(texts, pre + s, |pre|, budget + 1);
    }
  }

  /** At a bound template: its text comes in, and is scanned from its second character on. */
  lemma AtBound(texts: Texts, pre: string, s: string, budget: nat)
    requires StartsBound(texts, s) && BoundText(texts, s) != ""
    ensures var text := BoundText(texts, s);
            At(texts, pre, s, budget + 1) == At(texts, pre + text[..1], text[1..] + AfterBound(texts, s), budget)
  {
    hide Find, PairAt, Rounds, Round, BoundText, AfterBound;
    var text, rest := BoundText(texts, s), AfterBound(texts, s);
    RoundIs(texts, pre, s);
    FindStep(pre + s, '{', |pre|);
    PairHasTwo(pre + s, '{', |pre|);
    RoundsUnfold(texts, pre + s, |pre|, budget + 1);
    assert text == text[..1] + text[1..];
    assert pre + text + rest == pre + text[..1] + (text[1..] + rest);
  }

  lemma ResolveIsAt(texts: Texts, s: string, budget: nat)
    ensures Resolve(texts, s, budget) == At(texts, "", s, budget)
  {
    assert "" + s == s;
  }

  // ---- quiet texts come out

  /** A template that begins in a quiet text stays as it is. */
  lemma QuietStart(texts: Texts, w: string, rest: string)
    requires Quiet(texts, w) && w != "" && StartsBound(texts, w + rest)
    ensures BoundText(texts, w + rest) + AfterBound(texts, w + rest) == w + rest
  {
    var b := BoundIs(texts, w + rest);
    hide StartsBound, BoundText, AfterBound, Template;
    var t := Template(b);
    assert t <= w + rest;
    assert w[0..] == w;
    if |t| <= |w| { assert (w + rest)[..|t|] == w[..|t|]; } else { assert (w + rest)[..|w|] == t[..|w|]; }
    assert Comparable(w[0..], Template(b));
  }

  lemma QuietTail(texts: Texts, w: string)
    requires Quiet(texts, w) && w != ""
    ensures Quiet(texts, w[1..])
  {
    hide Comparable, Template;
    forall b, i: nat | b in texts && i < |w[1..]| && Comparable(w[1..][i..], Template(b))
      ensures texts[b] == Template(b)
    {
      assert w[1..][i..] == w[i + 1..];
    }
  }

  /** From any point of the scan on: what is left of a text put in is passed over, and the
      rest comes out as by one pass. */
  lemma {:induction false} QuietComesOut(texts: Texts, pre: string, w: string, rest: string) returns (budget: nat)
    requires AllQuiet(texts) && Quiet(texts, w)
    ensures At(texts, pre, w + rest, budget) == Done(pre + (w + Pass(texts, rest)))
    decreases |rest|, |w| + 1
  {
    hide At, StartsBound, BoundText, AfterBound, PairAt, Quiet, Pass;
    if w != "" {
      if StartsBound(texts, w + rest) { QuietStart(texts, w, rest); }
      QuietTail(texts, w);
      var left := QuietComesOut(texts, pre + (w + rest)[..1], w[1..], rest);
      AtStep(texts, pre, w + rest, left);
      assert (w + rest)[..1] == w[..1] && (w + rest)[1..] == w[1..] + rest;
      assert pre + w[..1] + (w[1..] + Pass(texts, rest)) == pre + (w + Pass(texts, rest));
      budget := if PairAt(w + rest, '{', 0) then left + 1 else left;
    } else if rest != "" {
      assert w + rest == rest && w + Pass(texts, rest) == Pass(texts, rest);
      PassStep(texts, rest);
      if StartsBound(texts, rest) {
        budget := BoundComesOut(texts, pre, rest);
      } else {
        var left := QuietComesOut(texts, pre + rest[..1], "", rest[1..]);
        AtStep(texts, pre, rest, left);
        assert "" + rest[1..] == rest[1..] && "" + Pass(texts, rest[1..]) == Pass(texts, rest[1..]);
        assert pre + rest[..1] + Pass(texts, rest[1..]) == pre + ([rest[0]] + Pass(texts, rest[1..]));
        budget := if PairAt(rest, '{', 0) then left + 1 else left;
      }
    } else {
      AtNothing(texts, pre);
      PassOfNothing(texts);
      assert pre + ("" + "") == pre && w + rest == "";
      budget := 0;
    }
  }

  lemma {:induction false} BoundComesOut(texts: Texts, pre: string, s: string) returns (budget: nat)
    requires AllQuiet(texts) && StartsBound(texts, s)
    ensures At(texts, pre, s, budget) == Done(pre + (BoundText(texts, s) + Pass(texts, AfterBound(texts, s))))
    decreases |s|, 0
  {
    hide At, StartsBound, BoundText, AfterBound, Quiet, Pass;
    var b := BoundIs(texts, s);
    var text, rest := BoundText(texts, s), AfterBound(texts, s);
    var left := QuietComesOut(texts, pre + text[..1], text[1..], rest);
    AtBound(texts, pre, s, left);
    assert text == text[..1] + text[1..];
    assert pre + text[..1] + (text[1..] + Pass(texts, rest)) == pre + (text + Pass(texts, rest));
    budget := left + 1;
  }

  // ---- what follows when everything comes out

  function Behind(pre: string, o: Outcome): Outcome { if o.Done? then Done(pre + o.text) else o }

  lemma RoundShift(texts: Texts, pre: string, s: string, start: nat)
    requires PairAt(s, '{', start)
    ensures PairAt(pre + s, '{', |pre| + start) && Round(texts, pre + s, |pre| + start) == pre + Round(texts, s, start)
  {
    hide Find, PairAt, Round, StartsBound, BoundText, AfterBound;
    PairHasTwo(s, '{', start);
    var front, at := s[..start], s[start..];
    assert s == front + at && pre + s == pre + front + at;
    PairAfter(front, at, '{', 0);
    RoundIs(texts, front, at);
    RoundIs(texts, pre + front, at);
    if StartsBound(texts, at) {
      var text, rest := BoundText(texts, at), AfterBound(texts, at);
      assert pre + front + text + rest == pre + (front + text + rest);
    }
  }

  /** What stands before the scan does not matter. */
  lemma {:induction false} RoundsShift(texts: Texts, pre: string, s: string, start: nat, budget: nat)
    requires start < |s| ==> PairAt(s, '{', start)
    ensures |pre| + start < |pre + s| ==> PairAt(pre + s, '{', |pre| + start)
    ensures Rounds(texts, pre + s, |pre| + start, budget) == Behind(pre, Rounds(texts, s, start, budget))
    decreases budget
  {
    hide Find, PairAt, Round;
    if start < |s| {
      RoundShift(texts, pre, s, start);
      if budget > 0 {
        var t := Round(texts, s, start);
        FindShift(pre, t, '{', start + 1);
        RoundsShift(texts, pre, t, Find(t, '{', start + 1), budget - 1);
      }
    }
  }

  lemma AtIsBehind(texts: Texts, pre: string, s: string, budget: nat)
    ensures At(texts, pre, s, budget) == Behind(pre, Resolve(texts, s, budget))
  {
    hide Find, Rounds;
    FindShift(pre, s, '{', 0);
    RoundsShift(texts, pre, s, Find(s, '{', 0), budget);
  }

  lemma {:induction false} MoreRounds(texts: Texts, s: string, start: nat, budget: nat, more: nat)
    requires start < |s| ==> PairAt(s, '{', start)
    requires Rounds(texts, s, start, budget).Done?
    ensures Rounds(texts, s, start, budget + more) == Rounds(texts, s, start, budget)
    decreases budget
  {
    hide Find, PairAt, Round;
    if start < |s| {
      var t := Round(texts, s, start);
      MoreRounds(texts, t, Find(t, '{', start + 1), budget - 1, more);
    }
  }

  /** There is one result, whatever the number of rounds. */
  lemma OneResult(texts: Texts, s: string, a: nat, b: nat)
    requires Resolve(texts, s, a).Done? && Resolve(texts, s, b).Done?
    ensures Resolve(texts, s, a) == Resolve(texts, s, b)
  {
    hide Find, Rounds;
    MoreRounds(texts, s, Find(s, '{', 0), a, b);
    MoreRounds(texts, s, Find(s, '{', 0), b, a);
  }

  /** The pass goes over this text without changing it, whatever stands behind it. */
  ghost predicate PassedOver(texts: Texts, v: string)
  {
    forall r: string :: Pass(texts, v + r) == v + Pass(texts, r)
  }

  /** Every bound text has a first character, and what is behind it is passed over. */
  ghost predicate AllPassedOver(texts: Texts)
  {
    forall k | k in texts :: texts[k] != "" && PassedOver(texts, texts[k][1..])
  }

  lemma TemplatePassed(texts: Texts, k: string, r: string)
    requires k in texts && Plain(k)
    ensures Pass(texts, Template(k) + r) == texts[k] + Pass(texts, r)
  {
    hide Find, Pass, Template;
    TemplateStarts(texts, k, r);
    PassIs(texts, Template(k) + r);
  }

  lemma NonEmptyText(texts: Texts, k: string)
    requires k in texts && Plain(k) && ComesOut(texts, Template(k) + Template(k))
    ensures texts[k] != ""
  {
    var s := Template(k) + Template(k);
    if texts[k] == "" {
      hide Resolve, Template, Pass;
      EmptyTextSkips(texts, k, k);
      TemplateIsText(k);
      var budget: nat :| Resolve(texts, s, budget) == Done(Pass(texts, s));
      OneResult(texts, s, budget, 1);
    }
  }

  /** The template of a field, and then anything: what the loop gives tells how the pass goes
      on behind the first character of the text. */
  lemma TextPassedOver(texts: Texts, k: string, r: string)
    requires k in texts && Plain(k) && texts[k] != ""
    requires ComesOut(texts, Template(k) + r) && ComesOut(texts, texts[k][1..] + r)
    ensures Pass(texts, texts[k][1..] + r) == texts[k][1..] + Pass(texts, r)
  {
    hide Resolve, Template, Pass, At;
    var t, s, u := texts[k], Template(k) + r, texts[k][1..] + r;
    var a: nat :| Resolve(texts, s, a) == Done(Pass(texts, s));
    var b: nat :| Resolve(texts, u, b) == Done(Pass(texts, u));
    TemplatePassed(texts, k, r);
    StartsWith(texts, k, r, a);
    AtIsBehind(texts, t[..1], u, a);
    OneResult(texts, u, a, b);
    assert t[..1] + Pass(texts, u) == t + Pass(texts, r);
    assert t + Pass(texts, r) == t[..1] + (t[1..] + Pass(texts, r));
    SameBehind(t[..1], Pass(texts, u), t[1..] + Pass(texts, r));
  }

  lemma SameBehind(pre: string, a: string, b: string)
    requires pre + a == pre + b
    ensures a == b
  {
    assert (pre + a)[|pre|..] == a && (pre + b)[|pre|..] == b;
  }

  lemma StartsWith(texts: Texts, k: string, r: string, budget: nat)
    requires k in texts && Plain(k) && texts[k] != "" && Resolve(texts, Template(k) + r, budget).Done?
    ensures At(texts, texts[k][..1], texts[k][1..] + r, budget) == Resolve(texts, Template(k) + r, budget)
  {
    hide Resolve, Template, Rounds, Find;
    var t := texts[k];
    OneMoreRound(texts, Template(k) + r, budget);
    FirstRound(texts, k, r, budget + 1);
    assert t[..1] + (t[1..] + r) == t + r;
  }

  lemma OneMoreRound(texts: Texts, s: string, budget: nat)
    requires Resolve(texts, s, budget).Done?
    ensures Resolve(texts, s, budget + 1) == Resolve(texts, s, budget)
  {
    hide Find, Rounds;
    MoreRounds(texts, s, Find(s, '{', 0), budget, 1);
  }

  lemma AllArePassedOver(texts: Texts)
    requires AllPlain(texts) && forall s :: ComesOut(texts, s)
    ensures AllPassedOver(texts)
  {
    hide ComesOut, Template, Pass, Plain;
    forall k | k in texts ensures texts[k] != "" && PassedOver(texts, texts[k][1..]) {
      NonEmptyText(texts, k);
      forall r: string ensures Pass(texts, texts[k][1..] + r) == texts[k][1..] + Pass(texts, r) {
        TextPassedOver(texts, k, r);
      }
    }
  }

  // ---- texts that the pass goes over hold only templates of themselves

  lemma NoLaterBrace(c: string, i: nat)
    requires Plain(c) && 2 <= i < |Template(c)|
    ensures Template(c)[i] != '{'
  {
    if i < 2 + |c| { assert Template(c)[i] == c[i - 2]; }
  }

  lemma EndsBefore(c: string, x: string, s: string)
    requires Plain(c) && x != "" && Template(c) <= s && PairAt(s, '{', |x|)
    ensures |Template(c)| <= |x|
  {
    TemplateIsLong(c);
    if |x| < |Template(c)| {
      NoLaterBrace(c, if |x| == 1 then 2 else |x|);
    }
  }

  lemma TemplateIsLong(name: string)
    ensures |Template(name)| == |name| + 4
  {
  }

  /** Templates do not overlap. */
  lemma Apart(b: string, c: string, x: string, y: string, rest: string)
    requires Plain(c) && x != "" && x + (Template(b) + y) == Template(c) + rest
    ensures |Template(c)| <= |x| && x == Template(c) + x[|Template(c)|..]
    ensures rest == x[|Template(c)|..] + (Template(b) + y)
  {
    var s, n := x + (Template(b) + y), |Template(c)|;
    TemplateOpens(b, y);
    PairBegins(x, Template(b) + y);
    hide Template, PairAt, Plain;
    EndsBefore(c, x, s);
    assert s[..n] == Template(c) && s[n..] == rest;
    assert x[..n] == s[..n] && s[n..] == x[n..] + (Template(b) + y);
  }

  /** A template that is somewhere gets its text into what the pass gives. */
  lemma {:induction false} PassHolds(texts: Texts, x: string, b: string, y: string)
    requires AllPlain(texts) && b in texts
    ensures |Pass(texts, x + (Template(b) + y))| >= |texts[b]|
    decreases |x|
  {
    hide Pass, Template, StartsBound, BoundText, AfterBound, Plain;
    var s := x + (Template(b) + y);
    if x == "" {
      assert s == Template(b) + y;
      TemplatePassed(texts, b, y);
    } else {
      PassStep(texts, s);
      if StartsBound(texts, s) {
        var c := BoundIs(texts, s);
        Apart(b, c, x, y, AfterBound(texts, s));
        TemplateIsLong(c);
        PassHolds(texts, x[|Template(c)|..], b, y);
      } else {
        assert s[1..] == x[1..] + (Template(b) + y);
        PassHolds(texts, x[1..], b, y);
      }
    }
  }

  /** So no text mentions its own field behind its first character. */
  lemma NoMention(texts: Texts, b: string, g: string, h: string)
    requires AllPlain(texts) && AllPassedOver(texts) && b in texts && texts[b] == g + (Template(b) + h)
    ensures g == ""
  {
    if g != "" {
      hide Pass, Template, Plain;
      var v := texts[b][1..];
      assert v == g[1..] + (Template(b) + h);
      PassHolds(texts, g[1..], b, h);
      assert v + "" == v;
      assert Pass(texts, v + "") == v + Pass(texts, "");
      PassOfNothing(texts);
    }
  }

  lemma {:induction false} NoDescent(texts: Texts, h: string, s: string)
    requires PassedOver(texts, h) && h != ""
    ensures s != h + Pass(texts, s)
    decreases |s|
  {
    hide Pass, PassedOver;
    var r := Pass(texts, s);
    if s == h + r {
      PassedAt(texts, h, r);
      SameBehind(h, r, h + Pass(texts, r));
      NoDescent(texts, h, r);
    }
  }

  /** What a text goes on with behind its own template is passed over. */
  lemma TailPassedOver(texts: Texts, b: string, h: string)
    requires Plain(b) && PassedOver(texts, Template(b)[1..] + h)
    ensures PassedOver(texts, h)
  {
    TemplateIsLong(b);
    hide Template;
    forall r: string ensures Pass(texts, h + r) == h + Pass(texts, r) {
      PassedAt(texts, Template(b)[1..] + h, r);
      TailAt(texts, b, h, r);
    }
  }

  lemma PassedAt(texts: Texts, v: string, r: string)
    requires PassedOver(texts, v)
    ensures Pass(texts, v + r) == v + Pass(texts, r)
  {
  }

  lemma TailAt(texts: Texts, b: string, h: string, r: string)
    requires var inner := Template(b)[1..]; Pass(texts, inner + h + r) == inner + h + Pass(texts, r)
    requires Plain(b)
    ensures Pass(texts, h + r) == h + Pass(texts, r)
  {
    hide Pass, Plain, Template;
    TemplateIsLong(b);
    InnerSkipped(texts, b, h + r);
    var inner := Template(b)[1..];
    assert inner + h + r == inner + (h + r);
    assert inner + h + Pass(texts, r) == inner + (h + Pass(texts, r));
    SameBehind(inner, Pass(texts, h + r), h + Pass(texts, r));
  }

  lemma InnerSkipped(texts: Texts, b: string, s: string)
    requires Plain(b)
    ensures Pass(texts, Template(b)[1..] + s) == Template(b)[1..] + Pass(texts, s)
  {
    hide Pass;
    var inner := Template(b)[1..];
    forall i | 0 <= i < |inner| ensures !PairAt(inner + s, '{', i) {
      if i == 0 {
        if b != "" { assert inner[1] == b[0]; }
      } else if i <= |b| {
        assert inner[i] == b[i - 1];
      }
    }
    PassSkips(texts, inner, s);
  }

  /** The end of two ways to write a string. */
  lemma SameEnd(a: string, p: string, b: string, q: string)
    requires a + p == b + q && |q| <= |p|
    ensures p == p[..|p| - |q|] + q && b == a + p[..|p| - |q|]
  {
    var s := a + p;
    assert s[|s| - |q|..] == q && s[..|s| - |q|] == b;
    assert p == p[..|p| - |q|] + p[|p| - |q|..];
    assert s == a + p[..|p| - |q|] + p[|p| - |q|..];
  }

  /** When the pass only puts something in front of a string, it puts nothing there, and a
      template at the start of the string stands for itself. */
  lemma {:induction false} NothingInFront(texts: Texts, a: string, s: string)
    requires AllPlain(texts) && AllPassedOver(texts) && Pass(texts, s) == a + s
    ensures a == ""
    ensures StartsBound(texts, s) ==> BoundText(texts, s) + AfterBound(texts, s) == s
    ensures StartsBound(texts, s) ==> Pass(texts, AfterBound(texts, s)) == AfterBound(texts, s)
    decreases |s|
  {
    hide Pass, StartsBound, BoundText, AfterBound, Plain;
    if s == "" {
      PassOfNothing(texts);
      NotBound(texts);
    } else {
      PassStep(texts, s);
      if StartsBound(texts, s) {
        FixedInFront(texts, a, s);
      } else {
        var b := (a + s[..1])[1..];
        assert s == s[..1] + s[1..];
        assert a + s == (a + s[..1])[..1] + (b + s[1..]);
        assert [s[0]] + Pass(texts, s[1..]) == a + s;
        assert (a + s)[1..] == b + s[1..] && ([s[0]] + Pass(texts, s[1..]))[1..] == Pass(texts, s[1..]);
        NothingInFront(texts, b, s[1..]);
      }
    }
  }

  lemma NotBound(texts: Texts)
    ensures !StartsBound(texts, "")
  {
  }

  lemma {:induction false} FixedInFront(texts: Texts, a: string, s: string)
    requires AllPlain(texts) && AllPassedOver(texts) && StartsBound(texts, s) && Pass(texts, s) == a + s
    ensures a == "" && BoundText(texts, s) + AfterBound(texts, s) == s
    ensures Pass(texts, AfterBound(texts, s)) == AfterBound(texts, s)
    decreases |s|, 0
  {
    hide Pass, StartsBound, BoundText, AfterBound, Plain, Template, AllPassedOver;
    var b := BoundIs(texts, s);
    var y := AfterBound(texts, s);
    var p := Pass(texts, y);
    TemplatePassed(texts, b, y);
    assert texts[b] + p == a + Template(b) + y;
    if |y| <= |p| {
      SameEnd(texts[b], p, a + Template(b), y);
      NothingInFront(texts, p[..|p| - |y|], y);
      assert a + Template(b) == texts[b];
      assert texts[b] == a + (Template(b) + "");
      NoMention(texts, b, a, "");
    } else {
      var h := y[..|y| - |p|];
      SameEnd(a + Template(b), y, texts[b], p);
      assert texts[b] == a + (Template(b) + h);
      NoMention(texts, b, a, h);
      assert texts[b] == Template(b) + h;
      TailOfText(texts, b, h);
      NoDescent(texts, h, y);
      assert false;
    }
  }

  lemma TailOfText(texts: Texts, b: string, h: string)
    requires AllPlain(texts) && AllPassedOver(texts) && b in texts && texts[b] == Template(b) + h
    ensures PassedOver(texts, h)
  {
    TemplateIsLong(b);
    assert texts[b][1..] == Template(b)[1..] + h;
    hide Template, PassedOver, Plain;
    TailPassedOver(texts, b, h);
  }

  /** A string that the pass leaves as it is holds only templates that stand for themselves. */
  lemma {:induction false} OnlyThemselves(texts: Texts, x: string, b: string, y: string)
    requires AllPlain(texts) && AllPassedOver(texts) && b in texts
    requires Pass(texts, x + (Template(b) + y)) == x + (Template(b) + y)
    ensures texts[b] == Template(b)
    decreases |x|
  {
    hide Pass, Template, StartsBound, BoundText, AfterBound, Plain, AllPassedOver;
    var s := x + (Template(b) + y);
    assert "" + s == s;
    NothingInFront(texts, "", s);
    if x == "" {
      assert s == Template(b) + y;
      TemplateStarts(texts, b, y);
      assert texts[b] + y == Template(b) + y;
      SameFront(texts[b], Template(b), y);
    } else {
      PassStep(texts, s);
      if StartsBound(texts, s) {
        var c := BoundIs(texts, s);
        TemplateIsLong(c);
        Apart(b, c, x, y, AfterBound(texts, s));
        OnlyThemselves(texts, x[|Template(c)|..], b, y);
      } else {
        assert s[1..] == x[1..] + (Template(b) + y);
        assert s == [s[0]] + s[1..];
        SameBehind([s[0]], Pass(texts, s[1..]), s[1..]);
        OnlyThemselves(texts, x[1..], b, y);
      }
    }
  }

  lemma SameFront(a: string, b: string, rest: string)
    requires a + rest == b + rest
    ensures a == b
  {
    assert (a + rest)[..|a|] == a && (b + rest)[..|b|] == b;
  }

  // ---- the condition

  /** What is behind the first character of a template has no template in it. */
  lemma RestPassed(texts: Texts, b: string, n: nat)
    requires Plain(b) && 0 < n <= |Template(b)|
    ensures Pass(texts, Template(b)[n..]) == Template(b)[n..]
  {
    hide Pass;
    var rest := Template(b)[n..];
    forall i | 0 <= i < |rest| ensures !PairAt(rest + "", '{', i) {
      assert rest[i] == Template(b)[n + i];
      if i + 1 < |rest| { assert rest[i + 1] == Template(b)[n + i + 1]; }
      if n + i == 1 {
        if b != "" { assert Template(b)[2] == b[0]; }
      } else if n + i < |b| + 2 {
        assert Template(b)[n + i] == b[n + i - 2];
      }
    }
    PassSkips(texts, rest, "");
    PassOfNothing(texts);
    assert rest + "" == rest;
  }

  /** A text that is passed over is quiet. */
  lemma PassedOverIsQuiet(texts: Texts, v: string)
    requires AllPlain(texts) && AllPassedOver(texts) && PassedOver(texts, v)
    ensures Quiet(texts, v)
  {
    hide Pass, Template, Plain, AllPassedOver;
    forall b, i: nat | b in texts && i < |v| && Comparable(v[i..], Template(b)) ensures texts[b] == Template(b) {
      var x, t := v[..i], Template(b);
      assert v == x + v[i..];
      if t <= v[i..] {
        var y := v[i..][|t|..];
        assert v + "" == v && v == x + (t + y);
        assert Pass(texts, v + "") == v + Pass(texts, "");
        PassOfNothing(texts);
        OnlyThemselves(texts, x, b, y);
      } else {
        var q := t[|v[i..]|..];
        assert t == v[i..] + q;
        assert v + q == x + (t + "");
        assert Pass(texts, v + q) == v + Pass(texts, q);
        RestPassed(texts, b, |v[i..]|);
        OnlyThemselves(texts, x, b, "");
      }
    }
  }

  lemma NothingIsQuiet(texts: Texts)
    ensures Quiet(texts, "")
  {
  }

  /** In a context whose field names hold no braces: given as many rounds as it takes, the loop
      turns every string into what one pass makes of it, exactly when no bound text is empty
      and, behind its first character, none goes on like a template that stands for something
      else than itself. */
  lemma ComesOutExactly(texts: Texts)
    requires AllPlain(texts)
    ensures AllQuiet(texts) <==> forall s :: ComesOut(texts, s)
  {
    hide Quiet, Plain, PassedOver, At, Resolve, Pass;
    if AllQuiet(texts) {
      forall s: string ensures ComesOut(texts, s) {
        NothingIsQuiet(texts);
        var budget := QuietComesOut(texts, "", "", s);
        ResolveIsAt(texts, s, budget);
        assert "" + s == s && "" + Pass(texts, s) == Pass(texts, s);
      }
    }
    if forall s :: ComesOut(texts, s) {
      AllArePassedOver(texts);
      forall k | k in texts ensures texts[k] != "" && Quiet(texts, texts[k][1..]) {
        PassedOverIsQuiet(texts, texts[k][1..]);
      }
    }
  }

  lemma BeginsPair(text: string, i: nat, b: string)
    requires i < |text| && Comparable(text[i..], Template(b))
    ensures PairAt(text + "{", '{', i)
  {
    var rest, t := text[i..], Template(b);
    assert (text + "{")[i] == rest[0] == t[0] == '{';
    if |rest| > 1 { assert (text + "{")[i + 1] == rest[1] == t[1] == '{'; }
  }

  lemma NotQuiet(texts: Texts, text: string)
    requires text != "" && !Quiet(texts, text[1..])
    ensures !Harmless(text)
  {
    hide Template, Comparable, PairAt;
    var v := text[1..];
    var b, i: nat :| b in texts && i < |v| && Comparable(v[i..], Template(b)) && texts[b] != Template(b);
    assert v[i..] == text[i + 1..];
    BeginsPair(text, i + 1, b);
  }

  /** Harmless texts are quiet: what the number of rounds asks of them is more. */
  lemma HarmlessIsQuiet(texts: Texts)
    requires AllHarmless(texts)
    ensures AllQuiet(texts)
  {
    hide Quiet;
    forall k | k in texts ensures texts[k] != "" && Quiet(texts, texts[k][1..]) {
      if !Quiet(texts, texts[k][1..]) { NotQuiet(texts, texts[k]); }
    }
  }

  // ---- what one pass means

  /** A piece of a template string: text without an opening brace, or a field. */
  datatype Piece = Raw(text: string) | Field(name: string)

  predicate Readable(p: Piece) { match p case Raw(text) => '{' !in text case Field(name) => Plain(name) }

  /** The string that pieces make up. */
  function Joined(ps: seq<Piece>): string
  {
    if ps == [] then ""
    else (match ps[0] case Raw(text) => text case Field(name) => "{{" + name + "}}") + Joined(ps[1..])
  }

  /** The same with every bound field replaced. */
  function Filled(texts: Texts, ps: seq<Piece>): string
  {
    if ps == [] then ""
    else
      (match ps[0]
       case Raw(text) => text
       case Field(name) => if name in texts then texts[name] else "{{" + name + "}}") + Filled(texts, ps[1..])
  }

  lemma RawPassed(texts: Texts, raw: string, rest: string)
    requires '{' !in raw
    ensures Pass(texts, raw + rest) == raw + Pass(texts, rest)
  {
    forall i | 0 <= i < |raw| ensures !PairAt(raw + rest, '{', i) { assert (raw + rest)[i] == raw[i]; }
    hide Pass;
    PassSkips(texts, raw, rest);
  }

  lemma BoundPassed(texts: Texts, name: string, rest: string)
    requires Plain(name) && name in texts
    ensures Pass(texts, Template(name) + rest) == texts[name] + Pass(texts, rest)
  {
    TemplateStarts(texts, name, rest);
    PassIs(texts, Template(name) + rest);
    hide Pass, Find, Template;
  }

  lemma UnboundIs(texts: Texts, name: string, rest: string)
    requires Plain(name) && name !in texts
    ensures PairAt(Template(name) + rest, '{', 0) && !StartsBound(texts, Template(name) + rest)
  {
    TemplateStarts(map[name := ""], name, rest);
    hide Find, Template;
  }

  /** A template behind its first brace. */
  lemma InnerBraces(name: string, rest: string)
    requires Plain(name)
    ensures var later := "{" + name + "}}";
            && Template(name) + rest == "{" + (later + rest)
            && forall i | 0 <= i < |later| :: !PairAt(later + rest, '{', i)
  {
    var later := "{" + name + "}}";
    assert Template(name) == "{" + later;
    forall i | 0 <= i < |later| ensures !PairAt(later + rest, '{', i) {
      if i == 0 {
        assert (later + rest)[1] == (name + "}}")[0];
      } else if i <= |name| {
        assert (later + rest)[i] == name[i - 1];
      } else {
        assert (later + rest)[i] == '}';
      }
    }
  }

  lemma UnboundPassed(texts: Texts, name: string, rest: string)
    requires Plain(name) && name !in texts
    ensures Pass(texts, Template(name) + rest) == Template(name) + Pass(texts, rest)
  {
    hide *;
    var s, later := Template(name) + rest, "{" + name + "}}";
    UnboundIs(texts, name, rest);
    PassIs(texts, s);
    InnerBraces(name, rest);
    InnerBraces(name, Pass(texts, rest));
    assert s[..1] == "{" && s[1..] == later + rest;
    PassSkips(texts, later, rest);
  }

  /** One pass fills in every bound field of a string and leaves all the rest, fields without a value included. */
  lemma {:induction false} PassMeans(texts: Texts, ps: seq<Piece>)
    requires forall i | 0 <= i < |ps| :: Readable(ps[i])
    ensures Pass(texts, Joined(ps)) == Filled(texts, ps)
    decreases |ps|
  {
    hide Pass;
    if ps == [] {
      PassOfNothing(texts);
    } else {
      PassMeans(texts, ps[1..]);
      var rest := Joined(ps[1..]);
      assert Readable(ps[0]);
      match ps[0]
      case Raw(text) => RawPassed(texts, text, rest);
      case Field(name) =>
        TemplateIs(name);
        if name in texts { BoundPassed(texts, name, rest); } else { UnboundPassed(texts, name, rest); }
    }
  }

  lemma TemplateIs(name: string)
    ensures Template(name) == "{{" + name + "}}"
  {
  }

  /** What the value of a field is replaced by: a string by itself, anything else by its dump. */
  function Shown(v: Json, dump: Json -> string): string { match v case String(s) => s case _ => dump(v) }

  function FilledFrom(fields: map<string, Json>, dump: Json -> string, ps: seq<Piece>): string
  {
    if ps == [] then ""
    else
      (match ps[0]
       case Raw(text) => text
       case Field(name) => if name in fields then Shown(fields[name], dump) else "{{" + name + "}}")
      + FilledFrom(fields, dump, ps[1..])
  }

  lemma {:induction false} FilledAlike(texts: Texts, fields: map<string, Json>, dump: Json -> string, ps: seq<Piece>)
    requires texts.Keys == fields.Keys && forall k | k in fields :: texts[k] == Shown(fields[k], dump)
    ensures Filled(texts, ps) == FilledFrom(fields, dump, ps)
    decreases |ps|
  {
    if ps != [] { FilledAlike(texts, fields, dump, ps[1..]); }
  }

  /** From the context to the parameter: when every field shows as harmless text, a string parameter ends up with
      exactly its bound fields filled in. */
  lemma ParameterFilled(fields: map<string, Json>, dump: Json -> string, ps: seq<Piece>)
    requires forall i | 0 <= i < |ps| :: Readable(ps[i])
    requires forall k | k in fields :: Harmless(Shown(fields[k], dump))
    ensures exists budget ::
              ResolveParameters(String(Joined(ps)), Object(fields), dump, budget) ==
              Resolved(String(FilledFrom(fields, dump, ps)))
  {
    var texts := TextsOf(Object(fields), dump);
    assert texts.Keys == fields.Keys && forall k | k in fields :: texts[k] == Shown(fields[k], dump);
    hide Pass, Harmless, Braces, Resolve, TextsOf, Shown;
    PassMeans(texts, ps);
    FilledAlike(texts, fields, dump, ps);
    var budget := Braces(Joined(ps));
    ResolveIsPass(texts, Joined(ps), budget);
    assert ResolveParameters(String(Joined(ps)), Object(fields), dump, budget) ==
           Resolved(String(FilledFrom(fields, dump, ps)));
  }

  /** One way down into a value. */
  datatype Turn = ByKey(key: string) | ByIndex(index: nat)

  /** The value at the end of a path. */
  function Down(v: Json, path: seq<Turn>): Option<Json>
    decreases |path|
  {
    if path == [] then Some(v)
    else
      match path[0]
      case ByKey(key) => if v.Has(key) then Down(v.At(key), path[1..]) else None
      case ByIndex(i) => if v.Array? && i < |v.items| then Down(v.items[i], path[1..]) else None
  }

  /** Strings are filled in wherever they stand, and nothing else is touched. */
  lemma {:induction false} PassedEverywhere(texts: Texts, v: Json, path: seq<Turn>)
    ensures Down(PassValue(texts, v), path).Some? == Down(v, path).Some?
    ensures Down(v, path).Some? ==>
              var from, to := Down(v, path).value, Down(PassValue(texts, v), path).value;
              && (from.String? ==> to == String(Pass(texts, from.s)))
              && (from.Null? || from.Bool? || from.Number? ==> to == from)
              && (from.Array? ==> to.Array? && |to.items| == |from.items|)
              && (from.Object? ==> to.Object? && to.fields.Keys == from.fields.Keys)
    decreases |path|
  {
    hide Pass;
    if path != [] {
      match path[0]
      case ByKey(key) => if v.Has(key) { PassedEverywhere(texts, v.At(key), path[1..]); }
      case ByIndex(i) => if v.Array? && i < |v.items| { PassedEverywhere(texts, v.items[i], path[1..]); }
    }
  }
}
