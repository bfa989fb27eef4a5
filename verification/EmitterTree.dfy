/** Emitting a whole tree: the structure written is the one a compositional printer gives,
    and in flow layout a reader of that structure gets the tree back. */
module EmitterTree {
  import opened EmitterModel
  import opened EmitterLayout
  import opened EmitterSafety
  import opened Wrappers

  /** A node to emit. `long` marks the scalars that ask for a long key. */
  datatype Tree = Leaf(text: string, long: bool) | Node(kind: GroupType, children: seq<Tree>)

  function Calls(t: Tree): seq<Op>
  {
    match t
    case Leaf(text, long) => [WriteScalar(text, long)]
    case Node(kind, ts) => [BeginGroup(kind)] + AllCalls(ts) + [EndGroup(kind)]
  }

  function AllCalls(ts: seq<Tree>): seq<Op>
  {
    if ts == [] then [] else Calls(ts[0]) + AllCalls(ts[1..])
  }

  // ---- the printer

  function AsFlow(kind: GroupType, inFlow: bool, st: Settings): bool
  {
    inFlow || (if kind == Seq then st.seqFormat else st.mapFormat) == Flow
  }

  /** Whether a key is laid out in the long form. */
  predicate LongKey(key: Tree, inFlow: bool, st: Settings)
  {
    || st.longKeys
    || (match key case Leaf(_, long) => long case Node(kind, _) => !AsFlow(kind, inFlow, st))
  }

  /** The structure in front of child number `n` of a group. */
  function Before(kind: GroupType, flow: bool, n: nat, long: bool): seq<Token>
  {
    (if flow && (kind == Seq || n % 2 == 0) then [if n == 0 then Open(kind) else Comma] else []) +
    (if kind == Seq then (if flow then [] else [Dash])
     else if n % 2 == 1 then [Colon]
     else if long then [Question] else [])
  }

  function Print(t: Tree, inFlow: bool, st: Settings): seq<Token>
    decreases t, 0
  {
    match t
    case Leaf(text, _) => [Content(text)]
    case Node(kind, ts) =>
      var flow := AsFlow(kind, inFlow, st);
      if ts == [] then [Open(kind), Close(kind)]
      else PrintFrom(kind, flow, ts, 0, st) + (if flow then [Close(kind)] else [])
  }

  /** The children of a group, the first of them being child number `n`. */
  function PrintFrom(kind: GroupType, flow: bool, ts: seq<Tree>, n: nat, st: Settings): seq<Token>
    decreases ts, 1
  {
    if ts == [] then []
    else Before(kind, flow, n, LongKey(ts[0], flow, st)) + Print(ts[0], flow, st) +
         PrintFrom(kind, flow, ts[1..], n + 1, st)
  }

  /** Documents, one after the other. */
  function PrintAll(ts: seq<Tree>, st: Settings): seq<Token>
    decreases |ts|
  {
    if ts == [] then [] else Print(ts[0], false, st) + PrintAll(ts[1..], st)
  }

  // ---- the bookkeeping of one node

  /** Between two nodes: nothing begun, no local change of settings pending. */
  ghost predicate Calm(s: State)
  {
    && s.good && !s.HasBegunNode() && !s.tripped && s.curIndent >= 0
    && s.modified == [] && Restore(s.settings, s.globalModified) == s.settings
    && (s.groups != [] && s.Top().longKey ==> s.Top().kind == Map && s.Top().childCount % 2 == 1)
  }

  /** The bookkeeping after one more node. */
  function Next(s: State, long: bool): State
  {
    s.(groups := NextGroups(s.groups, long),
       docCount := if s.groups == [] then s.docCount + 1 else s.docCount,
       hasAlias := false)
  }

  function NextGroups(groups: seq<Group>, long: bool): seq<Group>
  {
    if groups == [] then [] else groups[..|groups| - 1] + [NextTop(groups[|groups| - 1], long)]
  }

  function NextTop(g: Group, long: bool): Group
  {
    g.(childCount := g.childCount + 1, longKey := g.kind == Map && g.childCount % 2 == 0 && long)
  }

  /** The structure in front of a node. */
  function LeadOf(s: State, long: bool): seq<Token>
  {
    if s.groups == [] then [] else Before(s.Top().kind, s.InFlow(), s.Top().childCount, long)
  }

  /** What a prepared node looks like at its start. `s` may have a local key format. */
  lemma LeadIsBefore(s: State, child: Child, long: bool)
    requires s.groups != [] && !s.HasBegunNode() && child != NoNode && child != Property
    requires s.Top().kind == Map && s.Top().childCount % 2 == 0 ==> LaidOutLong(s, child) == long
    ensures Lead(s, child) == Before(s.Top().kind, s.InFlow(), s.Top().childCount, long)
  {
  }

  lemma TopNodeQuiet(s: State, child: Child)
    requires s.groups == [] && s.good && !s.HasBegunNode() && child != NoNode
    ensures Wrote(s, s.PrepareNode(child), [])
  {
    hide Wrote, State.EmitBeginDoc, State.SpaceOrIndentTo, State.BreakIf;
    var t := if s.CurGroupChildCount() > 0 && s.col > 0 then s.EmitBeginDoc() else s;
    assert Wrote(s, t, []) by {
      NothingWrites(s);
      BeginDocQuiet(s);
    }
    SameBook(s, t, []);
    BreakIsQuiet(t, t.HasBegunNode());
    SpaceIsQuiet(t, t.HasBegunContent(), 0);
    assert s.PrepareNode(child) == s.PrepareTopNode(child);
    QuietThen(s, t, s.PrepareNode(child), []);
  }

  lemma BeginDocQuiet(s: State)
    requires s.groups == [] && s.good && !s.HasBegunNode()
    ensures Wrote(s, s.EmitBeginDoc(), [])
  {
    hide Wrote, State.BreakIf, State.Put;
    var u := s.BreakIf(s.col > 0);
    BreakIsQuiet(s, s.col > 0);
    SameBook(s, u, []);
    PutWrites(u, DocStart);
    SameBook(u, u.Put(DocStart), []);
    QuietThen(s, u, u.Put(DocStart), []);
    NoFlags(u.Put(DocStart));
  }

  lemma NoFlags(s: State)
    requires !s.HasBegunNode()
    ensures s.(hasAnchor := false, hasTag := false, hasNonContent := false) == s
  {
  }

  // ---- one node

  /** Before a node: nothing begun, and a long key only where a value is expected. */
  ghost predicate AtNode(s: State)
  {
    && s.good && !s.HasBegunNode()
    && (s.groups != [] && s.Top().longKey ==> s.Top().kind == Map && s.Top().childCount % 2 == 1)
  }

  /** Whether `long` tells how the key at hand will be laid out, if it is a key. */
  ghost predicate Foretells(s: State, child: Child, long: bool)
  {
    s.groups != [] && s.Top().kind == Map && s.Top().childCount % 2 == 0 ==> LaidOutLong(s, child) == long
  }

  lemma StartedIsNext(s: State, child: Child, long: bool, t: State)
    requires AtNode(s) && Foretells(s, child, long)
    requires t == WithOutput(Decided(s, child), t)
    ensures t.StartedNode() == WithOutput(Next(s, long), t)
  {
    hide LaidOutLong;
    if s.groups == [] {
      StartedDocument(s, long, t);
    } else {
      DecidedGroups(s, child);
      NextOfDecided(s, child, long);
      hide Decided, AtNode, Foretells, State.StartedNode, Next, NextTop;
      StartedChild(s, long, t);
    }
  }

  lemma StartedDocument(s: State, long: bool, t: State)
    requires s.groups == [] && !s.HasBegunNode() && t == WithOutput(s, t)
    ensures t.StartedNode() == WithOutput(Next(s, long), t)
  {
  }

  lemma StartedChild(s: State, long: bool, t: State)
    requires s.groups != [] && !s.HasBegunNode()
    requires t == WithOutput(s.(groups := t.groups), t)
    requires t.groups != [] && Below(t.groups) == Below(s.groups)
    requires var n := t.Top().childCount + 1;
             t.Top().(childCount := n, longKey := t.Top().longKey && n % 2 != 0) == NextTop(s.Top(), long)
    ensures t.StartedNode() == WithOutput(Next(s, long), t)
  {
    hide NextTop;
  }

  lemma NextOfDecided(s: State, child: Child, long: bool)
    requires s.groups != [] && AtNode(s) && Foretells(s, child, long)
    ensures var g := Decided(s, child).Top();
            var n := g.childCount + 1;
            g.(childCount := n, longKey := g.longKey && n % 2 != 0) == NextTop(s.Top(), long)
  {
  }

  lemma PreparedNode(s: State, child: Child, long: bool, mark: seq<Token>, t: State)
    requires AtNode(s) && Foretells(s, child, long)
    requires child != NoNode && child != Property
    requires s.InFlow() ==> child != BlockSeq && child != BlockMap
    requires Wrote(s.PrepareNode(child), t, mark)
    ensures t.StartedNode() == WithOutput(Next(s, long), t)
    ensures Structural(t.out) == Structural(s.out) + LeadOf(s, long) + mark
  {
    hide Wrote, State.PrepareNode, Structural, LaidOutLong, Before, Lead, State.StartedNode, Next;
    var d := Decided(s, child);
    var p := s.PrepareNode(child);
    if s.groups == [] {
      assert d == s;
      TopNodeQuiet(s, child);
      WroteParts(s, p, []);
      assert Structural(s.out) + [] == Structural(s.out);
    } else {
      PrepareWrites(s, child);
      LeadIsBefore(s, child, long);
      WroteParts(d, p, Lead(s, child));
      DecidedGroups(s, child);
    }
    WroteParts(p, t, mark);
    StartedIsNext(s, child, long, t);
  }

  lemma WroteParts(s: State, t: State, ts: seq<Token>)
    requires Wrote(s, t, ts)
    ensures t == WithOutput(s, t) && Structural(t.out) == Structural(s.out) + ts
  {
  }

  /** Emitting a node of a tree: all the emitter's own bookkeeping is as if one node had
      been counted, and the output has grown by its lead and its print. */
  ghost predicate Emitted(s: State, t: Tree, u: State)
  {
    var long := LongKey(t, s.InFlow(), s.settings);
    && u == WithOutput(Next(s, long), u)
    && Structural(u.out) == Structural(s.out) + LeadOf(s, long) + Print(t, s.InFlow(), s.settings)
  }

  lemma LeafEmitted(s: State, text: string, long: bool)
    requires Calm(s)
    ensures Emitted(s, Leaf(text, long), s.EmitScalar(text, long))
  {
    hide State.PrepareNode, State.StartedNode, Structural, Wrote, Lead, Before, State.Put, Next,
      State.ClearModifiedSettings;
    var s1 := if long then s.SetLocal(MapKeyFormat, s.settings.(longKeys := true)) else s;
    var key := LongKey(Leaf(text, long), s.InFlow(), s.settings);
    var p := s1.PrepareNode(Scalar);
    var t := p.Put(Content(text));
    PutWrites(p, Content(text));
    PreparedNode(s1, Scalar, key, [Content(text)], t);
    KeyFormatBack(s, long);
    ClearedNext(s, s1, key, t);
  }

  lemma KeyFormatBack(s: State, long: bool)
    requires s.modified == []
    ensures var s1 := if long then s.SetLocal(MapKeyFormat, s.settings.(longKeys := true)) else s;
            s1.ClearModifiedSettings() == s
  {
    if long {
      var c := Change(MapKeyFormat, s.settings);
      assert [] + [c] == [c];
      assert [c][1..] == [];
    }
  }

  /** What counting one more node leaves alone. */
  lemma NextKeeps(s: State, long: bool)
    ensures var n := Next(s, long);
            && n == s.(groups := n.groups, docCount := n.docCount, hasAlias := false)
            && |n.groups| == |s.groups|
            && (s.groups != [] ==>
                  && n.docCount == s.docCount
                  && Below(n.groups) == Below(s.groups) && n.Top() == NextTop(s.Top(), long))
            && n.FlowOf(Seq) == s.FlowOf(Seq) && n.FlowOf(Map) == s.FlowOf(Map)
            && n.CurGroupIndent() == s.CurGroupIndent()
  {
    var n := Next(s, long);
    if s.groups != [] {
      assert Below(n.groups) == Below(s.groups);
    }
  }

  lemma NextSettings(s: State, long: bool, st: Settings, changes: seq<Change>)
    ensures Next(s.(settings := st, modified := changes), long) ==
            Next(s, long).(settings := st, modified := changes)
  {
    hide NextTop;
  }

  lemma ClearedNext(s: State, s1: State, long: bool, t: State)
    requires s1 == s.(settings := s1.settings, modified := s1.modified) && s1.ClearModifiedSettings() == s
    ensures WithOutput(Next(s1, long), t).ClearModifiedSettings() == WithOutput(Next(s, long), t)
  {
    hide Next, NextTop, Restore;
    NextSettings(s1, long, Restore(s1.settings, s1.modified), []);
    NextKeeps(s1, long);
  }

  // ---- a group of nodes

  /** The bookkeeping after the start of a group. */
  function Pushed(s: State, kind: GroupType, long: bool): State
  {
    var n := Next(s, long);
    n.(curIndent := s.curIndent + s.CurGroupIndent(),
       groups := n.groups + [Group(kind, s.FlowOf(kind), s.settings.indent, 0, false, [])])
  }

  lemma GroupBegun(s: State, kind: GroupType)
    requires Calm(s)
    ensures var long := s.settings.longKeys || !AsFlow(kind, s.InFlow(), s.settings);
            var u := s.EmitBeginGroup(kind);
            u == WithOutput(Pushed(s, kind, long), u) && Structural(u.out) == Structural(s.out) + LeadOf(s, long)
  {
    hide State.PrepareNode, State.StartedNode, Structural, Wrote, LeadOf, Next;
    var long := s.settings.longKeys || !AsFlow(kind, s.InFlow(), s.settings);
    var child := s.NextGroupType(kind);
    var p := s.PrepareNode(child);
    NothingWrites(p);
    PreparedNode(s, child, long, [], p);
    assert Structural(s.out) + LeadOf(s, long) + [] == Structural(s.out) + LeadOf(s, long);
    StartedIsPushed(s, kind, long, p);
  }

  lemma StartedIsPushed(s: State, kind: GroupType, long: bool, p: State)
    requires s.good && s.modified == []
    requires p.StartedNode() == WithOutput(Next(s, long), p)
    ensures p.StartedGroup(kind) == WithOutput(Pushed(s, kind, long), p)
  {
    hide State.StartedNode, Next, NextTop, State.FlowOf, State.CurGroupIndent;
    NextKeeps(s, long);
    var n := p.StartedNode();
    SameGroup(Next(s, long), n);
    assert n.modified == [] && n.settings == s.settings;
  }

  lemma SameGroup(s: State, t: State)
    requires t.groups == s.groups && t.settings == s.settings
    ensures t.FlowOf(Seq) == s.FlowOf(Seq) && t.FlowOf(Map) == s.FlowOf(Map)
    ensures t.CurGroupIndent() == s.CurGroupIndent()
  {
  }

  /** `u` is `v` after `k` more children of the group on top. */
  ghost predicate Grown(v: State, u: State, k: nat)
  {
    && v.groups != [] && u.groups != []
    && u == WithOutput(v.(groups := u.groups), u)
    && Below(u.groups) == Below(v.groups)
    && u.Top() == v.Top().(childCount := v.Top().childCount + k, longKey := u.Top().longKey)
  }

  lemma GrownByOne(v: State, long: bool, u: State)
    requires Calm(v) && !v.hasAlias && v.groups != [] && u == WithOutput(Next(v, long), u)
    ensures Grown(v, u, 1) && Calm(u)
  {
    NextKeeps(v, long);
    hide Next, Restore;
  }

  lemma GrownByNone(v: State)
    requires v.groups != []
    ensures Grown(v, v, 0)
  {
  }

  lemma GrownMore(v: State, u: State, w: State, k: nat)
    requires Grown(v, u, 1) && Grown(u, w, k)
    ensures Grown(v, w, k + 1)
  {
  }

  /** About to end a group of a tree that was started in `s`. */
  ghost predicate AtEnd(s: State, kind: GroupType, long: bool, w: State)
  {
    && Calm(s) && w.groups != []
    && w == WithOutput(Pushed(s, kind, long).(groups := w.groups), w)
    && Below(w.groups) == Next(s, long).groups
    && w.Top().kind == kind && w.Top().modified == []
  }

  function EndMarks(g: Group): seq<Token>
  {
    if g.childCount == 0 then [Open(g.kind), Close(g.kind)]
    else if g.flow == Flow then [Close(g.kind)] else []
  }

  lemma FlowGroupEnded(s: State, kind: GroupType, long: bool, w: State)
    requires AtEnd(s, kind, long, w) && Calm(w)
    requires w.Top().flow == Flow || w.Top().childCount == 0
    ensures var u := w.EmitEndGroup(kind);
            u == WithOutput(Next(s, long), u) && Structural(u.out) == Structural(w.out) + EndMarks(w.Top())
  {
    hide State.CloseFlow, State.EndedGroup, Structural, Next, Pushed, Calm, Closing, EndMarks;
    CalmIsGood(w);
    FlowEndForm(w, kind);
    ForcedIs(w);
    hide Forced, State.EmitEndGroup;
    var f := Forced(w);
    var x := f.CloseFlow(kind, w.Top().flow == Block);
    CloseFlowWrites(f, kind, w.Top().flow == Block);
    WroteParts(f, x, Closing(f, kind, w.Top().flow == Block));
    CalmCloses(w, f, kind);
    assert AtEnd(s, kind, long, x);
    EndedIsNext(s, kind, long, x);
    SameOutput(x, x.EndedGroup(kind), Next(s, long));
  }

  lemma SameOutput(x: State, u: State, n: State)
    requires u == WithOutput(n, x)
    ensures u.out == x.out && u == WithOutput(n, u)
  {
  }

  /** Ending a group of a tree takes the state back to the one before its start, with one
      more node counted. */
  lemma GroupEnded(s: State, kind: GroupType, long: bool, w: State)
    requires AtEnd(s, kind, long, w) && Calm(w)
    ensures var u := w.EmitEndGroup(kind);
            u == WithOutput(Next(s, long), u) && Structural(u.out) == Structural(w.out) + EndMarks(w.Top())
  {
    if w.Top().flow == Flow || w.Top().childCount == 0 {
      FlowGroupEnded(s, kind, long, w);
    } else {
      hide State.EndedGroup, Structural, Next, Pushed, Calm;
      CalmIsGood(w);
      EndedIsNext(s, kind, long, w);
      SameOutput(w, w.EndedGroup(kind), Next(s, long));
      assert Structural(w.out) + [] == Structural(w.out);
    }
  }

  lemma CalmIsGood(s: State)
    requires Calm(s)
    ensures s.good && !s.HasBegunNode()
  {
  }

  lemma CalmCloses(w: State, f: State, kind: GroupType)
    requires Calm(w) && w.groups != [] && (w.Top().flow == Flow || w.Top().childCount == 0)
    requires f == w.(groups := f.groups) && f.groups != [] && f.Top() == w.Top().(flow := Flow)
    requires w.Top().kind == kind
    ensures Closing(f, kind, w.Top().flow == Block) == EndMarks(w.Top())
  {
    hide Restore;
  }

  lemma EndedIsNext(s: State, kind: GroupType, long: bool, x: State)
    requires AtEnd(s, kind, long, x)
    ensures x.EndedGroup(kind) == WithOutput(Next(s, long), x)
  {
    hide Restore, NextTop, NextGroups;
    var n := Next(s, long);
    NextKeeps(s, long);
    hide Next;
    NothingToRestore(s.settings);
    assert x.groups[..|x.groups| - 1] == n.groups;
  }

  lemma NothingToRestore(st: Settings)
    ensures Restore(st, []) == st
  {
  }

  // ---- whole trees

  lemma {:induction false} RunConcat(s: State, a: seq<Op>, b: seq<Op>)
    ensures s.Run(a + b) == s.Run(a).Run(b)
    decreases |a|
  {
    if a == [] {
      assert a + b == b;
    } else {
      assert (a + b)[1..] == a[1..] + b;
      RunConcat(s.Step(a[0]), a[1..], b);
    }
  }

  lemma RunOne(s: State, op: Op)
    ensures s.Run([op]) == s.Step(op)
  {
    assert [op][1..] == [];
  }

  lemma CalmNext(s: State, long: bool, u: State)
    requires Calm(s) && u == WithOutput(Next(s, long), u)
    ensures Calm(u)
  {
    NextKeeps(s, long);
    hide Next, Restore;
  }

  lemma CalmPushed(s: State, kind: GroupType, long: bool, u: State)
    requires Calm(s) && u == WithOutput(Pushed(s, kind, long), u)
    ensures Calm(u) && u.groups != [] && !u.hasAlias && u.settings == s.settings
    ensures u.Top() == Group(kind, s.FlowOf(kind), s.settings.indent, 0, false, [])
    ensures Below(u.groups) == Next(s, long).groups
  {
    NextKeeps(s, long);
    hide Next, Restore;
  }

  /** The state between the start and the end of a group, after its children. */
  lemma GrownToEnd(s: State, kind: GroupType, long: bool, v: State, w: State, k: nat)
    requires Calm(s) && v == WithOutput(Pushed(s, kind, long), v) && Grown(v, w, k)
    ensures AtEnd(s, kind, long, w)
    ensures w.Top().childCount == k && w.Top().flow == s.FlowOf(kind)
  {
    CalmPushed(s, kind, long, v);
    hide Next, Restore;
    assert Pushed(s, kind, long).(groups := w.groups) == WithOutput(v.(groups := w.groups), Pushed(s, kind, long));
  }

  lemma GroupCalls(s: State, kind: GroupType, ts: seq<Tree>)
    requires s.good
    ensures s.Run(Calls(Node(kind, ts))) ==
            s.EmitBeginGroup(kind).Run(AllCalls(ts)).EmitEndGroup(kind)
  {
    hide State.EmitBeginGroup, State.EmitEndGroup, State.Run, AllCalls;
    RunConcat(s, [BeginGroup(kind)] + AllCalls(ts), [EndGroup(kind)]);
    RunConcat(s, [BeginGroup(kind)], AllCalls(ts));
    RunOne(s, BeginGroup(kind));
    RunOne(s.EmitBeginGroup(kind).Run(AllCalls(ts)), EndGroup(kind));
  }

  /** Emitting a tree between two nodes counts one node and writes its lead and its print. */
  lemma {:induction false} TreeEmitted(s: State, t: Tree)
    requires Calm(s)
    ensures Emitted(s, t, s.Run(Calls(t))) && Calm(s.Run(Calls(t)))
    decreases t, 0
  {
    hide *;
    match t
    case Leaf(text, long) =>
      LeafRun(s, text, long);
      LeafEmitted(s, text, long);
      EmittedCalm(s, t, s.Run(Calls(t)));
    case Node(kind, ts) =>
      GroupEmitted(s, kind, ts);
  }

  lemma LeafRun(s: State, text: string, long: bool)
    ensures s.Run(Calls(Leaf(text, long))) == s.EmitScalar(text, long)
  {
    hide State.EmitScalar, State.Run;
    RunOne(s, WriteScalar(text, long));
  }

  lemma EmittedCalm(s: State, t: Tree, u: State)
    requires Calm(s) && Emitted(s, t, u)
    ensures Calm(u)
  {
    hide Calm, Next, LongKey, LeadOf, Print, Structural;
    CalmNext(s, LongKey(t, s.InFlow(), s.settings), u);
  }

  lemma {:induction false} GroupEmitted(s: State, kind: GroupType, ts: seq<Tree>)
    requires Calm(s)
    ensures Emitted(s, Node(kind, ts), s.Run(Calls(Node(kind, ts)))) && Calm(s.Run(Calls(Node(kind, ts))))
    decreases ts, 1
  {
    hide Calm, Next, Pushed, Structural, State.Run, Calls, LeadOf, Grown, AtEnd,
      State.EmitBeginGroup, State.EmitEndGroup, PrintFrom;
    CalmIsGood(s);
    GroupCalls(s, kind, ts);
    var long := s.settings.longKeys || !AsFlow(kind, s.InFlow(), s.settings);
    var v := s.EmitBeginGroup(kind);
    GroupBegun(s, kind);
    CalmPushed(s, kind, long, v);
    ChildrenEmitted(v, ts);
    var w := v.Run(AllCalls(ts));
    GrownToEnd(s, kind, long, v, w, |ts|);
    GrownTop(v, w, |ts|);
    GroupEnded(s, kind, long, w);
    var u := w.EmitEndGroup(kind);
    CalmNext(s, long, u);
    GroupPrint(s, kind, ts, w.Top(), Structural(s.out), Structural(v.out), Structural(w.out), Structural(u.out));
  }

  lemma GrownTop(v: State, u: State, k: nat)
    requires Grown(v, u, k)
    ensures v.groups != [] && u.groups != [] && u.Top().kind == v.Top().kind && u.Top().flow == v.Top().flow
    ensures u.Top().childCount == v.Top().childCount + k
    ensures u.settings == v.settings && u.hasAlias == v.hasAlias && u.InFlow() == v.InFlow()
  {
  }

  lemma GroupPrint(s: State, kind: GroupType, ts: seq<Tree>, g: Group,
                   a: seq<Token>, b: seq<Token>, c: seq<Token>, d: seq<Token>)
    requires g.kind == kind && g.childCount == |ts| && g.flow == s.FlowOf(kind)
    requires b == a + LeadOf(s, s.settings.longKeys || !AsFlow(kind, s.InFlow(), s.settings))
    requires c == b + PrintFrom(kind, s.FlowOf(kind) == Flow, ts, 0, s.settings)
    requires d == c + EndMarks(g)
    ensures d == a + LeadOf(s, LongKey(Node(kind, ts), s.InFlow(), s.settings)) +
                 Print(Node(kind, ts), s.InFlow(), s.settings)
  {
    hide LeadOf;
    var lead := LeadOf(s, LongKey(Node(kind, ts), s.InFlow(), s.settings));
    if ts == [] {
      assert c == a + lead;
    }
  }

  lemma {:induction false} ChildrenEmitted(v: State, ts: seq<Tree>)
    requires Calm(v) && v.groups != [] && !v.hasAlias
    ensures var u := v.Run(AllCalls(ts));
            && Grown(v, u, |ts|) && Calm(u)
            && Structural(u.out) == Structural(v.out) +
                 PrintFrom(v.Top().kind, v.InFlow(), ts, v.Top().childCount, v.settings)
    decreases ts, 0
  {
    hide Calm, Structural, Next, Calls, State.Run, Print, Before, LongKey, Grown;
    if ts == [] {
      GrownByNone(v);
      RunNone(v);
      assert Structural(v.out) + [] == Structural(v.out);
    } else {
      RunConcat(v, Calls(ts[0]), AllCalls(ts[1..]));
      var u := v.Run(Calls(ts[0]));
      TreeEmitted(v, ts[0]);
      GrownByOne(v, LongKey(ts[0], v.InFlow(), v.settings), u);
      GrownTop(v, u, 1);
      ChildrenEmitted(u, ts[1..]);
      var w := u.Run(AllCalls(ts[1..]));
      GrownMore(v, u, w, |ts| - 1);
    }
  }

  lemma RunNone(s: State)
    ensures s.Run([]) == s
  {
  }

  predicate SetsGlobally(op: Op)
  {
    op.GlobalSeqFlow? || op.GlobalMapFlow? || op.GlobalKeys? || op.GlobalIndent?
  }

  lemma {:induction false} RestoreLast(st: Settings, changes: seq<Change>, c: Change)
    ensures Restore(st, changes + [c]) == Restore(st, changes).With(c.which, c.saved)
    decreases |changes|
  {
    if changes == [] {
      assert changes + [c] == [c];
      assert [c][1..] == [];
    } else {
      assert (changes + [c])[1..] == changes[1..] + [c];
      RestoreLast(st.With(changes[0].which, changes[0].saved), changes[1..], c);
    }
  }

  /** Restoring does not mix settings up. */
  lemma {:induction false} RestoreApart(st: Settings, which: Setting, v: Settings, w: Settings, changes: seq<Change>)
    ensures Restore(st.With(which, v), changes).With(which, w) == Restore(st, changes).With(which, w)
    decreases |changes|
  {
    if changes != [] {
      var c := changes[0];
      if c.which == which {
        assert st.With(which, v).With(c.which, c.saved) == st.With(c.which, c.saved);
      } else {
        assert st.With(which, v).With(c.which, c.saved) == st.With(c.which, c.saved).With(which, v);
        RestoreApart(st.With(c.which, c.saved), which, v, w, changes[1..]);
      }
    }
  }

  lemma SetGlobalCalm(s: State, which: Setting, value: Settings)
    requires Calm(s)
    ensures Calm(s.SetGlobal(which, value))
  {
    var st := s.settings.With(which, value);
    RestoreLast(st, s.globalModified, Change(which, st));
    RestoreApart(s.settings, which, value, st, s.globalModified);
  }

  /** Global settings may be changed at any time between two nodes. */
  lemma {:induction false} GloballySet(s: State, ops: seq<Op>)
    requires Calm(s) && forall i | 0 <= i < |ops| :: SetsGlobally(ops[i])
    ensures var u := s.Run(ops);
            Calm(u) && u == s.(settings := u.settings, globalModified := u.globalModified)
    decreases |ops|
  {
    if ops != [] {
      match ops[0] {
        case GlobalSeqFlow(f) => SetGlobalCalm(s, SeqFormat, s.settings.(seqFormat := f));
        case GlobalMapFlow(f) => SetGlobalCalm(s, MapFormat, s.settings.(mapFormat := f));
        case GlobalKeys(long) => SetGlobalCalm(s, MapKeyFormat, s.settings.(longKeys := long));
        case GlobalIndent(n) => SetGlobalCalm(s, IndentWidth, s.settings.(indent := n));
      }
      hide Calm;
      GloballySet(s.Step(ops[0]), ops[1..]);
    }
  }

  lemma {:induction false} DocumentsEmitted(s: State, ts: seq<Tree>)
    requires Calm(s) && s.groups == []
    ensures var u := s.Run(AllCalls(ts));
            && Calm(u) && u.groups == [] && u.docCount == s.docCount + |ts|
            && Structural(u.out) == Structural(s.out) + PrintAll(ts, s.settings)
    decreases |ts|
  {
    hide Calm, Structural, Calls, State.Run, Print;
    if ts == [] {
      RunNone(s);
      assert Structural(s.out) + [] == Structural(s.out);
    } else {
      RunConcat(s, Calls(ts[0]), AllCalls(ts[1..]));
      var u := s.Run(Calls(ts[0]));
      TreeEmitted(s, ts[0]);
      DocumentsEmitted(u, ts[1..]);
      assert Structural(s.out) + [] == Structural(s.out);
    }
  }

  lemma InitiallyCalm()
    ensures Calm(INITIAL) && Structural(INITIAL.out) == []
  {
  }

  /** For all trees and all global settings: the emitter stays good, closes every group, and
      writes what the printer prints. */
  lemma EmitterPrints(globals: seq<Op>, ts: seq<Tree>)
    requires forall i | 0 <= i < |globals| :: SetsGlobally(globals[i])
    ensures var s := INITIAL.Run(globals + AllCalls(ts));
            && s.good && s.groups == [] && s.docCount == |ts|
            && Structural(s.out) == PrintAll(ts, INITIAL.Run(globals).settings)
  {
    InitiallyCalm();
    hide State.Run, Calm, PrintAll, AllCalls, Structural;
    RunConcat(INITIAL, globals, AllCalls(ts));
    GloballySet(INITIAL, globals);
    DocumentsEmitted(INITIAL.Run(globals), ts);
    CalmIsGood(INITIAL.Run(globals + AllCalls(ts)));
    assert [] + PrintAll(ts, INITIAL.Run(globals).settings) == PrintAll(ts, INITIAL.Run(globals).settings);
  }

  // ---- reading flow layout back

  function Separator(kind: GroupType, n: nat): Token { if kind == Seq || n % 2 == 0 then Comma else Colon }

  /** One node in flow layout, and what follows it. */
  function ReadNode(ts: seq<Token>): (r: Option<(Tree, seq<Token>)>)
    ensures r.Some? ==> |r.value.1| < |ts|
    decreases |ts|, 0
  {
    if ts == [] then None
    else
      match ts[0]
      case Content(text) => Some((Leaf(text, false), ts[1..]))
      case Open(kind) =>
        if |ts| > 1 && ts[1] == Close(kind) then Some((Node(kind, []), ts[2..]))
        else
          var r := ReadChildren(kind, 0, ts[1..]);
          if r.None? then None else Some((Node(kind, r.value.0), r.value.1))
      case _ => None
  }

  /** The children of a group from number `n` on, up to its closing bracket. */
  function ReadChildren(kind: GroupType, n: nat, ts: seq<Token>): (r: Option<(seq<Tree>, seq<Token>)>)
    ensures r.Some? ==> |r.value.1| < |ts|
    decreases |ts|, 1
  {
    var keyMark := kind == Map && n % 2 == 0 && ts != [] && ts[0] == Question;
    var first := ReadNode(if keyMark then ts[1..] else ts);
    if first.None? || first.value.1 == [] then None
    else
      var (child, rest) := first.value;
      if rest[0] == Close(kind) then Some(([child], rest[1..]))
      else if rest[0] == Separator(kind, n + 1) then
        var more := ReadChildren(kind, n + 1, rest[1..]);
        if more.None? then None else Some(([child] + more.value.0, more.value.1))
      else None
  }

  /** The tree without the mark that is not part of the text. */
  function Plain(t: Tree): Tree
  {
    match t case Leaf(text, _) => Leaf(text, false) case Node(kind, ts) => Node(kind, AllPlain(ts))
  }

  function AllPlain(ts: seq<Tree>): seq<Tree> { if ts == [] then [] else [Plain(ts[0])] + AllPlain(ts[1..]) }

  /** Children from number `n` on without the separator in front of the first. */
  function Unseparated(kind: GroupType, ts: seq<Tree>, n: nat, st: Settings): seq<Token>
    requires ts != []
  {
    (if kind == Map && n % 2 == 0 && LongKey(ts[0], true, st) then [Question] else []) +
    Print(ts[0], true, st) + PrintFrom(kind, true, ts[1..], n + 1, st)
  }

  lemma PrintStarts(t: Tree, st: Settings)
    ensures Print(t, true, st) != []
    ensures Print(t, true, st)[0].Content? || Print(t, true, st)[0].Open?
  {
    if t.Node? && t.children != [] {
      PrintFromSeparates(t.kind, t.children, 0, st);
    }
  }

  lemma PrintFromSeparates(kind: GroupType, ts: seq<Tree>, n: nat, st: Settings)
    requires ts != []
    ensures PrintFrom(kind, true, ts, n, st) ==
            [if n == 0 then Open(kind) else Separator(kind, n)] + Unseparated(kind, ts, n, st)
  {
    hide Print, LongKey, Before;
    var long := LongKey(ts[0], true, st);
    BeforeParts(kind, n, long);
    var key := if kind == Map && n % 2 == 0 && long then [Question] else [];
    var first := [if n == 0 then Open(kind) else Separator(kind, n)];
    var body, more := Print(ts[0], true, st), PrintFrom(kind, true, ts[1..], n + 1, st);
    assert first + key + body + more == first + (key + body + more);
  }

  lemma BeforeParts(kind: GroupType, n: nat, long: bool)
    ensures Before(kind, true, n, long) ==
            [if n == 0 then Open(kind) else Separator(kind, n)] +
            (if kind == Map && n % 2 == 0 && long then [Question] else [])
  {
  }

  /** Reading what the printer prints in flow layout gives the tree, whatever follows. */
  lemma {:induction false} ReadOfPrint(t: Tree, st: Settings, rest: seq<Token>)
    ensures ReadNode(Print(t, true, st) + rest) == Some((Plain(t), rest))
    decreases t, 0
  {
    match t
    case Leaf(text, _) =>
      assert ([Content(text)] + rest)[1..] == rest;
    case Node(kind, ts) =>
      if ts == [] {
        assert ([Open(kind), Close(kind)] + rest)[2..] == rest;
      } else {
        var tail := Unseparated(kind, ts, 0, st) + [Close(kind)] + rest;
        PrintFromSeparates(kind, ts, 0, st);
        assert Print(t, true, st) + rest == [Open(kind)] + tail;
        PrintStarts(ts[0], st);
        ReadOfChildren(kind, ts, 0, st, rest);
      }
  }

  lemma {:induction false} ReadOfChildren(kind: GroupType, ts: seq<Tree>, n: nat, st: Settings, rest: seq<Token>)
    requires ts != []
    ensures ReadChildren(kind, n, Unseparated(kind, ts, n, st) + [Close(kind)] + rest) == Some((AllPlain(ts), rest))
    decreases ts, 1
  {
    hide ReadNode, Print, LongKey, PrintFrom, Plain;
    var input := Unseparated(kind, ts, n, st) + [Close(kind)] + rest;
    var more := PrintFrom(kind, true, ts[1..], n + 1, st) + [Close(kind)] + rest;
    PrintStarts(ts[0], st);
    ReadOfPrint(ts[0], st, more);
    var keyMark := kind == Map && n % 2 == 0 && LongKey(ts[0], true, st);
    assert (if keyMark then input[1..] else input) == Print(ts[0], true, st) + more;
    assert input != [] && (input[0] == Question <==> keyMark);
    if |ts| == 1 {
      PrintFromNone(kind, n + 1, st);
      assert more == [Close(kind)] + rest;
      assert more[1..] == rest;
      assert AllPlain(ts) == [Plain(ts[0])] + AllPlain(ts[1..]) == [Plain(ts[0])];
    } else {
      PrintFromSeparates(kind, ts[1..], n + 1, st);
      var tail := Unseparated(kind, ts[1..], n + 1, st) + [Close(kind)] + rest;
      assert more == [Separator(kind, n + 1)] + tail;
      assert more[1..] == tail;
      ReadOfChildren(kind, ts[1..], n + 1, st, rest);
    }
  }

  lemma PrintFromNone(kind: GroupType, n: nat, st: Settings)
    ensures PrintFrom(kind, true, [], n, st) == []
  {
  }

  /** Documents until the output ends. */
  function ReadAll(ts: seq<Token>): Option<seq<Tree>>
    decreases |ts|
  {
    if ts == [] then Some([])
    else
      var first := ReadNode(ts);
      if first.None? then None
      else
        var more := ReadAll(first.value.1);
        if more.None? then None else Some([first.value.0] + more.value)
  }

  lemma FlowAnyway(t: Tree, st: Settings)
    requires st.seqFormat == Flow && st.mapFormat == Flow
    ensures Print(t, false, st) == Print(t, true, st)
  {
  }

  lemma {:induction false} ReadAllOfPrint(ts: seq<Tree>, st: Settings)
    requires st.seqFormat == Flow && st.mapFormat == Flow
    ensures ReadAll(PrintAll(ts, st)) == Some(AllPlain(ts))
    decreases |ts|
  {
    if ts != [] {
      FlowAnyway(ts[0], st);
      PrintStarts(ts[0], st);
      ReadOfPrint(ts[0], st, PrintAll(ts[1..], st));
      ReadAllOfPrint(ts[1..], st);
    }
  }

  /** In flow layout the output determines the documents, in every format of keys: reading
      the structure the emitter wrote gives back every tree it was called with. */
  lemma FlowOutputReadsBack(globals: seq<Op>, ts: seq<Tree>)
    requires forall i | 0 <= i < |globals| :: SetsGlobally(globals[i])
    requires INITIAL.Run(globals).settings.seqFormat == Flow && INITIAL.Run(globals).settings.mapFormat == Flow
    ensures ReadAll(Structural(INITIAL.Run(globals + AllCalls(ts)).out)) == Some(AllPlain(ts))
  {
    EmitterPrints(globals, ts);
    ReadAllOfPrint(ts, INITIAL.Run(globals).settings);
  }
}
