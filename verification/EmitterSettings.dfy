/** Which settings are in force and which calls are errors, told by the calls. */
module EmitterSettings {
  import opened EmitterModel
  import opened EmitterLayout
  import opened EmitterTree
  import EmitterKeys
  import S = EmitterSafety

  // ---- global settings

  /** Whether a call changes a setting for the rest of the output; a width below two is passed over. */
  predicate Sets(op: Op, which: Setting)
  {
    match which
    case SeqFormat => op.GlobalSeqFlow?
    case MapFormat => op.GlobalMapFlow?
    case MapKeyFormat => op.GlobalKeys?
    case IndentWidth => op.GlobalIndent? && op.n > 1
  }

  /** Whether the settings are as a call asks. */
  predicate As(st: Settings, op: Op)
  {
    match op
    case GlobalSeqFlow(f) => st.seqFormat == f
    case GlobalMapFlow(f) => st.mapFormat == f
    case GlobalKeys(long) => st.longKeys == long
    case GlobalIndent(n) => st.indent == n
    case _ => true
  }

  lemma RunLast(s: State, ops: seq<Op>)
    requires ops != []
    ensures s.Run(ops) == s.Run(ops[..|ops| - 1]).Step(ops[|ops| - 1])
  {
    hide State.Run, State.Step;
    RunConcat(s, ops[..|ops| - 1], [ops[|ops| - 1]]);
    RunOne(s.Run(ops[..|ops| - 1]), ops[|ops| - 1]);
    assert ops[..|ops| - 1] + [ops[|ops| - 1]] == ops;
  }

  /** A global call gives its own setting and leaves the others. */
  lemma OneSet(s: State, op: Op, which: Setting)
    requires SetsGlobally(op)
    ensures Sets(op, which) ==> As(s.Step(op).settings, op)
    ensures !Sets(op, which) ==> EmitterKeys.SameSetting(which, s.Step(op).settings, s.settings)
  {
    hide State.EmitBeginDoc, State.EmitEndDoc, State.EmitBeginGroup, State.EmitEndGroup, State.EmitNewline,
      State.EmitScalar, State.EmitAlias, State.EmitAnchor, State.EmitTag, State.EmitComment;
  }

  /** Of the global calls for a setting the last one decides. */
  lemma {:induction false} LastGlobalDecides(ops: seq<Op>, i: nat, which: Setting)
    requires i < |ops| && Sets(ops[i], which) && forall j | 0 <= j < |ops| :: SetsGlobally(ops[j])
    requires forall j | i < j < |ops| :: !Sets(ops[j], which)
    ensures As(INITIAL.Run(ops).settings, ops[i])
    decreases |ops|
  {
    hide State.Run, State.Step, Sets, As;
    var front, last := ops[..|ops| - 1], ops[|ops| - 1];
    RunLast(INITIAL, ops);
    OneSet(INITIAL.Run(front), last, which);
    if i < |ops| - 1 {
      LastGlobalDecides(front, i, which);
      SameAs(INITIAL.Run(front).settings, INITIAL.Run(ops).settings, ops[i], which);
    }
  }

  lemma SameAs(a: Settings, b: Settings, op: Op, which: Setting)
    requires Sets(op, which) && As(a, op) && EmitterKeys.SameSetting(which, b, a)
    ensures As(b, op)
  {
  }

  /** Without a call for it a setting is what a new emitter has: block layout, short keys, two columns. */
  lemma {:induction false} DefaultsStay(ops: seq<Op>, which: Setting)
    requires forall j | 0 <= j < |ops| :: SetsGlobally(ops[j]) && !Sets(ops[j], which)
    ensures EmitterKeys.SameSetting(which, INITIAL.Run(ops).settings, Settings(Block, Block, false, 2))
    decreases |ops|
  {
    hide State.Step, Sets;
    if ops != [] {
      RunLast(INITIAL, ops);
      hide State.Run;
      OneSet(INITIAL.Run(ops[..|ops| - 1]), ops[|ops| - 1], which);
      DefaultsStay(ops[..|ops| - 1], which);
    }
  }

  // ---- local settings

  lemma LocalFlowSettings(s: State, f: FlowType)
    requires s.good
    ensures var a := s.Step(LocalFlow(f));
            a == s.(settings := s.settings.(seqFormat := f, mapFormat := f),
                    modified := s.modified + [Change(SeqFormat, s.settings),
                                              Change(MapFormat, s.settings.(seqFormat := f))])
  {
    var b := s.SetLocal(SeqFormat, s.settings.(seqFormat := f));
    assert s.Step(LocalFlow(f)) == b.SetLocal(MapFormat, s.settings.(mapFormat := f)) by { hide State.SetLocal; }
    hide State.Step;
    assert s.modified + [Change(SeqFormat, s.settings)] + [Change(MapFormat, s.settings.(seqFormat := f))] ==
           s.modified + [Change(SeqFormat, s.settings), Change(MapFormat, s.settings.(seqFormat := f))];
  }

  /** The settings in force, the changes pending, and whether flow layout surrounds. */
  predicate Alike(s: State, t: State)
  {
    t.settings == s.settings && t.modified == s.modified && t.InFlow() == s.InFlow()
  }

  lemma WroteAlike(s: State, t: State, ts: seq<Token>)
    requires Wrote(s, t, ts)
    ensures Alike(s, t)
  {
    WroteParts(s, t, ts);
    hide Structural, Wrote;
  }

  lemma DecidedAlike(s: State, child: Child)
    requires s.groups != []
    ensures Alike(s, Decided(s, child))
  {
    DecidedTop(s, child);
    hide Decided;
  }

  lemma BeginDocAlike(s: State)
    ensures Alike(s, s.EmitBeginDoc())
  {
    BreakIsQuiet(s, s.col > 0);
    hide State.BreakIf, Structural;
  }

  lemma AlikeThen(s: State, t: State, u: State)
    requires Alike(s, t) && Alike(t, u)
    ensures Alike(s, u)
  {
    hide State.InFlow;
  }

  lemma PreparedAlike(s: State, child: Child)
    requires s.good && (s.InFlow() ==> child != BlockSeq && child != BlockMap) && child != NoNode
    ensures Alike(s, s.PrepareNode(child))
  {
    hide *;
    if s.groups != [] {
      PrepareWrites(s, child);
      DecidedAlike(s, child);
      WroteAlike(Decided(s, child), s.PrepareNode(child), Lead(s, child));
      AlikeThen(s, Decided(s, child), s.PrepareNode(child));
    } else {
      var t := if s.docCount > 0 && s.col > 0 then s.EmitBeginDoc() else s;
      EmitterKeys.TopNodeForm(s, child);
      BeginDocAlike(s);
      BreakIsQuiet(t, t.HasBegunNode());
      WroteAlike(t, t.BreakIf(t.HasBegunNode()), []);
      SpaceIsQuiet(t, t.HasBegunContent(), 0);
      WroteAlike(t, t.SpaceOrIndentTo(t.HasBegunContent(), 0), []);
      AlikeSelf(s);
      AlikeThen(s, t, s.PrepareNode(child));
    }
  }

  lemma AlikeSelf(s: State)
    ensures Alike(s, s)
  {
  }

  lemma StartedFlow(p: State, kind: GroupType)
    ensures var u := p.StartedGroup(kind);
            && u.groups != [] && u.Top().kind == kind && u.Top().indent == p.settings.indent
            && u.Top().flow == if p.InFlow() then Flow
                               else if kind == Seq then p.settings.seqFormat else p.settings.mapFormat
  {
    CountedFlow(p);
    var n := p.StartedNode();
    assert p.StartedGroup(kind).Top() == Group(kind, n.FlowOf(kind), n.settings.indent, 0, false, n.modified);
    hide State.StartedNode, State.CurGroupIndent;
  }

  lemma CountedFlow(p: State)
    ensures Alike(p, p.StartedNode())
  {
    CountedAlike(p);
    hide State.Counted;
  }

  lemma TopAlike(p: State, g: Group)
    requires p.groups != [] && g.flow == p.Top().flow
    ensures Alike(p, p.WithTop(g))
  {
    WithTopHas(p, g);
    hide State.WithTop;
  }

  lemma CountedAlike(p: State)
    ensures Alike(p, p.Counted())
  {
    if p.groups != [] {
      var n := p.Top().childCount + 1;
      TopAlike(p, p.Top().(childCount := n, longKey := p.Top().longKey && n % 2 != 0));
    }
    hide State.WithTop, State.InFlow;
  }

  /** A local layout is that of the next group, of either kind, unless it stands inside a flow group. */
  lemma LocalFlowDecides(s: State, f: FlowType, kind: GroupType)
    requires s.good && !s.InFlow()
    ensures var u := s.Step(LocalFlow(f)).Step(BeginGroup(kind));
            u.groups != [] && u.Top().kind == kind && u.Top().flow == f
  {
    var a := s.Step(LocalFlow(f));
    LocalFlowSettings(s, f);
    NextKind(a, kind);
    hide *;
    PreparedAlike(a, a.NextGroupType(kind));
    AlikeIs(a, a.PrepareNode(a.NextGroupType(kind)));
    StartedFlow(a.PrepareNode(a.NextGroupType(kind)), kind);
    InFlowSame(s, a);
  }

  lemma AlikeIs(s: State, t: State)
    requires Alike(s, t)
    ensures t.settings == s.settings && t.modified == s.modified && t.InFlow() == s.InFlow()
  {
  }

  lemma InFlowSame(s: State, a: State)
    requires a == s.(settings := a.settings, modified := a.modified)
    ensures a.InFlow() == s.InFlow()
  {
  }

  lemma NextKind(a: State, kind: GroupType)
    requires a.good
    ensures a.InFlow() ==> a.NextGroupType(kind) != BlockSeq && a.NextGroupType(kind) != BlockMap
    ensures a.NextGroupType(kind) != NoNode
    ensures a.Step(BeginGroup(kind)) == a.PrepareNode(a.NextGroupType(kind)).StartedGroup(kind)
  {
    hide State.PrepareNode, State.StartedGroup;
  }

  /** A local width is that of the next group. */
  lemma LocalIndentDecides(s: State, n: nat, kind: GroupType)
    requires s.good && n > 1
    ensures var u := s.Step(LocalIndent(n)).Step(BeginGroup(kind));
            u.groups != [] && u.Top().kind == kind && u.Top().indent == n
  {
    var a := s.Step(LocalIndent(n));
    assert a == s.(settings := s.settings.(indent := n), modified := a.modified);
    NextKind(a, kind);
    hide *;
    PreparedAlike(a, a.NextGroupType(kind));
    AlikeIs(a, a.PrepareNode(a.NextGroupType(kind)));
    StartedFlow(a.PrepareNode(a.NextGroupType(kind)), kind);
  }

  predicate IsLocal(op: Op) { op.LocalFlow? || op.LocalKeys? || op.LocalIndent? }

  lemma ScalarSettings(a: State, text: string)
    requires a.good
    ensures a.EmitScalar(text, false).settings == Restore(a.settings, a.modified)
  {
    var p := a.PrepareNode(Scalar);
    var n := p.Put(Content(text)).StartedNode();
    assert a.EmitScalar(text, false) == n.ClearModifiedSettings()
      by { hide State.PrepareNode, State.StartedNode, State.ClearModifiedSettings, State.Put; }
    assert a.InFlow() ==> Scalar != BlockSeq && Scalar != BlockMap;
    hide *;
    PreparedAlike(a, Scalar);
    PutAlike(p, text);
    CountedFlow(p.Put(Content(text)));
    AlikeIs(a, p);
    AlikeIs(p, p.Put(Content(text)));
    AlikeIs(p.Put(Content(text)), n);
    ClearedSettings(n);
  }

  lemma ClearedSettings(n: State)
    ensures n.ClearModifiedSettings().settings == Restore(n.settings, n.modified)
  {
    hide Restore;
  }

  lemma PutAlike(p: State, text: string)
    ensures Alike(p, p.Put(Content(text)))
  {
    hide TokenColumn;
  }

  lemma TakenBack(st: Settings, which: Setting, value: Settings)
    ensures Restore(st.With(which, value), [Change(which, st)]) == st
  {
    assert [Change(which, st)][1..] == [];
  }

  lemma BothTakenBack(st: Settings, f: FlowType)
    ensures Restore(st.(seqFormat := f, mapFormat := f),
                    [Change(SeqFormat, st), Change(MapFormat, st.(seqFormat := f))]) == st
  {
    var changes := [Change(SeqFormat, st), Change(MapFormat, st.(seqFormat := f))];
    assert changes[1..] == [Change(MapFormat, st.(seqFormat := f))] && changes[1..][1..] == [];
    assert Restore(st.(seqFormat := f, mapFormat := f), changes) == Restore(st.(mapFormat := f), changes[1..]);
    assert Restore(st.(mapFormat := f), changes[1..]) == Restore(st, []);
  }

  /** A local setting lasts for one scalar. */
  lemma LocalLastsOneScalar(s: State, op: Op, text: string)
    requires s.good && s.modified == [] && IsLocal(op)
    ensures s.Step(op).EmitScalar(text, false).settings == s.settings
  {
    hide *;
    LocalIsRestorable(s, op);
    ScalarSettings(s.Step(op), text);
  }

  lemma LocalIsRestorable(s: State, op: Op)
    requires s.good && s.modified == [] && IsLocal(op)
    ensures var a := s.Step(op);
            a.good && Restore(a.settings, a.modified) == s.settings
  {
    match op
    case LocalFlow(f) =>
      LocalFlowSettings(s, f);
      BothTakenBack(s.settings, f);
      assert [] + [Change(SeqFormat, s.settings), Change(MapFormat, s.settings.(seqFormat := f))] ==
             [Change(SeqFormat, s.settings), Change(MapFormat, s.settings.(seqFormat := f))];
      hide State.Step, Restore;
    case LocalKeys(long) =>
      OneLocal(s, MapKeyFormat, s.settings.(longKeys := long));
      hide State.SetLocal, Restore;
    case LocalIndent(n) =>
      OneLocal(s, IndentWidth, s.settings.(indent := n));
      assert Restore(s.settings, []) == s.settings;
      hide State.SetLocal, Restore;
  }

  lemma OneLocal(s: State, which: Setting, value: Settings)
    requires s.good && s.modified == []
    ensures var a := s.SetLocal(which, value);
            a.good && Restore(a.settings, a.modified) == s.settings
  {
    TakenBack(s.settings, which, value);
    assert [] + [Change(which, s.settings)] == [Change(which, s.settings)];
    hide Restore;
  }

  // ---- errors

  /** A label in front of a document behind the first stands on the line. */
  predicate Blocked(s: State) { s.groups == [] && s.docCount > 0 && s.col > 0 && (s.hasAnchor || s.hasTag) }

  /** What a call may meet without being an error. */
  predicate Allowed(s: State, op: Op)
  {
    match op
    case BeginDoc => s.groups == [] && !s.hasAnchor && !s.hasTag
    case EndDoc => s.groups == [] && !s.hasAnchor && !s.hasTag
    case BeginGroup(_) => !Blocked(s)
    case EndGroup(kind) => s.groups != [] && s.Top().kind == kind && !s.hasAnchor && !s.hasTag
    case WriteScalar(_, _) => !Blocked(s)
    case WriteAlias(_, valid) => valid && !s.hasAnchor && !s.hasTag
    case WriteAnchor(_, valid) => valid && !s.hasAnchor && !Blocked(s)
    case WriteTag(_, valid) => valid && !s.hasTag && !Blocked(s)
    case _ => true
  }

  lemma PreparedGood(s: State, child: Child)
    requires s.good && child != NoNode && (s.InFlow() ==> child != BlockSeq && child != BlockMap)
    ensures s.PrepareNode(child).good <==> !Blocked(s)
  {
    if s.groups != [] {
      PrepareWrites(s, child);
      DecidedTop(s, child);
      EmitterKeys.SameGood(Decided(s, child), s.PrepareNode(child), Lead(s, child));
      hide State.PrepareNode, Decided, Lead, Wrote;
    } else if s.HasBegunContent() {
      EmitterKeys.PropertyOfLaterDocument(s, child);
      hide State.PrepareNode;
    } else {
      RootGood(s, child);
      hide State.PrepareNode;
    }
  }

  lemma RootGood(s: State, child: Child)
    requires s.good && s.groups == [] && !s.HasBegunContent() && child != NoNode
    ensures s.PrepareNode(child).good
  {
    var t := if s.docCount > 0 && s.col > 0 then s.EmitBeginDoc() else s;
    EmitterKeys.TopNodeForm(s, child);
    assert t.good;
    hide *;
    SpaceIsQuiet(t, t.HasBegunContent(), 0);
    EmitterKeys.SameGood(t, t.SpaceOrIndentTo(t.HasBegunContent(), 0), []);
    BreakIsQuiet(t, t.HasBegunNode());
    EmitterKeys.SameGood(t, t.BreakIf(t.HasBegunNode()), []);
  }

  /** Room for a comment or a line break is always made. */
  lemma BesideGood(s: State)
    requires s.good
    ensures s.PrepareNode(NoNode).good
  {
    if s.groups != [] {
      PrepareWrites(s, NoNode);
      DecidedTop(s, NoNode);
      EmitterKeys.SameGood(Decided(s, NoNode), s.PrepareNode(NoNode), Lead(s, NoNode));
      hide State.PrepareNode, Decided, Lead, Wrote;
    }
  }

  lemma CountedGood(t: State, kind: GroupType)
    ensures t.StartedNode().good == t.good && t.StartedScalar().good == t.good && t.StartedGroup(kind).good == t.good
  {
    if t.groups != [] {
      var n := t.Top().childCount + 1;
      WithTopHas(t, t.Top().(childCount := n, longKey := t.Top().longKey && n % 2 != 0));
    }
    hide State.WithTop;
    assert t.StartedNode().good == t.good;
    hide State.StartedNode, Restore, State.FlowOf, State.CurGroupIndent;
  }

  lemma PutGood(p: State, t: Token)
    ensures p.Put(t).good == p.good && p.Put(t).groups == p.groups
  {
    hide TokenColumn, TokenComment;
  }

  lemma ScalarAllowed(s: State, text: string, long: bool)
    requires s.good
    ensures s.EmitScalar(text, long).good <==> !Blocked(s)
  {
    var a := if long then s.SetLocal(MapKeyFormat, s.settings.(longKeys := true)) else s;
    var p := a.PrepareNode(Scalar);
    assert s.EmitScalar(text, long) == p.Put(Content(text)).StartedScalar()
      by { hide State.PrepareNode, State.Put, State.StartedScalar; }
    AskedAlike(s, long);
    hide *;
    PreparedGood(a, Scalar);
    PutGood(p, Content(text));
    CountedGood(p.Put(Content(text)), Seq);
  }

  lemma AskedAlike(s: State, long: bool)
    ensures var a := if long then s.SetLocal(MapKeyFormat, s.settings.(longKeys := true)) else s;
            Blocked(a) == Blocked(s) && a.good == s.good && (a.InFlow() ==> Scalar != BlockSeq && Scalar != BlockMap)
  {
  }

  lemma LabelAllowed(s: State, text: string, valid: bool)
    requires s.good
    ensures s.EmitAnchor(text, valid).good <==> valid && !s.hasAnchor && !Blocked(s)
    ensures s.EmitTag(text, valid).good <==> valid && !s.hasTag && !Blocked(s)
  {
    PreparedGood(s, Property);
    PutGood(s.PrepareNode(Property), Content(text));
    hide State.PrepareNode, State.Put, Blocked;
  }

  lemma AliasAllowed(s: State, text: string, valid: bool)
    requires s.good
    ensures s.EmitAlias(text, valid).good <==> valid && !s.hasAnchor && !s.hasTag
  {
    PreparedGood(s, Scalar);
    PutGood(s.PrepareNode(Scalar), Content(text));
    CountedGood(s.PrepareNode(Scalar).Put(Content(text)), Seq);
    hide State.PrepareNode, State.Put, State.StartedScalar;
  }

  lemma GroupAllowed(s: State, kind: GroupType)
    requires s.good
    ensures s.EmitBeginGroup(kind).good <==> !Blocked(s)
  {
    var child := s.NextGroupType(kind);
    assert child != NoNode && (s.InFlow() ==> child != BlockSeq && child != BlockMap);
    PreparedGood(s, child);
    CountedGood(s.PrepareNode(child), kind);
    hide State.PrepareNode, State.StartedGroup, Blocked, State.NextGroupType;
  }

  lemma BesideAllowed(s: State, text: string)
    requires s.good
    ensures s.EmitNewline().good && s.EmitComment(text).good
  {
    BesideGood(s);
    var p := s.PrepareNode(NoNode);
    PutGood(p, Newline);
    PutGood(p, Pad(2));
    PutGood(p, Remark(text));
    PutGood(p.Put(Pad(2)), Remark(text));
    hide State.PrepareNode, State.Put;
  }

  lemma DocAllowed(s: State)
    requires s.good
    ensures s.EmitBeginDoc().good <==> s.groups == [] && !s.hasAnchor && !s.hasTag
    ensures s.EmitEndDoc().good <==> s.groups == [] && !s.hasAnchor && !s.hasTag
  {
    BreakIsQuiet(s, s.col > 0);
    EmitterKeys.SameGood(s, s.BreakIf(s.col > 0), []);
    PutGood(s.BreakIf(s.col > 0), DocStart);
    PutGood(s.BreakIf(s.col > 0), DocEnd);
    hide State.BreakIf, State.Put, Wrote;
  }

  lemma EndedGood(x: State, kind: GroupType)
    ensures x.EndedGroup(kind).good <==>
            x.good && x.groups != [] && x.Top().kind == kind && !x.hasAnchor && !x.hasTag
  {
    hide Restore, State.CurGroupIndent;
  }

  lemma NoGroupEnds(s: State, kind: GroupType)
    requires s.good && s.groups == []
    ensures !s.EmitEndGroup(kind).good
  {
    hide State.CloseFlow;
  }

  lemma FlowEnds(s: State, kind: GroupType)
    requires s.good && s.groups != [] && (s.Top().flow == Flow || s.Top().childCount == 0)
    ensures var x := S.Forced(s).CloseFlow(kind, s.Top().flow == Block);
            && s.EmitEndGroup(kind) == x.EndedGroup(kind) && x.groups != [] && x.Top().kind == s.Top().kind
            && x.good && x.hasAnchor == s.hasAnchor && x.hasTag == s.hasTag
  {
    hide *;
    var f := S.Forced(s);
    var x := f.CloseFlow(kind, s.Top().flow == Block);
    S.FlowEndForm(s, kind);
    S.ForcedIs(s);
    S.CloseFlowWrites(f, kind, s.Top().flow == Block);
    WroteParts(f, x, S.Closing(f, kind, s.Top().flow == Block));
    SameFlags(s, f, x);
  }

  lemma SameFlags(s: State, f: State, x: State)
    requires f == s.(groups := f.groups) && x == S.WithOutput(f, x) && f.groups != [] && s.groups != []
    requires f.Top() == s.Top().(flow := Flow)
    ensures x.groups != [] && x.Top().kind == s.Top().kind && x.good == s.good
    ensures x.hasAnchor == s.hasAnchor && x.hasTag == s.hasTag
  {
  }

  lemma BlockEnds(s: State, kind: GroupType)
    requires s.good && s.groups != [] && s.Top().flow == Block && s.Top().childCount > 0
    ensures s.EmitEndGroup(kind) == s.EndedGroup(kind)
  {
    hide State.EndedGroup, State.CloseFlow;
  }

  lemma EndAllowed(s: State, kind: GroupType)
    requires s.good
    ensures s.EmitEndGroup(kind).good <==>
            s.groups != [] && s.Top().kind == kind && !s.hasAnchor && !s.hasTag
  {
    hide *;
    if s.groups == [] {
      NoGroupEnds(s, kind);
    } else if s.Top().flow == Flow || s.Top().childCount == 0 {
      FlowEnds(s, kind);
      EndedGood(S.Forced(s).CloseFlow(kind, s.Top().flow == Block), kind);
    } else {
      BlockEnds(s, kind);
      EndedGood(s, kind);
    }
  }

  /** A call stops the emitter exactly when it is not allowed. */
  lemma StopsExactly(s: State, op: Op)
    requires s.good
    ensures s.Step(op).good <==> Allowed(s, op)
  {
    hide State.EmitBeginDoc, State.EmitEndDoc, State.EmitBeginGroup, State.EmitEndGroup, State.EmitNewline,
      State.EmitScalar, State.EmitAlias, State.EmitAnchor, State.EmitTag, State.EmitComment, Blocked;
    match op
    case BeginDoc => DocAllowed(s);
    case EndDoc => DocAllowed(s);
    case BeginGroup(kind) => GroupAllowed(s, kind);
    case EndGroup(kind) => EndAllowed(s, kind);
    case LineBreak => BesideAllowed(s, "");
    case WriteComment(text) => BesideAllowed(s, text);
    case WriteScalar(text, long) => ScalarAllowed(s, text, long);
    case WriteAlias(text, valid) => AliasAllowed(s, text, valid);
    case WriteAnchor(text, valid) => LabelAllowed(s, text, valid);
    case WriteTag(text, valid) => LabelAllowed(s, text, valid);
    case _ => S.SettingOnly(s, op);
  }

  lemma PrefixRun(s: State, ops: seq<Op>, i: nat)
    requires i < |ops| && ops != []
    ensures s.Run(ops[..i + 1]) == s.Step(ops[0]).Run(ops[1..][..i])
  {
    assert ops[..i + 1][1..] == ops[1..][..i];
    hide State.Step;
  }

  /** Every run goes wrong exactly at its first call that is not allowed. */
  lemma {:induction false} RunStopsExactly(s: State, ops: seq<Op>)
    requires s.good
    ensures s.Run(ops).good <==> forall i | 0 <= i < |ops| :: Allowed(s.Run(ops[..i]), ops[i])
    decreases |ops|
  {
    hide Allowed;
    if ops != [] {
      assert s.Run(ops[..0]) == s;
      StopsExactly(s, ops[0]);
      hide State.Step;
      var t := s.Step(ops[0]);
      assert s.Run(ops) == t.Run(ops[1..]);
      if t.good {
        RunStopsExactly(t, ops[1..]);
        forall i | 0 <= i < |ops| - 1
          ensures Allowed(s.Run(ops[..i + 1]), ops[i + 1]) == Allowed(t.Run(ops[1..][..i]), ops[1..][i])
        {
          PrefixRun(s, ops, i);
        }
        SameForAll(s, t, ops);
      } else {
        S.RunStopped(t, ops[1..]);
      }
    }
  }

  lemma SameForAll(s: State, t: State, ops: seq<Op>)
    requires ops != [] && Allowed(s.Run(ops[..0]), ops[0])
    requires forall i | 0 <= i < |ops| - 1 ::
               Allowed(s.Run(ops[..i + 1]), ops[i + 1]) == Allowed(t.Run(ops[1..][..i]), ops[1..][i])
    ensures (forall i | 0 <= i < |ops| :: Allowed(s.Run(ops[..i]), ops[i])) <==>
            forall i | 0 <= i < |ops[1..]| :: Allowed(t.Run(ops[1..][..i]), ops[1..][i])
  {
    hide Allowed, State.Run;
    if forall i | 0 <= i < |ops[1..]| :: Allowed(t.Run(ops[1..][..i]), ops[1..][i]) {
      forall i | 0 <= i < |ops| ensures Allowed(s.Run(ops[..i]), ops[i]) {
        if i > 0 { assert Allowed(t.Run(ops[1..][..i - 1]), ops[1..][i - 1]); }
      }
    }
    if forall i | 0 <= i < |ops| :: Allowed(s.Run(ops[..i]), ops[i]) {
      forall i | 0 <= i < |ops[1..]| ensures Allowed(t.Run(ops[1..][..i]), ops[1..][i]) {
        assert Allowed(s.Run(ops[..i + 1]), ops[i + 1]);
      }
    }
  }
}
