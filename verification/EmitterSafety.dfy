/** What every run of the emitter keeps: the brackets written match the flow groups on the
    stack, the indent is the sum of the indents below the top, no assertion trips. */
module EmitterSafety {
  import opened EmitterModel
  import opened EmitterLayout
  import opened Wrappers

  function IndentSum(groups: seq<Group>): nat
    decreases |groups|
  {
    if groups == [] then 0 else IndentSum(groups[..|groups| - 1]) + groups[|groups| - 1].indent
  }

  /** The groups that are open around the one on top. */
  function Below(groups: seq<Group>): seq<Group> { if groups == [] then [] else groups[..|groups| - 1] }

  /** The flow groups whose bracket has been written: those with a child, and the one on
      top once a node of it has begun. */
  function Opened(groups: seq<Group>, begun: bool): seq<GroupType>
    decreases |groups|
  {
    if groups == [] then []
    else
      var g := groups[|groups| - 1];
      Opened(groups[..|groups| - 1], false) +
      (if g.flow == Flow && (g.childCount > 0 || begun) then [g.kind] else [])
  }

  ghost predicate Nested(groups: seq<Group>)
  {
    && (forall i | 0 <= i < |groups| - 1 :: groups[i].childCount > 0)
    && (forall i, j | 0 <= i < j < |groups| && groups[i].flow == Flow :: groups[j].flow == Flow)
  }

  ghost predicate Shape(s: State)
  {
    !s.tripped && s.curIndent == IndentSum(Below(s.groups)) && Nested(s.groups)
  }

  ghost predicate Brackets(s: State, begun: bool)
  {
    Unmatched(s.out) == Some(Opened(s.groups, begun))
  }

  ghost predicate Inv(s: State) { Shape(s) && Brackets(s, s.HasBegunNode()) }

  // ---- preparation

  predicate Bracket(t: Token) { t.Open? || t.Close? }

  lemma {:induction false} UnmatchedNeutral(a: seq<Token>, ts: seq<Token>)
    requires forall i | 0 <= i < |ts| :: !Bracket(ts[i])
    ensures Unmatched(a + ts) == Unmatched(a)
    decreases |ts|
  {
    if ts == [] {
      assert a + ts == a;
    } else {
      var front, last := ts[..|ts| - 1], ts[|ts| - 1];
      UnmatchedNeutral(a, front);
      UnmatchedPut(a + front, last);
      assert a + ts == a + front + [last];
    }
  }

  /** Whether the lead of a node opens the bracket of its group. */
  predicate Opens(s: State)
    requires s.groups != []
  {
    s.Top().flow == Flow && s.Top().childCount == 0 && !s.HasBegunNode()
  }

  lemma LeadBracket(s: State, child: Child)
    requires s.groups != []
    ensures var ts := Lead(s, child);
            if Opens(s) then ts != [] && ts[0] == Open(s.Top().kind) && forall i | 0 < i < |ts| :: !Bracket(ts[i])
            else forall i | 0 <= i < |ts| :: !Bracket(ts[i])
  {
    hide LaidOutLong;
  }

  lemma UnmatchedAfter(s: State, child: Child, before: seq<Token>, after: seq<Token>)
    requires s.groups != [] && Unmatched(before).Some?
    requires Structural(after) == Structural(before) + Lead(s, child)
    ensures Unmatched(after) ==
            Some(Unmatched(before).value + (if Opens(s) then [s.Top().kind] else []))
  {
    hide Lead, Structural, Unmatched;
    var a, ts := Structural(before), Lead(s, child);
    var open := Unmatched(before).value;
    assert open + [] == open;
    UnmatchedOfStructural(before);
    UnmatchedOfStructural(after);
    LeadBracket(s, child);
    if Opens(s) {
      UnmatchedPut(a, ts[0]);
      UnmatchedNeutral(a + [ts[0]], ts[1..]);
      assert a + ts == a + [ts[0]] + ts[1..];
    } else {
      UnmatchedNeutral(a, ts);
    }
  }

  /** The state with the output of another one. */
  function WithOutput(s: State, t: State): State { s.(out := t.out, col := t.col, comment := t.comment) }

  lemma DecidedGroups(s: State, child: Child)
    requires s.groups != []
    ensures var d := Decided(s, child);
            && d == s.(groups := d.groups)
            && |d.groups| == |s.groups|
            && Below(d.groups) == Below(s.groups)
            && d.Top() == s.Top().(longKey := d.Top().longKey)
  {
    hide LaidOutLong;
    KeepingTheTop(s);
    var d := Decided(s, child);
    assert Below(d.groups) == Below(s.groups);
  }

  lemma OpenedAfter(s: State, t: State)
    requires s.groups != [] && t.groups != []
    requires Below(t.groups) == Below(s.groups) && t.Top() == s.Top().(longKey := t.Top().longKey)
    ensures Opened(t.groups, true) ==
            Opened(s.groups, s.HasBegunNode()) + (if Opens(s) then [s.Top().kind] else [])
  {
    var rest := Opened(Below(s.groups), false);
    assert rest + [] == rest;
    assert Opened(t.groups, true) == rest + if s.Top().flow == Flow then [s.Top().kind] else [];
  }

  /** After a preparation inside a group the bracket of that group has been written. */
  lemma PrepareOpens(s: State, child: Child)
    requires s.groups != [] && Brackets(s, s.HasBegunNode())
    requires s.InFlow() ==> child != BlockSeq && child != BlockMap
    ensures var t := s.PrepareNode(child);
            && t == WithOutput(Decided(s, child), t)
            && Brackets(t, true)
  {
    hide State.PrepareNode, Decided, LaidOutLong, Lead, Opened, Unmatched;
    var t := s.PrepareNode(child);
    PrepareWrites(s, child);
    DecidedGroups(s, child);
    UnmatchedAfter(s, child, s.out, t.out);
    OpenedAfter(s, t);
  }

  // ---- steps

  /** Ready for the next node or comment to be written. */
  ghost predicate Ready(s: State) { Shape(s) && Brackets(s, true) }

  /** The state after an operation: well formed unless the emitter has stopped. */
  ghost predicate Sound(s: State) { !s.tripped && (s.good ==> Inv(s)) }

  lemma NestedTop(groups: seq<Group>, g: Group)
    requires groups != [] && Nested(groups)
    requires g.flow == groups[|groups| - 1].flow
    ensures Nested(Below(groups) + [g])
  {
    var after := Below(groups) + [g];
    forall i, j | 0 <= i < j < |after| && after[i].flow == Flow
      ensures after[j].flow == Flow
    {
      assert after[i].flow == groups[i].flow && after[j].flow == groups[j].flow;
    }
  }

  lemma QuietReady(s: State, t: State)
    requires Wrote(s, t, []) && Ready(s)
    ensures Ready(t)
  {
    hide Unmatched, Structural, Nested, Opened, IndentSum;
    assert Structural(t.out) == Structural(s.out);
    UnmatchedOfStructural(s.out);
    UnmatchedOfStructural(t.out);
  }

  lemma BeginDocReady(s: State)
    requires s.groups == [] && Ready(s)
    ensures var t := s.EmitBeginDoc(); Ready(t) && t.groups == []
  {
    hide Unmatched, Structural, Nested, IndentSum, Opened, State.BreakIf, State.Put;
    var u := s.BreakIf(s.col > 0);
    BreakIsQuiet(s, s.col > 0);
    PutWrites(u, DocStart);
    QuietReady(s, u);
    QuietReady(u, u.Put(DocStart));
  }

  lemma TopNodeReady(s: State, child: Child)
    requires s.groups == [] && Ready(s)
    ensures Ready(s.PrepareTopNode(child)) && s.PrepareTopNode(child).groups == []
  {
    hide Ready, Wrote, State.EmitBeginDoc, State.SpaceOrIndentTo, State.BreakIf;
    if child != NoNode {
      var t := if s.CurGroupChildCount() > 0 && s.col > 0 then s.EmitBeginDoc() else s;
      BeginDocReady(s);
      BreakIsQuiet(t, t.HasBegunNode());
      SpaceIsQuiet(t, t.HasBegunContent(), 0);
      var u := s.PrepareTopNode(child);
      QuietReady(t, u);
      assert u.groups == t.groups by {
        assert Wrote(t, u, []);
        SameGroups(t, u, []);
      }
    }
  }

  lemma SameGroups(s: State, t: State, ts: seq<Token>)
    requires Wrote(s, t, ts)
    ensures t.groups == s.groups
  {
  }

  lemma PrepareReady(s: State, child: Child)
    requires Inv(s)
    requires s.InFlow() ==> child != BlockSeq && child != BlockMap
    ensures Ready(s.PrepareNode(child)) && |s.PrepareNode(child).groups| == |s.groups|
  {
    if s.groups == [] {
      assert s.PrepareNode(child) == s.PrepareTopNode(child);
      TopNodeReady(s, child);
    } else {
      hide State.PrepareNode, Decided, LaidOutLong, Opened, IndentSum, Unmatched, Nested;
      PrepareOpens(s, child);
      DecidedGroups(s, child);
      var t := s.PrepareNode(child);
      assert t.groups == Below(s.groups) + [t.Top()];
      NestedTop(s.groups, t.Top());
    }
  }

  lemma PutReady(s: State, t: Token)
    requires Ready(s) && !Bracket(t)
    ensures Ready(s.Put(t))
  {
    hide Nested, Opened, IndentSum;
    UnmatchedPut(s.out, t);
  }

  lemma StartedNodeInv(s: State)
    requires Ready(s)
    ensures Inv(s.StartedNode())
    ensures !s.StartedNode().HasBegunNode()
    ensures s.groups != [] ==> s.StartedNode().groups != [] && s.StartedNode().Top().childCount > 0
    ensures s.groups == [] ==> s.StartedNode().groups == []
  {
    hide Unmatched, IndentSum;
    if s.groups != [] {
      var t := s.StartedNode();
      hide Nested;
      assert t.groups == Below(s.groups) + [t.Top()];
      NestedTop(s.groups, t.Top());
      assert Below(t.groups) == Below(s.groups);
    }
  }

  lemma NestedPush(groups: seq<Group>, g: Group)
    requires Nested(groups)
    requires groups != [] ==> groups[|groups| - 1].childCount > 0
    requires groups != [] && groups[|groups| - 1].flow == Flow ==> g.flow == Flow
    ensures Nested(groups + [g])
  {
    var after := groups + [g];
    forall i, j | 0 <= i < j < |after| && after[i].flow == Flow
      ensures after[j].flow == Flow
    {
      if j == |groups| && i < |groups| - 1 {
        assert after[i] == groups[i] && groups[|groups| - 1].flow == Flow;
      }
    }
  }

  lemma StartedGroupInv(s: State, kind: GroupType)
    requires Ready(s)
    ensures Inv(s.StartedGroup(kind))
  {
    hide Unmatched, State.StartedNode, Nested;
    var t := s.StartedNode();
    StartedNodeInv(s);
    var u := s.StartedGroup(kind);
    assert Below(u.groups) == t.groups;
    NestedPush(t.groups, u.Top());
    var open := Opened(t.groups, false);
    assert open + [] == open;
  }

  // ---- the end of a group

  /** What closing a group in flow layout writes. */
  function Closing(s: State, kind: GroupType, wasBlock: bool): seq<Token>
  {
    if wasBlock || (s.CurGroupChildCount() == 0 && !s.HasBegunNode()) then [Open(kind), Close(kind)]
    else [Close(kind)]
  }

  lemma CloseFlowWrites(s: State, kind: GroupType, wasBlock: bool)
    ensures Wrote(s, s.CloseFlow(kind, wasBlock), Closing(s, kind, wasBlock))
  {
    hide Wrote, State.BreakIf, State.IndentTo, State.Put;
    var t := s.BreakIf(s.comment);
    var u := t.IndentTo(s.curIndent);
    BreakIsQuiet(s, s.comment);
    IndentIsQuiet(t, s.curIndent);
    QuietThen(s, t, u, []);
    SameBook(s, u, []);
    PutWrites(u, Close(kind));
    QuietThen(s, u, u.Put(Close(kind)), [Close(kind)]);
    var v := u.Put(Open(kind));
    PutWrites(u, Open(kind));
    QuietThen(s, u, v, [Open(kind)]);
    PutWrites(v, Close(kind));
    WroteThen(s, v, v.Put(Close(kind)), [Open(kind)], [Close(kind)]);
    assert [Open(kind)] + [Close(kind)] == [Open(kind), Close(kind)];
  }

  lemma SameBook(s: State, t: State, ts: seq<Token>)
    requires Wrote(s, t, ts)
    ensures t == WithOutput(s, t)
    ensures t.CurGroupChildCount() == s.CurGroupChildCount() && t.HasBegunNode() == s.HasBegunNode()
  {
  }

  /** Closing in flow layout takes the bracket of the group back, whether it was written
      before or only now. */
  lemma UnmatchedClosed(before: seq<Token>, after: seq<Token>, rest: seq<GroupType>, kind: GroupType, both: bool)
    requires Unmatched(before) == Some(if both then rest else rest + [kind])
    requires Structural(after) == Structural(before) + if both then [Open(kind), Close(kind)] else [Close(kind)]
    ensures Unmatched(after) == Some(rest)
  {
    hide Structural, Unmatched;
    var a := Structural(before);
    UnmatchedOfStructural(before);
    UnmatchedOfStructural(after);
    UnmatchedPut(a, Open(kind));
    UnmatchedPut(a, Close(kind));
    UnmatchedPut(a + [Open(kind)], Close(kind));
    assert a + [Open(kind), Close(kind)] == a + [Open(kind)] + [Close(kind)];
    assert (rest + [kind])[..|rest|] == rest;
  }

  /** A state whose top group is about to be taken off. */
  ghost predicate Closed(s: State)
  {
    && s.groups != [] && !s.tripped
    && s.curIndent == IndentSum(Below(s.groups))
    && Nested(Below(s.groups))
    && Unmatched(s.out) == Some(Opened(Below(s.groups), false))
  }

  lemma EndedGroupSound(s: State, kind: GroupType)
    requires s.groups != [] && !s.tripped
    requires s.Top().kind == kind ==> Closed(s)
    ensures Sound(s.EndedGroup(kind))
  {
    hide Unmatched, Opened, Nested, Restore;
  }

  lemma NestedBelow(groups: seq<Group>)
    requires Nested(groups)
    ensures Nested(Below(groups))
  {
  }

  /** The group on top about to be closed, its layout forced to flow when it is empty. */
  lemma ForcedFlow(s: State)
    requires s.groups != []
    ensures var t := s.ForceFlow();
            && t == s.(groups := t.groups) && t.groups != []
            && Below(t.groups) == Below(s.groups)
            && t.Top() == s.Top().(flow := Flow)
  {
  }

  /** The bracket of the group on top has been written, unless its closing writes both. */
  lemma BeforeClosing(s: State, t: State, kind: GroupType)
    requires s.groups != [] && s.Top().kind == kind && Brackets(s, s.HasBegunNode())
    requires t == s.(groups := t.groups) && t.groups != [] && t.Top() == s.Top().(flow := Flow)
    requires s.Top().childCount > 0 ==> s.Top().flow == Flow
    ensures var both := |Closing(t, kind, s.Top().flow == Block)| == 2;
            var rest := Opened(Below(s.groups), false);
            Unmatched(s.out) == Some(if both then rest else rest + [kind])
  {
    hide Unmatched;
    var rest := Opened(Below(s.groups), false);
    assert rest + [] == rest;
  }

  /** The state in which the closing bracket is written. */
  function Forced(s: State): State { if s.CurGroupChildCount() == 0 then s.ForceFlow() else s }

  lemma ForcedIs(s: State)
    requires s.groups != [] && (s.Top().flow == Flow || s.Top().childCount == 0)
    ensures var t := Forced(s);
            && t == s.(groups := t.groups) && t.groups != []
            && Below(t.groups) == Below(s.groups)
            && t.Top() == s.Top().(flow := Flow)
  {
    hide State.ForceFlow;
    ForcedFlow(s);
  }

  lemma FlowEndForm(s: State, kind: GroupType)
    requires s.good && s.groups != [] && (s.Top().flow == Flow || s.Top().childCount == 0)
    ensures s.EmitEndGroup(kind) == Forced(s).CloseFlow(kind, s.Top().flow == Block).EndedGroup(kind)
  {
    hide State.CloseFlow, State.EndedGroup, State.ForceFlow;
    ForcedFlow(s);
  }

  lemma FlowEndClosed(s: State, kind: GroupType)
    requires Inv(s) && s.groups != [] && s.Top().kind == kind
    requires s.Top().flow == Flow || s.Top().childCount == 0
    ensures Closed(Forced(s).CloseFlow(kind, s.Top().flow == Block))
  {
    hide Unmatched, Structural, Nested, State.CloseFlow, Forced, Opened, IndentSum, Closing;
    NestedBelow(s.groups);
    var wasBlock := s.Top().flow == Block;
    var t := Forced(s);
    ForcedIs(s);
    var u := t.CloseFlow(kind, wasBlock);
    CloseFlowWrites(t, kind, wasBlock);
    SameBook(t, u, Closing(t, kind, wasBlock));
    BeforeClosing(s, t, kind);
    var both := |Closing(t, kind, wasBlock)| == 2;
    assert Closing(t, kind, wasBlock) == if both then [Open(kind), Close(kind)] else [Close(kind)] by {
      ClosingForms(t, kind, wasBlock);
    }
    UnmatchedClosed(s.out, u.out, Opened(Below(s.groups), false), kind, both);
  }

  lemma ClosingForms(s: State, kind: GroupType, wasBlock: bool)
    ensures Closing(s, kind, wasBlock) == [Open(kind), Close(kind)] || Closing(s, kind, wasBlock) == [Close(kind)]
  {
  }

  lemma FlowEndSound(s: State, kind: GroupType)
    requires s.good && Inv(s) && s.groups != []
    requires s.Top().flow == Flow || s.Top().childCount == 0
    ensures Sound(s.EmitEndGroup(kind))
  {
    hide Sound, Closed, Nested, Brackets, State.CloseFlow, State.EndedGroup, Forced, State.EmitEndGroup;
    FlowEndForm(s, kind);
    ForcedIs(s);
    var u := Forced(s).CloseFlow(kind, s.Top().flow == Block);
    CloseFlowWrites(Forced(s), kind, s.Top().flow == Block);
    SameBook(Forced(s), u, Closing(Forced(s), kind, s.Top().flow == Block));
    if s.Top().kind == kind {
      FlowEndClosed(s, kind);
    }
    EndedGroupSound(u, kind);
  }

  lemma BlockEndSound(s: State, kind: GroupType)
    requires s.good && Inv(s) && s.groups != []
    requires s.Top().flow == Block && s.Top().childCount > 0
    ensures Sound(s.EmitEndGroup(kind))
  {
    hide Unmatched, Nested, State.CloseFlow, State.EndedGroup;
    NestedBelow(s.groups);
    var rest := Opened(Below(s.groups), false);
    assert rest + [] == rest;
    EndedGroupSound(s, kind);
  }

  // ---- every operation

  /** The one call that runs into an assertion: the end of a group when nothing has been
      written and no group is open. */
  predicate Trips(s: State, op: Op)
  {
    s.good && op.EndGroup? && s.groups == [] && s.docCount == 0
  }

  /** Fields that the invariant does not look at. */
  lemma SameInv(s: State, t: State)
    requires Inv(s)
    requires t.groups == s.groups && t.out == s.out && t.curIndent == s.curIndent && t.tripped == s.tripped
    requires t.HasBegunNode() == s.HasBegunNode() || s.groups == []
    ensures Inv(t)
  {
  }

  lemma ReadyInv(s: State, t: State)
    requires Ready(s)
    requires t.groups == s.groups && t.out == s.out && t.curIndent == s.curIndent && t.tripped == s.tripped
    requires t.HasBegunNode() || s.groups == []
    ensures Inv(t)
  {
  }

  lemma EndDocReady(s: State)
    requires s.groups == [] && Ready(s)
    ensures var t := s.EmitEndDoc(); Ready(t) && t.groups == []
  {
    hide Unmatched, Structural, Nested, IndentSum, Opened, State.BreakIf, State.Put;
    var u := s.BreakIf(s.col > 0);
    BreakIsQuiet(s, s.col > 0);
    PutWrites(u, DocEnd);
    QuietReady(s, u);
    QuietReady(u, u.Put(DocEnd));
  }

  lemma DocSound(s: State)
    requires s.good && Inv(s)
    ensures Sound(s.EmitBeginDoc()) && Sound(s.EmitEndDoc())
  {
    if s.groups == [] {
      hide Brackets, Nested, State.EmitBeginDoc, State.EmitEndDoc;
      assert Brackets(s, true) by { BracketsOutside(s, s.HasBegunNode()); }
      BeginDocReady(s);
      EndDocReady(s);
      ReadyInv(s.EmitBeginDoc(), s.EmitBeginDoc());
      ReadyInv(s.EmitEndDoc(), s.EmitEndDoc());
    }
  }

  lemma BracketsOutside(s: State, begun: bool)
    requires s.groups == [] && Brackets(s, begun)
    ensures Brackets(s, true)
  {
  }

  lemma BeginGroupSound(s: State, kind: GroupType)
    requires s.good && Inv(s)
    ensures Sound(s.EmitBeginGroup(kind))
  {
    hide Inv, Ready, State.PrepareNode, State.StartedGroup;
    PrepareReady(s, s.NextGroupType(kind));
    StartedGroupInv(s.PrepareNode(s.NextGroupType(kind)), kind);
    InvNotTripped(s.EmitBeginGroup(kind));
  }

  lemma InvNotTripped(s: State)
    requires Inv(s)
    ensures !s.tripped
  {
  }

  lemma ScalarInv(s: State, text: string)
    requires Inv(s)
    ensures Inv(s.PrepareNode(Scalar).Put(Content(text)).StartedScalar())
  {
    hide Inv, Ready, State.PrepareNode, State.Put, State.StartedNode;
    PrepareReady(s, Scalar);
    PutReady(s.PrepareNode(Scalar), Content(text));
    var t := s.PrepareNode(Scalar).Put(Content(text)).StartedNode();
    StartedNodeInv(s.PrepareNode(Scalar).Put(Content(text)));
    SameInv(t, t.ClearModifiedSettings());
  }

  lemma ScalarSound(s: State, text: string, longKey: bool)
    requires s.good && Inv(s)
    ensures Sound(s.EmitScalar(text, longKey))
  {
    hide Inv, State.PrepareNode, State.Put, State.StartedScalar;
    var t := if longKey then s.SetLocal(MapKeyFormat, s.settings.(longKeys := true)) else s;
    SameInv(s, t);
    ScalarInv(t, text);
    InvNotTripped(t.PrepareNode(Scalar).Put(Content(text)).StartedScalar());
  }

  lemma AliasSound(s: State, text: string, valid: bool)
    requires s.good && Inv(s)
    ensures Sound(s.EmitAlias(text, valid))
  {
    hide Inv, Ready, State.PrepareNode, State.Put, State.StartedScalar;
    if !s.hasAnchor && !s.hasTag {
      PrepareReady(s, Scalar);
      PutReady(s.PrepareNode(Scalar), Content(text));
      ReadyNotTripped(s.PrepareNode(Scalar).Put(Content(text)));
      ScalarInv(s, text);
      var t := s.PrepareNode(Scalar).Put(Content(text)).StartedScalar();
      InvNotTripped(t);
      SameInv(t, t.(hasAlias := true));
    } else {
      InvNotTripped(s);
    }
  }

  lemma ReadyNotTripped(s: State)
    requires Ready(s)
    ensures !s.tripped
  {
  }

  lemma PropertySound(s: State, text: string, valid: bool)
    requires s.good && Inv(s)
    ensures Sound(s.EmitAnchor(text, valid)) && Sound(s.EmitTag(text, valid))
  {
    hide Inv, Ready, State.PrepareNode, State.Put;
    PrepareReady(s, Property);
    var t := s.PrepareNode(Property).Put(Content(text));
    PutReady(s.PrepareNode(Property), Content(text));
    ReadyNotTripped(t);
    InvNotTripped(s);
    ReadyInv(t, t.(hasAnchor := true));
    ReadyInv(t, t.(hasTag := true));
  }

  lemma CommentSound(s: State, text: string)
    requires s.good && Inv(s)
    ensures Sound(s.EmitComment(text)) && Sound(s.EmitNewline())
  {
    hide Inv, Ready, State.PrepareNode, State.Put;
    PrepareReady(s, NoNode);
    var t := s.PrepareNode(NoNode);
    PutReady(t, Newline);
    ReadyNotTripped(t.Put(Newline));
    ReadyInv(t.Put(Newline), t.Put(Newline).(hasNonContent := true));
    PutReady(t, Pad(2));
    var u := if t.col > 0 then t.Put(Pad(2)) else t;
    PutReady(u, Remark(text));
    ReadyNotTripped(u.Put(Remark(text)));
    ReadyInv(u.Put(Remark(text)), u.Put(Remark(text)).(hasNonContent := true));
  }

  lemma EndGroupTrips(s: State, kind: GroupType)
    requires s.good && Inv(s) && s.groups == []
    ensures var t := s.EmitEndGroup(kind); !t.good && (t.tripped <==> s.docCount == 0)
  {
  }

  /** No operation breaks the invariant, and only `Trips` runs into an assertion. */
  lemma StepSound(s: State, op: Op)
    requires Sound(s)
    ensures s.Step(op).good ==> Inv(s.Step(op))
    ensures s.Step(op).tripped <==> Trips(s, op)
  {
    if !s.good {
      StoppedStep(s, op);
    } else {
      match op
      case BeginDoc => BeginSound(s, op);
      case EndDoc => BeginSound(s, op);
      case BeginGroup(kind) => BeginSound(s, op);
      case EndGroup(kind) =>
        if s.groups == [] {
          EndGroupTrips(s, kind);
        } else if s.Top().flow == Flow || s.Top().childCount == 0 {
          FlowEndSound(s, kind);
        } else {
          BlockEndSound(s, kind);
        }
      case LineBreak => ContentSound(s, op);
      case WriteScalar(text, longKey) => ContentSound(s, op);
      case WriteAlias(text, valid) => ContentSound(s, op);
      case WriteAnchor(text, valid) => ContentSound(s, op);
      case WriteTag(text, valid) => ContentSound(s, op);
      case WriteComment(text) => ContentSound(s, op);
      case _ => SettingStep(s, op);
    }
  }

  lemma BeginSound(s: State, op: Op)
    requires s.good && Inv(s)
    requires op.BeginDoc? || op.EndDoc? || op.BeginGroup?
    ensures Sound(s.Step(op))
  {
    hide Inv, State.EmitBeginDoc, State.EmitEndDoc, State.EmitBeginGroup;
    match op
    case BeginDoc => DocSound(s);
    case EndDoc => DocSound(s);
    case BeginGroup(kind) => BeginGroupSound(s, kind);
  }

  lemma ContentSound(s: State, op: Op)
    requires s.good && Inv(s)
    requires op.LineBreak? || op.WriteScalar? || op.WriteAlias? || op.WriteAnchor? || op.WriteTag? || op.WriteComment?
    ensures Sound(s.Step(op))
  {
    hide Inv, State.EmitNewline, State.EmitScalar, State.EmitAlias, State.EmitAnchor, State.EmitTag,
      State.EmitComment;
    match op
    case LineBreak => CommentSound(s, "");
    case WriteScalar(text, longKey) => ScalarSound(s, text, longKey);
    case WriteAlias(text, valid) => AliasSound(s, text, valid);
    case WriteAnchor(text, valid) => PropertySound(s, text, valid);
    case WriteTag(text, valid) => PropertySound(s, text, valid);
    case WriteComment(text) => CommentSound(s, text);
  }

  predicate Sets(op: Op)
  {
    || op.LocalFlow? || op.LocalKeys? || op.LocalIndent?
    || op.GlobalSeqFlow? || op.GlobalMapFlow? || op.GlobalKeys? || op.GlobalIndent?
  }

  ghost predicate OnlySettings(s: State, t: State)
  {
    t == s.(settings := t.settings, modified := t.modified, globalModified := t.globalModified)
  }

  lemma OnlySettingsTwice(s: State, t: State, u: State)
    requires OnlySettings(s, t) && OnlySettings(t, u)
    ensures OnlySettings(s, u)
  {
  }

  lemma SetOnly(s: State, which: Setting, value: Settings)
    ensures OnlySettings(s, s.SetLocal(which, value)) && OnlySettings(s, s.SetGlobal(which, value))
  {
  }

  /** A change of settings changes nothing else. */
  lemma SettingOnly(s: State, op: Op)
    requires Sets(op)
    ensures OnlySettings(s, s.Step(op))
  {
    hide OnlySettings, State.SetLocal, State.SetGlobal;
    match op
    case LocalFlow(f) =>
      if s.good {
        var t := s.SetLocal(SeqFormat, s.settings.(seqFormat := f));
        SetOnly(s, SeqFormat, s.settings.(seqFormat := f));
        SetOnly(t, MapFormat, s.settings.(mapFormat := f));
        OnlySettingsTwice(s, t, t.SetLocal(MapFormat, s.settings.(mapFormat := f)));
      } else {
        OnlySettingsSame(s);
      }
    case LocalKeys(long) => SetOnly(s, MapKeyFormat, s.settings.(longKeys := long)); OnlySettingsSame(s);
    case LocalIndent(n) => OnlySettingsSame(s); if n > 1 { SetOnly(s, IndentWidth, s.settings.(indent := n)); }
    case GlobalSeqFlow(f) => SetOnly(s, SeqFormat, s.settings.(seqFormat := f));
    case GlobalMapFlow(f) => SetOnly(s, MapFormat, s.settings.(mapFormat := f));
    case GlobalKeys(long) => SetOnly(s, MapKeyFormat, s.settings.(longKeys := long));
    case GlobalIndent(n) => OnlySettingsSame(s); if n > 1 { SetOnly(s, IndentWidth, s.settings.(indent := n)); }
  }

  lemma OnlySettingsSame(s: State)
    ensures OnlySettings(s, s)
  {
  }

  lemma SettingStep(s: State, op: Op)
    requires s.good && Inv(s) && Sets(op)
    ensures Sound(s.Step(op))
  {
    SettingOnly(s, op);
    SameInv(s, s.Step(op));
  }

  lemma StoppedStep(s: State, op: Op)
    requires !s.good
    ensures !s.Step(op).good && s.Step(op).tripped == s.tripped && s.Step(op).out == s.out
  {
    if Sets(op) {
      SettingOnly(s, op);
    }
  }

  // ---- every run

  lemma {:induction false} RunSound(s: State, ops: seq<Op>)
    requires s.good ==> Inv(s)
    ensures s.Run(ops).good ==> Inv(s.Run(ops))
    decreases |ops|
  {
    if ops != [] {
      if s.good { StepSound(s, ops[0]); } else { StoppedStep(s, ops[0]); }
      RunSound(s.Step(ops[0]), ops[1..]);
    }
  }

  /** In every run that is still good the brackets written and not closed are those of the
      flow groups on the stack that have a child or a begun node, innermost last. */
  lemma BracketsOfEveryRun(ops: seq<Op>)
    requires INITIAL.Run(ops).good
    ensures var s := INITIAL.Run(ops);
            Unmatched(s.out) == Some(Opened(s.groups, s.HasBegunNode()))
  {
    RunSound(INITIAL, ops);
  }

  /** A run that ends good with no group open has written properly nested brackets. */
  lemma CompleteRunIsNested(ops: seq<Op>)
    requires INITIAL.Run(ops).good && INITIAL.Run(ops).groups == []
    ensures Unmatched(INITIAL.Run(ops).out) == Some([])
  {
    RunSound(INITIAL, ops);
  }

  /** In every run that is still good the indent is the sum of the indents below the top,
      so no subtraction of an indent is negative, and flow groups hold only flow groups. */
  lemma StackOfEveryRun(ops: seq<Op>)
    requires INITIAL.Run(ops).good
    ensures var s := INITIAL.Run(ops);
            && s.curIndent == IndentSum(Below(s.groups))
            && s.LastIndent() >= 0
            && (s.groups != [] ==> s.curIndent >= if |s.groups| > 1 then s.groups[|s.groups| - 2].indent else 0)
            && (forall i, j | 0 <= i < j < |s.groups| && s.groups[i].flow == Flow :: s.groups[j].flow == Flow)
  {
    RunSound(INITIAL, ops);
  }

  lemma {:induction false} RunTrips(s: State, ops: seq<Op>)
    requires Sound(s)
    ensures s.Run(ops).tripped <==> exists i :: 0 <= i < |ops| && Trips(s.Run(ops[..i]), ops[i])
    decreases |ops|
  {
    if ops != [] {
      var t := s.Step(ops[0]);
      StepSound(s, ops[0]);
      assert s.Run(ops[..0]) == s;
      forall i | 0 < i <= |ops| ensures s.Run(ops[..i]) == t.Run(ops[1..][..i - 1]) {
        assert ops[..i][1..] == ops[1..][..i - 1];
      }
      if Trips(s, ops[0]) {
        assert !t.good;
        RunStopped(t, ops[1..]);
      } else {
        RunTrips(t, ops[1..]);
        if t.Run(ops[1..]).tripped {
          var i :| 0 <= i < |ops[1..]| && Trips(t.Run(ops[1..][..i]), ops[1..][i]);
          assert Trips(s.Run(ops[..i + 1]), ops[i + 1]);
        }
        if i :| 0 <= i < |ops| && Trips(s.Run(ops[..i]), ops[i]) {
          assert i > 0;
          assert Trips(t.Run(ops[1..][..i - 1]), ops[1..][i - 1]);
        }
      }
    }
  }

  lemma {:induction false} RunStopped(s: State, ops: seq<Op>)
    requires !s.good
    ensures !s.Run(ops).good && s.Run(ops).tripped == s.tripped && s.Run(ops).out == s.out
    decreases |ops|
  {
    if ops != [] {
      StoppedStep(s, ops[0]);
      RunStopped(s.Step(ops[0]), ops[1..]);
    }
  }

  /** An assertion fails in a run exactly when some call ends a group before anything was
      written; the asserts on block children inside flow groups are unreachable. */
  lemma TripsExactly(ops: seq<Op>)
    ensures INITIAL.Run(ops).tripped <==> exists i :: 0 <= i < |ops| && Trips(INITIAL.Run(ops[..i]), ops[i])
  {
    RunTrips(INITIAL, ops);
  }
}
