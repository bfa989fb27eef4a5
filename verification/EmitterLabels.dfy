/** The whole output of nodes with anchors and tags, of aliases, and of documents that calls
    begin and end: what the emitter writes is what a compositional printer gives. */
module EmitterLabels {
  import opened EmitterModel
  import opened EmitterLayout
  import opened EmitterTree
  import opened EmitterText
  import EmitterKeys
  import S = EmitterSafety

  // ---- what is emitted

  datatype Label = Anchor(text: string) | Tag(text: string)

  /** A node to emit, or a reference to another one. */
  datatype Branch =
    | Reference(text: string)
    | Word(labels: seq<Label>, text: string, long: bool)
    | Collection(labels: seq<Label>, kind: GroupType, children: seq<Branch>)

  function Labels(b: Branch): seq<Label> { if b.Reference? then [] else b.labels }

  function LabelCall(l: Label): Op
  {
    match l case Anchor(text) => WriteAnchor(text, true) case Tag(text) => WriteTag(text, true)
  }

  function LabelCalls(labels: seq<Label>): seq<Op>
  {
    if labels == [] then [] else [LabelCall(labels[0])] + LabelCalls(labels[1..])
  }

  /** The calls for a node behind its anchor and tag. */
  function NodeCalls(b: Branch): seq<Op>
    decreases b, 0
  {
    match b
    case Reference(text) => [WriteAlias(text, true)]
    case Word(_, text, long) => [WriteScalar(text, long)]
    case Collection(_, kind, bs) => [BeginGroup(kind)] + BranchesCalls(bs) + [EndGroup(kind)]
  }

  function BranchCalls(b: Branch): seq<Op>
    decreases b, 1
  {
    LabelCalls(Labels(b)) + NodeCalls(b)
  }

  function BranchesCalls(bs: seq<Branch>): seq<Op>
    decreases bs, 2
  {
    if bs == [] then [] else BranchCalls(bs[0]) + BranchesCalls(bs[1..])
  }

  /** No node has two anchors or two tags. */
  predicate OneOfEach(labels: seq<Label>)
  {
    |labels| <= 1 || (|labels| == 2 && labels[0].Anchor? != labels[1].Anchor?)
  }

  predicate Labelled(b: Branch)
  {
    OneOfEach(Labels(b)) && (b.Collection? ==> forall i | 0 <= i < |b.children| :: Labelled(b.children[i]))
  }

  predicate AllLabelled(bs: seq<Branch>) { forall i | 0 <= i < |bs| :: Labelled(bs[i]) }

  /** Whether the last scalar written for a node is an alias. */
  predicate EndsInAlias(b: Branch)
  {
    match b
    case Reference(_) => true
    case Word(_, _, _) => false
    case Collection(_, _, bs) => bs != [] && EndsInAlias(bs[|bs| - 1])
  }

  // ---- how it is laid out

  function KindOf(b: Branch, inFlow: bool, st: Settings): Child
  {
    if b.Collection? then Group(b.kind, if AsFlow(b.kind, inFlow, st) then Flow else Block, 0, 0, false, []).NodeType()
    else Scalar
  }

  /** Whether the value of this key is laid out in the long form. */
  predicate LongEntry(key: Branch, inFlow: bool, st: Settings)
  {
    || st.longKeys
    || (Labels(key) != [] && !inFlow)
    || (key.Word? && key.long)
    || (key.Collection? && !AsFlow(key.kind, inFlow, st))
  }

  /** Whether the key itself gets the mark of the long form: a label in front of a key that only asks for
      the long form by its length comes too early for the mark in flow layout. */
  predicate MarkedKey(key: Branch, inFlow: bool, st: Settings)
  {
    if Labels(key) == [] then LongEntry(key, inFlow, st) else st.longKeys || !inFlow
  }

  /** Where a node stands: a document, or a child of a group in an entry that is long or not, right behind
      an alias or not. */
  datatype Spot = Root(count: nat) | Inside(frame: Frame, count: nat, long: bool, alias: bool)

  /** What is written in front of a node, or in front of its first label. */
  function First(at: Spot, child: Child, col: nat): seq<Token>
  {
    match at
    case Root(n) => DocLead(n, col)
    case Inside(f, n, long, alias) =>
      if alias && f.kind == Map && n % 2 == 1 && !long then AliasLead(f, child, col)
      else LeadText(f, n, long, child, col)
  }

  /** Behind an alias the colon needs a blank. */
  function AliasLead(f: Frame, child: Child, col: nat): seq<Token>
  {
    if f.flow then
      var marks := Gap(col, f.outer) + [Space, Colon];
      marks + Room(After(col, marks), true, f.outer)
    else [Space, Colon] + (if Nested(child) then [Newline] else Room(col + 2, true, f.indent + f.width))
  }

  /** What is written between a label and what follows it in the same node. */
  function Later(at: Spot, child: Child, col: nat): seq<Token>
  {
    match at
    case Root(_) => if Nested(child) then [Newline] else Room(col, true, 0)
    case Inside(f, n, long, _) =>
      var value := f.kind == Map && n % 2 == 1;
      if Nested(child) then [Newline] + (if value && long then Gap(0, f.indent + 1) else [])
      else
        Room(col, true, if f.flow then f.outer
                        else if f.kind == Map && long then f.indent + 1
                        else if f.kind == Map && !value then f.indent
                        else f.indent + f.width)
  }

  /** From a label on up to the node. */
  function Between(at: Spot, labels: seq<Label>, child: Child, col: nat): seq<Token>
    decreases |labels|
  {
    if labels == [] then Later(at, child, col)
    else
      var one := Later(at, Property, col) + [Content(labels[0].text)];
      one + Between(at, labels[1..], child, After(col, one))
  }

  /** All that stands in front of a node, its labels included. */
  function Front(at: Spot, labels: seq<Label>, child: Child, col: nat): seq<Token>
  {
    if labels == [] then First(at, child, col)
    else
      var one := First(at, Property, col) + [Content(labels[0].text)];
      one + Between(at, labels[1..], child, After(col, one))
  }

  /** A node between the indent around it and the indent of its own marks. */
  function Spell(b: Branch, inFlow: bool, outer: int, indent: int, st: Settings, col: nat): seq<Token>
    decreases b, 0
  {
    match b
    case Reference(text) => [Content(text)]
    case Word(_, text, _) => [Content(text)]
    case Collection(_, kind, bs) =>
      var f := Frame(kind, AsFlow(kind, inFlow, st), outer, indent, st.indent);
      var items := SpellItems(f, bs, 0, false, false, st, col);
      items + EndText(kind, f.flow, |bs|, indent, After(col, items))
  }

  /** Whether child number `n` of a group is written in the long form of an entry. */
  predicate Marked(f: Frame, b: Branch, n: nat, long: bool, st: Settings)
  {
    f.kind == Map && if n % 2 == 1 then long else MarkedKey(b, f.flow, st)
  }

  /** The children of a group from number `n` on; `long` tells how the entry of a value is laid out, `alias`
      whether an alias was written last. */
  function SpellItems(f: Frame, bs: seq<Branch>, n: nat, long: bool, alias: bool, st: Settings, col: nat): seq<Token>
    decreases bs, 1
  {
    if bs == [] then []
    else
      var at := Inside(f, n, Marked(f, bs[0], n, long, st), alias);
      var front := Front(at, Labels(bs[0]), KindOf(bs[0], f.flow, st), col);
      var one := front + Spell(bs[0], f.flow, f.indent, f.indent + f.width, st, After(col, front));
      one + SpellItems(f, bs[1..], n + 1, LongEntry(bs[0], f.flow, st), EndsInAlias(bs[0]), st, After(col, one))
  }

  /** A document, or a call that begins or ends one. */
  datatype Entry = Begin | End | Document(root: Branch)

  function EntryCalls(es: seq<Entry>): seq<Op>
    decreases |es|
  {
    if es == [] then []
    else OneCalls(es[0]) + EntryCalls(es[1..])
  }

  function OneCalls(e: Entry): seq<Op>
  {
    match e case Begin => [BeginDoc] case End => [EndDoc] case Document(b) => BranchCalls(b)
  }

  function OneEntry(e: Entry, n: nat, st: Settings, col: nat): seq<Token>
  {
    match e
    case Begin => Break(col > 0) + [DocStart]
    case End => Break(col > 0) + [DocEnd]
    case Document(b) =>
      var front := Front(Root(n), Labels(b), KindOf(b, false, st), col);
      front + Spell(b, false, 0, 0, st, After(col, front))
  }

  /** The entries from document number `n` on. */
  function SpellAll(es: seq<Entry>, n: nat, st: Settings, col: nat): seq<Token>
    decreases |es|
  {
    if es == [] then []
    else
      var one := OneEntry(es[0], n, st, col);
      one + SpellAll(es[1..], if es[0].Document? then n + 1 else n, st, After(col, one))
  }

  // ---- room behind an alias

  lemma AliasText(s: State, child: Child)
    requires Fresh(s) && BehindAlias(s) && child != NoNode && (s.InFlow() ==> !Nested(child))
    ensures Adds(s, s.PrepareNode(child), AliasLead(FrameOf(s), child, s.col))
    ensures Decided(s, child) == s
  {
    AliasDispatch(s, child);
    if s.InFlow() {
      FlowAlias(s, child);
    } else {
      BlockAlias(s, child);
    }
    hide *;
  }

  lemma AliasDispatch(s: State, child: Child)
    requires BehindAlias(s)
    ensures Decided(s, child) == s
    ensures s.PrepareNode(child) ==
            if s.InFlow() then s.FlowMapPrepareSimpleKeyValue(child) else s.BlockMapPrepareSimpleKeyValue(child)
  {
    KeepingTheTop(s);
    hide State.FlowMapPrepareSimpleKeyValue, State.BlockMapPrepareSimpleKeyValue, State.FlowMapPrepareLongKeyValue,
      State.BlockMapPrepareLongKeyValue;
  }

  lemma SpacedColon(s: State)
    requires !s.comment
    ensures Adds(s, s.Put(Space).Put(Colon), [Space, Colon])
  {
    var t := s.Put(Space);
    PutAdds(s, Space);
    PutAdds(t, Colon);
    AddsThen(s, t, t.Put(Colon), [Space], [Colon]);
    assert [Space] + [Colon] == [Space, Colon];
  }

  lemma FlowAlias(s: State, child: Child)
    requires Fresh(s) && BehindAlias(s) && s.InFlow() && child != NoNode && !Nested(child)
    ensures Adds(s, s.FlowMapPrepareSimpleKeyValue(child), AliasLead(FrameOf(s), child, s.col))
  {
    FreshParts(s);
    var a, gap := s.FlowStart(), Gap(s.col, s.LastIndent());
    assert a == s.IndentTo(s.LastIndent());
    GapAdds(s, s.LastIndent());
    AddsIs(s, a, gap);
    hide State.FlowStart, State.IndentTo, Gap;
    var t, marks := a.Put(Space).Put(Colon), gap + [Space, Colon];
    SpacedColon(a);
    AddsThen(s, a, t, gap, [Space, Colon]);
    AddsIs(s, t, marks);
    RoomAdds(t, true, s.LastIndent());
    hide Adds, State.HasBegunNode;
    assert s.FlowMapPrepareSimpleKeyValue(child) == t.SpaceOrIndentTo(true, s.LastIndent());
    AddsThen(s, t, t.SpaceOrIndentTo(true, s.LastIndent()), marks, Room(t.col, true, s.LastIndent()));
  }

  lemma BlockAliasIs(s: State, child: Child)
    requires Fresh(s) && BehindAlias(s) && child != NoNode
    ensures var t := s.Put(Space).Put(Colon);
            s.BlockMapPrepareSimpleKeyValue(child) ==
            if Nested(child) then t.Put(Newline) else t.SpaceOrIndentTo(true, s.curIndent + s.CurGroupIndent())
  {
    FreshParts(s);
    hide State.HasBegunNode, State.SpaceOrIndentTo, State.CurGroupIndent;
  }

  lemma BlockAliasLead(s: State, child: Child)
    requires s.groups != [] && !s.InFlow()
    ensures AliasLead(FrameOf(s), child, s.col) ==
            [Space, Colon] + (if Nested(child) then [Newline]
                              else Room(s.col + 2, true, s.curIndent + s.CurGroupIndent()))
  {
    hide Room, State.LastIndent, State.CurGroupIndent;
  }

  lemma TwoColumns(col: nat)
    ensures After(col, [Space, Colon]) == col + 2
  {
    assert [Space, Colon][1..] == [Colon] && [Colon][1..] == [];
    assert After(col, [Space, Colon]) == After(col + 1, [Colon]);
  }

  lemma BlockAlias(s: State, child: Child)
    requires Fresh(s) && BehindAlias(s) && !s.InFlow() && child != NoNode
    ensures Adds(s, s.BlockMapPrepareSimpleKeyValue(child), AliasLead(FrameOf(s), child, s.col))
  {
    FreshParts(s);
    assert s.groups != [];
    hide *;
    var t, n := s.Put(Space).Put(Colon), s.curIndent + s.CurGroupIndent();
    BlockAliasIs(s, child);
    BlockAliasLead(s, child);
    SpacedColon(s);
    AddsIs(s, t, [Space, Colon]);
    TwoColumns(s.col);
    if Nested(child) {
      PutAdds(t, Newline);
      AddsThen(s, t, t.Put(Newline), [Space, Colon], [Newline]);
    } else {
      RoomAdds(t, true, n);
      AddsThen(s, t, t.SpaceOrIndentTo(true, n), [Space, Colon], Room(t.col, true, n));
    }
  }

  // ---- room behind a label

  /** With a label written, outside of comments. */
  predicate Begun(u: State) { u.HasBegunContent() && !u.comment }

  lemma BegunParts(u: State)
    requires Begun(u)
    ensures !u.comment && u.HasBegunContent() && u.HasBegunNode()
  {
  }

  function SpotOf(s: State, long: bool): Spot
  {
    if s.groups == [] then Root(s.docCount) else Inside(FrameOf(s), s.Top().childCount, long, s.hasAlias)
  }

  /** Whether the call at hand is laid out in the long form of a map entry. */
  predicate LongNow(s: State, child: Child) { s.groups != [] && s.Top().kind == Map && LaidOutLong(s, child) }

  lemma LaterTop(u: State, child: Child, long: bool)
    requires Begun(u) && u.groups == [] && u.docCount == 0 && child != NoNode
    ensures Adds(u, u.PrepareNode(child), Later(SpotOf(u, long), child, u.col))
  {
    BegunParts(u);
    hide Adds, State.HasBegunNode, State.HasBegunContent, Begun, State.SpaceOrIndentTo, Room;
    if Nested(child) {
      PutAdds(u, Newline);
      assert u.PrepareNode(child) == u.Put(Newline);
    } else {
      RoomAdds(u, true, 0);
      assert u.PrepareNode(child) == u.SpaceOrIndentTo(true, 0);
    }
  }

  lemma LaterFlow(u: State, child: Child, long: bool)
    requires Begun(u) && u.InFlow() && child != NoNode && !Nested(child)
    ensures Adds(u, u.FlowChild(child), Later(SpotOf(u, long), child, u.col))
  {
    BegunParts(u);
    hide Adds, State.HasBegunNode, State.HasBegunContent, Begun, State.SpaceOrIndentTo, Room, State.LastIndent;
    RoomAdds(u, true, u.LastIndent());
    assert u.FlowChild(child) == u.SpaceOrIndentTo(true, u.LastIndent());
  }

  /** A line break in front of a nested block, room in front of anything else. */
  function Onward(u: State, child: Child, n: int): State
  {
    if Nested(child) then u.Put(Newline) else u.SpaceOrIndentTo(true, n)
  }

  lemma OnwardAdds(u: State, child: Child, n: int)
    requires Begun(u)
    ensures Adds(u, Onward(u, child, n), if Nested(child) then [Newline] else Room(u.col, true, n))
  {
    BegunParts(u);
    PutAdds(u, Newline);
    RoomAdds(u, true, n);
    hide Adds, State.Put, State.SpaceOrIndentTo, Begun, Room;
  }

  lemma BlockSeqOnward(u: State, child: Child)
    requires Begun(u) && child != NoNode
    ensures u.BlockSeqPrepareNode(child) == Onward(u, child, u.curIndent + u.CurGroupIndent())
  {
    BegunParts(u);
    hide State.HasBegunNode, State.HasBegunContent, Begun, State.SpaceOrIndentTo, State.CurGroupIndent, State.IndentTo;
  }

  lemma BlockKeyOnward(u: State, child: Child)
    requires Begun(u) && child != NoNode
    ensures u.BlockMapPrepareLongKey(child) == Onward(u, child, u.curIndent + 1)
  {
    BegunParts(u);
    hide State.HasBegunNode, State.HasBegunContent, Begun, State.SpaceOrIndentTo, State.IndentTo;
  }

  lemma SimpleValueOnward(u: State, child: Child)
    requires Begun(u) && child != NoNode
    ensures u.BlockMapPrepareSimpleKeyValue(child) == Onward(u, child, u.curIndent + u.CurGroupIndent())
  {
    BegunParts(u);
    hide State.HasBegunNode, State.HasBegunContent, Begun, State.SpaceOrIndentTo, State.CurGroupIndent;
  }

  lemma LaterInBlock(u: State, long: bool, child: Child)
    requires u.groups != [] && !u.InFlow()
    requires u.Top().kind == Map && u.Top().childCount % 2 == 1 && Nested(child) ==> !long
    ensures Later(SpotOf(u, long), child, u.col) ==
            if Nested(child) then [Newline]
            else Room(u.col, true, if u.Top().kind == Map && long then u.curIndent + 1
                                   else if u.Top().kind == Map && u.Top().childCount % 2 == 0 then u.curIndent
                                   else u.curIndent + u.CurGroupIndent())
  {
    hide Room, Gap, State.CurGroupIndent, State.LastIndent;
    assert [Newline] + [] == [Newline];
  }

  lemma LaterBlockSeq(u: State, child: Child, long: bool)
    requires Begun(u) && u.CurGroupNodeType() == BlockSeq && child != NoNode
    ensures u.groups != [] && Adds(u, u.BlockSeqPrepareNode(child), Later(SpotOf(u, long), child, u.col))
  {
    assert u.groups != [] && !u.InFlow() && u.Top().kind == Seq;
    hide *;
    LaterInBlock(u, long, child);
    BlockSeqOnward(u, child);
    OnwardAdds(u, child, u.curIndent + u.CurGroupIndent());
  }

  lemma LaterBlockKey(u: State, child: Child)
    requires Begun(u) && u.CurGroupNodeType() == BlockMap && u.Top().childCount % 2 == 0 && child != NoNode
    ensures Adds(u, u.BlockMapPrepareLongKey(child), Later(SpotOf(u, true), child, u.col))
  {
    assert u.groups != [] && !u.InFlow() && u.Top().kind == Map;
    hide *;
    LaterInBlock(u, true, child);
    BlockKeyOnward(u, child);
    OnwardAdds(u, child, u.curIndent + 1);
  }

  lemma LongValueOnward(u: State, child: Child)
    requires Begun(u) && child != NoNode
    ensures u.BlockMapPrepareLongKeyValue(child) ==
            (if Nested(child) then u.Put(Newline) else u).SpaceOrIndentTo(true, u.curIndent + 1)
  {
    BegunParts(u);
    hide State.HasBegunNode, State.HasBegunContent, Begun, State.SpaceOrIndentTo, State.IndentTo;
  }

  lemma LaterOfLongValue(u: State, child: Child)
    requires u.groups != [] && u.CurGroupNodeType() == BlockMap && u.Top().childCount % 2 == 1
    ensures Later(SpotOf(u, true), child, u.col) ==
            if Nested(child) then [Newline] + Gap(0, u.curIndent + 1) else Room(u.col, true, u.curIndent + 1)
  {
    hide Room, Gap, State.CurGroupIndent, State.LastIndent;
  }

  lemma NewlinePut(u: State)
    requires Begun(u)
    ensures Adds(u, u.Put(Newline), [Newline]) && u.Put(Newline).col == 0 && !u.Put(Newline).comment
  {
    BegunParts(u);
    PutAdds(u, Newline);
    hide Adds;
  }

  lemma LaterLongValue(u: State, child: Child)
    requires Begun(u) && u.CurGroupNodeType() == BlockMap && u.Top().childCount % 2 == 1 && child != NoNode
    ensures Adds(u, u.BlockMapPrepareLongKeyValue(child), Later(SpotOf(u, true), child, u.col))
  {
    var n, t := u.curIndent + 1, u.Put(Newline);
    assert u.groups != [];
    hide *;
    LaterOfLongValue(u, child);
    LongValueOnward(u, child);
    BegunParts(u);
    if Nested(child) {
      NewlinePut(u);
      RoomAdds(t, true, n);
      RoomAtStart(n);
      AddsThen(u, t, t.SpaceOrIndentTo(true, n), [Newline], Gap(0, n));
    } else {
      RoomAdds(u, true, n);
    }
  }

  lemma RoomAtStart(n: int)
    ensures Room(0, true, n) == Gap(0, n)
  {
  }

  lemma LaterSimpleValue(u: State, child: Child)
    requires Begun(u) && u.CurGroupNodeType() == BlockMap && u.Top().childCount % 2 == 1 && child != NoNode
    ensures Adds(u, u.BlockMapPrepareSimpleKeyValue(child), Later(SpotOf(u, false), child, u.col))
  {
    assert u.groups != [] && !u.InFlow() && u.Top().kind == Map;
    hide *;
    LaterInBlock(u, false, child);
    SimpleValueOnward(u, child);
    OnwardAdds(u, child, u.curIndent + u.CurGroupIndent());
  }

  /** What a label is followed by. In a block map a key with a label is laid out in the long form. */
  lemma LaterText(u: State, child: Child)
    requires Begun(u) && child != NoNode && (u.InFlow() ==> !Nested(child))
    requires u.groups == [] ==> u.docCount == 0
    requires u.groups != [] && u.Top().kind == Map && u.Top().flow == Block && u.Top().childCount % 2 == 0 ==>
               LaidOutLong(u, child)
    ensures Adds(Decided(u, child), u.PrepareNode(child),
                 Later(SpotOf(u, LongNow(u, child)), child, u.col))
  {
    if u.groups == [] {
      LaterTop(u, child, false);
    } else if u.Top().kind == Seq {
      LaterSeq(u, child, false);
    } else {
      LaterMap(u, child);
    }
    hide Adds, Begun, Later, State.PrepareNode, LaidOutLong, State.CurGroupIndent, State.LastIndent;
  }

  lemma LaterSeq(u: State, child: Child, long: bool)
    requires Begun(u) && child != NoNode && u.groups != [] && u.Top().kind == Seq && (u.InFlow() ==> !Nested(child))
    ensures Adds(u, u.PrepareNode(child), Later(SpotOf(u, long), child, u.col))
  {
    hide Adds, Begun, Later, State.BlockSeqPrepareNode, State.FlowChild, State.CurGroupIndent, State.LastIndent;
    if u.Top().flow == Flow {
      LaterFlow(u, child, long);
      BegunParts(u);
      hide State.HasBegunNode;
      assert u.FlowSeqPrepareNode(child) == u.FlowChild(child);
    } else {
      LaterBlockSeq(u, child, long);
    }
  }

  lemma LaterMap(u: State, child: Child)
    requires Begun(u) && child != NoNode && u.groups != [] && u.Top().kind == Map && (u.InFlow() ==> !Nested(child))
    requires u.Top().flow == Block && u.Top().childCount % 2 == 0 ==> LaidOutLong(u, child)
    ensures Adds(Decided(u, child), u.PrepareNode(child), Later(SpotOf(u, LaidOutLong(u, child)), child, u.col))
  {
    var d, long := Decided(u, child), LaidOutLong(u, child);
    DecidedKeeps(u, child);
    assert Begun(d) && d.hasAlias == u.hasAlias;
    hide Adds, Begun, Later, Decided, LaidOutLong, State.PrepareNode, State.FlowChild, State.CurGroupIndent,
      State.LastIndent, State.BlockMapPrepareLongKey, State.BlockMapPrepareLongKeyValue,
      State.BlockMapPrepareSimpleKeyValue;
    SameSpot(u, d, long);
    if u.Top().flow == Flow {
      FlowMapDispatch(u, child);
      LaterFlow(d, child, long);
      FlowMapOnward(d, child);
    } else {
      BlockMapDispatch(u, child);
      if u.Top().childCount % 2 == 0 {
        LaterBlockKey(d, child);
      } else if long {
        LaterLongValue(d, child);
      } else {
        LaterSimpleValue(d, child);
      }
    }
  }

  lemma SameSpot(u: State, d: State, long: bool)
    requires u.groups != [] && d.groups != [] && FrameOf(d) == FrameOf(u) && d.hasAlias == u.hasAlias
    requires d.Top().childCount == u.Top().childCount
    ensures SpotOf(d, long) == SpotOf(u, long)
  {
    hide FrameOf;
  }

  lemma FlowMapOnward(d: State, child: Child)
    requires Begun(d)
    ensures d.FlowMapPrepareLongKey(child) == d.FlowChild(child)
    ensures d.FlowMapPrepareSimpleKey(child) == d.FlowChild(child)
    ensures d.FlowMapPrepareLongKeyValue(child) == d.FlowChild(child)
    ensures d.FlowMapPrepareSimpleKeyValue(child) == d.FlowChild(child)
  {
    BegunParts(d);
    hide State.HasBegunNode, State.FlowChild, State.FlowStart;
  }

  // ---- the bookkeeping of one node

  /** Between two nodes. */
  ghost predicate Poised(s: State)
  {
    Calm(s) && !s.comment && (s.groups == [] ==> s.curIndent == 0)
  }

  lemma PoisedParts(s: State)
    requires Poised(s)
    ensures Calm(s) && s.good && !s.comment && Fresh(s) && !s.hasAnchor && !s.hasTag && s.modified == []
  {
    hide Restore;
  }

  /** With the layout of the entry at hand settled. */
  function Laid(s: State, long: bool): State { s.(groups := LaidGroups(s.groups, long)) }

  function LaidGroups(groups: seq<Group>, long: bool): seq<Group>
  {
    if groups == [] || groups[|groups| - 1].kind != Map then groups
    else groups[..|groups| - 1] + [groups[|groups| - 1].(longKey := long)]
  }

  lemma DecidedIsLaid(s: State, child: Child)
    ensures Decided(s, child) == Laid(s, LongNow(s, child))
  {
    hide LaidOutLong;
  }

  /** `u` is `s` with some labels of its next node written. */
  ghost predicate Holding(s: State, long: bool, u: State)
  {
    !u.comment && u == S.WithOutput(Laid(s, long).(hasAnchor := u.hasAnchor, hasTag := u.hasTag), u)
  }

  lemma LaidIs(s: State, long: bool)
    ensures var d := Laid(s, long);
            && d == s.(groups := d.groups) && |d.groups| == |s.groups| && S.Below(d.groups) == S.Below(s.groups)
            && (s.groups != [] ==>
                  d.Top() == s.Top().(longKey := if s.Top().kind == Map then long else s.Top().longKey))
  {
    if s.groups != [] {
      var d := Laid(s, long);
      assert S.Below(d.groups) == S.Below(s.groups);
    }
  }

  lemma SameShape(s: State, d: State)
    requires |d.groups| == |s.groups| && S.Below(d.groups) == S.Below(s.groups) && d.curIndent == s.curIndent
    requires s.groups != [] ==> d.Top() == s.Top().(longKey := d.Top().longKey)
    ensures s.groups != [] ==> FrameOf(d) == FrameOf(s) && d.Top().childCount == s.Top().childCount
    ensures d.InFlow() == s.InFlow()
  {
    if |s.groups| > 1 {
      assert d.groups[|d.groups| - 2] == S.Below(d.groups)[|d.groups| - 2];
      assert s.groups[|s.groups| - 2] == S.Below(s.groups)[|s.groups| - 2];
    }
  }

  lemma LaidTwice(s: State, a: bool, b: bool)
    ensures Laid(Laid(s, a), b) == Laid(s, b)
  {
    LaidGroupsTwice(s.groups, a, b);
    hide LaidGroups;
  }

  lemma LaidGroupsTwice(groups: seq<Group>, a: bool, b: bool)
    ensures LaidGroups(LaidGroups(groups, a), b) == LaidGroups(groups, b)
  {
    var d := LaidGroups(groups, a);
    if groups != [] { assert d[..|d| - 1] == groups[..|groups| - 1]; }
  }

  lemma HoldingSpot(s: State, long: bool, u: State, x: bool)
    requires Holding(s, long, u)
    ensures SpotOf(u, x) == SpotOf(s, x) && u.InFlow() == s.InFlow() && u.settings == s.settings && u.good == s.good
    ensures u.groups == [] <==> s.groups == []
    ensures s.groups != [] ==> u.Top() == s.Top().(longKey := if s.Top().kind == Map then long else s.Top().longKey)
  {
    LaidIs(s, long);
    SameShape(s, u);
    hide Laid, FrameOf;
  }

  lemma HoldingThen(s: State, long: bool, u: State, x: bool, p: State)
    requires Holding(s, long, u) && p == S.WithOutput(Laid(u, x), p) && !p.comment
    ensures Holding(s, x, p) && p.hasAnchor == u.hasAnchor && p.hasTag == u.hasTag
  {
    LaidIs(s, long);
    LaidTwice(s, long, x);
    LaidSame(u, Laid(s, long), x);
    LaidIs(s, x);
    hide Laid;
  }

  lemma LaidSame(u: State, d: State, x: bool)
    requires u == S.WithOutput(d.(hasAnchor := u.hasAnchor, hasTag := u.hasTag), u)
    ensures Laid(u, x) == S.WithOutput(Laid(d, x).(hasAnchor := u.hasAnchor, hasTag := u.hasTag), u)
  {
    hide LaidGroups;
  }

  lemma HoldingFirst(s: State, x: bool, p: State)
    requires p == S.WithOutput(Laid(s, x), p) && !p.comment && !s.HasBegunContent()
    ensures Holding(s, x, p) && !p.hasAnchor && !p.hasTag
  {
    LaidIs(s, x);
    hide Laid;
  }

  // ---- room for the parts of a node

  lemma FirstIsLead(s: State, child: Child)
    requires s.groups != [] && !BehindAlias(s)
    ensures First(SpotOf(s, LongNow(s, child)), child, s.col) ==
            LeadText(FrameOf(s), s.Top().childCount, LaidOutLong(s, child), child, s.col)
  {
    if s.Top().kind == Seq {
      SeqHasNoLong(FrameOf(s), s.Top().childCount, LaidOutLong(s, child), LongNow(s, child), child, s.col);
    }
    hide LeadText, State.LastIndent, State.CurGroupIndent;
  }

  lemma FirstIsAlias(s: State, child: Child)
    requires BehindAlias(s)
    ensures First(SpotOf(s, LongNow(s, child)), child, s.col) == AliasLead(FrameOf(s), child, s.col)
  {
    hide AliasLead, LeadText, State.LastIndent, State.CurGroupIndent;
  }

  lemma AddsLaid(s: State, child: Child, p: State, ts: seq<Token>)
    requires Adds(Decided(s, child), p, ts)
    ensures Grew(s, p, ts) && p == S.WithOutput(Laid(s, LongNow(s, child)), p)
  {
    DecidedIsLaid(s, child);
    LaidIs(s, LongNow(s, child));
    hide Decided, Laid, LongNow;
    AddsGrew(s, Decided(s, child), p, ts);
  }

  lemma FirstText(s: State, child: Child)
    requires Fresh(s) && s.good && child != NoNode && (s.InFlow() ==> !Nested(child))
    ensures var p := s.PrepareNode(child);
            && Grew(s, p, First(SpotOf(s, LongNow(s, child)), child, s.col))
            && p == S.WithOutput(Laid(s, LongNow(s, child)), p)
  {
    hide *;
    if s.groups == [] {
      FirstOfRoot(s, child);
    } else if BehindAlias(s) {
      AliasText(s, child);
      FirstIsAlias(s, child);
      AddsLaid(s, child, s.PrepareNode(child), AliasLead(FrameOf(s), child, s.col));
    } else {
      PrepareText(s, child);
      FirstIsLead(s, child);
      AddsLaid(s, child, s.PrepareNode(child),
               LeadText(FrameOf(s), s.Top().childCount, LaidOutLong(s, child), child, s.col));
    }
  }

  lemma FirstOfRoot(s: State, child: Child)
    requires Fresh(s) && s.good && child != NoNode && s.groups == []
    ensures var p := s.PrepareNode(child);
            && Grew(s, p, First(SpotOf(s, LongNow(s, child)), child, s.col))
            && p == S.WithOutput(Laid(s, LongNow(s, child)), p)
  {
    FreshParts(s);
    TopText(s, child);
    TopNodeQuiet(s, child);
    WroteParts(s, s.PrepareNode(child), []);
    hide State.PrepareNode, Grew, Fresh, DocLead;
  }

  lemma LaterStep(u: State, child: Child)
    requires Begun(u) && child != NoNode && (u.InFlow() ==> !Nested(child))
    requires u.groups == [] ==> u.docCount == 0
    requires u.groups != [] && u.Top().kind == Map && u.Top().flow == Block && u.Top().childCount % 2 == 0 ==>
               LaidOutLong(u, child)
    ensures var p := u.PrepareNode(child);
            && Grew(u, p, Later(SpotOf(u, LongNow(u, child)), child, u.col))
            && p == S.WithOutput(Laid(u, LongNow(u, child)), p)
  {
    hide *;
    LaterText(u, child);
    AddsLaid(u, child, u.PrepareNode(child), Later(SpotOf(u, LongNow(u, child)), child, u.col));
  }

  // ---- labels

  /** Whether the node is written in the long form of a map entry, judged by its first call. */
  predicate MarkNow(s: State, b: Branch)
  {
    s.groups != [] && Marked(FrameOf(s), b, s.Top().childCount, s.Top().longKey, s.settings)
  }

  /** The same, judged by its last call. */
  predicate EntryNow(s: State, b: Branch)
  {
    && s.groups != [] && s.Top().kind == Map
    && if s.Top().childCount % 2 == 1 then s.Top().longKey else LongEntry(b, s.InFlow(), s.settings)
  }

  /** What the node at hand looks like so far: nothing of it is written, or some of its labels. */
  lemma PropertyLong(s: State, b: Branch)
    requires Poised(s) && Labels(b) != []
    ensures LongNow(s, Property) == MarkNow(s, b)
  {
    PoisedKeys(s);
    hide Poised, State.LastIndent, State.CurGroupIndent, LongEntry;
  }

  lemma PoisedKeys(s: State)
    requires Poised(s)
    ensures s.groups != [] && s.Top().longKey ==> s.Top().kind == Map && s.Top().childCount % 2 == 1
  {
    hide Restore;
  }

  function Flag(u: State, l: Label): bool { if l.Anchor? then u.hasAnchor else u.hasTag }

  /** With a label written. */
  function Written(p: State, l: Label): State
  {
    var t := p.Put(Content(l.text));
    t.(hasAnchor := t.hasAnchor || l.Anchor?, hasTag := t.hasTag || l.Tag?)
  }

  lemma LabelIs(u: State, l: Label)
    requires u.good && !Flag(u, l)
    ensures u.Step(LabelCall(l)) == Written(u.PrepareNode(Property), l)
  {
    hide State.PrepareNode;
  }

  lemma WrittenGrew(s: State, p: State, long: bool, l: Label, ts: seq<Token>)
    requires Grew(s, p, ts) && Holding(s, long, p)
    ensures var v := Written(p, l);
            && Grew(s, v, ts + [Content(l.text)]) && Holding(s, long, v) && Begun(v)
            && v.hasAnchor == (p.hasAnchor || l.Anchor?) && v.hasTag == (p.hasTag || l.Tag?)
  {
    NotInComment(s, p, ts);
    var t := p.Put(Content(l.text));
    PutGrew(p, Content(l.text));
    GrewThen(s, p, t, ts, [Content(l.text)]);
    SameGrew(s, t, Written(p, l), ts + [Content(l.text)]);
    LaidIs(s, long);
    hide Laid, Grew, TokenColumn;
  }

  lemma FirstLabel(s: State, b: Branch, l: Label)
    requires Poised(s) && Labels(b) != []
    ensures var v := s.Step(LabelCall(l));
            && Grew(s, v, First(SpotOf(s, MarkNow(s, b)), Property, s.col) + [Content(l.text)])
            && Holding(s, MarkNow(s, b), v) && Begun(v) && v.hasAnchor == l.Anchor? && v.hasTag == l.Tag?
  {
    assert !Nested(Property);
    hide *;
    PoisedParts(s);
    FlagsFree(s, l);
    LabelIs(s, l);
    PropertyLong(s, b);
    FirstText(s, Property);
    var p := s.PrepareNode(Property);
    NotInComment(s, p, First(SpotOf(s, MarkNow(s, b)), Property, s.col));
    NothingHeld(s);
    HoldingFirst(s, MarkNow(s, b), p);
    WrittenGrew(s, p, MarkNow(s, b), l, First(SpotOf(s, MarkNow(s, b)), Property, s.col));
  }

  lemma FlagsFree(s: State, l: Label)
    requires !s.hasAnchor && !s.hasTag
    ensures !Flag(s, l)
  {
  }

  lemma NothingHeld(s: State)
    requires !s.hasAnchor && !s.hasTag
    ensures !s.HasBegunContent()
  {
  }

  /** Documents behind the first have no labels. */
  predicate InPlace(s: State, b: Branch) { s.groups == [] && Labels(b) != [] ==> s.docCount == 0 }

  /** Later calls of a node stay with the layout of its first. */
  lemma LaterLong(s: State, b: Branch, u: State, child: Child)
    requires Poised(s) && Labels(b) != [] && Holding(s, MarkNow(s, b), u)
    requires Nested(child) ==> !s.InFlow()
    ensures LongNow(u, child) == MarkNow(s, b)
    ensures u.groups != [] && u.Top().kind == Map && u.Top().flow == Block && u.Top().childCount % 2 == 0 ==>
              LaidOutLong(u, child)
  {
    PoisedKeys(s);
    HoldingSpot(s, MarkNow(s, b), u, false);
    hide Poised, Holding, State.LastIndent, State.CurGroupIndent, LongEntry, SpotOf;
  }

  lemma HoldingDocs(s: State, long: bool, u: State)
    requires Holding(s, long, u)
    ensures u.docCount == s.docCount && (u.groups == [] <==> s.groups == []) && u.good == s.good
  {
    LaidIs(s, long);
    hide Laid;
  }

  lemma SecondLabel(s: State, b: Branch, u: State, l: Label)
    requires Poised(s) && Labels(b) != [] && InPlace(s, b) && Holding(s, MarkNow(s, b), u) && Begun(u) && !Flag(u, l)
    ensures var v := u.Step(LabelCall(l));
            && Grew(u, v, Later(SpotOf(s, MarkNow(s, b)), Property, u.col) + [Content(l.text)])
            && Holding(s, MarkNow(s, b), v) && Begun(v)
  {
    assert !Nested(Property);
    assert s.groups == [] ==> s.docCount == 0;
    hide *;
    PoisedParts(s);
    HoldingDocs(s, MarkNow(s, b), u);
    LabelIs(u, l);
    LaterLong(s, b, u, Property);
    LaterStep(u, Property);
    HoldingSpot(s, MarkNow(s, b), u, MarkNow(s, b));
    var p := u.PrepareNode(Property);
    var lead := Later(SpotOf(s, MarkNow(s, b)), Property, u.col);
    NotInComment(u, p, lead);
    HoldingThen(s, MarkNow(s, b), u, MarkNow(s, b), p);
    WrittenAgain(s, u, p, MarkNow(s, b), l, lead);
  }

  lemma WrittenAgain(s: State, u: State, p: State, long: bool, l: Label, ts: seq<Token>)
    requires Grew(u, p, ts) && Holding(s, long, p)
    ensures var v := Written(p, l);
            Grew(u, v, ts + [Content(l.text)]) && Holding(s, long, v) && Begun(v)
  {
    NotInComment(u, p, ts);
    var t := p.Put(Content(l.text));
    PutGrew(p, Content(l.text));
    GrewThen(u, p, t, ts, [Content(l.text)]);
    SameGrew(u, t, Written(p, l), ts + [Content(l.text)]);
    LaidIs(s, long);
    hide Laid, Grew, TokenColumn;
  }

  /** The labels of a node and what stands in front of them. */
  function Prefix(at: Spot, labels: seq<Label>, col: nat): seq<Token>
    requires 1 <= |labels| <= 2
  {
    var one := First(at, Property, col) + [Content(labels[0].text)];
    if |labels| == 1 then one else one + (Later(at, Property, After(col, one)) + [Content(labels[1].text)])
  }

  lemma FrontIsPrefix(at: Spot, labels: seq<Label>, child: Child, col: nat)
    requires 1 <= |labels| <= 2
    ensures Front(at, labels, child, col) ==
            Prefix(at, labels, col) + Later(at, child, After(col, Prefix(at, labels, col)))
  {
    var one := First(at, Property, col) + [Content(labels[0].text)];
    var next := After(col, one);
    FrontStep(at, labels, child, col);
    PrefixParts(at, labels, col);
    hide *;
    if |labels| == 1 {
      BetweenNone(at, child, next);
      assert labels[1..] == [];
    } else {
      assert labels[1..] == [labels[1]];
      var two := Later(at, Property, next) + [Content(labels[1].text)];
      BetweenOne(at, labels[1], child, next);
      AfterConcat(col, one, two);
      Associated(one, two, Later(at, child, After(next, two)));
    }
  }

  lemma FrontStep(at: Spot, labels: seq<Label>, child: Child, col: nat)
    requires labels != []
    ensures var one := First(at, Property, col) + [Content(labels[0].text)];
            Front(at, labels, child, col) == one + Between(at, labels[1..], child, After(col, one))
  {
    hide First, Between, After;
  }

  lemma BetweenNone(at: Spot, child: Child, col: nat)
    ensures Between(at, [], child, col) == Later(at, child, col)
  {
    hide Later;
  }

  lemma BetweenOne(at: Spot, l: Label, child: Child, col: nat)
    ensures var two := Later(at, Property, col) + [Content(l.text)];
            Between(at, [l], child, col) == two + Later(at, child, After(col, two))
  {
    assert [l][1..] == [];
    hide Later, After;
  }

  lemma Associated(a: seq<Token>, b: seq<Token>, c: seq<Token>)
    ensures a + (b + c) == a + b + c
  {
  }

  lemma LabelCallsAre(labels: seq<Label>)
    requires 1 <= |labels| <= 2
    ensures LabelCalls(labels) == [LabelCall(labels[0])] + (if |labels| == 2 then [LabelCall(labels[1])] else [])
  {
    if |labels| == 2 {
      assert labels[1..] == [labels[1]];
      assert LabelCalls([labels[1]]) == [LabelCall(labels[1])] by { assert [labels[1]][1..] == []; }
    } else {
      assert labels[1..] == [];
    }
    hide LabelCall;
  }

  lemma LabelsAre(labels: seq<Label>)
    requires OneOfEach(labels) && labels != []
    ensures 1 <= |labels| <= 2 && (|labels| == 2 ==> labels[0].Anchor? != labels[1].Anchor?)
  {
  }

  lemma OtherFlag(v: State, l: Label, other: Label)
    requires v.hasAnchor == l.Anchor? && v.hasTag == l.Tag? && l.Anchor? != other.Anchor?
    ensures !Flag(v, other)
  {
  }

  /** After the labels of a node. */
  lemma LabelsRun(s: State, b: Branch)
    requires Poised(s) && Labels(b) != [] && OneOfEach(Labels(b)) && InPlace(s, b)
    ensures 1 <= |Labels(b)| <= 2
    ensures var u := s.Run(LabelCalls(Labels(b)));
            && Grew(s, u, Prefix(SpotOf(s, MarkNow(s, b)), Labels(b), s.col))
            && Holding(s, MarkNow(s, b), u) && Begun(u)
  {
    var labels, at := Labels(b), SpotOf(s, MarkNow(s, b));
    hide *;
    LabelsAre(labels);
    LabelCallsAre(labels);
    FirstLabel(s, b, labels[0]);
    RunOne(s, LabelCall(labels[0]));
    var v := s.Step(LabelCall(labels[0]));
    var one := First(at, Property, s.col) + [Content(labels[0].text)];
    NotInComment(s, v, one);
    PrefixParts(at, labels, s.col);
    if |labels| == 2 {
      OtherFlag(v, labels[0], labels[1]);
      SecondLabel(s, b, v, labels[1]);
      RunOne(v, LabelCall(labels[1]));
      RunConcat(s, [LabelCall(labels[0])], [LabelCall(labels[1])]);
      GrewThen(s, v, v.Step(LabelCall(labels[1])), one, Later(at, Property, v.col) + [Content(labels[1].text)]);
    } else {
      assert [LabelCall(labels[0])] + [] == [LabelCall(labels[0])];
    }
  }

  lemma PrefixParts(at: Spot, labels: seq<Label>, col: nat)
    requires 1 <= |labels| <= 2
    ensures var one := First(at, Property, col) + [Content(labels[0].text)];
            Prefix(at, labels, col) ==
            if |labels| == 1 then one else one + (Later(at, Property, After(col, one)) + [Content(labels[1].text)])
  {
  }

  // ---- the node behind its labels

  /** The state in which room is made for the node itself: a long text asks for long keys. */
  function Asked(u: State, b: Branch): State
  {
    Asking(u, if b.Word? then Leaf(b.text, b.long) else Leaf("", false))
  }

  function FrontFor(s: State, b: Branch): seq<Token>
  {
    Front(SpotOf(s, MarkNow(s, b)), Labels(b), KindOf(b, s.InFlow(), s.settings), s.col)
  }

  lemma KindIsNode(b: Branch, inFlow: bool, st: Settings)
    ensures var child := KindOf(b, inFlow, st);
            child != NoNode && (inFlow ==> !Nested(child)) && (Nested(child) ==> !inFlow)
  {
  }

  lemma AskedIs(u: State, b: Branch)
    ensures var a := Asked(u, b);
            && a == u.(settings := a.settings, modified := a.modified) && a.InFlow() == u.InFlow()
            && a.settings.longKeys == (u.settings.longKeys || (b.Word? && b.long))
            && (u.groups != [] ==> FrameOf(a) == FrameOf(u) && a.Top() == u.Top())
            && (Fresh(u) ==> Fresh(a)) && (Begun(u) ==> Begun(a))
  {
    var t := if b.Word? then Leaf(b.text, b.long) else Leaf("", false);
    AskingKeeps(u, t);
    AskedKeys(u, b);
    BegunAsked(u, Asked(u, b));
    hide Asking, Fresh, Begun, FrameOf, State.InFlow;
  }

  lemma AskedKeys(u: State, b: Branch)
    ensures Asked(u, b).settings.longKeys == (u.settings.longKeys || (b.Word? && b.long))
  {
  }

  lemma BegunAsked(u: State, a: State)
    requires a == u.(settings := a.settings, modified := a.modified)
    ensures Begun(u) ==> Begun(a)
  {
  }

  lemma AskedSpot(u: State, b: Branch, x: bool)
    ensures SpotOf(Asked(u, b), x) == SpotOf(u, x)
  {
    AskedIs(u, b);
    hide Asked, FrameOf;
  }

  /** With nothing of the node written. */
  lemma EntryUnlabelled(s: State, b: Branch)
    requires Poised(s) && Labels(b) == []
    ensures var child := KindOf(b, s.InFlow(), s.settings);
            LongNow(Asked(s, b), child) == EntryNow(s, b) == MarkNow(s, b)
  {
    PoisedKeys(s);
    AskedIs(s, b);
    hide Poised, State.LastIndent, State.CurGroupIndent, Asked, Fresh, Begun;
  }

  lemma NodeUnlabelled(s: State, b: Branch)
    requires Poised(s) && Labels(b) == []
    ensures var p := Asked(s, b).PrepareNode(KindOf(b, s.InFlow(), s.settings));
            Grew(s, p, FrontFor(s, b)) && Holding(Asked(s, b), EntryNow(s, b), p)
  {
    var a, child := Asked(s, b), KindOf(b, s.InFlow(), s.settings);
    assert FrontFor(s, b) == First(SpotOf(s, MarkNow(s, b)), child, s.col);
    hide *;
    PoisedParts(s);
    AskedIs(s, b);
    KindIsNode(b, s.InFlow(), s.settings);
    EntryUnlabelled(s, b);
    FirstText(a, child);
    AskedSpot(s, b, EntryNow(s, b));
    var p := a.PrepareNode(child);
    NotInComment(a, p, First(SpotOf(a, LongNow(a, child)), child, a.col));
    NothingHeld(a);
    HoldingFirst(a, EntryNow(s, b), p);
    GrewFrom(s, a, p, FrontFor(s, b));
  }

  lemma AskedHolding(s: State, long: bool, u: State, b: Branch)
    requires Holding(s, long, u)
    ensures Holding(Asked(s, b), long, Asked(u, b))
  {
    LaidIs(s, long);
    AskedIs(s, b);
    AskedIs(u, b);
    AskedAlike(s, u, b);
    hide Asked, Laid, FrameOf, State.InFlow, Fresh, Begun;
    LaidAsked(s, Asked(s, b), long);
  }

  lemma LaidAsked(s: State, a: State, long: bool)
    requires a == s.(settings := a.settings, modified := a.modified)
    ensures Laid(a, long) == Laid(s, long).(settings := a.settings, modified := a.modified)
  {
    hide LaidGroups;
  }

  lemma AskedAlike(s: State, u: State, b: Branch)
    requires u.settings == s.settings && u.modified == s.modified
    ensures Asked(u, b).settings == Asked(s, b).settings && Asked(u, b).modified == Asked(s, b).modified
  {
  }

  lemma EntryLabelled(s: State, b: Branch, u: State)
    requires Poised(s) && Labels(b) != [] && Holding(s, MarkNow(s, b), u)
    ensures var a, child := Asked(u, b), KindOf(b, s.InFlow(), s.settings);
            && LongNow(a, child) == EntryNow(s, b)
            && (a.groups != [] && a.Top().kind == Map && a.Top().flow == Block && a.Top().childCount % 2 == 0 ==>
                  LaidOutLong(a, child))
  {
    PoisedKeys(s);
    AskedIs(u, b);
    HoldingSpot(s, MarkNow(s, b), u, false);
    hide Poised, Holding, State.LastIndent, State.CurGroupIndent, SpotOf, Asked, Fresh, Begun;
  }

  /** In flow layout the form of the entry does not matter behind a label. */
  lemma LaterEither(s: State, b: Branch, child: Child, col: nat)
    requires Poised(s) && Labels(b) != [] && (Nested(child) ==> !s.InFlow())
    ensures Later(SpotOf(s, EntryNow(s, b)), child, col) == Later(SpotOf(s, MarkNow(s, b)), child, col)
  {
    PoisedKeys(s);
    hide Poised, State.LastIndent, State.CurGroupIndent, Gap, Room;
  }

  lemma NodeLabelled(s: State, b: Branch, u: State)
    requires Poised(s) && Labels(b) != [] && InPlace(s, b) && 1 <= |Labels(b)| <= 2
    requires Holding(s, MarkNow(s, b), u) && Begun(u)
    requires Grew(s, u, Prefix(SpotOf(s, MarkNow(s, b)), Labels(b), s.col))
    ensures var p := Asked(u, b).PrepareNode(KindOf(b, s.InFlow(), s.settings));
            Grew(s, p, FrontFor(s, b)) && Holding(Asked(s, b), EntryNow(s, b), p)
  {
    var a, child := Asked(u, b), KindOf(b, s.InFlow(), s.settings);
    var at, e := SpotOf(s, MarkNow(s, b)), EntryNow(s, b);
    assert s.groups == [] ==> s.docCount == 0;
    assert FrontFor(s, b) == Front(at, Labels(b), child, s.col);
    hide *;
    var front := Prefix(at, Labels(b), s.col);
    NotInComment(s, u, front);
    AskedIs(u, b);
    KindIsNode(b, s.InFlow(), s.settings);
    HoldingDocs(s, MarkNow(s, b), u);
    HoldingSpot(s, MarkNow(s, b), u, e);
    AskedSpot(u, b, e);
    EntryLabelled(s, b, u);
    LaterStep(a, child);
    LaterEither(s, b, child, u.col);
    var p := a.PrepareNode(child);
    NotInComment(a, p, Later(at, child, u.col));
    GrewFrom(u, a, p, Later(at, child, u.col));
    GrewThen(s, u, p, front, Later(at, child, u.col));
    FrontIsPrefix(at, Labels(b), child, s.col);
    AskedHolding(s, MarkNow(s, b), u, b);
    HoldingThen(Asked(s, b), MarkNow(s, b), a, e, p);
  }

  // ---- whole nodes

  /** A node with all that stands in front of it. */
  function Whole(s: State, b: Branch): seq<Token>
  {
    FrontFor(s, b) + Spell(b, s.InFlow(), s.curIndent, s.curIndent + s.CurGroupIndent(), s.settings,
                           After(s.col, FrontFor(s, b)))
  }

  /** Emitting a node has counted it and written it. */
  ghost predicate Done(s: State, b: Branch, v: State)
  {
    && v == S.WithOutput(Next(s, EntryNow(s, b)), v).(hasAlias := EndsInAlias(b))
    && Grew(s, v, Whole(s, b))
  }

  lemma HeldStarted(s: State, e: bool, t: State)
    requires AtNode(s) && Holding(s, e, t)
    ensures t.StartedNode() == S.WithOutput(Next(s, e), t)
  {
    if s.groups == [] {
      HeldDocument(s, e, t);
    } else {
      LaidIs(s, e);
      hide Laid;
      HeldTop(s, e, t);
      StartedChildHeld(s, e, t);
    }
  }

  lemma HeldDocument(s: State, e: bool, t: State)
    requires s.groups == [] && !s.HasBegunNode() && Holding(s, e, t)
    ensures t.StartedNode() == S.WithOutput(Next(s, e), t)
  {
  }

  lemma HeldTop(s: State, e: bool, t: State)
    requires AtNode(s) && s.groups != [] && t.groups != []
    requires t.Top() == s.Top().(longKey := if s.Top().kind == Map then e else s.Top().longKey)
    ensures var n := t.Top().childCount + 1;
            t.Top().(childCount := n, longKey := t.Top().longKey && n % 2 != 0) == NextTop(s.Top(), e)
  {
  }

  lemma StartedChildHeld(s: State, e: bool, t: State)
    requires s.groups != [] && !s.HasBegunNode() && t.groups != [] && S.Below(t.groups) == S.Below(s.groups)
    requires t == S.WithOutput(s.(groups := t.groups, hasAnchor := t.hasAnchor, hasTag := t.hasTag), t)
    requires var n := t.Top().childCount + 1;
             t.Top().(childCount := n, longKey := t.Top().longKey && n % 2 != 0) == NextTop(s.Top(), e)
    ensures t.StartedNode() == S.WithOutput(Next(s, e), t)
  {
    hide NextTop;
  }

  /** Where the labels of a node end. */
  ghost predicate Reached(s: State, b: Branch, u: State)
  {
    && u.good && (Labels(b) == [] ==> u == s) && u.settings == s.settings && u.InFlow() == s.InFlow()
    && (b.Reference? ==> !u.hasAnchor && !u.hasTag)
    && var p := Asked(u, b).PrepareNode(KindOf(b, s.InFlow(), s.settings));
       Grew(s, p, FrontFor(s, b)) && Holding(Asked(s, b), EntryNow(s, b), p)
  }

  lemma Reaches(s: State, b: Branch)
    requires Poised(s) && OneOfEach(Labels(b)) && InPlace(s, b)
    ensures Reached(s, b, s.Run(LabelCalls(Labels(b))))
  {
    var u := s.Run(LabelCalls(Labels(b)));
    PoisedParts(s);
    if Labels(b) == [] {
      assert u == s;
      NodeUnlabelled(s, b);
    } else {
      LabelsRun(s, b);
      NodeLabelled(s, b, u);
      HoldingSpot(s, MarkNow(s, b), u, false);
    }
    hide Poised, Holding, Grew, State.PrepareNode, State.Run, Asked, KindOf, FrontFor, EntryNow, MarkNow, State.InFlow,
      Prefix, SpotOf, Calm, Begun, Fresh;
  }

  /** Writing the content of a scalar or an alias behind its front. */
  lemma ContentDone(s: State, b: Branch, u: State, text: string)
    requires Poised(s) && Reached(s, b, u)
    ensures var t := Asked(u, b).PrepareNode(KindOf(b, s.InFlow(), s.settings)).Put(Content(text));
            && Grew(s, t.StartedScalar(), FrontFor(s, b) + [Content(text)])
            && t.StartedScalar() == S.WithOutput(Next(s, EntryNow(s, b)), t)
  {
    var p := Asked(u, b).PrepareNode(KindOf(b, s.InFlow(), s.settings));
    var t, e, a := p.Put(Content(text)), EntryNow(s, b), Asked(s, b);
    assert Grew(s, p, FrontFor(s, b)) && Holding(a, e, p);
    hide *;
    NotInComment(s, p, FrontFor(s, b));
    PutGrew(p, Content(text));
    GrewThen(s, p, t, FrontFor(s, b), [Content(text)]);
    BookOnly(t, Seq);
    WithOutputIs(t.StartedScalar(), t);
    SameGrew(s, t, t.StartedScalar(), FrontFor(s, b) + [Content(text)]);
    HoldingPut(a, e, p, text);
    AskedAtNode(s, b);
    HeldStarted(a, e, t);
    AskedBack(s, b);
    ClearedNext(s, a, e, t);
    ScalarIs(t);
  }

  lemma ScalarIs(t: State)
    ensures t.StartedScalar() == t.StartedNode().ClearModifiedSettings()
  {
  }

  lemma HoldingPut(a: State, e: bool, p: State, text: string)
    requires Holding(a, e, p)
    ensures Holding(a, e, p.Put(Content(text)))
  {
    hide Laid, TokenColumn;
  }

  lemma AskedAtNode(s: State, b: Branch)
    requires Poised(s)
    ensures AtNode(Asked(s, b))
  {
    hide Restore;
  }

  lemma AskedBack(s: State, b: Branch)
    requires Poised(s)
    ensures var a := Asked(s, b);
            a == s.(settings := a.settings, modified := a.modified) && a.ClearModifiedSettings() == s
  {
    PoisedParts(s);
    KeyFormatBack(s, b.Word? && b.long);
    hide State.ClearModifiedSettings, Poised, Calm;
  }

  lemma WordDone(s: State, b: Branch, u: State)
    requires Poised(s) && Reached(s, b, u) && b.Word?
    ensures Done(s, b, u.EmitScalar(b.text, b.long))
  {
    ContentDone(s, b, u, b.text);
    WordIs(s, b, u);
    assert Whole(s, b) == FrontFor(s, b) + [Content(b.text)];
    hide Grew, State.EmitScalar, State.PrepareNode, Asked, FrontFor, Next, EntryNow, State.StartedScalar, Whole,
      Reached, State.Put, KindOf;
    NextHasNoAlias(s, EntryNow(s, b));
  }

  lemma WordIs(s: State, b: Branch, u: State)
    requires u.good && b.Word?
    ensures u.EmitScalar(b.text, b.long) ==
            Asked(u, b).PrepareNode(KindOf(b, s.InFlow(), s.settings)).Put(Content(b.text)).StartedScalar()
  {
    hide State.PrepareNode, State.StartedScalar, State.InFlow, Settings.With;
  }

  lemma NextHasNoAlias(s: State, e: bool)
    ensures !Next(s, e).hasAlias
  {
  }

  lemma ReferenceDone(s: State, b: Branch, u: State)
    requires Poised(s) && Reached(s, b, u) && b.Reference?
    ensures Done(s, b, u.EmitAlias(b.text, true))
  {
    ContentDone(s, b, u, b.text);
    ReferenceIs(s, b, u);
    assert Whole(s, b) == FrontFor(s, b) + [Content(b.text)];
    hide Grew, State.EmitAlias, State.PrepareNode, Asked, FrontFor, Next, EntryNow, State.StartedScalar, Whole, Reached,
      State.Put, KindOf;
    var t := Asked(u, b).PrepareNode(KindOf(b, s.InFlow(), s.settings)).Put(Content(b.text)).StartedScalar();
    SameGrew(s, t, t.(hasAlias := true), Whole(s, b));
  }

  lemma ReferenceIs(s: State, b: Branch, u: State)
    requires u.good && b.Reference? && !u.hasAnchor && !u.hasTag
    ensures u.EmitAlias(b.text, true) ==
            Asked(u, b).PrepareNode(KindOf(b, s.InFlow(), s.settings)).Put(Content(b.text)).StartedScalar()
            .(hasAlias := true)
  {
    hide State.PrepareNode, State.StartedScalar, State.InFlow;
  }

  // ---- groups

  function Mute(s: State): State { s.(hasAlias := false) }

  lemma MutePoised(s: State)
    ensures Poised(s) == Poised(Mute(s)) && (Poised(s) ==> EmitterText.Ready(Mute(s)))
  {
    hide Restore;
  }

  lemma MuteNext(s: State, e: bool)
    ensures Next(Mute(s), e) == Next(s, e)
    ensures Mute(s).FlowOf(Seq) == s.FlowOf(Seq) && Mute(s).FlowOf(Map) == s.FlowOf(Map)
    ensures Mute(s).CurGroupIndent() == s.CurGroupIndent()
  {
    hide NextGroups;
  }

  lemma MutePushed(s: State, kind: GroupType, e: bool)
    ensures Pushed(Mute(s), kind, e) == Pushed(s, kind, e)
  {
    MuteNext(s, e);
    hide Next, State.FlowOf, State.CurGroupIndent;
  }

  lemma CollectionAsks(s: State, b: Branch, u: State)
    requires u.good && b.Collection? && u.settings == s.settings && u.InFlow() == s.InFlow()
    ensures Asked(u, b) == u && Asked(s, b) == s && u.NextGroupType(b.kind) == KindOf(b, s.InFlow(), s.settings)
    ensures u.EmitBeginGroup(b.kind) == u.PrepareNode(KindOf(b, s.InFlow(), s.settings)).StartedGroup(b.kind)
  {
    hide State.PrepareNode, State.StartedGroup, State.InFlow;
  }

  /** The start of a group behind its labels. */
  lemma CollectionBegun(s: State, b: Branch, u: State)
    requires Poised(s) && Reached(s, b, u) && b.Collection?
    ensures var v := u.EmitBeginGroup(b.kind);
            && Grew(s, v, FrontFor(s, b)) && v == S.WithOutput(Pushed(s, b.kind, EntryNow(s, b)), v)
  {
    CollectionAsks(s, b, u);
    var p := Asked(u, b).PrepareNode(KindOf(b, s.InFlow(), s.settings));
    var v, e := u.EmitBeginGroup(b.kind), EntryNow(s, b);
    assert Grew(s, p, FrontFor(s, b)) && Holding(s, e, p) && v == p.StartedGroup(b.kind);
    hide *;
    PoisedParts(s);
    AskedAtNode(s, b);
    HeldStarted(s, e, p);
    StartedIsPushed(s, b.kind, e, p);
    BookOnly(p, b.kind);
    WithOutputIs(v, p);
    SameGrew(s, p, v, FrontFor(s, b));
    OutputOf(Pushed(s, b.kind, e), p, v);
  }

  lemma OutputOf(s: State, p: State, v: State)
    requires v == S.WithOutput(s, p)
    ensures v == S.WithOutput(s, v)
  {
  }

  /** `u` is `v` after `k` more children, whatever was written last. */
  ghost predicate More(v: State, u: State, k: nat)
  {
    Grown(Mute(v), Mute(u), k)
  }

  lemma EndIgnoresAlias(w: State, kind: GroupType)
    requires w.good && w.groups != []
    ensures w.EmitEndGroup(kind) == Mute(w).EmitEndGroup(kind).(hasAlias := w.hasAlias)
  {
    hide *;
    var wasBlock := w.Top().flow == Block;
    MuteForced(w);
    var f := S.Forced(w);
    MuteIs(w);
    EndIs(w, kind);
    EndIs(Mute(w), kind);
    MuteFlow(f);
    if f.InFlow() {
      MuteCloses(f, kind, wasBlock);
      MuteEnds(f.CloseFlow(kind, wasBlock), kind);
      MuteIs(f.CloseFlow(kind, wasBlock).EndedGroup(kind));
    } else {
      MuteEnds(f, kind);
      MuteIs(f.EndedGroup(kind));
    }
  }

  lemma MuteIs(s: State)
    ensures Mute(s).(hasAlias := s.hasAlias) == s && Mute(s).good == s.good && Mute(s).groups == s.groups
    ensures s.groups != [] ==> Mute(s).Top() == s.Top()
  {
  }

  lemma MuteFlow(s: State)
    ensures Mute(s).InFlow() == s.InFlow()
  {
  }

  lemma EndIs(w: State, kind: GroupType)
    requires w.good && w.groups != []
    ensures var f := S.Forced(w);
            w.EmitEndGroup(kind) ==
            (if f.InFlow() then f.CloseFlow(kind, w.Top().flow == Block) else f).EndedGroup(kind)
  {
    hide State.CloseFlow, State.EndedGroup, State.ForceFlow, State.InFlow;
  }

  lemma MuteForced(w: State)
    requires w.groups != []
    ensures S.Forced(Mute(w)) == Mute(S.Forced(w)) && S.Forced(w).hasAlias == w.hasAlias
  {
    MuteTops(w, w.Top().(flow := Flow));
    hide State.WithTop;
  }

  lemma MuteTops(w: State, g: Group)
    requires w.groups != []
    ensures Mute(w).WithTop(g) == Mute(w.WithTop(g)) && w.WithTop(g).hasAlias == w.hasAlias
  {
  }

  lemma MutePuts(f: State, t: Token)
    ensures Mute(f).Put(t) == Mute(f.Put(t)) && f.Put(t).hasAlias == f.hasAlias
  {
    hide TokenColumn, TokenComment;
  }

  lemma MuteBreaks(f: State, condition: bool)
    ensures Mute(f).BreakIf(condition) == Mute(f.BreakIf(condition)) && f.BreakIf(condition).hasAlias == f.hasAlias
  {
    MutePuts(f, Newline);
    hide State.Put;
  }

  lemma MuteIndents(f: State, n: int)
    ensures Mute(f).IndentTo(n) == Mute(f.IndentTo(n)) && f.IndentTo(n).hasAlias == f.hasAlias
  {
    if f.col < n { MutePuts(f, Pad(n - f.col)); }
    hide State.Put;
  }

  lemma MuteOpens(s: State, kind: GroupType, wasBlock: bool)
    ensures var opens := wasBlock || (s.CurGroupChildCount() == 0 && !s.HasBegunNode());
            && (wasBlock || (Mute(s).CurGroupChildCount() == 0 && !Mute(s).HasBegunNode())) == opens
            && (if opens then Mute(s).Put(Open(kind)) else Mute(s)).Put(Close(kind)) ==
                 Mute((if opens then s.Put(Open(kind)) else s).Put(Close(kind)))
            && (if opens then s.Put(Open(kind)) else s).Put(Close(kind)).hasAlias == s.hasAlias
  {
    MutePuts(s, Open(kind));
    MutePuts(s, Close(kind));
    MutePuts(s.Put(Open(kind)), Close(kind));
    hide State.Put;
  }

  lemma MuteCloses(f: State, kind: GroupType, wasBlock: bool)
    ensures Mute(f).CloseFlow(kind, wasBlock) == Mute(f.CloseFlow(kind, wasBlock))
    ensures f.CloseFlow(kind, wasBlock).hasAlias == f.hasAlias
  {
    assert Mute(f).comment == f.comment && Mute(f).curIndent == f.curIndent;
    MuteBreaks(f, f.comment);
    MuteIndents(f.BreakIf(f.comment), f.curIndent);
    MuteOpens(f.BreakIf(f.comment).IndentTo(f.curIndent), kind, wasBlock);
    hide State.BreakIf, State.IndentTo, State.Put, Mute, State.CurGroupChildCount, State.HasBegunNode;
  }

  lemma MuteEnds(x: State, kind: GroupType)
    ensures Mute(x).EndedGroup(kind) == Mute(x.EndedGroup(kind)) && x.EndedGroup(kind).hasAlias == x.hasAlias
  {
    hide *;
    MuteIs(x);
    EndedIs(x, kind);
    EndedIs(Mute(x), kind);
    if x.groups == [] {
      MuteErrs(x);
    } else {
      MutePops(x);
      MuteErrs(x.Popped());
      MuteBacks(x.Popped());
    }
  }

  lemma EndedIs(x: State, kind: GroupType)
    ensures x.EndedGroup(kind) ==
            if x.groups == [] then x.SetError()
            else if x.Top().kind != kind then x.Popped().SetError() else x.Popped().BackBelow()
  {
    hide State.Popped, State.BackBelow;
  }

  lemma MuteErrs(x: State)
    ensures Mute(x).SetError() == Mute(x.SetError()) && x.SetError().hasAlias == x.hasAlias
  {
  }

  lemma MutePops(x: State)
    requires x.groups != []
    ensures Mute(x).Popped() == Mute(x.Popped()) && x.Popped().hasAlias == x.hasAlias
  {
    hide Restore;
  }

  lemma MuteBacks(x: State)
    ensures Mute(x).BackBelow() == Mute(x.BackBelow()) && x.BackBelow().hasAlias == x.hasAlias
  {
    hide Restore;
  }

  /** After a node, ready for the next. */
  lemma NextPoised(s: State, b: Branch, v: State)
    requires Poised(s) && Done(s, b, v)
    ensures Poised(v) && v.hasAlias == EndsInAlias(b) && v.settings == s.settings
  {
    PoisedParts(s);
    var e := EntryNow(s, b);
    assert Mute(v) == S.WithOutput(Next(s, e), Mute(v)) by { NextHasNoAlias(s, e); }
    CalmNext(s, e, Mute(v));
    NotInComment(s, v, Whole(s, b));
    NextKeeps(s, e);
    hide Next, Calm, Grew, Whole, EntryNow;
    MuteCalm(v);
  }

  lemma MuteCalm(v: State)
    requires Calm(Mute(v))
    ensures Calm(v)
  {
    hide Restore;
  }

  /** The group after one more child. */
  lemma MoreByOne(v: State, b: Branch, u: State)
    requires Poised(v) && v.groups != [] && Done(v, b, u)
    ensures More(v, u, 1) && u.groups != [] && FrameOf(u) == FrameOf(v)
    ensures u.Top().childCount == v.Top().childCount + 1
    ensures v.Top().kind == Map && v.Top().childCount % 2 == 0 ==>
              u.Top().longKey == LongEntry(b, v.InFlow(), v.settings)
  {
    var e := EntryNow(v, b);
    PoisedParts(v);
    NextHasNoAlias(v, e);
    MutePoised(v);
    MuteNext(v, e);
    assert Mute(u) == S.WithOutput(Next(v, e), Mute(u));
    NextKeeps(v, e);
    if v.Top().kind == Map && v.Top().childCount % 2 == 0 { EntryOfKey(v, b); }
    hide Next, Calm, Grew, Whole, EntryNow, LongEntry, Poised;
    GrownByOne(Mute(v), e, Mute(u));
    TopKept(v, u, e);
  }

  lemma EntryOfKey(v: State, b: Branch)
    requires v.groups != [] && v.Top().kind == Map && v.Top().childCount % 2 == 0
    ensures EntryNow(v, b) == LongEntry(b, v.InFlow(), v.settings)
  {
  }

  lemma TopKept(v: State, u: State, e: bool)
    requires v.groups != [] && |u.groups| == |v.groups| && S.Below(u.groups) == S.Below(v.groups)
    requires u.curIndent == v.curIndent && u.Top() == NextTop(v.Top(), e)
    ensures u.groups != [] && FrameOf(u) == FrameOf(v) && u.Top().childCount == v.Top().childCount + 1
    ensures v.Top().kind == Map && v.Top().childCount % 2 == 0 ==> u.Top().longKey == e
  {
    if |v.groups| > 1 {
      assert u.groups[|u.groups| - 2] == S.Below(u.groups)[|u.groups| - 2];
      assert v.groups[|v.groups| - 2] == S.Below(v.groups)[|v.groups| - 2];
    }
  }

  // ---- whole trees

  lemma CallsSplit(s: State, b: Branch)
    ensures s.Run(BranchCalls(b)) == s.Run(LabelCalls(Labels(b))).Run(NodeCalls(b))
  {
    hide State.Run, LabelCalls, NodeCalls, Labels;
    RunConcat(s, LabelCalls(Labels(b)), NodeCalls(b));
  }

  lemma LeafCalls(u: State, b: Branch)
    requires !b.Collection?
    ensures u.Run(NodeCalls(b)) == if b.Word? then u.EmitScalar(b.text, b.long) else u.EmitAlias(b.text, true)
  {
    hide State.Run, State.EmitScalar, State.EmitAlias;
    RunOne(u, if b.Word? then WriteScalar(b.text, b.long) else WriteAlias(b.text, true));
  }

  lemma GroupRun(u: State, b: Branch)
    requires b.Collection? && u.good
    ensures u.Run(NodeCalls(b)) == u.EmitBeginGroup(b.kind).Run(BranchesCalls(b.children)).EmitEndGroup(b.kind)
  {
    hide State.EmitBeginGroup, State.EmitEndGroup, State.Run, BranchesCalls;
    var bs := BranchesCalls(b.children);
    RunConcat(u, [BeginGroup(b.kind)] + bs, [EndGroup(b.kind)]);
    RunConcat(u, [BeginGroup(b.kind)], bs);
    RunOne(u, BeginGroup(b.kind));
    RunOne(u.EmitBeginGroup(b.kind).Run(bs), EndGroup(b.kind));
  }

  lemma LabelledParts(b: Branch)
    requires Labelled(b)
    ensures OneOfEach(Labels(b)) && (b.Collection? ==> AllLabelled(b.children))
  {
  }

  /** Emitting a node between two others writes its front and its text, and counts it. */
  lemma {:induction false} BranchText(s: State, b: Branch)
    requires Poised(s) && Labelled(b) && InPlace(s, b)
    ensures Done(s, b, s.Run(BranchCalls(b))) && Poised(s.Run(BranchCalls(b)))
    decreases b, 1
  {
    hide *;
    LabelledParts(b);
    var u := s.Run(LabelCalls(Labels(b)));
    Reaches(s, b);
    CallsSplit(s, b);
    if b.Collection? {
      CollectionText(s, b, u);
    } else {
      LeafCalls(u, b);
      if b.Word? { WordDone(s, b, u); } else { ReferenceDone(s, b, u); }
    }
    NextPoised(s, b, s.Run(BranchCalls(b)));
  }

  lemma ReachedGood(s: State, b: Branch, u: State)
    requires Reached(s, b, u)
    ensures u.good
  {
  }

  lemma {:induction false} CollectionText(s: State, b: Branch, u: State)
    requires Poised(s) && Reached(s, b, u) && b.Collection? && AllLabelled(b.children)
    ensures Done(s, b, u.Run(NodeCalls(b)))
    decreases b, 0
  {
    hide *;
    ReachedGood(s, b, u);
    GroupRun(u, b);
    CollectionBegun(s, b, u);
    var v, e := u.EmitBeginGroup(b.kind), EntryNow(s, b);
    NotInComment(s, v, FrontFor(s, b));
    CollectionFrame(s, b, e, v);
    ItemsText(v, b.children);
    CollectionEnded(s, b, v, v.Run(BranchesCalls(b.children)));
  }

  /** Where the group stands that was started. */
  lemma CollectionFrame(s: State, b: Branch, e: bool, v: State)
    requires Poised(s) && b.Collection? && v == S.WithOutput(Pushed(s, b.kind, e), v) && !v.comment
    ensures Poised(v) && v.groups != [] && v.Top().childCount == 0 && !v.Top().longKey && v.settings == s.settings
    ensures !v.hasAlias && EmitterText.Ready(v)
    ensures FrameOf(v) == Frame(b.kind, AsFlow(b.kind, s.InFlow(), s.settings), s.curIndent,
                                s.curIndent + s.CurGroupIndent(), s.settings.indent)
  {
    MutePoised(s);
    MutePushed(s, b.kind, e);
    MuteNext(s, e);
    BegunFrame(Mute(s), b.kind, e, v);
    ReadyIsPoised(v);
    FlowIs(s, b.kind);
    hide EmitterText.Ready, Poised, Pushed, Mute, FrameOf, State.CurGroupIndent, State.FlowOf, AsFlow, State.InFlow;
    MuteHas(s);
  }

  lemma MuteHas(s: State)
    ensures Mute(s).curIndent == s.curIndent && Mute(s).settings == s.settings
  {
  }

  lemma FlowIs(s: State, kind: GroupType)
    ensures (s.FlowOf(kind) == Flow) == AsFlow(kind, s.InFlow(), s.settings)
  {
  }

  lemma ReadyIsPoised(v: State)
    requires EmitterText.Ready(v)
    ensures Poised(v) && !v.hasAlias
  {
    hide Calm;
  }

  /** The text of a group's children, and what is left behind them. */
  ghost predicate ItemsDone(v: State, bs: seq<Branch>, w: State)
    requires v.groups != []
  {
    && Grew(v, w, SpellItems(FrameOf(v), bs, v.Top().childCount, v.Top().longKey, v.hasAlias, v.settings, v.col))
    && Poised(w) && More(v, w, |bs|)
    && w.hasAlias == if bs == [] then v.hasAlias else EndsInAlias(bs[|bs| - 1])
  }

  lemma CollectionEnded(s: State, b: Branch, v: State, w: State)
    requires Poised(s) && b.Collection? && v.groups != [] && ItemsDone(v, b.children, w)
    requires v == S.WithOutput(Pushed(s, b.kind, EntryNow(s, b)), v) && Grew(s, v, FrontFor(s, b))
    requires v.Top().childCount == 0 && !v.Top().longKey && v.settings == s.settings && !v.hasAlias
    requires FrameOf(v) == Frame(b.kind, AsFlow(b.kind, s.InFlow(), s.settings), s.curIndent,
                                 s.curIndent + s.CurGroupIndent(), s.settings.indent)
    ensures Done(s, b, w.EmitEndGroup(b.kind))
  {
    var f, bs, e := FrameOf(v), b.children, EntryNow(s, b);
    var items := SpellItems(f, bs, 0, false, false, v.settings, v.col);
    var end := EndText(b.kind, f.flow, |bs|, f.indent, w.col);
    hide *;
    ItemsParts(v, bs, w);
    MoreFresh(v, w, |bs|);
    AliasOfGroup(b);
    PoisedParts(s);
    PoisedParts(w);
    NotInComment(v, w, items);
    NotInComment(s, v, FrontFor(s, b));
    MutePoised(w);
    GrownTop(v, Mute(w), |bs|);
    EndGroupText(v, Mute(w), b.kind, |bs|);
    GrownToEnd(s, b.kind, e, v, Mute(w), |bs|);
    MuteCalmly(w);
    GroupEnded(s, b.kind, e, Mute(w));
    MuteHas(w);
    MuteIs(w);
    EndIgnoresAlias(w, b.kind);
    var x := w.EmitEndGroup(b.kind);
    AliasBack(Next(s, e), Mute(w).EmitEndGroup(b.kind), x, EndsInAlias(b));
    MuteOutput(w);
    GrewLike(Mute(w), Mute(w).EmitEndGroup(b.kind), w, x, end);
    GrewThen(v, w, x, items, end);
    GrewThen(s, v, x, FrontFor(s, b), items + end);
    WholeOfGroup(s, b);
    DoneIs(s, b, x);
  }

  lemma MoreFresh(v: State, w: State, k: nat)
    requires More(v, w, k) && !v.hasAlias
    ensures Grown(v, Mute(w), k)
  {
    MuteIs(v);
    hide Grown;
  }

  lemma AliasOfGroup(b: Branch)
    requires b.Collection?
    ensures EndsInAlias(b) == (b.children != [] && EndsInAlias(b.children[|b.children| - 1]))
  {
  }

  lemma DoneIs(s: State, b: Branch, v: State)
    requires v == S.WithOutput(Next(s, EntryNow(s, b)), v).(hasAlias := EndsInAlias(b)) && Grew(s, v, Whole(s, b))
    ensures Done(s, b, v)
  {
  }

  lemma MuteCalmly(w: State)
    requires Poised(w)
    ensures Calm(Mute(w))
  {
    hide Restore;
  }

  lemma MuteOutput(w: State)
    ensures Mute(w).out == w.out && Mute(w).col == w.col
  {
  }

  lemma AliasBack(n: State, x0: State, x: State, alias: bool)
    requires x0 == S.WithOutput(n, x0) && x == x0.(hasAlias := alias)
    ensures x == S.WithOutput(n, x).(hasAlias := alias) && x.out == x0.out && x.col == x0.col && x.comment == x0.comment
  {
  }

  lemma GrewLike(s0: State, u0: State, s: State, u: State, ts: seq<Token>)
    requires Grew(s0, u0, ts) && s0.out == s.out && s0.col == s.col
    requires u.out == u0.out && u.col == u0.col && u.comment == u0.comment
    ensures Grew(s, u, ts)
  {
  }

  lemma WholeOfGroup(s: State, b: Branch)
    requires b.Collection?
    ensures var f := Frame(b.kind, AsFlow(b.kind, s.InFlow(), s.settings), s.curIndent,
                           s.curIndent + s.CurGroupIndent(), s.settings.indent);
            var col := After(s.col, FrontFor(s, b));
            var items := SpellItems(f, b.children, 0, false, false, s.settings, col);
            Whole(s, b) ==
            FrontFor(s, b) + (items + EndText(b.kind, f.flow, |b.children|, f.indent, After(col, items)))
  {
    hide FrontFor, EndText, After, AsFlow, State.InFlow, State.CurGroupIndent, SpellItems;
  }

  lemma {:induction false} ItemsText(v: State, bs: seq<Branch>)
    requires Poised(v) && v.groups != [] && AllLabelled(bs)
    ensures ItemsDone(v, bs, v.Run(BranchesCalls(bs)))
    decreases bs, 2
  {
    hide *;
    if bs == [] {
      NoItems(v);
    } else {
      FirstLabelled(v, bs);
      BranchesSplit(v, bs);
      var u := v.Run(BranchCalls(bs[0]));
      BranchText(v, bs[0]);
      NextPoised(v, bs[0], u);
      MoreByOne(v, bs[0], u);
      ItemsText(u, bs[1..]);
      OneItem(v, bs, u, u.Run(BranchesCalls(bs[1..])));
    }
  }

  lemma FirstLabelled(v: State, bs: seq<Branch>)
    requires bs != [] && AllLabelled(bs) && v.groups != []
    ensures Labelled(bs[0]) && AllLabelled(bs[1..]) && InPlace(v, bs[0])
  {
    hide Labelled;
  }

  lemma BranchesSplit(v: State, bs: seq<Branch>)
    requires bs != []
    ensures v.Run(BranchesCalls(bs)) == v.Run(BranchCalls(bs[0])).Run(BranchesCalls(bs[1..]))
  {
    hide State.Run, BranchCalls;
    RunConcat(v, BranchCalls(bs[0]), BranchesCalls(bs[1..]));
  }

  lemma NoItems(v: State)
    requires Poised(v) && v.groups != []
    ensures v.Run(BranchesCalls([])) == v && ItemsDone(v, [], v)
  {
    PoisedParts(v);
    assert v.out + [] == v.out;
    GrownByNone(Mute(v));
    hide Poised, Grown, FrameOf, Calm;
  }

  lemma OneItem(v: State, bs: seq<Branch>, u: State, w: State)
    requires bs != [] && v.groups != [] && u.groups != [] && Done(v, bs[0], u) && ItemsDone(u, bs[1..], w)
    requires More(v, u, 1) && FrameOf(u) == FrameOf(v) && u.Top().childCount == v.Top().childCount + 1
    requires u.settings == v.settings && u.hasAlias == EndsInAlias(bs[0])
    requires v.Top().kind == Map && v.Top().childCount % 2 == 0 ==>
               u.Top().longKey == LongEntry(bs[0], v.InFlow(), v.settings)
    ensures ItemsDone(v, bs, w)
  {
    hide *;
    var rest := RestOf(v, bs);
    DoneGrew(v, bs[0], u);
    RestDone(u, bs, w);
    NotInComment(v, u, Whole(v, bs[0]));
    RestIs(v, bs, u);
    MoreThen(v, u, w, |bs| - 1);
    GrewThen(v, u, w, Whole(v, bs[0]), rest);
    ItemsStep(v, bs);
    ItemsAre(v, bs, w);
  }

  /** The text of all but the first of a group's children. */
  function RestOf(v: State, bs: seq<Branch>): seq<Token>
    requires v.groups != [] && bs != []
  {
    SpellItems(FrameOf(v), bs[1..], v.Top().childCount + 1, LongEntry(bs[0], FrameOf(v).flow, v.settings),
               EndsInAlias(bs[0]), v.settings, After(v.col, Whole(v, bs[0])))
  }

  lemma RestIs(v: State, bs: seq<Branch>, u: State)
    requires bs != [] && v.groups != [] && u.groups != [] && u.col == After(v.col, Whole(v, bs[0]))
    requires FrameOf(u) == FrameOf(v) && u.Top().childCount == v.Top().childCount + 1
    requires u.settings == v.settings && u.hasAlias == EndsInAlias(bs[0])
    requires v.Top().kind == Map && v.Top().childCount % 2 == 0 ==>
               u.Top().longKey == LongEntry(bs[0], v.InFlow(), v.settings)
    ensures SpellItems(FrameOf(u), bs[1..], u.Top().childCount, u.Top().longKey, u.hasAlias, u.settings, u.col) ==
            RestOf(v, bs)
  {
    hide *;
    FrameHas(v);
    RestOfIs(v, bs);
    OnlyValues(FrameOf(v), bs[1..], v.Top().childCount + 1, LongEntry(bs[0], FrameOf(v).flow, v.settings),
               u.Top().longKey, u.hasAlias, u.settings, u.col);
  }

  lemma DoneGrew(s: State, b: Branch, v: State)
    requires Done(s, b, v)
    ensures Grew(s, v, Whole(s, b))
  {
    hide Grew, Whole, Next;
  }

  lemma ItemsParts(v: State, bs: seq<Branch>, w: State)
    requires v.groups != [] && ItemsDone(v, bs, w)
    ensures Grew(v, w, SpellItems(FrameOf(v), bs, v.Top().childCount, v.Top().longKey, v.hasAlias, v.settings, v.col))
    ensures Poised(w) && More(v, w, |bs|)
    ensures w.hasAlias == if bs == [] then v.hasAlias else EndsInAlias(bs[|bs| - 1])
  {
    hide SpellItems, More, Poised, Grew, FrameOf;
  }

  lemma RestDone(u: State, bs: seq<Branch>, w: State)
    requires u.groups != [] && bs != [] && ItemsDone(u, bs[1..], w) && u.hasAlias == EndsInAlias(bs[0])
    ensures var n := u.Top().childCount;
            Grew(u, w, SpellItems(FrameOf(u), bs[1..], n, u.Top().longKey, u.hasAlias, u.settings, u.col))
    ensures Poised(w) && More(u, w, |bs| - 1) && w.hasAlias == EndsInAlias(bs[|bs| - 1])
  {
    ItemsParts(u, bs[1..], w);
    if |bs| > 1 { assert bs[1..][|bs| - 2] == bs[|bs| - 1]; }
    hide SpellItems, More, Poised, Grew, FrameOf, ItemsDone, EndsInAlias;
  }

  lemma FrameHas(v: State)
    requires v.groups != []
    ensures FrameOf(v).kind == v.Top().kind && FrameOf(v).flow == v.InFlow()
  {
  }

  lemma MoreThen(v: State, u: State, w: State, k: nat)
    requires More(v, u, 1) && More(u, w, k)
    ensures More(v, w, k + 1)
  {
    GrownMore(Mute(v), Mute(u), Mute(w), k);
    hide Grown, Mute;
  }

  lemma ItemsAre(v: State, bs: seq<Branch>, w: State)
    requires v.groups != [] && bs != [] && Poised(w) && More(v, w, |bs|) && w.hasAlias == EndsInAlias(bs[|bs| - 1])
    requires Grew(v, w, SpellItems(FrameOf(v), bs, v.Top().childCount, v.Top().longKey, v.hasAlias, v.settings, v.col))
    ensures ItemsDone(v, bs, w)
  {
    hide SpellItems, More, Poised, Grew;
  }

  /** The layout an entry was begun in only matters to its value. */
  lemma OnlyValues(f: Frame, bs: seq<Branch>, n: nat, a: bool, b: bool, alias: bool, st: Settings, col: nat)
    requires f.kind == Seq || n % 2 == 0 || a == b
    ensures SpellItems(f, bs, n, a, alias, st, col) == SpellItems(f, bs, n, b, alias, st, col)
  {
    if bs != [] { assert Marked(f, bs[0], n, a, st) == Marked(f, bs[0], n, b, st); }
    hide MarkedKey, Front, Spell, After, Marked, LongEntry;
  }

  lemma ItemsStep(v: State, bs: seq<Branch>)
    requires bs != [] && v.groups != []
    ensures SpellItems(FrameOf(v), bs, v.Top().childCount, v.Top().longKey, v.hasAlias, v.settings, v.col) ==
            Whole(v, bs[0]) + RestOf(v, bs)
  {
    hide *;
    ItemsUnfolded(FrameOf(v), bs, v.Top().childCount, v.Top().longKey, v.hasAlias, v.settings, v.col);
    WholeIs(v, bs[0]);
    RestOfIs(v, bs);
  }

  lemma RestOfIs(v: State, bs: seq<Branch>)
    requires bs != [] && v.groups != []
    ensures RestOf(v, bs) ==
            SpellItems(FrameOf(v), bs[1..], v.Top().childCount + 1, LongEntry(bs[0], FrameOf(v).flow, v.settings),
                       EndsInAlias(bs[0]), v.settings, After(v.col, Whole(v, bs[0])))
  {
    hide FrameOf, SpellItems, Whole, After, LongEntry, EndsInAlias;
  }

  lemma ItemsUnfolded(f: Frame, bs: seq<Branch>, n: nat, long: bool, alias: bool, st: Settings, col: nat)
    requires bs != []
    ensures var at := Inside(f, n, Marked(f, bs[0], n, long, st), alias);
            var front := Front(at, Labels(bs[0]), KindOf(bs[0], f.flow, st), col);
            var one := front + Spell(bs[0], f.flow, f.indent, f.indent + f.width, st, After(col, front));
            SpellItems(f, bs, n, long, alias, st, col) ==
            one + SpellItems(f, bs[1..], n + 1, LongEntry(bs[0], f.flow, st), EndsInAlias(bs[0]), st, After(col, one))
  {
    hide Front, Spell, After, Marked, LongEntry, Labels, KindOf, EndsInAlias;
  }

  lemma WholeIs(v: State, b: Branch)
    requires v.groups != []
    ensures var f, n := FrameOf(v), v.Top().childCount;
            var at := Inside(f, n, Marked(f, b, n, v.Top().longKey, v.settings), v.hasAlias);
            var front := Front(at, Labels(b), KindOf(b, f.flow, v.settings), v.col);
            Whole(v, b) == front + Spell(b, f.flow, f.indent, f.indent + f.width, v.settings, After(v.col, front))
  {
    hide Front, Spell, After, Marked, Labels, KindOf, State.InFlow, State.LastIndent, State.CurGroupIndent;
  }

  // ---- documents

  /** Only the first document may have labels. */
  predicate FirstOnly(es: seq<Entry>, n: nat)
    decreases |es|
  {
    es == [] ||
    ((es[0].Document? && Labels(es[0].root) != [] ==> n == 0)
     && FirstOnly(es[1..], if es[0].Document? then n + 1 else n))
  }

  predicate DocumentsLabelled(es: seq<Entry>) { forall i | 0 <= i < |es| && es[i].Document? :: Labelled(es[i].root) }

  /** Between two documents. */
  ghost predicate Outside(s: State) { Poised(s) && s.groups == [] }

  lemma OutsideParts(s: State)
    requires Outside(s)
    ensures Poised(s) && s.groups == [] && s.curIndent == 0 && Calm(s)
  {
    hide Calm;
  }

  lemma MarkerText(s: State, mark: Token)
    requires Outside(s) && (mark == DocStart || mark == DocEnd)
    ensures var v := s.BreakIf(s.col > 0).Put(mark);
            Grew(s, v, Break(s.col > 0) + [mark]) && Outside(v) && v.docCount == s.docCount && v.settings == s.settings
            && !v.HasBegunNode() && v.good
  {
    OutsideParts(s);
    PoisedParts(s);
    var t := s.BreakIf(s.col > 0);
    BreakAdds(s, s.col > 0);
    AddsIs(s, t, Break(s.col > 0));
    hide State.BreakIf, Break;
    PutAdds(t, mark);
    AddsThen(s, t, t.Put(mark), Break(s.col > 0), [mark]);
    AddsGrew(s, s, t.Put(mark), Break(s.col > 0) + [mark]);
    StillOutside(s, t.Put(mark), Break(s.col > 0) + [mark]);
  }

  lemma StillOutside(s: State, v: State, ts: seq<Token>)
    requires Outside(s) && Adds(s, v, ts)
    ensures Outside(v) && !v.HasBegunNode() && v.good
  {
    hide Restore, After;
  }

  lemma MarkerCalls(s: State)
    requires Outside(s)
    ensures s.Run([EndDoc]) == s.BreakIf(s.col > 0).Put(DocEnd)
    ensures s.Run([BeginDoc]) == s.BreakIf(s.col > 0).Put(DocStart)
  {
    OutsideParts(s);
    PoisedParts(s);
    RunOne(s, EndDoc);
    RunOne(s, BeginDoc);
    MarkerText(s, DocStart);
    NoFlags(s.BreakIf(s.col > 0).Put(DocStart));
    hide State.BreakIf, State.Put, Poised, Calm, Outside, State.Run;
  }

  lemma RootText(s: State, b: Branch)
    requires Outside(s) && Labelled(b) && (Labels(b) != [] ==> s.docCount == 0)
    ensures var v := s.Run(BranchCalls(b));
            && Grew(s, v, OneEntry(Document(b), s.docCount, s.settings, s.col)) && Outside(v)
            && v.docCount == s.docCount + 1 && v.settings == s.settings
  {
    var v := s.Run(BranchCalls(b));
    OutsideParts(s);
    assert InPlace(s, b);
    hide State.Run, BranchCalls, Outside;
    BranchText(s, b);
    NextPoised(s, b, v);
    DoneGrew(s, b, v);
    WholeOfRoot(s, b);
    RootCounted(s, b, v);
    hide Done, Poised, Grew, Whole, OneEntry;
    OutsideIs(v);
  }

  lemma OutsideIs(v: State)
    requires Poised(v) && v.groups == []
    ensures Outside(v)
  {
  }

  lemma RootCounted(s: State, b: Branch, v: State)
    requires Done(s, b, v) && s.groups == []
    ensures v.groups == [] && v.docCount == s.docCount + 1
  {
    hide Grew, Whole, EntryNow;
  }

  lemma WholeOfRoot(s: State, b: Branch)
    requires s.groups == [] && s.curIndent == 0
    ensures Whole(s, b) == OneEntry(Document(b), s.docCount, s.settings, s.col)
  {
    hide Front, Spell, After, KindOf;
  }

  lemma OneEntryText(s: State, e: Entry)
    requires Outside(s) && (e.Document? ==> Labelled(e.root) && (Labels(e.root) != [] ==> s.docCount == 0))
    ensures var v := s.Run(OneCalls(e));
            && Grew(s, v, OneEntry(e, s.docCount, s.settings, s.col)) && Outside(v)
            && v.docCount == (if e.Document? then s.docCount + 1 else s.docCount) && v.settings == s.settings
  {
    match e
    case Begin =>
      MarkerCalls(s);
      MarkerText(s, DocStart);
    case End =>
      MarkerCalls(s);
      MarkerText(s, DocEnd);
    case Document(b) => RootText(s, b);
    hide State.Run, Grew, Outside, State.BreakIf, State.Put, BranchCalls, Front, Spell, KindOf, After, Labelled;
  }

  lemma EntriesSplit(s: State, es: seq<Entry>)
    requires es != []
    ensures s.Run(EntryCalls(es)) == s.Run(OneCalls(es[0])).Run(EntryCalls(es[1..]))
  {
    assert EntryCalls(es) == OneCalls(es[0]) + EntryCalls(es[1..]);
    hide State.Run, EntryCalls, OneCalls;
    RunConcat(s, OneCalls(es[0]), EntryCalls(es[1..]));
  }

  lemma SpellAllStep(es: seq<Entry>, n: nat, st: Settings, col: nat)
    requires es != []
    ensures SpellAll(es, n, st, col) ==
            OneEntry(es[0], n, st, col) + SpellAll(es[1..], if es[0].Document? then n + 1 else n, st,
                                                   After(col, OneEntry(es[0], n, st, col)))
  {
    hide Front, Spell, KindOf, After, Break, Labels;
  }

  lemma FirstEntry(es: seq<Entry>, n: nat)
    requires es != [] && DocumentsLabelled(es) && FirstOnly(es, n)
    ensures es[0].Document? ==> Labelled(es[0].root) && (Labels(es[0].root) != [] ==> n == 0)
    ensures DocumentsLabelled(es[1..]) && FirstOnly(es[1..], if es[0].Document? then n + 1 else n)
  {
    hide Labelled;
  }

  lemma {:induction false} EntriesText(s: State, es: seq<Entry>)
    requires Outside(s) && DocumentsLabelled(es) && FirstOnly(es, s.docCount)
    ensures var v := s.Run(EntryCalls(es));
            Grew(s, v, SpellAll(es, s.docCount, s.settings, s.col)) && Outside(v)
    decreases |es|
  {
    hide *;
    if es == [] {
      NoEntries(s);
    } else {
      FirstEntry(es, s.docCount);
      EntriesSplit(s, es);
      OneEntryText(s, es[0]);
      var u, one := s.Run(OneCalls(es[0])), OneEntry(es[0], s.docCount, s.settings, s.col);
      NotInComment(s, u, one);
      EntriesText(u, es[1..]);
      SpellAllStep(es, s.docCount, s.settings, s.col);
      GrewThen(s, u, u.Run(EntryCalls(es[1..])), one, SpellAll(es[1..], u.docCount, u.settings, u.col));
    }
  }

  lemma NoEntries(s: State)
    requires Outside(s)
    ensures s.Run(EntryCalls([])) == s && Grew(s, s, SpellAll([], s.docCount, s.settings, s.col))
  {
    OutsideParts(s);
    PoisedParts(s);
    assert s.out + [] == s.out;
    hide Outside, Poised, Calm;
  }

  lemma GloballyOutside(globals: seq<Op>)
    requires forall i | 0 <= i < |globals| :: SetsGlobally(globals[i])
    ensures var s := INITIAL.Run(globals);
            Outside(s) && s.docCount == 0 && s.out == [] && s.col == 0
  {
    InitiallyCalm();
    GloballySet(INITIAL, globals);
    hide State.Run, Calm;
  }

  /** For all nodes with anchors and tags, all aliases, all calls that begin and end documents and all global
      settings: the whole output, with every blank, line break and marker, is what the printer gives. */
  lemma OutputIsSpelled(globals: seq<Op>, es: seq<Entry>)
    requires forall i | 0 <= i < |globals| :: SetsGlobally(globals[i])
    requires DocumentsLabelled(es) && FirstOnly(es, 0)
    ensures var s := INITIAL.Run(globals + EntryCalls(es));
            s.good && s.out == SpellAll(es, 0, INITIAL.Run(globals).settings, 0)
  {
    hide *;
    var s := INITIAL.Run(globals);
    RunConcat(INITIAL, globals, EntryCalls(es));
    GloballyOutside(globals);
    EntriesText(s, es);
    var v := s.Run(EntryCalls(es));
    OutsideParts(v);
    PoisedParts(v);
    GrewFromNothing(s, v, SpellAll(es, 0, s.settings, 0));
  }

  lemma GrewFromNothing(s: State, v: State, ts: seq<Token>)
    requires Grew(s, v, ts) && s.out == []
    ensures v.out == ts
  {
    assert [] + ts == ts;
  }

  // ---- labels of later documents

  /** The text leaves the line begun, as every anchor and tag does. */
  predicate Visible(text: string) { text != [] && text[|text| - 1] != '\n' }

  predicate RootsVisible(es: seq<Entry>)
  {
    forall i | 0 <= i < |es| && es[i].Document? && Labels(es[i].root) != [] :: Visible(Labels(es[i].root)[0].text)
  }

  predicate Continues(op: Op) { op.WriteScalar? || op.WriteAnchor? || op.WriteTag? || op.BeginGroup? }

  ghost predicate Doomed(u: State)
  {
    u.good && u.groups == [] && u.HasBegunContent() && u.docCount > 0 && u.col > 0
  }

  lemma ContinuingStops(u: State, op: Op)
    requires Doomed(u) && Continues(op)
    ensures !u.Step(op).good
  {
    assert u.good;
    hide *;
    match op
    case WriteScalar(text, long) => ScalarStops(u, text, long);
    case WriteAnchor(text, valid) => PropertyStops(u, text, valid);
    case WriteTag(text, valid) => PropertyStops(u, text, valid);
    case BeginGroup(kind) => GroupStops(u, kind);
  }

  lemma ScalarStops(u: State, text: string, long: bool)
    requires Doomed(u)
    ensures !u.Step(WriteScalar(text, long)).good
  {
    var a := if long then u.SetLocal(MapKeyFormat, u.settings.(longKeys := true)) else u;
    AskedBegun(u, long);
    EmitterKeys.PropertyOfLaterDocument(a, Scalar);
    PutStays(a.PrepareNode(Scalar), text);
    hide State.PrepareNode, State.StartedScalar, State.Put;
  }

  lemma PropertyStops(u: State, text: string, valid: bool)
    requires Doomed(u)
    ensures !u.Step(WriteAnchor(text, valid)).good && !u.Step(WriteTag(text, valid)).good
  {
    EmitterKeys.PropertyOfLaterDocument(u, Property);
    hide State.PrepareNode, TokenColumn;
  }

  lemma GroupStops(u: State, kind: GroupType)
    requires Doomed(u)
    ensures !u.Step(BeginGroup(kind)).good
  {
    assert u.NextGroupType(kind) != NoNode;
    EmitterKeys.PropertyOfLaterDocument(u, u.NextGroupType(kind));
    StartStays(u.PrepareNode(u.NextGroupType(kind)), kind);
    hide State.PrepareNode, State.StartedGroup, State.NextGroupType;
  }

  lemma AskedBegun(u: State, long: bool)
    ensures var a := if long then u.SetLocal(MapKeyFormat, u.settings.(longKeys := true)) else u;
            && a.good == u.good && a.groups == u.groups && a.HasBegunContent() == u.HasBegunContent()
            && a.docCount == u.docCount && a.col == u.col
  {
  }

  lemma CountedStays(p: State)
    ensures p.Counted().good == p.good
  {
    if p.groups != [] {
      var n := p.Top().childCount + 1;
      WithTopHas(p, p.Top().(childCount := n, longKey := p.Top().longKey && n % 2 != 0));
    }
    hide State.WithTop;
  }

  lemma NodeStays(p: State)
    ensures p.StartedNode().good == p.good
  {
    CountedStays(p);
    hide State.Counted;
  }

  lemma PutStays(p: State, text: string)
    ensures p.Put(Content(text)).StartedScalar().good == p.good
  {
    NodeStays(p.Put(Content(text)));
    hide State.StartedNode, Restore, TokenColumn;
  }

  lemma StartStays(p: State, kind: GroupType)
    ensures p.StartedGroup(kind).good == p.good
  {
    NodeStays(p);
    hide State.StartedNode, State.FlowOf, State.CurGroupIndent;
  }

  lemma VisibleColumn(col: nat, lead: seq<Token>, text: string)
    requires Visible(text)
    ensures After(col, lead + [Content(text)]) > 0
  {
    AfterConcat(col, lead, [Content(text)]);
    AfterOne(After(col, lead), Content(text));
    hide After;
  }

  lemma LabelledCalls(b: Branch)
    requires Labels(b) != []
    ensures |BranchCalls(b)| >= 2 && BranchCalls(b)[0] == LabelCall(Labels(b)[0]) && Continues(BranchCalls(b)[1])
  {
    hide BranchesCalls;
    if |Labels(b)| == 1 {
      assert LabelCalls(Labels(b)) == [LabelCall(Labels(b)[0])];
      assert Continues(NodeCalls(b)[0]);
    } else {
      assert LabelCalls(Labels(b)[1..])[0] == LabelCall(Labels(b)[1]);
    }
  }

  lemma LabelStops(s: State, b: Branch)
    requires Outside(s) && Labels(b) != [] && s.docCount > 0 && Visible(Labels(b)[0].text)
    ensures !s.Run(BranchCalls(b)).good
  {
    var l, ops := Labels(b)[0], BranchCalls(b);
    OutsideParts(s);
    PoisedParts(s);
    LabelledCalls(b);
    FirstLabel(s, b, l);
    var u, lead := s.Step(LabelCall(l)), First(SpotOf(s, MarkNow(s, b)), Property, s.col);
    NotInComment(s, u, lead + [Content(l.text)]);
    VisibleColumn(s.col, lead, l.text);
    HoldingDocs(s, MarkNow(s, b), u);
    BegunParts(u);
    assert Doomed(u);
    hide *;
    ContinuingStops(u, ops[1]);
    TwoSteps(s, ops);
    S.RunStopped(u.Step(ops[1]), ops[2..]);
  }

  lemma TwoSteps(s: State, ops: seq<Op>)
    requires |ops| >= 2
    ensures s.Run(ops) == s.Step(ops[0]).Step(ops[1]).Run(ops[2..])
  {
    assert ops[1..][0] == ops[1] && ops[1..][1..] == ops[2..];
    assert s.Run(ops) == s.Step(ops[0]).Run(ops[1..]);
    hide State.Step;
  }

  lemma FirstOnlyStep(es: seq<Entry>, n: nat)
    requires es != [] && !FirstOnly(es, n)
    ensures (es[0].Document? && Labels(es[0].root) != [] && n > 0) ||
            !FirstOnly(es[1..], if es[0].Document? then n + 1 else n)
  {
    hide Labels;
  }

  lemma {:induction false} LaterLabelsStop(s: State, es: seq<Entry>)
    requires Outside(s) && DocumentsLabelled(es) && RootsVisible(es) && !FirstOnly(es, s.docCount)
    ensures !s.Run(EntryCalls(es)).good
    decreases |es|
  {
    assert es != [];
    hide *;
    EntriesSplit(s, es);
    EntryHead(es);
    FirstOnlyStep(es, s.docCount);
    var u, rest := s.Run(OneCalls(es[0])), EntryCalls(es[1..]);
    if es[0].Document? && Labels(es[0].root) != [] && s.docCount > 0 {
      DocumentCalls(es[0]);
      LabelStops(s, es[0].root);
      S.RunStopped(u, rest);
    } else {
      OneEntryText(s, es[0]);
      LaterLabelsStop(u, es[1..]);
    }
  }

  lemma DocumentCalls(e: Entry)
    requires e.Document?
    ensures OneCalls(e) == BranchCalls(e.root)
  {
  }

  lemma EntryHead(es: seq<Entry>)
    requires es != [] && DocumentsLabelled(es) && RootsVisible(es)
    ensures es[0].Document? ==> Labelled(es[0].root)
    ensures es[0].Document? && Labels(es[0].root) != [] ==> Visible(Labels(es[0].root)[0].text)
    ensures DocumentsLabelled(es[1..]) && RootsVisible(es[1..])
  {
    hide Labelled, Visible;
  }

  /** Everything is written exactly when only the first document has an anchor or a tag at its root. */
  lemma AllWrittenExactly(globals: seq<Op>, es: seq<Entry>)
    requires forall i | 0 <= i < |globals| :: SetsGlobally(globals[i])
    requires DocumentsLabelled(es) && RootsVisible(es)
    ensures INITIAL.Run(globals + EntryCalls(es)).good <==> FirstOnly(es, 0)
  {
    hide *;
    if FirstOnly(es, 0) {
      OutputIsSpelled(globals, es);
    } else {
      RunConcat(INITIAL, globals, EntryCalls(es));
      GloballyOutside(globals);
      LaterLabelsStop(INITIAL.Run(globals), es);
    }
  }

  // ---- what stands apart

  predicate Blank(t: Token) { t == Space || t == Newline || t.Pad? }

  /** Between a label that its line goes on behind and what follows in its node there is a blank or a line
      break. */
  lemma LabelsStandApart(at: Spot, child: Child, col: nat)
    requires col > 0
    ensures Later(at, child, col) != [] && Blank(Later(at, child, col)[0])
  {
  }

  /** Between an alias that is a key and its colon there is a blank or a line break, exactly but for long
      entries in flow layout: there the colon follows at once, and is read as part of the alias. */
  lemma AliasesStandApartExactly(f: Frame, n: nat, long: bool, child: Child, col: nat)
    requires f.kind == Map && n % 2 == 1 && f.outer <= col
    ensures var lead := First(Inside(f, n, long, true), child, col);
            && lead != [] && (Blank(lead[0]) || lead[0] == Colon)
            && (lead[0] == Colon <==> f.flow && long)
  {
    hide After, Room;
  }
}
