/** One separator for every node: how many dashes, commas and colons a run writes, told by its calls. Comments,
    line breaks, anchors and tags never add one or take one away. */
module EmitterSeparators {
  import opened EmitterModel
  import opened EmitterLayout
  import opened EmitterTree
  import opened Wrappers
  import EmitterKeys
  import M = EmitterMarks
  import S = EmitterSafety

  predicate Separator(t: Token) { t == Dash || t == Comma || t == Colon }

  function Count(t: Token, ts: seq<Token>): nat
    decreases |ts|
  {
    if ts == [] then 0 else Count(t, ts[..|ts| - 1]) + (if ts[|ts| - 1] == t then 1 else 0)
  }

  lemma {:induction false} CountConcat(t: Token, a: seq<Token>, b: seq<Token>)
    ensures Count(t, a + b) == Count(t, a) + Count(t, b)
    decreases |b|
  {
    if b == [] {
      assert a + b == a;
    } else {
      var front := b[..|b| - 1];
      CountConcat(t, a, front);
      assert (a + b)[..|a + b| - 1] == a + front;
    }
  }

  lemma {:induction false} CountStructural(t: Token, ts: seq<Token>)
    requires Separator(t)
    ensures Count(t, Structural(ts)) == Count(t, ts)
    decreases |ts|
  {
    if ts != [] {
      var front, last := ts[..|ts| - 1], ts[|ts| - 1];
      CountStructural(t, front);
      CountConcat(t, Structural(front), OnlyMark(last));
      CountOne(t, last);
    }
  }

  lemma CountOne(t: Token, x: Token)
    ensures Count(t, [x]) == (if x == t then 1 else 0) && Count(t, []) == 0
    ensures Separator(t) ==> Count(t, OnlyMark(x)) == if x == t then 1 else 0
  {
    assert [x][..0] == [];
  }

  /** The separator in front of the next child of the group on top. */
  function SeparatorOf(s: State): Option<Token>
  {
    if s.groups == [] then None
    else
      var g := s.Top();
      var value := g.kind == Map && g.childCount % 2 == 1;
      if value then Some(Colon)
      else if g.flow == Flow then (if g.childCount == 0 then None else Some(Comma))
      else if g.kind == Seq then Some(Dash)
      else None
  }

  /** Whether it has been written: in flow layout and in short entries by a comment or a line break too, else only
      by an anchor or a tag. */
  predicate Written(s: State)
    requires s.groups != []
  {
    if s.Top().flow == Flow || (s.Top().kind == Map && !s.Top().longKey) then s.HasBegunNode() else s.HasBegunContent()
  }

  /** A separator whose node has not been written yet. */
  function Pending(s: State, t: Token): nat { if SeparatorOf(s) == Some(t) && Written(s) then 1 else 0 }

  predicate WritesNode(op: Op) { op.WriteScalar? || op.WriteAlias? || op.BeginGroup? }

  /** The separators that a call accounts for: that of the node it writes, or one that the end of a group leaves
      behind a comment. */
  function Accounts(s: State, op: Op, t: Token): nat
  {
    if WritesNode(op) then (if SeparatorOf(s) == Some(t) then 1 else 0)
    else if op.EndGroup? then Pending(s, t)
    else 0
  }

  function Accounted(s: State, ops: seq<Op>, t: Token): nat
    decreases |ops|
  {
    if ops == [] then 0 else Accounts(s, ops[0], t) + Accounted(s.Step(ops[0]), ops[1..], t)
  }

  /** The balance of one call. */
  ghost predicate Balances(s: State, op: Op, t: Token)
  {
    var u := s.Step(op);
    Count(t, u.out) + Pending(s, t) == Count(t, s.out) + Accounts(s, op, t) + Pending(u, t)
  }

  // ---- what a preparation counts

  lemma {:induction false} ShortCount(t: Token, lead: seq<Token>)
    requires |lead| <= 2
    ensures Count(t, lead) ==
            (if |lead| > 0 && lead[0] == t then 1 else 0) + (if |lead| > 1 && lead[1] == t then 1 else 0)
  {
    if |lead| == 1 {
      assert lead == [lead[0]];
      CountOne(t, lead[0]);
    } else if |lead| == 2 {
      assert lead == [lead[0]] + [lead[1]];
      CountConcat(t, [lead[0]], [lead[1]]);
      CountOne(t, lead[0]);
      CountOne(t, lead[1]);
    }
  }

  /** A lead holds the separator of its node, unless it has been written or a block waits for the content. */
  predicate Leads(s: State, child: Child, t: Token)
    requires s.groups != []
  {
    SeparatorOf(s) == Some(t) && !Written(s) &&
    (child != NoNode || s.Top().flow == Flow || (s.Top().kind == Map && !s.Top().longKey))
  }

  lemma LeadCounts(s: State, child: Child, t: Token)
    requires s.groups != [] && Separator(t)
    ensures |Lead(s, child)| <= 2
    ensures Count(t, Lead(s, child)) == if Leads(s, child, t) then 1 else 0
  {
    var lead := Lead(s, child);
    LeadShort(s, child);
    ShortCount(t, lead);
    hide Count;
    LeadHas(s, child, t);
  }

  lemma LeadShort(s: State, child: Child)
    requires s.groups != []
    ensures |Lead(s, child)| <= 2
  {
    hide LaidOutLong;
  }

  lemma LeadHas(s: State, child: Child, t: Token)
    requires s.groups != [] && Separator(t)
    ensures var lead := Lead(s, child);
            && (Leads(s, child, t) <==> lead != [] && lead[0] == t)
            && (|lead| > 1 ==> lead[1] != t)
  {
    OddLong(s, child);
    hide LaidOutLong, State.HasBegunNode, State.HasBegunContent;
  }

  lemma OddLong(s: State, child: Child)
    requires s.groups != []
    ensures s.Top().childCount % 2 == 1 ==> LaidOutLong(s, child) == s.Top().longKey
  {
  }

  lemma WroteCounts(s: State, u: State, ts: seq<Token>, t: Token)
    requires Wrote(s, u, ts) && Separator(t)
    ensures Count(t, u.out) == Count(t, s.out) + Count(t, ts)
  {
    WroteParts(s, u, ts);
    CountStructural(t, s.out);
    CountStructural(t, u.out);
    CountConcat(t, Structural(s.out), ts);
    hide Count, Structural, Wrote;
  }

  /** Room made: the separator of the node is there. */
  ghost predicate Makes(s: State, child: Child, p: State, t: Token)
  {
    Count(t, p.out) == Count(t, s.out) + (if s.groups != [] && Leads(s, child, t) then 1 else 0)
  }

  lemma QuietCounts(s: State, u: State, t: Token)
    requires Wrote(s, u, []) && Separator(t)
    ensures Count(t, u.out) == Count(t, s.out) && u.groups == s.groups
  {
    WroteCounts(s, u, [], t);
    WroteParts(s, u, []);
    CountOne(t, t);
    hide Count, Structural, Wrote;
  }

  lemma BeginDocCounts(s: State, t: Token)
    requires s.groups == [] && Separator(t)
    ensures Count(t, s.EmitBeginDoc().out) == Count(t, s.out) && s.EmitBeginDoc().groups == []
    ensures Count(t, s.EmitEndDoc().out) == Count(t, s.out) && s.EmitEndDoc().groups == []
  {
    hide *;
    var b := s.BreakIf(s.col > 0);
    DocOut(s);
    BreakIsQuiet(s, s.col > 0);
    QuietCounts(s, b, t);
    NoMarker(t);
    ContentCounts(b, DocStart, t);
    ContentCounts(b, DocEnd, t);
  }

  lemma NoMarker(t: Token)
    ensures !Separator(DocStart) && !Separator(DocEnd)
  {
  }

  lemma DocOut(s: State)
    requires s.groups == []
    ensures var b := s.BreakIf(s.col > 0);
            && (s.EmitBeginDoc().out == s.out || s.EmitBeginDoc().out == b.Put(DocStart).out)
            && (s.EmitEndDoc().out == s.out || s.EmitEndDoc().out == b.Put(DocEnd).out)
            && s.EmitBeginDoc().groups == [] && s.EmitEndDoc().groups == []
  {
  }

  /** In front of a document no separator is written. */
  lemma RootPrepared(s: State, child: Child, t: Token)
    requires s.groups == [] && Separator(t)
    ensures Count(t, s.PrepareNode(child).out) == Count(t, s.out) && s.PrepareNode(child).groups == []
  {
    hide *;
    if child == NoNode {
      NothingAtRoot(s);
    } else {
      var b := if s.docCount > 0 && s.col > 0 then s.EmitBeginDoc() else s;
      EmitterKeys.TopNodeForm(s, child);
      BeginDocCounts(s, t);
      BreakIsQuiet(b, b.HasBegunNode());
      SpaceIsQuiet(b, b.HasBegunContent(), 0);
      QuietCounts(b, b.BreakIf(b.HasBegunNode()), t);
      QuietCounts(b, b.SpaceOrIndentTo(b.HasBegunContent(), 0), t);
    }
  }

  lemma NothingAtRoot(s: State)
    requires s.groups == []
    ensures s.PrepareNode(NoNode) == s
  {
  }

  lemma RootMakes(s: State, child: Child, t: Token)
    requires s.groups == [] && Separator(t)
    ensures Makes(s, child, s.PrepareNode(child), t)
  {
    RootPrepared(s, child, t);
    hide Count, State.PrepareNode;
  }

  lemma Prepares(s: State, child: Child, t: Token)
    requires Separator(t) && (s.InFlow() ==> child != BlockSeq && child != BlockMap)
    ensures Makes(s, child, s.PrepareNode(child), t)
  {
    hide *;
    if s.groups == [] {
      RootMakes(s, child, t);
    } else {
      PrepareWrites(s, child);
      LeadCounts(s, child, t);
      DecidedOut(s, child);
      WroteCounts(Decided(s, child), s.PrepareNode(child), Lead(s, child), t);
      MakesIs(s, child, s.PrepareNode(child), t);
    }
  }

  lemma DecidedOut(s: State, child: Child)
    requires s.groups != []
    ensures Decided(s, child).out == s.out
  {
    DecidedTop(s, child);
    hide Decided;
  }

  lemma MakesIs(s: State, child: Child, p: State, t: Token)
    requires s.groups != []
    requires Count(t, p.out) == Count(t, s.out) + if Leads(s, child, t) then 1 else 0
    ensures Makes(s, child, p, t)
  {
    hide Count, Leads;
  }

  // ---- nodes

  lemma ContentCounts(p: State, x: Token, t: Token)
    requires Separator(t) && !Separator(x)
    ensures Count(t, p.Put(x).out) == Count(t, p.out)
  {
    CountConcat(t, p.out, [x]);
    CountOne(t, x);
    hide Count;
  }

  lemma StartedOut(p: State, kind: GroupType)
    ensures p.StartedNode().out == p.out && p.StartedScalar().out == p.out && p.StartedGroup(kind).out == p.out
    ensures !p.StartedNode().HasBegunNode() && !p.StartedScalar().HasBegunNode()
    ensures !p.StartedGroup(kind).HasBegunNode() && !p.StartedGroup(kind).HasBegunContent()
    ensures !p.StartedNode().HasBegunContent() && !p.StartedScalar().HasBegunContent()
  {
    EmitterKeys.CountingWritesNothing(p);
    assert !p.StartedNode().HasBegunNode() && !p.StartedNode().HasBegunContent();
    hide State.StartedNode, Restore, State.FlowOf, State.CurGroupIndent;
  }

  lemma NotPending(u: State, t: Token)
    requires !u.HasBegunNode() && !u.HasBegunContent()
    ensures Pending(u, t) == 0
  {
  }

  /** What leads to a node and what is still pending make up its separator. */
  lemma LeadsOrPends(s: State, child: Child, t: Token)
    requires child != NoNode
    ensures (if s.groups != [] && Leads(s, child, t) then 1 else 0) + Pending(s, t) ==
            if SeparatorOf(s) == Some(t) then 1 else 0
  {
  }

  lemma NodeBalances(s: State, op: Op, child: Child, p: State, t: Token)
    requires WritesNode(op) && child != NoNode && Makes(s, child, p, t)
    requires var u := s.Step(op);
             Count(t, u.out) == Count(t, p.out) && !u.HasBegunNode() && !u.HasBegunContent()
    ensures Balances(s, op, t)
  {
    LeadsOrPends(s, child, t);
    NotPending(s.Step(op), t);
    hide Count, State.Step, Leads, Pending, SeparatorOf;
  }

  lemma ScalarBalances(s: State, text: string, long: bool, t: Token)
    requires s.good && Separator(t)
    ensures Balances(s, WriteScalar(text, long), t)
  {
    var a := if long then s.SetLocal(MapKeyFormat, s.settings.(longKeys := true)) else s;
    var p := a.PrepareNode(Scalar);
    ScalarIs(s, text, long);
    assert a.InFlow() ==> Scalar != BlockSeq && Scalar != BlockMap;
    hide *;
    Prepares(a, Scalar, t);
    SameMakes(s, a, Scalar, p, t);
    NoSeparator(text, t);
    ContentCounts(p, Content(text), t);
    StartedOut(p.Put(Content(text)), Seq);
    NodeBalances(s, WriteScalar(text, long), Scalar, p, t);
  }

  lemma NoSeparator(text: string, t: Token)
    ensures !Separator(Content(text)) && !Separator(Remark(text)) && !Separator(Newline) && !Separator(Pad(2))
  {
  }

  lemma SameMakes(s: State, a: State, child: Child, p: State, t: Token)
    requires a == s.(settings := a.settings, modified := a.modified) && Makes(a, child, p, t)
    ensures Makes(s, child, p, t)
  {
    if s.groups != [] { SameLeads(s, a, child, t); }
    hide Count, Leads;
  }

  lemma SameLeads(s: State, a: State, child: Child, t: Token)
    requires a == s.(settings := a.settings, modified := a.modified) && s.groups != []
    ensures Leads(a, child, t) == Leads(s, child, t)
  {
  }

  lemma ScalarIs(s: State, text: string, long: bool)
    requires s.good
    ensures var a := if long then s.SetLocal(MapKeyFormat, s.settings.(longKeys := true)) else s;
            && s.Step(WriteScalar(text, long)) == a.PrepareNode(Scalar).Put(Content(text)).StartedScalar()
            && a == s.(settings := a.settings, modified := a.modified)
            && WritesNode(WriteScalar(text, long))
  {
    hide State.PrepareNode, State.StartedScalar, State.Put;
  }

  lemma AliasBalances(s: State, text: string, valid: bool, t: Token)
    requires s.good && Separator(t) && s.Step(WriteAlias(text, valid)).good
    ensures Balances(s, WriteAlias(text, valid), t)
  {
    var p := s.PrepareNode(Scalar);
    AliasIs(s, text, valid);
    assert s.InFlow() ==> Scalar != BlockSeq && Scalar != BlockMap;
    hide *;
    Prepares(s, Scalar, t);
    NoSeparator(text, t);
    ContentCounts(p, Content(text), t);
    StartedOut(p.Put(Content(text)), Seq);
    Flags(p.Put(Content(text)).StartedScalar());
    NodeBalances(s, WriteAlias(text, valid), Scalar, p, t);
  }

  lemma Flags(u: State)
    ensures var v := u.(hasAlias := true);
            v.HasBegunNode() == u.HasBegunNode() && v.HasBegunContent() == u.HasBegunContent() && v.out == u.out
  {
  }

  lemma AliasIs(s: State, text: string, valid: bool)
    requires s.good && s.Step(WriteAlias(text, valid)).good
    ensures s.Step(WriteAlias(text, valid)) ==
            s.PrepareNode(Scalar).Put(Content(text)).StartedScalar().(hasAlias := true)
    ensures WritesNode(WriteAlias(text, valid))
  {
    hide State.PrepareNode, State.StartedScalar, State.Put;
  }

  lemma GroupBalances(s: State, kind: GroupType, t: Token)
    requires s.good && Separator(t)
    ensures Balances(s, BeginGroup(kind), t)
  {
    var child := s.NextGroupType(kind);
    var p := s.PrepareNode(child);
    assert s.Step(BeginGroup(kind)) == p.StartedGroup(kind) && WritesNode(BeginGroup(kind))
      by { hide State.PrepareNode, State.StartedGroup, State.NextGroupType; }
    assert child != NoNode && (s.InFlow() ==> child != BlockSeq && child != BlockMap);
    hide *;
    Prepares(s, child, t);
    StartedOut(p, kind);
    NodeBalances(s, BeginGroup(kind), child, p, t);
  }

  // ---- beside nodes

  lemma PreparedGroups(s: State, child: Child)
    requires s.InFlow() ==> child != BlockSeq && child != BlockMap
    requires s.groups != []
    ensures var p := s.PrepareNode(child);
            && p.groups == Decided(s, child).groups && p.HasBegunNode() == s.HasBegunNode()
            && p.HasBegunContent() == s.HasBegunContent()
  {
    PrepareWrites(s, child);
    DecidedTop(s, child);
    WroteParts(Decided(s, child), s.PrepareNode(child), Lead(s, child));
    hide State.PrepareNode, Decided, Lead, Structural;
  }

  /** Behind a call beside a node its separator is pending, if it has been written. */
  lemma PendsAfter(s: State, child: Child, u: State, t: Token)
    requires s.groups != [] && u.groups == Decided(s, child).groups && (child == NoNode || child == Property)
    requires u.HasBegunNode() && (u.HasBegunContent() <==> s.HasBegunContent() || child == Property)
    ensures Pending(u, t) == (if Leads(s, child, t) then 1 else 0) + Pending(s, t)
  {
    DecidedTop(s, child);
    if s.Top().childCount % 2 == 1 { OddLong(s, child); }
    hide *;
    SameSeparator(s, u);
    if SeparatorOf(s) == Some(t) {
      PendsHere(s, child, u, t);
    } else {
      PendsNot(s, child, u, t);
    }
  }

  lemma SameSeparator(s: State, u: State)
    requires s.groups != [] && u.groups != []
    requires u.Top().kind == s.Top().kind && u.Top().flow == s.Top().flow && u.Top().childCount == s.Top().childCount
    ensures SeparatorOf(u) == SeparatorOf(s)
  {
  }

  lemma PendsNot(s: State, child: Child, u: State, t: Token)
    requires s.groups != [] && SeparatorOf(s) != Some(t) && SeparatorOf(u) != Some(t)
    ensures Pending(u, t) == (if Leads(s, child, t) then 1 else 0) + Pending(s, t)
  {
    hide SeparatorOf;
  }

  lemma PendsHere(s: State, child: Child, u: State, t: Token)
    requires s.groups != [] && u.groups != [] && SeparatorOf(s) == Some(t) && (child == NoNode || child == Property)
    requires u.Top().kind == s.Top().kind && u.Top().flow == s.Top().flow && u.Top().childCount == s.Top().childCount
    requires s.Top().kind == Map && s.Top().childCount % 2 == 1 ==> u.Top().longKey == s.Top().longKey
    requires u.HasBegunNode() && (u.HasBegunContent() <==> s.HasBegunContent() || child == Property)
    ensures Pending(u, t) == (if Leads(s, child, t) then 1 else 0) + Pending(s, t)
  {
    BegunBoth(s);
    hide State.HasBegunNode, State.HasBegunContent;
  }

  lemma BegunBoth(s: State)
    ensures s.HasBegunContent() ==> s.HasBegunNode()
  {
  }

  lemma BesideBalances(s: State, op: Op, t: Token)
    requires s.good && s.Step(op).good && Separator(t) && M.BesideKey(op) && !S.Sets(op)
    ensures Balances(s, op, t)
  {
    var child, b, u := M.ChildOf(op), M.Besides(s, op), s.Step(op);
    var p := s.PrepareNode(child);
    assert !WritesNode(op) && !op.EndGroup? && (child == NoNode || child == Property);
    MarkCount(op, t);
    hide *;
    M.BesideWrites(s, op);
    M.BesideFlags(s, op);
    FlaggedIs(b, u, child == Property);
    NotBlock(s, child);
    Prepares(s, child, t);
    WroteCounts(p, b, M.MarkOf(op), t);
    WroteParts(p, b, M.MarkOf(op));
    if s.groups != [] {
      PreparedGroups(s, child);
      SameFlags(p, b);
      PendsAfter(s, child, u, t);
      BesideSum(s, op, child, p, t);
    } else {
      RootPrepared(s, child, t);
      SameFlags(p, b);
      RootPends(s, u, t);
      BesideSumRoot(s, op, child, p, t);
    }
  }

  lemma SameFlags(p: State, b: State)
    requires b == S.WithOutput(p, b)
    ensures b.HasBegunNode() == p.HasBegunNode() && b.HasBegunContent() == p.HasBegunContent() && b.groups == p.groups
  {
  }

  lemma NotBlock(s: State, child: Child)
    requires child == NoNode || child == Property
    ensures s.InFlow() ==> child != BlockSeq && child != BlockMap
  {
  }

  lemma MarkCount(op: Op, t: Token)
    requires Separator(t)
    ensures Count(t, M.MarkOf(op)) == 0
  {
    ShortCount(t, M.MarkOf(op));
  }

  lemma FlaggedIs(b: State, u: State, property: bool)
    requires M.Flagged(b, u, property)
    ensures u.out == b.out && u.groups == b.groups && u.HasBegunNode()
    ensures u.HasBegunContent() <==> b.HasBegunContent() || property
  {
  }

  lemma RootPends(s: State, u: State, t: Token)
    requires s.groups == [] && u.groups == []
    ensures Pending(s, t) == 0 && Pending(u, t) == 0
  {
  }

  lemma BesideSum(s: State, op: Op, child: Child, p: State, t: Token)
    requires s.groups != [] && Makes(s, child, p, t) && !WritesNode(op) && !op.EndGroup?
    requires var u := s.Step(op);
             && Count(t, u.out) == Count(t, p.out)
             && Pending(u, t) == (if Leads(s, child, t) then 1 else 0) + Pending(s, t)
    ensures Balances(s, op, t)
  {
    hide Count, State.Step, Leads, Pending;
  }

  lemma BesideSumRoot(s: State, op: Op, child: Child, p: State, t: Token)
    requires s.groups == [] && Makes(s, child, p, t) && !WritesNode(op) && !op.EndGroup?
    requires var u := s.Step(op);
             Count(t, u.out) == Count(t, p.out) && Pending(u, t) == Pending(s, t)
    ensures Balances(s, op, t)
  {
    hide Count, State.Step, Pending;
  }

  // ---- the other calls

  lemma DocBalances(s: State, op: Op, t: Token)
    requires s.good && s.Step(op).good && Separator(t) && (op.BeginDoc? || op.EndDoc?)
    ensures Balances(s, op, t)
  {
    assert s.groups == [] && s.Step(op) == if op.BeginDoc? then s.EmitBeginDoc() else s.EmitEndDoc()
      by { hide State.BreakIf; }
    BeginDocCounts(s, t);
    hide Count, State.Step, State.EmitBeginDoc, State.EmitEndDoc;
    RootPends(s, s.Step(op), t);
  }

  lemma SettingBalances(s: State, op: Op, t: Token)
    requires S.Sets(op)
    ensures Balances(s, op, t)
  {
    var u := s.Step(op);
    S.SettingOnly(s, op);
    assert u == s.(settings := u.settings, modified := u.modified, globalModified := u.globalModified);
    hide State.Step, Count;
  }

  lemma EndedOut(x: State, kind: GroupType)
    ensures x.EndedGroup(kind).out == x.out
    ensures x.EndedGroup(kind).good ==> !x.EndedGroup(kind).HasBegunNode() && !x.EndedGroup(kind).HasBegunContent()
  {
    if x.groups != [] {
      PoppedOut(x);
      BackOut(x.Popped());
    }
    hide State.Popped, State.BackBelow, State.HasBegunNode, State.HasBegunContent;
  }

  lemma PoppedOut(x: State)
    requires x.groups != []
    ensures x.Popped().out == x.out
  {
    hide Restore;
  }

  lemma BackOut(x: State)
    ensures var u := x.BackBelow();
            u.out == x.out && !u.HasBegunNode() && !u.HasBegunContent()
  {
    hide Restore, State.CurGroupIndent;
  }

  lemma EndForm(s: State, kind: GroupType)
    requires s.good && s.EmitEndGroup(kind).good
    ensures s.groups != []
    ensures s.Top().flow == Flow || s.Top().childCount == 0 ==>
              s.EmitEndGroup(kind) == S.Forced(s).CloseFlow(kind, s.Top().flow == Block).EndedGroup(kind)
    ensures s.Top().flow == Block && s.Top().childCount > 0 ==> s.EmitEndGroup(kind) == s.EndedGroup(kind)
  {
    NoGroup(s, kind);
    if (s.Top().flow == Flow || s.Top().childCount == 0) { S.FlowEndForm(s, kind); }
    hide State.CloseFlow, State.EndedGroup, S.Forced;
  }

  lemma NoGroup(s: State, kind: GroupType)
    requires s.good
    ensures s.groups == [] ==> !s.EmitEndGroup(kind).good
  {
    hide State.CloseFlow;
  }

  lemma ClosingCounts(f: State, kind: GroupType, wasBlock: bool, t: Token)
    requires Separator(t)
    ensures Count(t, f.CloseFlow(kind, wasBlock).out) == Count(t, f.out)
  {
    S.CloseFlowWrites(f, kind, wasBlock);
    WroteCounts(f, f.CloseFlow(kind, wasBlock), S.Closing(f, kind, wasBlock), t);
    BracketCount(f, kind, wasBlock, t);
    hide Count, Wrote, State.CloseFlow, S.Closing;
  }

  lemma BracketCount(f: State, kind: GroupType, wasBlock: bool, t: Token)
    requires Separator(t)
    ensures Count(t, S.Closing(f, kind, wasBlock)) == 0
  {
    ShortCount(t, S.Closing(f, kind, wasBlock));
    hide Count;
  }

  lemma EndBalances(s: State, kind: GroupType, t: Token)
    requires s.good && Separator(t) && s.EmitEndGroup(kind).good
    ensures Balances(s, EndGroup(kind), t)
  {
    hide *;
    var u := s.EmitEndGroup(kind);
    EndForm(s, kind);
    if s.Top().flow == Flow || s.Top().childCount == 0 {
      var f, wasBlock := S.Forced(s), s.Top().flow == Block;
      S.ForcedIs(s);
      ClosingCounts(f, kind, wasBlock, t);
      EndedOut(f.CloseFlow(kind, wasBlock), kind);
    } else {
      EndedOut(s, kind);
    }
    NotPending(u, t);
    EndSum(s, kind, t);
  }

  lemma EndSum(s: State, kind: GroupType, t: Token)
    requires var u := s.EmitEndGroup(kind);
             Count(t, u.out) == Count(t, s.out) && Pending(u, t) == 0
    ensures Balances(s, EndGroup(kind), t)
  {
    hide Count, Pending, State.EmitEndGroup;
  }

  /** Every call of a good run balances. */
  lemma StepBalances(s: State, op: Op, t: Token)
    requires s.good && s.Step(op).good && Separator(t)
    ensures Balances(s, op, t)
  {
    hide Balances, State.EmitBeginDoc, State.EmitEndDoc, State.EmitBeginGroup, State.EmitEndGroup, State.EmitNewline,
      State.EmitScalar, State.EmitAlias, State.EmitAnchor, State.EmitTag, State.EmitComment, State.SetLocal,
      State.SetGlobal;
    match op
    case BeginDoc => DocBalances(s, op, t);
    case EndDoc => DocBalances(s, op, t);
    case BeginGroup(kind) => GroupBalances(s, kind, t);
    case EndGroup(kind) => EndBalances(s, kind, t);
    case LineBreak => BesideBalances(s, op, t);
    case WriteScalar(text, long) => ScalarBalances(s, text, long, t);
    case WriteAlias(text, valid) => AliasBalances(s, text, valid, t);
    case WriteAnchor(_, _) => BesideBalances(s, op, t);
    case WriteTag(_, _) => BesideBalances(s, op, t);
    case WriteComment(_) => BesideBalances(s, op, t);
    case _ => SettingBalances(s, op, t);
  }

  // ---- every run

  lemma {:induction false} RunBalances(s: State, ops: seq<Op>, t: Token)
    requires s.good && s.Run(ops).good && Separator(t)
    ensures Count(t, s.Run(ops).out) + Pending(s, t) == Count(t, s.out) + Accounted(s, ops, t) + Pending(s.Run(ops), t)
    decreases |ops|
  {
    hide State.Step, Count, Pending, Accounts;
    if ops != [] {
      var u := s.Step(ops[0]);
      assert s.Run(ops) == u.Run(ops[1..]);
      assert Accounted(s, ops, t) == Accounts(s, ops[0], t) + Accounted(u, ops[1..], t);
      hide State.Run, Accounted;
      if !u.good { S.RunStopped(u, ops[1..]); }
      StepBalances(s, ops[0], t);
      RunBalances(u, ops[1..], t);
    }
  }

  /** A run that is still good and has ended every group has written exactly one dash for each item of a block
      sequence, one comma for each later item and entry of a flow group, one colon for each value, and one more
      for each flow group that ends behind a comment or a line break where it had begun a node. */
  lemma OneSeparatorEach(ops: seq<Op>, t: Token)
    requires INITIAL.Run(ops).good && INITIAL.Run(ops).groups == [] && Separator(t)
    ensures Count(t, INITIAL.Run(ops).out) == Accounted(INITIAL, ops, t)
  {
    RunBalances(INITIAL, ops, t);
    hide State.Run, Accounted, Pending;
    assert Count(t, INITIAL.out) == 0;
    RootPends(INITIAL, INITIAL.Run(ops), t);
  }
}
