/** What the emitter writes in front of each node: the output without its layout, and the
    structure every PrepareNode variant adds to it. */
module EmitterLayout {
  import opened EmitterModel
  import opened Wrappers

  // ---- the output without its layout

  predicate Mark(t: Token)
  {
    t.Open? || t.Close? || t.Comma? || t.Dash? || t.Question? || t.Colon? || t.Content?
  }

  function OnlyMark(t: Token): seq<Token> { if Mark(t) then [t] else [] }

  /** The output without blanks, line breaks, comments and document markers. */
  function Structural(ts: seq<Token>): seq<Token>
    decreases |ts|
  {
    if ts == [] then [] else Structural(ts[..|ts| - 1]) + OnlyMark(ts[|ts| - 1])
  }

  /** The flow groups opened and not closed, outermost first, or None when a bracket
      closes something else than the last one opened. */
  function Unmatched(ts: seq<Token>): Option<seq<GroupType>>
    decreases |ts|
  {
    if ts == [] then Some([])
    else
      var before := Unmatched(ts[..|ts| - 1]);
      if before.None? then None else AfterBracket(before.value, ts[|ts| - 1])
  }

  function AfterBracket(open: seq<GroupType>, t: Token): Option<seq<GroupType>>
  {
    match t
    case Open(kind) => Some(open + [kind])
    case Close(kind) =>
      if open != [] && open[|open| - 1] == kind then Some(open[..|open| - 1]) else None
    case _ => Some(open)
  }

  lemma UnmatchedPut(ts: seq<Token>, t: Token)
    ensures Unmatched(ts + [t]) ==
            if Unmatched(ts).None? then None else AfterBracket(Unmatched(ts).value, t)
  {
    assert (ts + [t])[..|ts|] == ts;
  }

  lemma StructuralPut(ts: seq<Token>, t: Token)
    ensures Structural(ts + [t]) == Structural(ts) + OnlyMark(t)
  {
    assert (ts + [t])[..|ts|] == ts;
  }

  /** Layout never opens or closes a bracket. */
  lemma {:induction false} UnmatchedOfStructural(ts: seq<Token>)
    ensures Unmatched(Structural(ts)) == Unmatched(ts)
    decreases |ts|
  {
    if ts != [] {
      var front, last := ts[..|ts| - 1], ts[|ts| - 1];
      UnmatchedOfStructural(front);
      if Mark(last) {
        UnmatchedPut(Structural(front), last);
      } else {
        assert Structural(ts) == Structural(front);
      }
    }
  }

  // ---- steps that only write

  /** The column behind a piece of output. */
  function ColumnBehind(ts: seq<Token>): nat
    decreases |ts|
  {
    if ts == [] then 0 else TokenColumn(ColumnBehind(ts[..|ts| - 1]), ts[|ts| - 1])
  }

  /** The column that the stream keeps is the one behind its output. */
  predicate Tracked(s: State) { s.col == ColumnBehind(s.out) }

  /** `t` is `s` after writing something whose structure is `ts`; the stream still keeps the
      column of its output. */
  ghost predicate Wrote(s: State, t: State, ts: seq<Token>)
  {
    && t == s.(out := t.out, col := t.col, comment := t.comment)
    && Structural(t.out) == Structural(s.out) + ts
    && (Tracked(s) ==> Tracked(t))
  }

  lemma WroteThen(s: State, t: State, u: State, a: seq<Token>, b: seq<Token>)
    requires Wrote(s, t, a) && Wrote(t, u, b)
    ensures Wrote(s, u, a + b)
  {
    assert Structural(s.out) + (a + b) == Structural(s.out) + a + b;
  }

  lemma PutWrites(s: State, t: Token)
    ensures Wrote(s, s.Put(t), OnlyMark(t))
  {
    StructuralPut(s.out, t);
    assert (s.out + [t])[..|s.out|] == s.out;
    hide Structural, OnlyMark, TokenColumn, TokenComment;
  }

  lemma BreakIsQuiet(s: State, condition: bool)
    ensures Wrote(s, s.BreakIf(condition), [])
  {
    hide Wrote, State.Put;
    PutWrites(s, Newline);
    NothingWrites(s);
  }

  lemma IndentIsQuiet(s: State, n: int)
    ensures Wrote(s, s.IndentTo(n), [])
  {
    hide Wrote, State.Put;
    NothingWrites(s);
    if s.col < n {
      PutWrites(s, Pad(n - s.col));
    }
  }

  lemma NothingWrites(s: State)
    ensures Wrote(s, s, [])
  {
    assert Structural(s.out) + [] == Structural(s.out);
  }

  /** Writing nothing of structure twice. */
  lemma QuietThen(s: State, t: State, u: State, ts: seq<Token>)
    requires Wrote(s, t, []) && Wrote(t, u, ts)
    ensures Wrote(s, u, ts)
  {
    WroteThen(s, t, u, [], ts);
    assert [] + ts == ts;
  }

  lemma ThenQuiet(s: State, t: State, u: State, ts: seq<Token>)
    requires Wrote(s, t, ts) && Wrote(t, u, [])
    ensures Wrote(s, u, ts)
  {
    WroteThen(s, t, u, ts, []);
    assert ts + [] == ts;
  }

  lemma SpaceIsQuiet(s: State, requireSpace: bool, n: int)
    ensures Wrote(s, s.SpaceOrIndentTo(requireSpace, n), [])
  {
    hide Wrote, State.BreakIf, State.Put, State.IndentTo;
    var t := s.BreakIf(s.comment);
    BreakIsQuiet(s, s.comment);
    if t.col > 0 && requireSpace {
      PutWrites(t, Space);
      IndentIsQuiet(t.Put(Space), n);
      QuietThen(t, t.Put(Space), t.Put(Space).IndentTo(n), []);
    } else {
      IndentIsQuiet(t, n);
    }
    QuietThen(s, t, s.SpaceOrIndentTo(requireSpace, n), []);
  }

  lemma FlowStartIsQuiet(s: State)
    ensures Wrote(s, s.FlowStart(), [])
  {
    hide Wrote, State.BreakIf, State.IndentTo;
    BreakIsQuiet(s, s.comment);
    IndentIsQuiet(s.BreakIf(s.comment), s.LastIndent());
    QuietThen(s, s.BreakIf(s.comment), s.FlowStart(), []);
  }

  lemma FlowChildIsQuiet(s: State, child: Child)
    requires child != BlockSeq && child != BlockMap
    ensures Wrote(s, s.FlowChild(child), [])
  {
    hide Wrote, State.SpaceOrIndentTo;
    NothingWrites(s);
    SpaceIsQuiet(s, s.HasBegunContent() || s.CurGroupChildCount() > 0, s.LastIndent());
  }

  // ---- what the preparation of a node writes

  /** Whether the entry at hand of a map is laid out in the long form. */
  predicate LaidOutLong(s: State, child: Child)
    requires s.groups != []
  {
    || s.Top().longKey
    || (s.Top().childCount % 2 == 0
        && (s.settings.longKeys || (s.Top().flow == Block && child in {BlockSeq, BlockMap, Property})))
  }

  /** The state with the layout of the entry at hand decided. */
  function Decided(s: State, child: Child): State
  {
    if s.groups == [] || s.Top().kind != Map then s
    else s.WithTop(s.Top().(longKey := LaidOutLong(s, child)))
  }

  /** The structure in front of a node, or of a comment when `child` is NoNode. */
  function Lead(s: State, child: Child): seq<Token>
    requires s.groups != []
  {
    var g := s.Top();
    var first := if g.childCount == 0 then Open(g.kind) else Comma;
    if g.flow == Flow then
      if s.HasBegunNode() then []
      else if g.kind == Seq then [first]
      else if g.childCount % 2 == 1 then [Colon]
      else if LaidOutLong(s, child) then [first, Question]
      else [first]
    else if g.kind == Seq then
      if child == NoNode || s.HasBegunContent() then [] else [Dash]
    else if LaidOutLong(s, child) then
      if child == NoNode || s.HasBegunContent() then []
      else if g.childCount % 2 == 0 then [Question] else [Colon]
    else if g.childCount % 2 == 0 || s.HasBegunNode() then [] else [Colon]
  }

  lemma FlowSeqWrites(s: State, child: Child)
    requires s.CurGroupNodeType() == FlowSeq && child != BlockSeq && child != BlockMap
    ensures Wrote(s, s.FlowSeqPrepareNode(child), Lead(s, child))
  {
    hide Wrote, State.FlowStart, State.Put, State.FlowChild;
    if s.HasBegunNode() {
      FlowChildIsQuiet(s, child);
    } else {
      var t := s.FlowStart();
      var u := t.Put(if s.CurGroupChildCount() == 0 then Open(Seq) else Comma);
      FlowStartIsQuiet(s);
      PutWrites(t, if s.CurGroupChildCount() == 0 then Open(Seq) else Comma);
      QuietThen(s, t, u, Lead(s, child));
      FlowChildIsQuiet(u, child);
      ThenQuiet(s, u, u.FlowChild(child), Lead(s, child));
    }
  }

  lemma QuestionWrites(s: State, first: Token)
    requires Mark(first)
    ensures Wrote(s, s.Put(first).Put(Space).Put(Question), [first, Question])
  {
    hide Wrote, State.Put;
    var u := s.Put(first);
    var v := u.Put(Space);
    PutWrites(s, first);
    PutWrites(u, Space);
    ThenQuiet(s, u, v, [first]);
    PutWrites(v, Question);
    WroteThen(s, v, v.Put(Question), [first], [Question]);
    assert [first] + [Question] == [first, Question];
  }

  lemma FlowMapLongKeyWrites(s: State, child: Child)
    requires s.CurGroupNodeType() == FlowMap && child != BlockSeq && child != BlockMap
    requires s.Top().childCount % 2 == 0 && s.Top().longKey
    ensures Wrote(s, s.FlowMapPrepareLongKey(child), Lead(s, child))
  {
    hide Wrote, State.FlowStart, State.Put, State.FlowChild;
    if s.HasBegunNode() {
      FlowChildIsQuiet(s, child);
    } else {
      var first := if s.CurGroupChildCount() == 0 then Open(Map) else Comma;
      var t := s.FlowStart();
      var u := t.Put(first).Put(Space).Put(Question);
      FlowStartIsQuiet(s);
      QuestionWrites(t, first);
      QuietThen(s, t, u, [first, Question]);
      FlowChildIsQuiet(u, child);
      ThenQuiet(s, u, u.FlowChild(child), [first, Question]);
    }
  }

  lemma FlowMapSimpleKeyWrites(s: State, child: Child)
    requires s.CurGroupNodeType() == FlowMap && child != BlockSeq && child != BlockMap
    requires s.Top().childCount % 2 == 0 && !LaidOutLong(s, child)
    ensures Wrote(s, s.FlowMapPrepareSimpleKey(child), Lead(s, child))
  {
    hide Wrote, State.FlowStart, State.Put, State.FlowChild;
    if s.HasBegunNode() {
      FlowChildIsQuiet(s, child);
    } else {
      var first := if s.CurGroupChildCount() == 0 then Open(Map) else Comma;
      var t := s.FlowStart();
      var u := t.Put(first);
      FlowStartIsQuiet(s);
      PutWrites(t, first);
      QuietThen(s, t, u, [first]);
      FlowChildIsQuiet(u, child);
      ThenQuiet(s, u, u.FlowChild(child), [first]);
    }
  }

  lemma FlowMapLongValueWrites(s: State, child: Child)
    requires s.CurGroupNodeType() == FlowMap && child != BlockSeq && child != BlockMap
    requires s.Top().childCount % 2 == 1
    ensures Wrote(s, s.FlowMapPrepareLongKeyValue(child), Lead(s, child))
  {
    hide Wrote, State.FlowStart, State.Put, State.FlowChild;
    if s.HasBegunNode() {
      FlowChildIsQuiet(s, child);
    } else {
      var t := s.FlowStart();
      var u := t.Put(Colon);
      FlowStartIsQuiet(s);
      PutWrites(t, Colon);
      QuietThen(s, t, u, [Colon]);
      FlowChildIsQuiet(u, child);
      ThenQuiet(s, u, u.FlowChild(child), [Colon]);
    }
  }

  lemma FlowMapSimpleValueWrites(s: State, child: Child)
    requires s.CurGroupNodeType() == FlowMap && child != BlockSeq && child != BlockMap
    requires s.Top().childCount % 2 == 1
    ensures Wrote(s, s.FlowMapPrepareSimpleKeyValue(child), Lead(s, child))
  {
    hide Wrote, State.FlowStart, State.Put, State.FlowChild;
    if s.HasBegunNode() {
      FlowChildIsQuiet(s, child);
    } else {
      var t := s.FlowStart();
      var u := if t.hasAlias then t.Put(Space) else t;
      var v := u.Put(Colon);
      FlowStartIsQuiet(s);
      PutWrites(t, Space);
      NothingWrites(t);
      QuietThen(s, t, u, []);
      PutWrites(u, Colon);
      QuietThen(s, u, v, [Colon]);
      FlowChildIsQuiet(v, child);
      ThenQuiet(s, v, v.FlowChild(child), [Colon]);
    }
  }

  /** A mark at the start of a line. */
  lemma LineStartWrites(s: State, condition: bool, n: int, t: Token)
    ensures Wrote(s, s.BreakIf(condition).IndentTo(n).Put(t), OnlyMark(t))
  {
    hide Wrote, OnlyMark, State.BreakIf, State.IndentTo, State.Put;
    var u := s.BreakIf(condition);
    var v := u.IndentTo(n);
    BreakIsQuiet(s, condition);
    IndentIsQuiet(u, n);
    QuietThen(s, u, v, []);
    PutWrites(v, t);
    QuietThen(s, v, v.Put(t), OnlyMark(t));
  }

  lemma BreakThenSpaceIsQuiet(s: State, condition: bool, requireSpace: bool, n: int)
    ensures Wrote(s, s.BreakIf(condition).SpaceOrIndentTo(requireSpace, n), [])
  {
    hide Wrote, State.BreakIf, State.SpaceOrIndentTo;
    var t := s.BreakIf(condition);
    BreakIsQuiet(s, condition);
    SpaceIsQuiet(t, requireSpace, n);
    QuietThen(s, t, t.SpaceOrIndentTo(requireSpace, n), []);
  }

  lemma BlockSeqWrites(s: State, child: Child)
    requires s.CurGroupNodeType() == BlockSeq
    ensures Wrote(s, s.BlockSeqPrepareNode(child), Lead(s, child))
  {
    hide Wrote, State.BreakIf, State.IndentTo, State.Put, State.SpaceOrIndentTo;
    NothingWrites(s);
    if child != NoNode {
      var v := if s.HasBegunContent() then s
               else s.BreakIf(s.CurGroupChildCount() > 0 || s.comment).IndentTo(s.curIndent).Put(Dash);
      LineStartWrites(s, s.CurGroupChildCount() > 0 || s.comment, s.curIndent, Dash);
      assert Wrote(s, v, Lead(s, child));
      PutWrites(v, Newline);
      BreakIsQuiet(v, v.HasBegunContent() || v.comment);
      SpaceIsQuiet(v, v.HasBegunContent(), s.curIndent + s.CurGroupIndent());
      ThenQuiet(s, v, s.BlockSeqPrepareNode(child), Lead(s, child));
    }
  }

  lemma BlockMapLongKeyWrites(s: State, child: Child)
    requires s.CurGroupNodeType() == BlockMap
    requires s.Top().childCount % 2 == 0 && s.Top().longKey
    ensures Wrote(s, s.BlockMapPrepareLongKey(child), Lead(s, child))
  {
    hide Wrote, State.BreakIf, State.IndentTo, State.Put, State.SpaceOrIndentTo;
    NothingWrites(s);
    if child != NoNode {
      var t := s.BreakIf(s.CurGroupChildCount() > 0);
      var u := t.BreakIf(t.comment).IndentTo(s.curIndent).Put(Question);
      BreakIsQuiet(s, s.CurGroupChildCount() > 0);
      LineStartWrites(t, t.comment, s.curIndent, Question);
      QuietThen(s, t, u, [Question]);
      var v := if s.HasBegunContent() then s else u;
      BreakIsQuiet(v, v.HasBegunContent());
      SpaceIsQuiet(v, true, s.curIndent + 1);
      ThenQuiet(s, v, s.BlockMapPrepareLongKey(child), Lead(s, child));
    }
  }

  lemma BlockMapLongValueWrites(s: State, child: Child)
    requires s.CurGroupNodeType() == BlockMap
    requires s.Top().childCount % 2 == 1 && s.Top().longKey
    ensures Wrote(s, s.BlockMapPrepareLongKeyValue(child), Lead(s, child))
  {
    hide Wrote, State.IndentTo, State.Put, State.SpaceOrIndentTo;
    NothingWrites(s);
    if child != NoNode {
      LineStartWrites(s, true, s.curIndent, Colon);
      var v := if s.HasBegunContent() then s else s.BreakIf(true).IndentTo(s.curIndent).Put(Colon);
      BreakThenSpaceIsQuiet(v, v.HasBegunContent(), true, s.curIndent + 1);
      SpaceIsQuiet(v, true, s.curIndent + 1);
      ThenQuiet(s, v, s.BlockMapPrepareLongKeyValue(child), Lead(s, child));
    }
  }

  lemma BlockMapSimpleKeyWrites(s: State, child: Child)
    requires s.CurGroupNodeType() == BlockMap
    requires s.Top().childCount % 2 == 0 && !LaidOutLong(s, child)
    ensures Wrote(s, s.BlockMapPrepareSimpleKey(child), Lead(s, child))
  {
    hide Wrote, State.BreakIf, State.SpaceOrIndentTo;
    NothingWrites(s);
    if child != NoNode {
      var t := s.BreakIf(!s.HasBegunNode() && s.CurGroupChildCount() > 0);
      BreakIsQuiet(s, !s.HasBegunNode() && s.CurGroupChildCount() > 0);
      SpaceIsQuiet(t, t.HasBegunContent(), s.curIndent);
      QuietThen(s, t, t.SpaceOrIndentTo(t.HasBegunContent(), s.curIndent), []);
    }
  }

  lemma BlockMapSimpleValueWrites(s: State, child: Child)
    requires s.CurGroupNodeType() == BlockMap
    requires s.Top().childCount % 2 == 1 && !s.Top().longKey
    ensures Wrote(s, s.BlockMapPrepareSimpleKeyValue(child), Lead(s, child))
  {
    hide Wrote, State.Put, State.SpaceOrIndentTo;
    NothingWrites(s);
    var u := if s.hasAlias then s.Put(Space) else s;
    var v := if s.HasBegunNode() then s else u.Put(Colon);
    PutWrites(s, Space);
    PutWrites(u, Colon);
    QuietThen(s, u, u.Put(Colon), [Colon]);
    PutWrites(v, Newline);
    SpaceIsQuiet(v, true, s.curIndent + s.CurGroupIndent());
    NothingWrites(v);
    ThenQuiet(s, v, s.BlockMapPrepareSimpleKeyValue(child), Lead(s, child));
  }

  lemma WithTopHas(s: State, g: Group)
    requires s.groups != []
    ensures var d := s.WithTop(g); d == s.(groups := d.groups) && d.groups != [] && d.Top() == g
  {
  }

  lemma DecidedTop(s: State, child: Child)
    requires s.groups != []
    ensures var d := Decided(s, child);
            && d == s.(groups := d.groups) && d.groups != []
            && (d.Top() == s.Top() || d.Top() == s.Top().(longKey := LaidOutLong(s, child)))
            && (s.Top().kind == Map ==> d.Top() == s.Top().(longKey := LaidOutLong(s, child)))
  {
    hide LaidOutLong, State.WithTop;
    WithTopHas(s, s.Top().(longKey := LaidOutLong(s, child)));
  }

  lemma DecidedLead(s: State, child: Child)
    requires s.groups != []
    ensures Decided(s, child).groups != []
    ensures Lead(Decided(s, child), child) == Lead(s, child)
    ensures Decided(s, child).CurGroupNodeType() == s.CurGroupNodeType()
    ensures s.Top().kind == Map ==>
              && Decided(s, child).Top() == s.Top().(longKey := LaidOutLong(s, child))
              && LaidOutLong(Decided(s, child), child) == LaidOutLong(s, child)
  {
    DecidedTop(s, child);
    hide Decided, Lead;
    var d := Decided(s, child);
    assert s.Top().kind == Map ==> LaidOutLong(d, child) == LaidOutLong(s, child);
    LeadOfTop(s, d, child);
  }

  /** The lead only looks at the top of the stack, and at a long key only in a map. */
  lemma LeadOfTop(s: State, d: State, child: Child)
    requires s.groups != [] && d.groups != [] && d == s.(groups := d.groups)
    requires d.Top() == s.Top().(longKey := d.Top().longKey)
    requires s.Top().kind == Map ==> LaidOutLong(d, child) == LaidOutLong(s, child)
    ensures Lead(d, child) == Lead(s, child)
  {
    hide LaidOutLong;
  }

  lemma KeepingTheTop(s: State)
    requires s.groups != []
    ensures s.WithTop(s.Top()) == s
  {
    assert s.groups[..|s.groups| - 1] + [s.Top()] == s.groups;
  }

  lemma FlowMapDispatch(s: State, child: Child)
    requires s.CurGroupNodeType() == FlowMap
    ensures var d := Decided(s, child);
            s.PrepareNode(child) ==
            if s.Top().childCount % 2 == 0
            then if LaidOutLong(s, child) then d.FlowMapPrepareLongKey(child) else d.FlowMapPrepareSimpleKey(child)
            else if LaidOutLong(s, child) then d.FlowMapPrepareLongKeyValue(child)
            else d.FlowMapPrepareSimpleKeyValue(child)
  {
    hide State.FlowMapPrepareLongKey, State.FlowMapPrepareSimpleKey, State.FlowMapPrepareLongKeyValue,
      State.FlowMapPrepareSimpleKeyValue, State.SetLongKey;
    KeepingTheTop(s);
    LongKeySet(s);
    assert s.PrepareNode(child) == s.FlowMapPrepareNode(child);
    hide State.PrepareNode;
    if s.Top().childCount % 2 == 0 {
      var t := if s.settings.longKeys then s.SetLongKey() else s;
      assert t == Decided(s, child);
    }
  }

  /** Asking for a long key, any number of times. */
  lemma LongKeySet(s: State)
    requires s.groups != [] && s.Top().kind == Map
    ensures var t := s.WithTop(s.Top().(longKey := true));
            s.SetLongKey() == t && t.SetLongKey() == t
  {
    var t := s.SetLongKey();
    assert t.groups[..|t.groups| - 1] == s.groups[..|s.groups| - 1];
  }

  lemma BlockMapDispatch(s: State, child: Child)
    requires s.CurGroupNodeType() == BlockMap
    ensures var d := Decided(s, child);
            s.PrepareNode(child) ==
            if s.Top().childCount % 2 == 0
            then if LaidOutLong(s, child) then d.BlockMapPrepareLongKey(child) else d.BlockMapPrepareSimpleKey(child)
            else if LaidOutLong(s, child) then d.BlockMapPrepareLongKeyValue(child)
            else d.BlockMapPrepareSimpleKeyValue(child)
  {
    hide State.BlockMapPrepareLongKey, State.BlockMapPrepareSimpleKey, State.BlockMapPrepareLongKeyValue,
      State.BlockMapPrepareSimpleKeyValue, State.SetLongKey;
    KeepingTheTop(s);
    LongKeySet(s);
    assert s.PrepareNode(child) == s.BlockMapPrepareNode(child);
    hide State.PrepareNode;
    if s.Top().childCount % 2 == 0 {
      var t := if s.settings.longKeys then s.SetLongKey() else s;
      var u := if child == BlockSeq || child == BlockMap || child == Property then t.SetLongKey() else t;
      assert u == Decided(s, child);
    }
  }

  lemma FlowMapWrites(s: State, child: Child)
    requires s.CurGroupNodeType() == FlowMap && child != BlockSeq && child != BlockMap
    ensures Wrote(Decided(s, child), s.PrepareNode(child), Lead(s, child))
  {
    hide Wrote, Lead, Decided, State.PrepareNode, State.FlowMapPrepareLongKey, State.FlowMapPrepareSimpleKey,
      State.FlowMapPrepareLongKeyValue, State.FlowMapPrepareSimpleKeyValue;
    var d := Decided(s, child);
    DecidedLead(s, child);
    FlowMapDispatch(s, child);
    if s.Top().childCount % 2 == 0 {
      if LaidOutLong(s, child) { FlowMapLongKeyWrites(d, child); } else { FlowMapSimpleKeyWrites(d, child); }
    } else {
      if LaidOutLong(s, child) { FlowMapLongValueWrites(d, child); } else { FlowMapSimpleValueWrites(d, child); }
    }
  }

  lemma BlockMapWrites(s: State, child: Child)
    requires s.CurGroupNodeType() == BlockMap
    ensures Wrote(Decided(s, child), s.PrepareNode(child), Lead(s, child))
  {
    hide Wrote, Lead, Decided, State.PrepareNode, State.BlockMapPrepareLongKey, State.BlockMapPrepareSimpleKey,
      State.BlockMapPrepareLongKeyValue, State.BlockMapPrepareSimpleKeyValue;
    var d := Decided(s, child);
    DecidedLead(s, child);
    BlockMapDispatch(s, child);
    if s.Top().childCount % 2 == 0 {
      if LaidOutLong(s, child) { BlockMapLongKeyWrites(d, child); } else { BlockMapSimpleKeyWrites(d, child); }
    } else {
      if LaidOutLong(s, child) { BlockMapLongValueWrites(d, child); } else { BlockMapSimpleValueWrites(d, child); }
    }
  }

  /** Making room for a node decides the layout of the map entry and writes the lead. */
  lemma PrepareWrites(s: State, child: Child)
    requires s.groups != []
    requires s.InFlow() ==> child != BlockSeq && child != BlockMap
    ensures Wrote(Decided(s, child), s.PrepareNode(child), Lead(s, child))
  {
    hide Wrote, Lead, State.FlowSeqPrepareNode, State.BlockSeqPrepareNode, State.FlowMapPrepareNode,
      State.BlockMapPrepareNode;
    match s.CurGroupNodeType()
    case FlowSeq => FlowSeqWrites(s, child);
    case BlockSeq => BlockSeqWrites(s, child);
    case FlowMap => FlowMapWrites(s, child);
    case BlockMap => BlockMapWrites(s, child);
  }
}
