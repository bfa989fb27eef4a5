/** The whole output of a tree, blanks and line breaks included: what the emitter writes is
    what a compositional printer gives that knows only the column it starts in. */
module EmitterText {
  import opened EmitterModel
  import opened EmitterLayout
  import opened EmitterSafety
  import opened EmitterTree

  // ---- pieces of layout

  /** The column after some output. */
  function After(col: nat, ts: seq<Token>): nat
    decreases |ts|
  {
    if ts == [] then col else After(TokenColumn(col, ts[0]), ts[1..])
  }

  function Gap(col: nat, n: int): seq<Token> { if col < n then [Pad(n - col)] else [] }

  /** A blank, where something stands on the line, and the indent. */
  function Room(col: nat, space: bool, n: int): seq<Token>
  {
    if col > 0 && space then [Space] + Gap(col + 1, n) else Gap(col, n)
  }

  function Break(condition: bool): seq<Token> { if condition then [Newline] else [] }

  /** A mark at the indent of its group. */
  function Line(col: nat, anew: bool, n: int, mark: Token): seq<Token>
  {
    Break(anew) + Gap(if anew then 0 else col, n) + [mark]
  }

  /** The group around a node: its kind and layout, the indent around it, its own indent, and
      how much further in a group nested in it has its marks. */
  datatype Frame = Frame(kind: GroupType, flow: bool, outer: int, indent: int, width: nat)

  predicate Nested(child: Child) { child == BlockSeq || child == BlockMap }

  function ChildOf(t: Tree, inFlow: bool, st: Settings): Child
  {
    match t
    case Leaf(_, _) => Scalar
    case Node(kind, _) => Group(kind, if AsFlow(kind, inFlow, st) then Flow else Block, 0, 0, false, []).NodeType()
  }

  /** What is written in front of child number `n` of a group; `long` tells how the entry at
      hand of a map is laid out. */
  function LeadText(f: Frame, n: nat, long: bool, child: Child, col: nat): seq<Token>
  {
    if f.flow then FlowLead(f, n, long, col)
    else if f.kind == Seq then
      var line := Line(col, n > 0, f.indent, Dash);
      line + (if child == BlockSeq then [Newline]
              else if child == BlockMap then []
              else Room(After(col, line), false, f.indent + f.width))
    else if n % 2 == 0 then
      if long then
        var line := Line(col, n > 0, f.indent, Question);
        line + (if Nested(child) then [] else Room(After(col, line), true, f.indent + 1))
      else Break(n > 0) + Gap(if n > 0 then 0 else col, f.indent)
    else if long then
      var line := Line(col, true, f.indent, Colon);
      line + Room(After(col, line), true, f.indent + 1)
    else [Colon] + (if Nested(child) then [Newline] else Room(col + 1, true, f.indent + f.width))
  }

  function FlowMarks(kind: GroupType, n: nat, long: bool): seq<Token>
  {
    var first := if n == 0 then Open(kind) else Comma;
    if kind == Seq then [first] else if n % 2 == 1 then [Colon] else if long then [first, Space, Question] else [first]
  }

  function FlowLead(f: Frame, n: nat, long: bool, col: nat): seq<Token>
  {
    var marks := Gap(col, f.outer) + FlowMarks(f.kind, n, long);
    marks + Room(After(col, marks), n > 0, f.outer)
  }

  // ---- the printer

  /** A node between the indent around it and the indent of its own marks. */
  function Text(t: Tree, inFlow: bool, outer: int, indent: int, st: Settings, col: nat): seq<Token>
    decreases t, 0
  {
    match t
    case Leaf(text, _) => [Content(text)]
    case Node(kind, ts) =>
      var f := Frame(kind, AsFlow(kind, inFlow, st), outer, indent, st.indent);
      if ts == [] then Gap(col, indent) + [Open(kind)] + [Close(kind)]
      else
        var body := Items(f, ts, 0, false, st, col);
        body + (if f.flow then Gap(After(col, body), indent) + [Close(kind)] else [])
  }

  /** Whether the entry is long that child number `n` belongs to, given that of the key. */
  predicate EntryLong(f: Frame, t: Tree, n: nat, long: bool, st: Settings)
  {
    if f.kind == Map && n % 2 == 1 then long else LongKey(t, f.flow, st)
  }

  /** The children of a group from child number `n` on. */
  function Items(f: Frame, ts: seq<Tree>, n: nat, long: bool, st: Settings, col: nat): seq<Token>
    decreases ts, 1
  {
    if ts == [] then []
    else
      var entry := EntryLong(f, ts[0], n, long, st);
      var lead := LeadText(f, n, entry, ChildOf(ts[0], f.flow, st), col);
      var one := lead + Text(ts[0], f.flow, f.indent, f.indent + f.width, st, After(col, lead));
      one + Items(f, ts[1..], n + 1, entry, st, After(col, one))
  }

  /** Documents from number `n` on, with a marker in between unless the line is empty. */
  function TextAll(ts: seq<Tree>, n: nat, st: Settings, col: nat): seq<Token>
    decreases |ts|
  {
    if ts == [] then []
    else
      var lead := DocLead(n, col);
      var one := lead + Text(ts[0], false, 0, 0, st, After(col, lead));
      one + TextAll(ts[1..], n + 1, st, After(col, one))
  }

  function DocLead(n: nat, col: nat): seq<Token> { if n > 0 && col > 0 then [Newline, DocStart] else [] }

  // ---- writing

  /** `t` is `s` after writing `ts`, outside of comments. */
  ghost predicate Adds(s: State, t: State, ts: seq<Token>)
  {
    !s.comment && t == s.(out := s.out + ts, col := After(s.col, ts))
  }

  lemma {:induction false} AfterConcat(col: nat, a: seq<Token>, b: seq<Token>)
    ensures After(col, a + b) == After(After(col, a), b)
    decreases |a|
  {
    if a == [] {
      assert a + b == b;
    } else {
      assert (a + b)[1..] == a[1..] + b;
      AfterConcat(TokenColumn(col, a[0]), a[1..], b);
    }
  }

  lemma AfterOne(col: nat, t: Token)
    ensures After(col, [t]) == TokenColumn(col, t)
  {
    assert [t][1..] == [];
  }

  /** These are the columns of the output. */
  lemma {:induction false} AfterIsColumn(ts: seq<Token>)
    ensures After(0, ts) == ColumnBehind(ts)
    decreases |ts|
  {
    hide TokenColumn;
    if ts != [] {
      var front, last := ts[..|ts| - 1], ts[|ts| - 1];
      AfterIsColumn(front);
      AfterConcat(0, front, [last]);
      AfterOne(After(0, front), last);
      assert ts == front + [last];
    }
  }

  lemma AddsThen(s: State, t: State, u: State, a: seq<Token>, b: seq<Token>)
    requires Adds(s, t, a) && Adds(t, u, b)
    ensures Adds(s, u, a + b)
  {
    AfterConcat(s.col, a, b);
    assert s.out + (a + b) == s.out + a + b;
  }

  lemma NothingAdds(s: State)
    requires !s.comment
    ensures Adds(s, s, [])
  {
    assert s.out + [] == s.out;
  }

  lemma PutAdds(s: State, t: Token)
    requires !s.comment && !t.Remark?
    ensures Adds(s, s.Put(t), [t])
  {
    AfterOne(s.col, t);
    hide After, TokenColumn;
  }

  lemma BreakAdds(s: State, condition: bool)
    requires !s.comment
    ensures Adds(s, s.BreakIf(condition), Break(condition))
  {
    PutAdds(s, Newline);
    NothingAdds(s);
    hide Adds, State.Put;
  }

  lemma GapAdds(s: State, n: int)
    requires !s.comment
    ensures Adds(s, s.IndentTo(n), Gap(s.col, n))
  {
    if s.col < n { PutAdds(s, Pad(n - s.col)); }
    NothingAdds(s);
    hide Adds, State.Put;
  }

  lemma RoomAdds(s: State, space: bool, n: int)
    requires !s.comment
    ensures Adds(s, s.SpaceOrIndentTo(space, n), Room(s.col, space, n))
  {
    GapAdds(s, n);
    if s.col > 0 && space {
      PutAdds(s, Space);
      GapAdds(s.Put(Space), n);
      AddsThen(s, s.Put(Space), s.Put(Space).IndentTo(n), [Space], Gap(s.col + 1, n));
    }
    hide Adds, State.IndentTo;
  }

  lemma LineAdds(s: State, anew: bool, n: int, mark: Token)
    requires !s.comment && !mark.Remark?
    ensures Adds(s, s.BreakIf(anew).IndentTo(n).Put(mark), Line(s.col, anew, n, mark))
  {
    var t := s.BreakIf(anew);
    var u := t.IndentTo(n);
    BreakAdds(s, anew);
    assert t.col == if anew then 0 else s.col;
    assert !t.comment;
    hide State.BreakIf, State.IndentTo;
    GapAdds(t, n);
    assert !u.comment;
    PutAdds(u, mark);
    hide Adds, State.Put;
    AddsThen(s, t, u, Break(anew), Gap(t.col, n));
    AddsThen(s, u, u.Put(mark), Break(anew) + Gap(t.col, n), [mark]);
  }

  lemma AddsIs(s: State, t: State, ts: seq<Token>)
    requires Adds(s, t, ts)
    ensures !t.comment && t.col == After(s.col, ts) && t.groups == s.groups && t.settings == s.settings
    ensures t.curIndent == s.curIndent && t.hasAlias == s.hasAlias && t.HasBegunNode() == s.HasBegunNode()
    ensures t.HasBegunContent() == s.HasBegunContent() && t.CurGroupChildCount() == s.CurGroupChildCount()
    ensures t.LastIndent() == s.LastIndent() && t.CurGroupIndent() == s.CurGroupIndent()
  {
  }

  // ---- room for a node

  /** Before a node, outside of comments. */
  predicate Fresh(s: State) { !s.HasBegunNode() && !s.comment }

  /** Where an alias shows: it is the key of a short entry, and the value comes next. */
  predicate BehindAlias(s: State)
  {
    s.groups != [] && s.hasAlias && s.Top().kind == Map && s.Top().childCount % 2 == 1 && !s.Top().longKey
  }

  function FrameOf(s: State): Frame
    requires s.groups != []
  {
    Frame(s.Top().kind, s.InFlow(), s.LastIndent(), s.curIndent, s.CurGroupIndent())
  }

  lemma FlowMarksAdd(s: State, n: nat, long: bool, kind: GroupType)
    requires !s.comment
    ensures var first := if n == 0 then Open(kind) else Comma;
            && Adds(s, s.Put(first), [first])
            && Adds(s, s.Put(first).Put(Space).Put(Question), [first, Space, Question])
            && Adds(s, s.Put(Colon), [Colon])
  {
    var first := if n == 0 then Open(kind) else Comma;
    PutAdds(s, first);
    PutAdds(s, Colon);
    PutAdds(s.Put(first), Space);
    PutAdds(s.Put(first).Put(Space), Question);
    hide Adds;
    AddsThen(s, s.Put(first), s.Put(first).Put(Space), [first], [Space]);
    AddsThen(s, s.Put(first).Put(Space), s.Put(first).Put(Space).Put(Question), [first] + [Space], [Question]);
    assert [first] + [Space] + [Question] == [first, Space, Question];
  }

  /** A flow layout: the indent, the marks, and room for the node. */
  lemma FlowAdds(s: State, t: State, f: Frame, n: nat, long: bool, child: Child)
    requires !s.comment && !s.HasBegunNode() && child != NoNode && !Nested(child)
    requires s.CurGroupChildCount() == n && s.LastIndent() == f.outer
    requires Adds(s.FlowStart(), t, FlowMarks(f.kind, n, long))
    ensures Adds(s, t.FlowChild(child), FlowLead(f, n, long, s.col))
  {
    var a := s.FlowStart();
    assert a == s.IndentTo(s.LastIndent());
    GapAdds(s, s.LastIndent());
    AddsIs(s, a, Gap(s.col, f.outer));
    hide State.FlowStart, State.IndentTo;
    var marks := Gap(s.col, f.outer) + FlowMarks(f.kind, n, long);
    AddsThen(s, a, t, Gap(s.col, f.outer), FlowMarks(f.kind, n, long));
    AddsIs(s, t, marks);
    hide Adds, FlowMarks, State.HasBegunNode;
    RoomAdds(t, n > 0, f.outer);
    assert t.FlowChild(child) == t.SpaceOrIndentTo(n > 0, f.outer) by { NotBegun(s, t); }
    AddsThen(s, t, t.FlowChild(child), marks, Room(t.col, n > 0, f.outer));
  }

  lemma NotBegun(s: State, t: State)
    requires !s.HasBegunNode() && t.HasBegunContent() == s.HasBegunContent()
    ensures !t.HasBegunContent()
  {
  }

  lemma FreshParts(s: State)
    requires Fresh(s)
    ensures !s.comment && !s.HasBegunNode() && !s.HasBegunContent()
  {
  }

  lemma FlowSeqText(s: State, child: Child, long: bool)
    requires Fresh(s) && s.CurGroupNodeType() == FlowSeq && child != NoNode && !Nested(child)
    ensures Adds(s, s.FlowSeqPrepareNode(child), LeadText(FrameOf(s), s.Top().childCount, long, child, s.col))
  {
    FreshParts(s);
    hide Adds, Fresh, FlowLead, State.FlowStart, State.FlowChild, State.HasBegunNode;
    var n := s.Top().childCount;
    StartIsCalm(s);
    FlowMarksAdd(s.FlowStart(), n, long, Seq);
    FlowAdds(s, s.FlowStart().Put(if n == 0 then Open(Seq) else Comma), FrameOf(s), n, long, child);
  }

  lemma StartIsCalm(s: State)
    requires !s.comment
    ensures !s.FlowStart().comment && s.FlowStart().hasAlias == s.hasAlias
  {
  }

  lemma FlowMapText(d: State, child: Child, long: bool)
    requires Fresh(d) && d.CurGroupNodeType() == FlowMap && child != NoNode && !Nested(child)
    requires d.hasAlias && d.Top().childCount % 2 == 1 ==> long
    ensures Adds(d, if d.Top().childCount % 2 == 0
                    then if long then d.FlowMapPrepareLongKey(child) else d.FlowMapPrepareSimpleKey(child)
                    else if long then d.FlowMapPrepareLongKeyValue(child) else d.FlowMapPrepareSimpleKeyValue(child),
                 LeadText(FrameOf(d), d.Top().childCount, long, child, d.col))
  {
    FreshParts(d);
    hide Adds, Fresh, FlowLead, State.FlowStart, State.FlowChild, State.HasBegunNode;
    var n := d.Top().childCount;
    var first := if n == 0 then Open(Map) else Comma;
    StartIsCalm(d);
    var a := d.FlowStart();
    FlowMarksAdd(a, n, long, Map);
    var t := if n % 2 == 1 then a.Put(Colon) else if long then a.Put(first).Put(Space).Put(Question) else a.Put(first);
    FlowAdds(d, t, FrameOf(d), n, long, child);
  }

  /** The line mark of a block sequence. */
  function DashedTo(s: State): State { s.BreakIf(s.CurGroupChildCount() > 0).IndentTo(s.curIndent).Put(Dash) }

  lemma BlockSeqIs(s: State, child: Child)
    requires Fresh(s) && child != NoNode && !DashedTo(s).comment && !DashedTo(s).HasBegunContent()
    ensures s.BlockSeqPrepareNode(child) ==
            if child == BlockSeq then DashedTo(s).Put(Newline)
            else if child == BlockMap then DashedTo(s)
            else DashedTo(s).SpaceOrIndentTo(false, s.curIndent + s.CurGroupIndent())
  {
    FreshParts(s);
    NoBreak(DashedTo(s));
    hide State.HasBegunNode, State.HasBegunContent, State.BreakIf, State.IndentTo, State.SpaceOrIndentTo, State.Put,
      Fresh;
  }

  lemma DashedAdds(s: State)
    requires Fresh(s) && s.groups != []
    ensures Adds(s, DashedTo(s), Line(s.col, s.Top().childCount > 0, s.curIndent, Dash))
  {
    LineAdds(s, s.CurGroupChildCount() > 0, s.curIndent, Dash);
    hide Adds, Line, State.BreakIf, State.IndentTo, State.Put;
  }

  lemma BlockSeqLead(s: State, child: Child, long: bool, line: seq<Token>)
    requires s.CurGroupNodeType() == BlockSeq && line == Line(s.col, s.Top().childCount > 0, s.curIndent, Dash)
    ensures LeadText(FrameOf(s), s.Top().childCount, long, child, s.col) ==
            line + (if child == BlockSeq then [Newline]
                    else if child == BlockMap then []
                    else Room(After(s.col, line), false, s.curIndent + s.CurGroupIndent()))
  {
    hide Line, Room, After;
  }

  lemma BlockSeqText(s: State, child: Child, long: bool)
    requires Fresh(s) && s.groups != [] && s.CurGroupNodeType() == BlockSeq && child != NoNode
    ensures Adds(s, s.BlockSeqPrepareNode(child), LeadText(FrameOf(s), s.Top().childCount, long, child, s.col))
  {
    hide *;
    var t, line := DashedTo(s), Line(s.col, s.Top().childCount > 0, s.curIndent, Dash);
    var n := s.curIndent + s.CurGroupIndent();
    FreshParts(s);
    DashedAdds(s);
    AddsIs(s, t, line);
    BlockSeqIs(s, child);
    BlockSeqLead(s, child, long, line);
    if child == BlockSeq {
      PutAdds(t, Newline);
      AddsThen(s, t, t.Put(Newline), line, [Newline]);
    } else if child == BlockMap {
      assert line + [] == line;
    } else {
      RoomAdds(t, false, n);
      AddsThen(s, t, t.SpaceOrIndentTo(false, n), line, Room(t.col, false, n));
    }
  }

  lemma NoBreak(s: State)
    ensures s.BreakIf(false) == s && (!s.comment ==> s.BreakIf(s.comment) == s)
  {
  }

  /** The line mark of a long key. */
  function QuestionedTo(d: State): State
  {
    d.BreakIf(d.CurGroupChildCount() > 0).IndentTo(d.curIndent).Put(Question)
  }

  lemma LongKeyIs(d: State, child: Child)
    requires Fresh(d) && child != NoNode && !QuestionedTo(d).comment && !QuestionedTo(d).HasBegunContent()
    requires !d.BreakIf(d.CurGroupChildCount() > 0).comment
    ensures d.BlockMapPrepareLongKey(child) ==
            if Nested(child) then QuestionedTo(d) else QuestionedTo(d).SpaceOrIndentTo(true, d.curIndent + 1)
  {
    FreshParts(d);
    NoBreak(d.BreakIf(d.CurGroupChildCount() > 0));
    NoBreak(QuestionedTo(d));
    hide State.HasBegunNode, State.HasBegunContent, State.BreakIf, State.IndentTo, State.SpaceOrIndentTo, State.Put,
      Fresh;
  }

  lemma QuestionedAdds(d: State)
    requires Fresh(d) && d.groups != []
    ensures Adds(d, QuestionedTo(d), Line(d.col, d.Top().childCount > 0, d.curIndent, Question))
    ensures !d.BreakIf(d.CurGroupChildCount() > 0).comment
  {
    LineAdds(d, d.CurGroupChildCount() > 0, d.curIndent, Question);
    assert !d.BreakIf(d.CurGroupChildCount() > 0).comment;
    hide Adds, Line, State.BreakIf, State.IndentTo, State.Put;
  }

  lemma LongKeyLead(d: State, child: Child, line: seq<Token>)
    requires d.CurGroupNodeType() == BlockMap && d.Top().childCount % 2 == 0
    requires line == Line(d.col, d.Top().childCount > 0, d.curIndent, Question)
    ensures LeadText(FrameOf(d), d.Top().childCount, true, child, d.col) ==
            line + (if Nested(child) then [] else Room(After(d.col, line), true, d.curIndent + 1))
  {
    hide Line, Room, After;
  }

  lemma LongKeyText(d: State, child: Child)
    requires Fresh(d) && d.groups != [] && d.CurGroupNodeType() == BlockMap && d.Top().childCount % 2 == 0
    requires child != NoNode
    ensures Adds(d, d.BlockMapPrepareLongKey(child), LeadText(FrameOf(d), d.Top().childCount, true, child, d.col))
  {
    hide *;
    var t, line := QuestionedTo(d), Line(d.col, d.Top().childCount > 0, d.curIndent, Question);
    FreshParts(d);
    QuestionedAdds(d);
    AddsIs(d, t, line);
    LongKeyIs(d, child);
    LongKeyLead(d, child, line);
    if Nested(child) {
      assert line + [] == line;
    } else {
      RoomAdds(t, true, d.curIndent + 1);
      AddsThen(d, t, t.SpaceOrIndentTo(true, d.curIndent + 1), line, Room(t.col, true, d.curIndent + 1));
    }
  }

  lemma LongValueText(d: State, child: Child)
    requires Fresh(d) && d.CurGroupNodeType() == BlockMap && d.Top().childCount % 2 == 1 && child != NoNode
    ensures Adds(d, d.BlockMapPrepareLongKeyValue(child), LeadText(FrameOf(d), d.Top().childCount, true, child, d.col))
  {
    FreshParts(d);
    assert d.Put(Newline) == d.BreakIf(true);
    hide Fresh, State.HasBegunNode, State.BreakIf, State.IndentTo, State.SpaceOrIndentTo, State.Put, Adds, Line, Room;
    var line := Line(d.col, true, d.curIndent, Colon);
    var t := d.BreakIf(true).IndentTo(d.curIndent).Put(Colon);
    LineAdds(d, true, d.curIndent, Colon);
    AddsIs(d, t, line);
    NoBreak(t);
    RoomAdds(t, true, d.curIndent + 1);
    AddsThen(d, t, t.SpaceOrIndentTo(true, d.curIndent + 1), line, Room(t.col, true, d.curIndent + 1));
  }

  lemma SimpleKeyText(d: State, child: Child)
    requires Fresh(d) && d.CurGroupNodeType() == BlockMap && d.Top().childCount % 2 == 0
    requires child != NoNode && !Nested(child)
    ensures Adds(d, d.BlockMapPrepareSimpleKey(child), LeadText(FrameOf(d), d.Top().childCount, false, child, d.col))
  {
    FreshParts(d);
    var n := d.Top().childCount;
    var t := d.BreakIf(n > 0);
    assert !t.comment && t.col == (if n > 0 then 0 else d.col) && t.HasBegunContent() == d.HasBegunContent();
    hide Fresh, State.HasBegunNode, State.HasBegunContent, State.BreakIf, State.IndentTo, State.SpaceOrIndentTo,
      State.Put, Adds, Gap, Break;
    BreakAdds(d, n > 0);
    RoomAdds(t, false, d.curIndent);
    AddsThen(d, t, t.SpaceOrIndentTo(false, d.curIndent), Break(n > 0), Gap(t.col, d.curIndent));
  }

  lemma SimpleValueIs(d: State, child: Child)
    requires Fresh(d) && child != NoNode && !d.hasAlias
    ensures var t, n := d.Put(Colon), d.curIndent + d.CurGroupIndent();
            && d.BlockMapPrepareSimpleKeyValue(child) ==
                 (if Nested(child) then t.Put(Newline) else t.SpaceOrIndentTo(true, n))
            && t.col == d.col + 1 && !t.comment
  {
    FreshParts(d);
    ColonPut(d);
    hide Fresh, State.HasBegunNode, State.SpaceOrIndentTo, State.Put;
  }

  lemma ColonPut(d: State)
    requires !d.comment
    ensures var t := d.Put(Colon);
            t.col == d.col + 1 && !t.comment && t.curIndent == d.curIndent && t.CurGroupIndent() == d.CurGroupIndent()
  {
  }

  lemma SimpleValueLead(d: State, child: Child)
    requires d.CurGroupNodeType() == BlockMap && d.Top().childCount % 2 == 1
    ensures LeadText(FrameOf(d), d.Top().childCount, false, child, d.col) ==
            [Colon] + (if Nested(child) then [Newline] else Room(d.col + 1, true, d.curIndent + d.CurGroupIndent()))
  {
    hide Room;
  }

  lemma SimpleValueText(d: State, child: Child)
    requires Fresh(d) && d.groups != [] && d.CurGroupNodeType() == BlockMap && d.Top().childCount % 2 == 1
    requires child != NoNode && !d.hasAlias
    ensures Adds(d, d.BlockMapPrepareSimpleKeyValue(child),
                 LeadText(FrameOf(d), d.Top().childCount, false, child, d.col))
  {
    hide *;
    var t, n := d.Put(Colon), d.curIndent + d.CurGroupIndent();
    FreshParts(d);
    SimpleValueIs(d, child);
    SimpleValueLead(d, child);
    PutAdds(d, Colon);
    if Nested(child) {
      PutAdds(t, Newline);
      AddsThen(d, t, t.Put(Newline), [Colon], [Newline]);
    } else {
      RoomAdds(t, true, n);
      AddsThen(d, t, t.SpaceOrIndentTo(true, n), [Colon], Room(t.col, true, n));
    }
  }

  lemma DecidedKeeps(s: State, child: Child)
    requires s.groups != []
    ensures var d := Decided(s, child);
            && d == s.(groups := d.groups) && d.groups != [] && FrameOf(d) == FrameOf(s)
            && d.Top().childCount == s.Top().childCount && d.CurGroupNodeType() == s.CurGroupNodeType()
  {
    DecidedGroups(s, child);
    DecidedTop(s, child);
    hide Decided, LaidOutLong;
  }

  lemma BlockMapText(d: State, child: Child, long: bool)
    requires Fresh(d) && d.CurGroupNodeType() == BlockMap && child != NoNode
    requires d.Top().childCount % 2 == 0 && !long ==> !Nested(child)
    requires d.hasAlias && d.Top().childCount % 2 == 1 ==> long
    ensures Adds(d, if d.Top().childCount % 2 == 0
                    then if long then d.BlockMapPrepareLongKey(child) else d.BlockMapPrepareSimpleKey(child)
                    else if long then d.BlockMapPrepareLongKeyValue(child) else d.BlockMapPrepareSimpleKeyValue(child),
                 LeadText(FrameOf(d), d.Top().childCount, long, child, d.col))
  {
    hide Adds, Fresh, LeadText, FrameOf, State.BlockMapPrepareLongKey, State.BlockMapPrepareSimpleKey,
      State.BlockMapPrepareLongKeyValue, State.BlockMapPrepareSimpleKeyValue;
    if d.Top().childCount % 2 == 0 {
      if long { LongKeyText(d, child); } else { SimpleKeyText(d, child); }
    } else {
      if long { LongValueText(d, child); } else { SimpleValueText(d, child); }
    }
  }

  lemma NestedIsLong(s: State, child: Child)
    requires s.CurGroupNodeType() == BlockMap && s.Top().childCount % 2 == 0 && Nested(child)
    ensures LaidOutLong(s, child)
  {
  }

  /** Making room for a node or a property, from outside of comments. */
  lemma PrepareText(s: State, child: Child)
    requires Fresh(s) && s.groups != [] && child != NoNode && !BehindAlias(s)
    requires s.InFlow() ==> !Nested(child)
    ensures Adds(Decided(s, child), s.PrepareNode(child),
                 LeadText(FrameOf(s), s.Top().childCount, LaidOutLong(s, child), child, s.col))
  {
    var d, long := Decided(s, child), LaidOutLong(s, child);
    DecidedKeeps(s, child);
    assert Fresh(d) && d.hasAlias == s.hasAlias;
    assert s.Top().childCount % 2 == 1 ==> long == s.Top().longKey;
    if s.Top().kind == Seq {
      SeqText(s, child, long);
    } else {
      hide Decided, LeadText, Adds, Fresh, FrameOf, LaidOutLong, State.PrepareNode, State.FlowMapPrepareLongKey,
        State.FlowMapPrepareSimpleKey, State.FlowMapPrepareLongKeyValue, State.FlowMapPrepareSimpleKeyValue,
        State.BlockMapPrepareLongKey, State.BlockMapPrepareSimpleKey, State.BlockMapPrepareLongKeyValue,
        State.BlockMapPrepareSimpleKeyValue;
      if s.Top().flow == Flow {
        FlowMapDispatch(s, child);
        FlowMapText(d, child, long);
      } else {
        BlockMapDispatch(s, child);
        if s.Top().childCount % 2 == 0 && Nested(child) { NestedIsLong(s, child); }
        BlockMapText(d, child, long);
      }
    }
  }

  lemma SeqText(s: State, child: Child, long: bool)
    requires Fresh(s) && s.groups != [] && s.Top().kind == Seq && child != NoNode
    requires s.InFlow() ==> !Nested(child)
    ensures Adds(s, s.PrepareNode(child), LeadText(FrameOf(s), s.Top().childCount, long, child, s.col))
  {
    hide Adds, Fresh, LeadText, FrameOf, State.FlowSeqPrepareNode, State.BlockSeqPrepareNode;
    if s.Top().flow == Flow { FlowSeqText(s, child, long); } else { BlockSeqText(s, child, long); }
  }

  // ---- trees

  /** Between two nodes of a tree. */
  ghost predicate Ready(s: State)
  {
    Calm(s) && !s.comment && !s.hasAlias && (s.groups == [] ==> s.curIndent == 0)
  }

  /** `u` has the output of `s` and then `ts`. */
  ghost predicate Grew(s: State, u: State, ts: seq<Token>)
  {
    u.out == s.out + ts && u.col == After(s.col, ts) && !u.comment
  }

  /** What is written in front of a tree. */
  function LeadFor(s: State, t: Tree): seq<Token>
  {
    if s.groups == [] then DocLead(s.docCount, s.col)
    else
      var n := s.Top().childCount;
      LeadText(FrameOf(s), n, EntryLong(FrameOf(s), t, n, s.Top().longKey, s.settings),
               ChildOf(t, s.InFlow(), s.settings), s.col)
  }

  function NodeText(s: State, t: Tree): seq<Token>
  {
    var lead := LeadFor(s, t);
    lead + Text(t, s.InFlow(), s.curIndent, s.curIndent + s.CurGroupIndent(), s.settings, After(s.col, lead))
  }

  lemma GrewThen(s: State, t: State, u: State, a: seq<Token>, b: seq<Token>)
    requires Grew(s, t, a) && Grew(t, u, b)
    ensures Grew(s, u, a + b)
  {
    AfterConcat(s.col, a, b);
    assert s.out + (a + b) == s.out + a + b;
  }

  lemma AddsGrew(s: State, d: State, t: State, ts: seq<Token>)
    requires d.out == s.out && d.col == s.col && Adds(d, t, ts)
    ensures Grew(s, t, ts)
  {
  }

  lemma SameGrew(s: State, t: State, u: State, ts: seq<Token>)
    requires Grew(s, t, ts) && u.out == t.out && u.col == t.col && u.comment == t.comment
    ensures Grew(s, u, ts)
  {
  }

  /** The state in which room is made for a tree: a long text asks for long keys. */
  function Asking(s: State, t: Tree): State
  {
    if t.Leaf? && t.long then s.SetLocal(MapKeyFormat, s.settings.(longKeys := true)) else s
  }

  lemma ReadyParts(s: State)
    requires Ready(s)
    ensures AtNode(s) && Fresh(s) && !BehindAlias(s)
  {
    hide Restore;
  }

  lemma AskingKeeps(s: State, t: Tree)
    ensures var a := Asking(s, t);
            && a == s.(settings := a.settings, modified := a.modified) && a.InFlow() == s.InFlow()
            && (s.groups != [] ==> FrameOf(a) == FrameOf(s) && a.Top() == s.Top())
            && (Fresh(s) ==> Fresh(a)) && BehindAlias(a) == BehindAlias(s)
  {
    hide *;
    AskingIs(s, t);
    SettingsOnly(s, Asking(s, t));
  }

  lemma AskingIs(s: State, t: Tree)
    ensures Asking(s, t) == s.(settings := Asking(s, t).settings, modified := Asking(s, t).modified)
  {
    hide Settings.With;
  }

  lemma SettingsOnly(s: State, a: State)
    requires a == s.(settings := a.settings, modified := a.modified)
    ensures a.InFlow() == s.InFlow() && (s.groups != [] ==> FrameOf(a) == FrameOf(s) && a.Top() == s.Top())
    ensures Fresh(s) ==> Fresh(a)
    ensures BehindAlias(a) == BehindAlias(s)
  {
  }

  lemma AskingIsEntry(s: State, t: Tree)
    requires AtNode(s) && s.groups != [] && s.Top().kind == Map
    ensures LaidOutLong(Asking(s, t), ChildOf(t, s.InFlow(), s.settings)) ==
            EntryLong(FrameOf(s), t, s.Top().childCount, s.Top().longKey, s.settings)
  {
  }

  /** The layout of a sequence has no long form. */
  lemma SeqHasNoLong(f: Frame, n: nat, a: bool, b: bool, child: Child, col: nat)
    requires f.kind == Seq
    ensures LeadText(f, n, a, child, col) == LeadText(f, n, b, child, col)
  {
  }

  lemma ChildIsNode(t: Tree, inFlow: bool, st: Settings)
    ensures var child := ChildOf(t, inFlow, st);
            child != NoNode && child != Property && (inFlow ==> !Nested(child))
  {
  }

  lemma TopText(s: State, child: Child)
    requires s.groups == [] && s.good && Fresh(s) && child != NoNode
    ensures Grew(s, s.PrepareNode(child), DocLead(s.docCount, s.col))
  {
    FreshParts(s);
    var t := if s.docCount > 0 && s.col > 0 then s.EmitBeginDoc() else s;
    if s.docCount > 0 && s.col > 0 {
      DocText(s);
    } else {
      NothingAdds(s);
      AddsGrew(s, s, s, []);
    }
    hide Grew, DocLead, State.EmitBeginDoc;
    assert s.PrepareNode(child) == t;
  }

  lemma DocText(s: State)
    requires s.groups == [] && s.good && Fresh(s) && s.col > 0
    ensures Grew(s, s.EmitBeginDoc(), [Newline, DocStart])
    ensures s.EmitBeginDoc().groups == [] && !s.EmitBeginDoc().HasBegunNode() && !s.EmitBeginDoc().comment
  {
    FreshParts(s);
    var t := s.Put(Newline);
    PutAdds(s, Newline);
    PutAdds(t, DocStart);
    AddsThen(s, t, t.Put(DocStart), [Newline], [DocStart]);
    assert [Newline] + [DocStart] == [Newline, DocStart];
    AddsGrew(s, s, t.Put(DocStart), [Newline, DocStart]);
    SameGrew(s, t.Put(DocStart), s.EmitBeginDoc(), [Newline, DocStart]);
  }

  /** Room for a tree. */
  lemma RoomFor(s: State, t: Tree)
    requires Ready(s)
    ensures Grew(s, Asking(s, t).PrepareNode(ChildOf(t, s.InFlow(), s.settings)), LeadFor(s, t))
  {
    var a, child := Asking(s, t), ChildOf(t, s.InFlow(), s.settings);
    ReadyParts(s);
    AskingKeeps(s, t);
    ChildIsNode(t, s.InFlow(), s.settings);
    hide Grew, Fresh, Asking, ChildOf, State.PrepareNode, LeadText, DocLead, FrameOf, Adds, Decided, Restore;
    if s.groups == [] {
      TopText(a, child);
      GrewFrom(s, a, a.PrepareNode(child), DocLead(s.docCount, s.col));
    } else {
      PrepareText(a, child);
      DecidedKeeps(a, child);
      var n, f := s.Top().childCount, FrameOf(s);
      if s.Top().kind == Map {
        AskingIsEntry(s, t);
      } else {
        SeqHasNoLong(f, n, LaidOutLong(a, child), EntryLong(f, t, n, s.Top().longKey, s.settings), child, s.col);
      }
      AddsGrew(s, Decided(a, child), a.PrepareNode(child), LeadFor(s, t));
    }
  }

  lemma GrewFrom(s: State, a: State, u: State, ts: seq<Token>)
    requires Grew(a, u, ts) && a.out == s.out && a.col == s.col
    ensures Grew(s, u, ts)
  {
  }

  lemma BookOnly(s: State, kind: GroupType)
    ensures s.StartedNode() == WithOutput(s.StartedNode(), s)
    ensures s.StartedScalar() == WithOutput(s.StartedScalar(), s)
    ensures s.StartedGroup(kind) == WithOutput(s.StartedGroup(kind), s)
  {
    StartedNodeOnly(s);
    hide State.StartedNode, Restore, State.FlowOf, State.CurGroupIndent;
  }

  lemma StartedNodeOnly(s: State)
    ensures s.StartedNode() == WithOutput(s.StartedNode(), s)
  {
    var n := s.CurGroupChildCount() + 1;
    if s.groups != [] { WithTopHas(s, s.Top().(childCount := n, longKey := s.Top().longKey && n % 2 != 0)); }
    hide State.WithTop;
  }

  lemma EndedOnly(s: State, kind: GroupType)
    ensures s.EndedGroup(kind) == WithOutput(s.EndedGroup(kind), s)
  {
    if s.groups != [] {
      PoppedOnly(s);
      BackOnly(s.Popped());
      hide State.Popped, State.BackBelow;
    }
  }

  lemma PoppedOnly(s: State)
    requires s.groups != []
    ensures s.Popped() == WithOutput(s.Popped(), s)
  {
    hide Restore;
  }

  lemma BackOnly(s: State)
    ensures s.BackBelow() == WithOutput(s.BackBelow(), s)
  {
    hide Restore, State.CurGroupIndent;
  }

  lemma PutGrew(s: State, t: Token)
    requires !s.comment && !t.Remark?
    ensures Grew(s, s.Put(t), [t])
  {
    PutAdds(s, t);
    AddsGrew(s, s, s.Put(t), [t]);
  }

  lemma NotInComment(s: State, u: State, ts: seq<Token>)
    requires Grew(s, u, ts)
    ensures !u.comment && u.col == After(s.col, ts)
  {
  }

  lemma LeafText(s: State, text: string, long: bool)
    requires Ready(s)
    ensures Grew(s, s.EmitScalar(text, long), NodeText(s, Leaf(text, long)))
  {
    var t := Leaf(text, long);
    var p := Asking(s, t).PrepareNode(Scalar);
    assert s.EmitScalar(text, long) == p.Put(Content(text)).StartedScalar();
    assert NodeText(s, t) == LeadFor(s, t) + [Content(text)];
    assert ChildOf(t, s.InFlow(), s.settings) == Scalar;
    hide *;
    RoomFor(s, t);
    NotInComment(s, p, LeadFor(s, t));
    PutGrew(p, Content(text));
    GrewThen(s, p, p.Put(Content(text)), LeadFor(s, t), [Content(text)]);
    BookOnly(p.Put(Content(text)), Seq);
    WithOutputIs(p.Put(Content(text)).StartedScalar(), p.Put(Content(text)));
    SameGrew(s, p.Put(Content(text)), p.Put(Content(text)).StartedScalar(), LeadFor(s, t) + [Content(text)]);
  }

  lemma WithOutputIs(u: State, t: State)
    requires u == WithOutput(u, t)
    ensures u.out == t.out && u.col == t.col && u.comment == t.comment
  {
  }

  /** The start of a group. */
  lemma BeginText(s: State, kind: GroupType, ts: seq<Tree>)
    requires Ready(s)
    ensures Grew(s, s.EmitBeginGroup(kind), LeadFor(s, Node(kind, ts)))
  {
    var t := Node(kind, ts);
    var p := s.PrepareNode(s.NextGroupType(kind));
    ReadyIsGood(s);
    assert s.EmitBeginGroup(kind) == p.StartedGroup(kind);
    assert Asking(s, t) == s && s.NextGroupType(kind) == ChildOf(t, s.InFlow(), s.settings);
    hide *;
    RoomFor(s, t);
    BookOnly(p, kind);
    WithOutputIs(p.StartedGroup(kind), p);
    SameGrew(s, p, p.StartedGroup(kind), LeadFor(s, t));
  }

  lemma ReadyIsGood(s: State)
    requires Ready(s)
    ensures Calm(s) && s.good && !s.comment && !s.hasAlias && !s.HasBegunNode() && s.curIndent >= 0
  {
    hide Restore;
  }

  /** Where the group stands that was started. */
  lemma BegunFrame(s: State, kind: GroupType, long: bool, v: State)
    requires Ready(s) && v == WithOutput(Pushed(s, kind, long), v) && !v.comment
    ensures Ready(v) && v.groups != [] && v.Top().childCount == 0 && !v.Top().longKey && v.settings == s.settings
    ensures FrameOf(v) == Frame(kind, s.FlowOf(kind) == Flow, s.curIndent, s.curIndent + s.CurGroupIndent(),
                                s.settings.indent)
  {
    CalmPushed(s, kind, long, v);
    NextKeeps(s, long);
    hide Next, Restore, Calm, State.FlowOf;
    var n := Next(s, long);
    assert |v.groups| == |s.groups| + 1;
    if s.groups != [] {
      assert v.groups[|v.groups| - 2] == n.Top();
      NextIndent(s, long);
    }
  }

  lemma NextIndent(s: State, long: bool)
    requires s.groups != []
    ensures |Next(s, long).groups| == |s.groups| && Next(s, long).Top().indent == s.Top().indent
  {
  }

  /** The layout an entry was begun in only matters to its value. */
  lemma OnlyForValues(f: Frame, ts: seq<Tree>, n: nat, a: bool, b: bool, st: Settings, col: nat)
    requires f.kind == Seq || n % 2 == 0 || a == b
    ensures Items(f, ts, n, a, st, col) == Items(f, ts, n, b, st, col)
  {
  }

  /** After one more child. */
  lemma NextFrame(v: State, t: Tree, u: State)
    requires Ready(v) && v.groups != [] && Emitted(v, t, u) && !u.comment
    ensures Ready(u) && u.groups != [] && FrameOf(u) == FrameOf(v) && u.settings == v.settings
    ensures u.Top().childCount == v.Top().childCount + 1
    ensures v.Top().kind == Map && v.Top().childCount % 2 == 0 ==>
              u.Top().longKey == LongKey(t, v.InFlow(), v.settings)
  {
    var long := LongKey(t, v.InFlow(), v.settings);
    ReadyIsGood(v);
    EmittedCalm(v, t, u);
    NextKeeps(v, long);
    NextGroup(v, long);
    hide Next, Calm, Restore, LongKey, Print, Structural, LeadOf;
    assert u.groups == Next(v, long).groups;
    assert |u.groups| > 1 ==> u.groups[|u.groups| - 2] == Below(u.groups)[|u.groups| - 2];
    assert |v.groups| > 1 ==> v.groups[|v.groups| - 2] == Below(v.groups)[|v.groups| - 2];
  }

  lemma NextGroup(s: State, long: bool)
    requires s.groups != []
    ensures var g := NextTop(s.Top(), long);
            && g.kind == s.Top().kind && g.flow == s.Top().flow && g.indent == s.Top().indent
            && g.childCount == s.Top().childCount + 1
            && (g.kind == Map && s.Top().childCount % 2 == 0 ==> g.longKey == long)
  {
  }

  /** The brackets that end a group of `n` children. */
  function EndText(kind: GroupType, flow: bool, n: nat, indent: int, col: nat): seq<Token>
  {
    if n == 0 then Gap(col, indent) + [Open(kind)] + [Close(kind)]
    else if flow then Gap(col, indent) + [Close(kind)]
    else []
  }

  lemma ClosingText(f: State, kind: GroupType, wasBlock: bool)
    requires !f.comment && !f.HasBegunNode() && (wasBlock ==> f.CurGroupChildCount() == 0)
    ensures Adds(f, f.CloseFlow(kind, wasBlock), EndText(kind, true, f.CurGroupChildCount(), f.curIndent, f.col))
  {
    var t := f.IndentTo(f.curIndent);
    var gap := Gap(f.col, f.curIndent);
    GapAdds(f, f.curIndent);
    AddsIs(f, t, gap);
    NoBreak(f);
    assert t.HasBegunNode() == f.HasBegunNode();
    hide Adds, State.BreakIf, State.IndentTo, State.HasBegunNode, Gap;
    if f.CurGroupChildCount() == 0 {
      PutAdds(t, Open(kind));
      var u := t.Put(Open(kind));
      AddsThen(f, t, u, gap, [Open(kind)]);
      AddsIs(f, u, gap + [Open(kind)]);
      PutAdds(u, Close(kind));
      AddsThen(f, u, u.Put(Close(kind)), gap + [Open(kind)], [Close(kind)]);
    } else {
      PutAdds(t, Close(kind));
      AddsThen(f, t, t.Put(Close(kind)), gap, [Close(kind)]);
    }
  }

  lemma FlowEndText(w: State, kind: GroupType)
    requires Calm(w) && !w.comment && w.groups != [] && (w.Top().flow == Flow || w.Top().childCount == 0)
    ensures Grew(w, w.EmitEndGroup(kind),
                 EndText(kind, w.Top().flow == Flow, w.Top().childCount, w.curIndent, w.col))
  {
    CalmIsGood(w);
    FlowEndForm(w, kind);
    ForcedIs(w);
    hide Forced, State.EmitEndGroup, State.CloseFlow, State.EndedGroup, Calm;
    var f := Forced(w);
    var x := f.CloseFlow(kind, w.Top().flow == Block);
    var ts := EndText(kind, w.Top().flow == Flow, w.Top().childCount, w.curIndent, w.col);
    ClosingText(f, kind, w.Top().flow == Block);
    AddsGrew(w, f, x, ts);
    EndedOnly(x, kind);
    WithOutputIs(x.EndedGroup(kind), x);
    hide Grew, Adds;
    SameGrew(w, x, x.EndedGroup(kind), ts);
  }

  lemma BlockEndText(w: State, kind: GroupType)
    requires Calm(w) && !w.comment && w.groups != [] && w.Top().flow == Block && w.Top().childCount > 0
    ensures Grew(w, w.EmitEndGroup(kind), [])
  {
    CalmIsGood(w);
    hide State.EndedGroup, Calm;
    assert w.EmitEndGroup(kind) == w.EndedGroup(kind);
    EndedOnly(w, kind);
    NothingAdds(w);
    AddsGrew(w, w, w, []);
  }

  /** Emitting a tree between two nodes writes the text of the tree behind its lead. */
  lemma {:induction false} TreeText(s: State, t: Tree)
    requires Ready(s)
    ensures Grew(s, s.Run(Calls(t)), NodeText(s, t)) && Ready(s.Run(Calls(t)))
    decreases t, 0
  {
    hide *;
    ReadyIsGood(s);
    match t {
      case Leaf(text, long) =>
        LeafRun(s, text, long);
        LeafText(s, text, long);
      case Node(kind, ts) =>
        GroupText(s, kind, ts);
    }
    TreeEmitted(s, t);
    NotInComment(s, s.Run(Calls(t)), NodeText(s, t));
    EmittedReady(s, t, s.Run(Calls(t)));
  }

  lemma EmittedReady(s: State, t: Tree, u: State)
    requires Ready(s) && Emitted(s, t, u) && !u.comment
    ensures Ready(u)
  {
    var long := LongKey(t, s.InFlow(), s.settings);
    ReadyIsGood(s);
    EmittedCalm(s, t, u);
    NextKeeps(s, long);
    hide Calm, Next, LongKey, LeadOf, Print, Structural;
  }

  lemma {:induction false} GroupText(s: State, kind: GroupType, ts: seq<Tree>)
    requires Ready(s)
    ensures Grew(s, s.Run(Calls(Node(kind, ts))), NodeText(s, Node(kind, ts)))
    decreases ts, 1
  {
    hide *;
    ReadyIsGood(s);
    GroupCalls(s, kind, ts);
    var t, v := Node(kind, ts), s.EmitBeginGroup(kind);
    var long := KeyOf(s, kind);
    GroupBegun(s, kind);
    BegunIs(s, kind, v);
    BeginText(s, kind, ts);
    NotInComment(s, v, LeadFor(s, t));
    BegunFrame(s, kind, long, v);
    ChildrenText(v, ts);
    var w := v.Run(AllCalls(ts));
    var items := Items(FrameOf(v), ts, v.Top().childCount, v.Top().longKey, v.settings, v.col);
    NotInComment(v, w, items);
    EndGroupText(v, w, kind, |ts|);
    var end := EndText(kind, FrameOf(v).flow, |ts|, FrameOf(v).indent, w.col);
    GrewThen(s, v, w, LeadFor(s, t), items);
    GrewThen(s, w, w.EmitEndGroup(kind), LeadFor(s, t) + items, end);
    TextOfGroup(s, kind, ts, FrameOf(v), After(s.col, LeadFor(s, t)));
    assert LeadFor(s, t) + items + end == LeadFor(s, t) + (items + end);
  }

  predicate KeyOf(s: State, kind: GroupType) { s.settings.longKeys || !AsFlow(kind, s.InFlow(), s.settings) }

  lemma BegunIs(s: State, kind: GroupType, v: State)
    requires var long := s.settings.longKeys || !AsFlow(kind, s.InFlow(), s.settings);
             v == WithOutput(Pushed(s, kind, long), v)
    ensures v == WithOutput(Pushed(s, kind, KeyOf(s, kind)), v)
  {
    hide Pushed;
  }

  lemma EndGroupText(v: State, w: State, kind: GroupType, n: nat)
    requires Ready(w) && Grown(v, w, n) && v.groups != [] && v.Top().childCount == 0 && FrameOf(v).kind == kind
    ensures Grew(w, w.EmitEndGroup(kind), EndText(kind, FrameOf(v).flow, n, FrameOf(v).indent, w.col))
  {
    ReadyIsGood(w);
    GrownTop(v, w, n);
    hide Calm, Ready;
    if w.Top().flow == Flow || n == 0 {
      FlowEndText(w, kind);
    } else {
      BlockEndText(w, kind);
    }
  }

  lemma TextOfGroup(s: State, kind: GroupType, ts: seq<Tree>, f: Frame, col: nat)
    requires f == Frame(kind, s.FlowOf(kind) == Flow, s.curIndent, s.curIndent + s.CurGroupIndent(), s.settings.indent)
    requires col == After(s.col, LeadFor(s, Node(kind, ts)))
    ensures var items := Items(f, ts, 0, false, s.settings, col);
            NodeText(s, Node(kind, ts)) ==
            LeadFor(s, Node(kind, ts)) + (items + EndText(kind, f.flow, |ts|, f.indent, After(col, items)))
  {
    hide LeadFor, Gap, After;
    var items := Items(f, ts, 0, false, s.settings, col);
    if ts == [] {
      var brackets := EndText(kind, f.flow, 0, f.indent, col);
      assert [] + brackets == brackets;
      assert After(col, []) == col by { AfterNothing(col); }
    }
  }

  lemma AfterNothing(col: nat)
    ensures After(col, []) == col
  {
  }

  lemma {:induction false} ChildrenText(v: State, ts: seq<Tree>)
    requires Ready(v) && v.groups != []
    ensures var u := v.Run(AllCalls(ts));
            && Grew(v, u, Items(FrameOf(v), ts, v.Top().childCount, v.Top().longKey, v.settings, v.col))
            && Ready(u) && Grown(v, u, |ts|)
    decreases ts, 0
  {
    hide *;
    ReadyIsGood(v);
    ChildrenEmitted(v, ts);
    if ts == [] {
      NoChildren(v);
    } else {
      ChildrenCalls(v, ts);
      var u := v.Run(Calls(ts[0]));
      TreeText(v, ts[0]);
      TreeEmitted(v, ts[0]);
      NotInComment(v, u, NodeText(v, ts[0]));
      NextFrame(v, ts[0], u);
      ChildrenText(u, ts[1..]);
      var w := u.Run(AllCalls(ts[1..]));
      OneChild(v, ts, u, w);
    }
  }

  lemma NoChildren(v: State)
    requires Ready(v) && v.groups != []
    ensures v.Run(AllCalls([])) == v
    ensures Grew(v, v, Items(FrameOf(v), [], v.Top().childCount, v.Top().longKey, v.settings, v.col))
  {
    hide Restore;
    assert v.out + [] == v.out;
  }

  lemma ChildrenCalls(v: State, ts: seq<Tree>)
    requires ts != []
    ensures v.Run(AllCalls(ts)) == v.Run(Calls(ts[0])).Run(AllCalls(ts[1..]))
  {
    hide State.Run, Calls;
    RunConcat(v, Calls(ts[0]), AllCalls(ts[1..]));
  }

  lemma OneChild(v: State, ts: seq<Tree>, u: State, w: State)
    requires ts != [] && v.groups != [] && u.groups != [] && Grew(v, u, NodeText(v, ts[0]))
    requires FrameOf(u) == FrameOf(v) && u.settings == v.settings && u.Top().childCount == v.Top().childCount + 1
    requires v.Top().kind == Map && v.Top().childCount % 2 == 0 ==>
               u.Top().longKey == LongKey(ts[0], v.InFlow(), v.settings)
    requires Grew(u, w, Items(FrameOf(u), ts[1..], u.Top().childCount, u.Top().longKey, u.settings, u.col))
    ensures Grew(v, w, Items(FrameOf(v), ts, v.Top().childCount, v.Top().longKey, v.settings, v.col))
  {
    hide *;
    var f, n, st := FrameOf(v), v.Top().childCount, v.settings;
    var entry := EntryLong(f, ts[0], n, v.Top().longKey, st);
    EntryStays(v, ts[0], u);
    NotInComment(v, u, NodeText(v, ts[0]));
    ItemsFirst(v, ts);
    OnlyForValues(f, ts[1..], n + 1, entry, u.Top().longKey, st, u.col);
    GrewThen(v, u, w, NodeText(v, ts[0]), Items(f, ts[1..], n + 1, entry, st, u.col));
  }

  /** What the key tells its value is what the stack keeps. */
  lemma EntryStays(v: State, t: Tree, u: State)
    requires v.groups != [] && u.groups != []
    requires v.Top().kind == Map && v.Top().childCount % 2 == 0 ==>
               u.Top().longKey == LongKey(t, v.InFlow(), v.settings)
    ensures var f, n := FrameOf(v), v.Top().childCount;
            f.kind == Seq || (n + 1) % 2 == 0 || EntryLong(f, t, n, v.Top().longKey, v.settings) == u.Top().longKey
  {
    hide LongKey;
  }

  lemma ItemsUnfold(f: Frame, ts: seq<Tree>, n: nat, long: bool, st: Settings, col: nat)
    requires ts != []
    ensures var entry := EntryLong(f, ts[0], n, long, st);
            var lead := LeadText(f, n, entry, ChildOf(ts[0], f.flow, st), col);
            var one := lead + Text(ts[0], f.flow, f.indent, f.indent + f.width, st, After(col, lead));
            Items(f, ts, n, long, st, col) == one + Items(f, ts[1..], n + 1, entry, st, After(col, one))
  {
    hide LeadText, Text, After, EntryLong, ChildOf;
  }

  lemma NodeTextIs(v: State, t: Tree)
    requires v.groups != []
    ensures var f, n := FrameOf(v), v.Top().childCount;
            var entry := EntryLong(f, t, n, v.Top().longKey, v.settings);
            var lead := LeadText(f, n, entry, ChildOf(t, f.flow, v.settings), v.col);
            NodeText(v, t) == lead + Text(t, f.flow, f.indent, f.indent + f.width, v.settings, After(v.col, lead))
  {
    hide LeadText, Text, After, EntryLong, ChildOf, State.InFlow, State.LastIndent, State.CurGroupIndent;
  }

  lemma ItemsFirst(v: State, ts: seq<Tree>)
    requires ts != [] && v.groups != []
    ensures var f, n, st := FrameOf(v), v.Top().childCount, v.settings;
            Items(f, ts, n, v.Top().longKey, st, v.col) ==
            NodeText(v, ts[0]) + Items(f, ts[1..], n + 1, EntryLong(f, ts[0], n, v.Top().longKey, st), st,
                                       After(v.col, NodeText(v, ts[0])))
  {
    hide *;
    NodeTextIs(v, ts[0]);
    ItemsUnfold(FrameOf(v), ts, v.Top().childCount, v.Top().longKey, v.settings, v.col);
  }

  // ---- documents

  lemma DocumentFrame(s: State, t: Tree)
    requires s.groups == []
    ensures !s.InFlow() && s.CurGroupIndent() == 0
    ensures s.curIndent == 0 ==>
              NodeText(s, t) == DocLead(s.docCount, s.col) +
                                Text(t, false, 0, 0, s.settings, After(s.col, DocLead(s.docCount, s.col)))
  {
    hide Text, DocLead, After;
  }

  lemma NextDocument(s: State, t: Tree, u: State)
    requires Ready(s) && s.groups == [] && Emitted(s, t, u)
    ensures u.groups == [] && u.docCount == s.docCount + 1 && u.settings == s.settings
  {
    hide Calm, LongKey, LeadOf, Print, Structural;
  }

  lemma {:induction false} DocumentsText(s: State, ts: seq<Tree>)
    requires Ready(s) && s.groups == [] && s.curIndent == 0
    ensures Grew(s, s.Run(AllCalls(ts)), TextAll(ts, s.docCount, s.settings, s.col))
    decreases |ts|
  {
    hide Grew, Ready, Calls, State.Run, Text, DocLead, After, NodeText, Emitted;
    if ts == [] {
      RunNone(s);
      NothingGrew(s);
    } else {
      var u := s.Run(Calls(ts[0]));
      ReadyIsGood(s);
      ChildrenCalls(s, ts);
      TreeText(s, ts[0]);
      TreeEmitted(s, ts[0]);
      NextDocument(s, ts[0], u);
      DocumentFrame(s, ts[0]);
      NotInComment(s, u, NodeText(s, ts[0]));
      ReadyIndent(u);
      DocumentsText(u, ts[1..]);
      GrewThen(s, u, u.Run(AllCalls(ts[1..])), NodeText(s, ts[0]),
               TextAll(ts[1..], u.docCount, u.settings, u.col));
    }
  }

  lemma NothingGrew(s: State)
    requires Ready(s)
    ensures Grew(s, s, [])
  {
    ReadyIsGood(s);
    hide Ready;
    NothingAdds(s);
    AddsGrew(s, s, s, []);
  }

  lemma ReadyIndent(s: State)
    requires Ready(s) && s.groups == []
    ensures s.curIndent == 0
  {
    hide Calm;
  }

  lemma InitiallyReady()
    ensures Ready(INITIAL) && INITIAL.groups == [] && INITIAL.out == []
  {
  }

  lemma GloballyReady(s: State, u: State)
    requires Ready(s) && Calm(u) && u == s.(settings := u.settings, globalModified := u.globalModified)
    ensures Ready(u)
  {
    hide Calm;
  }

  /** For all trees and all global settings: the whole output, with every blank, line break and
      document marker, is what the printer gives. */
  lemma OutputIsText(globals: seq<Op>, ts: seq<Tree>)
    requires forall i | 0 <= i < |globals| :: SetsGlobally(globals[i])
    ensures INITIAL.Run(globals + AllCalls(ts)).out == TextAll(ts, 0, INITIAL.Run(globals).settings, 0)
  {
    InitiallyReady();
    InitiallyCalm();
    hide State.Run, Ready, Calm, TextAll, AllCalls;
    var s := INITIAL.Run(globals);
    RunConcat(INITIAL, globals, AllCalls(ts));
    GloballySet(INITIAL, globals);
    GloballyReady(INITIAL, s);
    DocumentsText(s, ts);
    assert [] + TextAll(ts, 0, s.settings, 0) == TextAll(ts, 0, s.settings, 0);
  }
}
