/** What every run of the emitter writes, whatever the calls: each text once and in order, contents that
    never touch, no mark inside a comment. */
module EmitterRuns {
  import opened EmitterModel
  import opened EmitterLayout
  import opened EmitterTree
  import EmitterKeys
  import S = EmitterSafety

  // ---- what the calls say

  predicate Speaks(t: Token) { t.Content? || t.Remark? }

  /** The texts in the output, in their order. */
  function Spoken(ts: seq<Token>): seq<Token>
    decreases |ts|
  {
    if ts == [] then []
    else Spoken(ts[..|ts| - 1]) + (if Speaks(ts[|ts| - 1]) then [ts[|ts| - 1]] else [])
  }

  function SaidBy(op: Op): seq<Token>
  {
    match op
    case WriteScalar(text, _) => [Content(text)]
    case WriteAlias(text, _) => [Content(text)]
    case WriteAnchor(text, _) => [Content(text)]
    case WriteTag(text, _) => [Content(text)]
    case WriteComment(text) => [Remark(text)]
    case _ => []
  }

  /** The texts of the calls, in their order. */
  function Said(ops: seq<Op>): seq<Token>
    decreases |ops|
  {
    if ops == [] then [] else SaidBy(ops[0]) + Said(ops[1..])
  }

  // ---- what the output keeps apart

  function Comments(ts: seq<Token>): bool
    decreases |ts|
  {
    ts != [] && TokenComment(Comments(ts[..|ts| - 1]), ts[|ts| - 1])
  }

  /** A content stands last, and its line is begun. */
  predicate Hanging(ts: seq<Token>) { ts != [] && ts[|ts| - 1].Content? && ColumnBehind(ts) > 0 }

  /** Whether a token may be written behind some output. */
  predicate Fits(before: seq<Token>, t: Token)
  {
    && (t.Content? || t.Open? ==> !Hanging(before))
    && (Mark(t) ==> !Comments(before))
    && (t.Remark? && ColumnBehind(before) > 0 ==> before != [] && before[|before| - 1] == Pad(2))
  }

  predicate Tidy(ts: seq<Token>)
    decreases |ts|
  {
    ts == [] || (Tidy(ts[..|ts| - 1]) && Fits(ts[..|ts| - 1], ts[|ts| - 1]))
  }

  ghost predicate Sane(s: State)
  {
    Tidy(s.out) && Tracked(s) && s.comment == Comments(s.out)
  }

  /** `t` is `s` after writing layout and marks: nothing is said, and if a content stands last, nothing has been
      written at all. */
  ghost predicate Neat(s: State, t: State)
  {
    t == S.WithOutput(s, t) && Spoken(t.out) == Spoken(s.out) && Sane(t) && (Hanging(t.out) ==> t == s)
  }

  lemma NeatThen(s: State, t: State, u: State)
    requires Neat(s, t) && Neat(t, u)
    ensures Neat(s, u)
  {
    hide Sane, Hanging, Spoken;
  }

  lemma NeatNothing(s: State)
    requires Sane(s)
    ensures Neat(s, s)
  {
    hide Sane, Hanging, Spoken;
  }

  lemma PutSane(s: State, t: Token)
    requires Sane(s) && Fits(s.out, t)
    ensures Sane(s.Put(t)) && Spoken(s.Put(t).out) == Spoken(s.out) + (if Speaks(t) then [t] else [])
  {
    assert (s.out + [t])[..|s.out|] == s.out;
    hide Fits, TokenColumn, TokenComment;
  }

  lemma PutNeat(s: State, t: Token)
    requires Sane(s) && !Speaks(t) && (Mark(t) ==> !s.comment) && (t.Open? ==> !Hanging(s.out))
    ensures Neat(s, s.Put(t)) && !Hanging(s.Put(t).out)
  {
    assert Fits(s.out, t);
    PutSane(s, t);
    assert Spoken(s.out) + [] == Spoken(s.out);
    hide Sane, Fits, Spoken, TokenColumn, TokenComment;
  }

  lemma BreakNeat(s: State, condition: bool)
    requires Sane(s)
    ensures Neat(s, s.BreakIf(condition)) && (condition ==> !Hanging(s.BreakIf(condition).out))
    ensures condition || !s.comment ==> !s.BreakIf(condition).comment
  {
    PutNeat(s, Newline);
    NeatNothing(s);
    hide Sane, Hanging, Neat;
  }

  lemma IndentNeat(s: State, n: int)
    requires Sane(s)
    ensures Neat(s, s.IndentTo(n)) && s.IndentTo(n).comment == s.comment
    ensures !Hanging(s.out) ==> !Hanging(s.IndentTo(n).out)
  {
    hide *;
    IndentForm(s, n);
    if s.col < n { BlankNeat(s, Pad(n - s.col)); } else { NeatNothing(s); }
  }

  lemma IndentForm(s: State, n: int)
    ensures s.IndentTo(n) == if s.col < n then s.Put(Pad(n - s.col)) else s
  {
    hide State.Put;
  }

  lemma BlankNeat(s: State, t: Token)
    requires Sane(s) && (t.Pad? || t == Space)
    ensures Neat(s, s.Put(t)) && !Hanging(s.Put(t).out) && s.Put(t).comment == s.comment
  {
    PutNeat(s, t);
    hide Neat, Sane, Hanging;
  }

  lemma HangingColumn(s: State)
    requires Sane(s) && Hanging(s.out)
    ensures s.col > 0
  {
  }

  /** Room always ends a comment; with a blank it parts what follows from a content. */
  lemma RoomNeat(s: State, space: bool, n: int)
    requires Sane(s)
    ensures var t := s.SpaceOrIndentTo(space, n);
            Neat(s, t) && !t.comment && (space || !Hanging(s.out) ==> !Hanging(t.out))
  {
    hide *;
    var b := s.BreakIf(s.comment);
    RoomForm(s, space, n);
    BreakNeat(s, s.comment);
    NeatSane(s, b);
    if b.col > 0 && space {
      BlankNeat(b, Space);
      NeatSane(b, b.Put(Space));
      IndentNeat(b.Put(Space), n);
      NeatThen(b, b.Put(Space), b.Put(Space).IndentTo(n));
    } else {
      if Hanging(b.out) { HangingColumn(b); }
      IndentNeat(b, n);
    }
    NeatThen(s, b, s.SpaceOrIndentTo(space, n));
  }

  lemma RoomForm(s: State, space: bool, n: int)
    ensures var b := s.BreakIf(s.comment);
            s.SpaceOrIndentTo(space, n) == (if b.col > 0 && space then b.Put(Space) else b).IndentTo(n)
  {
    hide State.BreakIf, State.IndentTo, State.Put;
  }

  lemma NeatSane(s: State, t: State)
    requires Neat(s, t)
    ensures Sane(t) && t == S.WithOutput(s, t) && (!Hanging(s.out) ==> !Hanging(t.out))
    ensures t.HasBegunContent() == s.HasBegunContent() && t.HasBegunNode() == s.HasBegunNode()
    ensures t.CurGroupChildCount() == s.CurGroupChildCount() && t.LastIndent() == s.LastIndent()
    ensures t.CurGroupIndent() == s.CurGroupIndent()
  {
    hide Sane, Hanging, Spoken;
  }

  /** A mark outside of comments. */
  lemma MarkNeat(s: State, t: Token)
    requires Sane(s) && !s.comment && !t.Content? && !t.Remark? && (t.Open? ==> !Hanging(s.out))
    ensures Neat(s, s.Put(t)) && !Hanging(s.Put(t).out) && !s.Put(t).comment
  {
    PutNeat(s, t);
    hide Neat, Sane, Hanging;
  }

  /** A mark at the indent of its group, behind a line break. */
  lemma LineNeat(s: State, condition: bool, n: int, t: Token)
    requires Sane(s) && (condition || !s.comment) && !t.Content? && !t.Remark? && !t.Open?
    ensures var u := s.BreakIf(condition).IndentTo(n).Put(t);
            Neat(s, u) && !Hanging(u.out) && !u.comment
  {
    hide *;
    var a := s.BreakIf(condition);
    var b := a.IndentTo(n);
    BreakNeat(s, condition);
    NeatSane(s, a);
    IndentNeat(a, n);
    NeatSane(a, b);
    MarkNeat(b, t);
    NeatThen(s, a, b);
    NeatThen(s, b, b.Put(t));
  }

  // ---- room for a node

  /** Nothing is written in front of a node of a group, or a content stands last and its node is counted: then
      the next call begins with a mark or a line break. */
  ghost predicate Parted(s: State)
  {
    Hanging(s.out) && !s.HasBegunContent() ==>
      !s.HasBegunNode() && (s.groups != [] ==> s.Top().childCount > 0) && s.docCount > 0
  }

  /** In a block map no comment stands in front of the colon of a short entry. */
  ghost predicate ColonClear(s: State)
  {
    s.CurGroupNodeType() == BlockMap && s.Top().childCount % 2 == 1 && !s.Top().longKey && !s.HasBegunNode() ==>
      !s.comment
  }

  ghost predicate Clear(s: State) { Sane(s) && Parted(s) && ColonClear(s) }

  /** What room for a node means here. */
  ghost predicate Makes(s: State, child: Child, t: State)
  {
    Neat(s, t) && (child != NoNode ==> !Hanging(t.out) && (child != BlockSeq && child != BlockMap ==> !t.comment))
  }

  lemma MakesOf(s: State, t: State, u: State, child: Child)
    requires Neat(s, t) && Makes(t, child, u)
    ensures Makes(s, child, u)
  {
    NeatThen(s, t, u);
    hide Neat, Hanging;
  }

  lemma FlowStartNeat(s: State)
    requires Sane(s)
    ensures var t := s.FlowStart();
            Neat(s, t) && !t.comment && t.hasAlias == s.hasAlias && (!Hanging(s.out) ==> !Hanging(t.out))
  {
    var b := s.BreakIf(s.comment);
    BreakNeat(s, s.comment);
    NeatSane(s, b);
    IndentNeat(b, s.LastIndent());
    NeatSane(b, s.FlowStart());
    NeatThen(s, b, s.FlowStart());
    hide Neat, Sane, Hanging, State.BreakIf, State.IndentTo;
  }

  lemma FlowChildMakes(s: State, child: Child)
    requires Sane(s) && child != BlockSeq && child != BlockMap && (s.HasBegunContent() || !Hanging(s.out))
    ensures Makes(s, child, s.FlowChild(child))
  {
    NeatNothing(s);
    RoomNeat(s, s.HasBegunContent() || s.CurGroupChildCount() > 0, s.LastIndent());
    hide Neat, Sane, Hanging, State.SpaceOrIndentTo, State.HasBegunContent, State.CurGroupChildCount;
  }

  lemma FlowRest(s: State, t: State, child: Child)
    requires Neat(s, t) && !Hanging(t.out) && child != BlockSeq && child != BlockMap
    ensures Makes(s, child, t.FlowChild(child))
  {
    NeatSane(s, t);
    hide Neat, Sane, Hanging, State.FlowChild;
    FlowChildMakes(t, child);
    MakesOf(s, t, t.FlowChild(child), child);
  }

  /** Behind a label or a comment of the same node no mark is written. */
  lemma FlowAgain(s: State, child: Child)
    requires Clear(s) && s.HasBegunNode() && child != BlockSeq && child != BlockMap
    ensures Makes(s, child, s.FlowChild(child))
  {
    hide Sane, Hanging, State.FlowChild;
    FlowChildMakes(s, child);
  }

  lemma ClearParts(s: State)
    requires Clear(s)
    ensures Sane(s)
    ensures s.groups != [] && s.Top().childCount == 0 && !s.HasBegunContent() ==> !Hanging(s.out)
    ensures s.HasBegunNode() && !s.HasBegunContent() ==> !Hanging(s.out)
  {
    hide Sane, Hanging;
  }

  lemma FirstMark(s: State, kind: GroupType)
    requires Clear(s) && s.groups != [] && !s.HasBegunNode()
    ensures var t := s.FlowStart().Put(if s.CurGroupChildCount() == 0 then Open(kind) else Comma);
            Neat(s, t) && !Hanging(t.out) && !t.comment
  {
    ClearParts(s);
    FlowStartNeat(s);
    NeatSane(s, s.FlowStart());
    hide Clear, Neat, Sane, Hanging, State.FlowStart;
    NotBegunContent(s);
    var first := if s.CurGroupChildCount() == 0 then Open(kind) else Comma;
    MarkNeat(s.FlowStart(), first);
    NeatThen(s, s.FlowStart(), s.FlowStart().Put(first));
  }

  lemma NotBegunContent(s: State)
    requires !s.HasBegunNode()
    ensures !s.HasBegunContent()
  {
  }

  lemma FlowSeqMakes(s: State, child: Child)
    requires Clear(s) && s.CurGroupNodeType() == FlowSeq && child != BlockSeq && child != BlockMap
    ensures Makes(s, child, s.FlowSeqPrepareNode(child))
  {
    hide Clear, Neat, Hanging, Makes, State.FlowStart, State.FlowChild, State.HasBegunNode;
    if s.HasBegunNode() {
      FlowAgain(s, child);
    } else {
      FirstMark(s, Seq);
      FlowRest(s, s.FlowStart().Put(if s.CurGroupChildCount() == 0 then Open(Seq) else Comma), child);
    }
  }

  lemma QuestionMark(s: State, kind: GroupType)
    requires Clear(s) && s.groups != [] && !s.HasBegunNode()
    ensures var t := s.FlowStart().Put(if s.CurGroupChildCount() == 0 then Open(kind) else Comma);
            Neat(s, t.Put(Space).Put(Question)) && !Hanging(t.Put(Space).Put(Question).out)
  {
    hide *;
    var t := s.FlowStart().Put(if s.CurGroupChildCount() == 0 then Open(kind) else Comma);
    FirstMark(s, kind);
    NeatSane(s, t);
    BlankNeat(t, Space);
    NeatSane(t, t.Put(Space));
    MarkNeat(t.Put(Space), Question);
    NeatThen(s, t, t.Put(Space));
    NeatThen(s, t.Put(Space), t.Put(Space).Put(Question));
  }

  lemma FlowColon(s: State, spaced: bool)
    requires Sane(s)
    ensures var t := s.FlowStart();
            var u := (if spaced then t.Put(Space) else t).Put(Colon);
            Neat(s, u) && !Hanging(u.out)
  {
    hide *;
    var t := s.FlowStart();
    FlowStartNeat(s);
    NeatSane(s, t);
    if spaced {
      BlankNeat(t, Space);
      NeatSane(t, t.Put(Space));
      MarkNeat(t.Put(Space), Colon);
      NeatThen(s, t, t.Put(Space));
      NeatThen(s, t.Put(Space), t.Put(Space).Put(Colon));
    } else {
      MarkNeat(t, Colon);
      NeatThen(s, t, t.Put(Colon));
    }
  }

  lemma FlowMapMakes(s: State, child: Child)
    requires Clear(s) && s.CurGroupNodeType() == FlowMap && child != BlockSeq && child != BlockMap
    ensures Makes(s, child, s.FlowMapPrepareLongKey(child)) && Makes(s, child, s.FlowMapPrepareSimpleKey(child))
    ensures Makes(s, child, s.FlowMapPrepareLongKeyValue(child))
    ensures Makes(s, child, s.FlowMapPrepareSimpleKeyValue(child))
  {
    ClearParts(s);
    FlowStartNeat(s);
    hide Clear, Neat, Hanging, Makes, Sane, State.FlowStart, State.FlowChild, State.HasBegunNode;
    if s.HasBegunNode() {
      FlowAgain(s, child);
    } else {
      var first := if s.CurGroupChildCount() == 0 then Open(Map) else Comma;
      FirstMark(s, Map);
      QuestionMark(s, Map);
      FlowColon(s, false);
      FlowColon(s, s.hasAlias);
      FlowRest(s, s.FlowStart().Put(first).Put(Space).Put(Question), child);
      FlowRest(s, s.FlowStart().Put(first), child);
      FlowRest(s, s.FlowStart().Put(Colon), child);
      FlowRest(s, (if s.hasAlias then s.FlowStart().Put(Space) else s.FlowStart()).Put(Colon), child);
    }
  }

  // ---- block layout

  /** Behind a label or a comment, and room for what comes next. */
  lemma RoomMakes(s: State, t: State, child: Child, space: bool, n: int)
    requires Neat(s, t) && (space || !Hanging(t.out))
    ensures Makes(s, child, t.SpaceOrIndentTo(space, n))
  {
    hide *;
    NeatSane(s, t);
    RoomNeat(t, space, n);
    NeatThen(s, t, t.SpaceOrIndentTo(space, n));
    MakesIs(s, child, t.SpaceOrIndentTo(space, n));
  }

  lemma MakesIs(s: State, child: Child, t: State)
    requires Neat(s, t)
    requires child != NoNode ==> !Hanging(t.out) && (child != BlockSeq && child != BlockMap ==> !t.comment)
    ensures Makes(s, child, t)
  {
    hide Neat, Hanging;
  }

  lemma BreakMakes(s: State, t: State, child: Child, condition: bool)
    requires Neat(s, t) && (condition || !Hanging(t.out)) && (child == BlockSeq || child == BlockMap)
    ensures Makes(s, child, t.BreakIf(condition))
  {
    hide *;
    NeatSane(s, t);
    BreakNeat(t, condition);
    NeatSane(t, t.BreakIf(condition));
    NeatThen(s, t, t.BreakIf(condition));
    MakesIs(s, child, t.BreakIf(condition));
  }

  lemma NewlineMakes(s: State, t: State, child: Child)
    requires Neat(s, t)
    ensures Makes(s, child, t.Put(Newline))
  {
    assert t.BreakIf(true) == t.Put(Newline);
    hide *;
    NeatSane(s, t);
    BreakNeat(t, true);
    NeatSane(t, t.BreakIf(true));
    NeatThen(s, t, t.BreakIf(true));
    MakesIs(s, child, t.BreakIf(true));
  }

  /** The line of an item, unless a label of it is written. */
  function Dashed(s: State): State
  {
    if s.HasBegunContent() then s
    else s.BreakIf(s.CurGroupChildCount() > 0 || s.comment).IndentTo(s.curIndent).Put(Dash)
  }

  lemma DashedNeat(s: State)
    requires Sane(s)
    ensures var t := Dashed(s);
            Neat(s, t) && (s.HasBegunContent() || !Hanging(t.out)) && t.HasBegunContent() == s.HasBegunContent()
  {
    NeatNothing(s);
    LineNeat(s, s.CurGroupChildCount() > 0 || s.comment, s.curIndent, Dash);
    NeatSane(s, Dashed(s));
    hide Neat, Sane, Hanging, State.BreakIf, State.IndentTo, State.Put, State.HasBegunContent, State.CurGroupChildCount;
  }

  lemma BlockSeqForm(s: State, child: Child)
    ensures var t := Dashed(s);
            s.BlockSeqPrepareNode(child) ==
            if child == NoNode then s
            else if child == BlockSeq then t.Put(Newline)
            else if child == BlockMap then t.BreakIf(t.HasBegunContent() || t.comment)
            else t.SpaceOrIndentTo(t.HasBegunContent(), s.curIndent + s.CurGroupIndent())
  {
    hide State.BreakIf, State.IndentTo, State.Put, State.SpaceOrIndentTo, State.HasBegunContent,
      State.CurGroupChildCount, State.CurGroupIndent;
  }

  lemma BlockSeqMakes(s: State, child: Child)
    requires Clear(s)
    ensures Makes(s, child, s.BlockSeqPrepareNode(child))
  {
    hide *;
    ClearParts(s);
    BlockSeqForm(s, child);
    if child == NoNode {
      NeatNothing(s);
      MakesIs(s, child, s);
    } else {
      var t := Dashed(s);
      DashedNeat(s);
      if child == BlockSeq {
        NewlineMakes(s, t, child);
      } else if child == BlockMap {
        BreakMakes(s, t, child, t.HasBegunContent() || t.comment);
      } else {
        RoomMakes(s, t, child, t.HasBegunContent(), s.curIndent + s.CurGroupIndent());
      }
    }
  }

  /** The line of a long key, unless a label of it is written. */
  function Questioned(s: State): State
  {
    if s.HasBegunContent() then s
    else
      var t := s.BreakIf(s.CurGroupChildCount() > 0);
      t.BreakIf(t.comment).IndentTo(s.curIndent).Put(Question)
  }

  lemma QuestionedNeat(s: State)
    requires Sane(s)
    ensures var t := Questioned(s);
            Neat(s, t) && (s.HasBegunContent() || !Hanging(t.out)) && t.HasBegunContent() == s.HasBegunContent()
  {
    var b := s.BreakIf(s.CurGroupChildCount() > 0);
    NeatNothing(s);
    BreakNeat(s, s.CurGroupChildCount() > 0);
    NeatSane(s, b);
    LineNeat(b, b.comment, s.curIndent, Question);
    NeatThen(s, b, b.BreakIf(b.comment).IndentTo(s.curIndent).Put(Question));
    hide Neat, Sane, Hanging, State.BreakIf, State.IndentTo, State.Put, State.HasBegunContent, State.CurGroupChildCount;
    NeatSane(s, Questioned(s));
  }

  lemma LongKeyForm(s: State, child: Child)
    ensures var t := Questioned(s);
            s.BlockMapPrepareLongKey(child) ==
            if child == NoNode then s
            else if child == BlockSeq || child == BlockMap then t.BreakIf(t.HasBegunContent())
            else t.SpaceOrIndentTo(true, s.curIndent + 1)
  {
    hide State.BreakIf, State.IndentTo, State.Put, State.SpaceOrIndentTo, State.HasBegunContent,
      State.CurGroupChildCount;
  }

  lemma LongKeyMakes(s: State, child: Child)
    requires Clear(s)
    ensures Makes(s, child, s.BlockMapPrepareLongKey(child))
  {
    hide *;
    ClearParts(s);
    LongKeyForm(s, child);
    if child == NoNode {
      NeatNothing(s);
      MakesIs(s, child, s);
    } else {
      var t := Questioned(s);
      QuestionedNeat(s);
      if child == BlockSeq || child == BlockMap {
        BreakMakes(s, t, child, t.HasBegunContent());
      } else {
        RoomMakes(s, t, child, true, s.curIndent + 1);
      }
    }
  }

  /** The line of the value of a long entry, unless a label of it is written. */
  function Coloned(s: State): State
  {
    if s.HasBegunContent() then s else s.BreakIf(true).IndentTo(s.curIndent).Put(Colon)
  }

  lemma LongValueForm(s: State, child: Child)
    ensures var t := Coloned(s);
            s.BlockMapPrepareLongKeyValue(child) ==
            if child == NoNode then s
            else (if child == BlockSeq || child == BlockMap then t.BreakIf(t.HasBegunContent()) else t)
                 .SpaceOrIndentTo(true, s.curIndent + 1)
  {
    hide State.IndentTo, State.Put, State.SpaceOrIndentTo, State.HasBegunContent;
  }

  lemma ColonedNeat(s: State)
    requires Sane(s)
    ensures Neat(s, Coloned(s))
  {
    NeatNothing(s);
    LineNeat(s, true, s.curIndent, Colon);
    hide Neat, Sane, Hanging, State.BreakIf, State.IndentTo, State.Put, State.HasBegunContent;
  }

  lemma LongValueMakes(s: State, child: Child)
    requires Clear(s)
    ensures Makes(s, child, s.BlockMapPrepareLongKeyValue(child))
  {
    hide *;
    ClearParts(s);
    LongValueForm(s, child);
    if child == NoNode {
      NeatNothing(s);
      MakesIs(s, child, s);
    } else {
      var t := Coloned(s);
      ColonedNeat(s);
      if child == BlockSeq || child == BlockMap {
        NeatSane(s, t);
        BreakNeat(t, t.HasBegunContent());
        NeatThen(s, t, t.BreakIf(t.HasBegunContent()));
        RoomMakes(s, t.BreakIf(t.HasBegunContent()), child, true, s.curIndent + 1);
      } else {
        RoomMakes(s, t, child, true, s.curIndent + 1);
      }
    }
  }

  lemma SimpleKeyForm(s: State, child: Child)
    requires child != BlockSeq && child != BlockMap
    ensures var t := s.BreakIf(!s.HasBegunNode() && s.CurGroupChildCount() > 0);
            s.BlockMapPrepareSimpleKey(child) ==
            if child == NoNode then s else t.SpaceOrIndentTo(t.HasBegunContent(), s.curIndent)
  {
    hide State.BreakIf, State.SpaceOrIndentTo, State.HasBegunContent, State.HasBegunNode, State.CurGroupChildCount;
  }

  lemma SimpleKeyParts(s: State)
    requires Clear(s) && s.groups != []
    ensures (!s.HasBegunNode() && s.CurGroupChildCount() > 0) || s.HasBegunContent() || !Hanging(s.out)
  {
    if !s.HasBegunNode() { NotBegunContent(s); }
    ClearParts(s);
    hide Clear, Hanging, State.HasBegunContent;
  }

  lemma SimpleKeyMakes(s: State, child: Child)
    requires Clear(s) && s.CurGroupNodeType() == BlockMap && child != BlockSeq && child != BlockMap
    ensures Makes(s, child, s.BlockMapPrepareSimpleKey(child))
  {
    assert s.groups != [];
    hide *;
    ClearParts(s);
    SimpleKeyForm(s, child);
    SimpleKeyParts(s);
    if child == NoNode {
      NeatNothing(s);
      MakesIs(s, child, s);
    } else {
      var condition := !s.HasBegunNode() && s.CurGroupChildCount() > 0;
      BreakNeat(s, condition);
      NeatSane(s, s.BreakIf(condition));
      RoomMakes(s, s.BreakIf(condition), child, s.BreakIf(condition).HasBegunContent(), s.curIndent);
    }
  }

  /** The colon of a short entry, unless something of its value is written. */
  function Short(s: State): State
  {
    if s.HasBegunNode() then s else (if s.hasAlias then s.Put(Space) else s).Put(Colon)
  }

  lemma ShortNeat(s: State)
    requires Clear(s) && (s.HasBegunNode() || !s.comment)
    ensures Neat(s, Short(s)) && (s.HasBegunContent() || !Hanging(Short(s).out))
  {
    ClearParts(s);
    NeatNothing(s);
    hide Clear, Neat, Sane, Hanging, State.Put, State.HasBegunNode, State.HasBegunContent;
    if !s.HasBegunNode() {
      if s.hasAlias {
        BlankNeat(s, Space);
        NeatSane(s, s.Put(Space));
        MarkNeat(s.Put(Space), Colon);
        NeatThen(s, s.Put(Space), s.Put(Space).Put(Colon));
      } else {
        MarkNeat(s, Colon);
      }
    }
  }

  lemma SimpleValueForm(s: State, child: Child)
    ensures var t := Short(s);
            s.BlockMapPrepareSimpleKeyValue(child) ==
            if child == NoNode then t else if child == BlockSeq || child == BlockMap then t.Put(Newline)
            else t.SpaceOrIndentTo(true, s.curIndent + s.CurGroupIndent())
  {
    hide State.SpaceOrIndentTo, State.CurGroupIndent, State.HasBegunNode;
  }

  lemma ColonIsClear(s: State)
    requires Clear(s) && s.CurGroupNodeType() == BlockMap && s.Top().childCount % 2 == 1 && !s.Top().longKey
    ensures s.HasBegunNode() || !s.comment
  {
    hide Sane, Parted, State.HasBegunNode;
  }

  lemma SimpleValueMakes(s: State, child: Child)
    requires Clear(s) && s.CurGroupNodeType() == BlockMap && s.Top().childCount % 2 == 1 && !s.Top().longKey
    ensures Makes(s, child, s.BlockMapPrepareSimpleKeyValue(child))
  {
    hide *;
    ColonIsClear(s);
    var t := Short(s);
    ShortNeat(s);
    SimpleValueForm(s, child);
    if child == NoNode {
      MakesIs(s, child, t);
    } else if child == BlockSeq || child == BlockMap {
      NewlineMakes(s, t, child);
    } else {
      RoomMakes(s, t, child, true, s.curIndent + s.CurGroupIndent());
    }
  }

  // ---- room for a node, anywhere

  lemma ClearDecided(s: State, child: Child)
    requires Clear(s) && s.groups != []
    ensures Clear(Decided(s, child)) && Decided(s, child).CurGroupNodeType() == s.CurGroupNodeType()
    ensures Decided(s, child).out == s.out
    ensures s.Top().kind == Map && s.Top().childCount % 2 == 1 ==> Decided(s, child).Top().longKey == s.Top().longKey
    ensures Decided(s, child).Top().childCount == s.Top().childCount
    ensures s.Top().kind == Map ==> Decided(s, child).Top().longKey == LaidOutLong(s, child)
  {
    DecidedTop(s, child);
    if s.Top().childCount % 2 == 1 { OddIsLaid(s, child); }
    hide Decided, LaidOutLong, Sane, Hanging;
  }

  lemma OddIsLaid(s: State, child: Child)
    requires s.groups != [] && s.Top().childCount % 2 == 1
    ensures LaidOutLong(s, child) == s.Top().longKey
  {
  }

  /** Room made: the text said so far is the same, and what follows fits. */
  ghost predicate Ready(s: State, child: Child, p: State)
  {
    && Sane(p) && Spoken(p.out) == Spoken(s.out) && p.groups == Decided(s, child).groups
    && p.docCount == s.docCount && p.settings == s.settings
    && (child != NoNode ==> !Hanging(p.out) && (child != BlockSeq && child != BlockMap ==> !p.comment))
  }

  lemma MakesReady(s: State, child: Child, p: State)
    requires Makes(Decided(s, child), child, p) && Decided(s, child).out == s.out
    requires Decided(s, child).docCount == s.docCount && Decided(s, child).settings == s.settings
    ensures Ready(s, child, p)
  {
    hide Sane, Hanging, Decided, Spoken;
  }

  lemma MapReady(s: State, child: Child)
    requires Clear(s) && s.groups != [] && s.Top().kind == Map
    requires s.InFlow() ==> child != BlockSeq && child != BlockMap
    ensures Makes(Decided(s, child), child, s.PrepareNode(child))
  {
    var d := Decided(s, child);
    ClearDecided(s, child);
    hide Clear, Makes, Decided, State.PrepareNode, State.BlockMapPrepareLongKey, State.BlockMapPrepareLongKeyValue,
      State.BlockMapPrepareSimpleKey, State.BlockMapPrepareSimpleKeyValue, State.FlowMapPrepareLongKey,
      State.FlowMapPrepareLongKeyValue, State.FlowMapPrepareSimpleKey, State.FlowMapPrepareSimpleKeyValue;
    if s.Top().flow == Flow {
      FlowMapDispatch(s, child);
      FlowMapMakes(d, child);
    } else {
      BlockMapDispatch(s, child);
      BlockMapReady(s, child, d);
    }
  }

  lemma BlockMapReady(s: State, child: Child, d: State)
    requires Clear(d) && d.CurGroupNodeType() == BlockMap && s.groups != [] && s.CurGroupNodeType() == BlockMap
    requires d.Top().childCount == s.Top().childCount && d.Top().longKey == LaidOutLong(s, child)
    ensures Makes(d, child,
                  if s.Top().childCount % 2 == 0
                  then if LaidOutLong(s, child) then d.BlockMapPrepareLongKey(child)
                       else d.BlockMapPrepareSimpleKey(child)
                  else if LaidOutLong(s, child) then d.BlockMapPrepareLongKeyValue(child)
                  else d.BlockMapPrepareSimpleKeyValue(child))
  {
    hide Clear, Makes, State.BlockMapPrepareLongKey, State.BlockMapPrepareLongKeyValue,
      State.BlockMapPrepareSimpleKey, State.BlockMapPrepareSimpleKeyValue;
    if s.Top().childCount % 2 == 0 {
      if LaidOutLong(s, child) { LongKeyMakes(d, child); } else { SimpleKeyMakes(d, child); }
    } else if LaidOutLong(s, child) {
      LongValueMakes(d, child);
    } else {
      SimpleValueMakes(d, child);
    }
  }

  lemma SeqReady(s: State, child: Child)
    requires Clear(s) && s.groups != [] && s.Top().kind == Seq
    requires s.InFlow() ==> child != BlockSeq && child != BlockMap
    ensures Makes(s, child, s.PrepareNode(child)) && Decided(s, child) == s
  {
    hide Clear, Makes, State.BlockSeqPrepareNode, State.FlowSeqPrepareNode;
    if s.Top().flow == Flow { FlowSeqMakes(s, child); } else { BlockSeqMakes(s, child); }
  }

  lemma PrepareReady(s: State, child: Child)
    requires Clear(s) && s.good && (s.InFlow() ==> child != BlockSeq && child != BlockMap)
    requires s.PrepareNode(child).good
    ensures Ready(s, child, s.PrepareNode(child))
  {
    if s.groups == [] {
      RootReady(s, child);
    } else {
      ClearDecided(s, child);
      DecidedTop(s, child);
      hide Clear, Makes, Decided, State.PrepareNode;
      if s.Top().kind == Seq { SeqReady(s, child); } else { MapReady(s, child); }
      MakesReady(s, child, s.PrepareNode(child));
    }
  }

  /** In front of a document: a marker when the line is begun. */
  lemma RootReady(s: State, child: Child)
    requires Clear(s) && s.good && s.groups == [] && s.PrepareNode(child).good
    ensures Ready(s, child, s.PrepareNode(child))
  {
    ClearParts(s);
    if child == NoNode {
      hide Sane, Hanging;
      assert s.PrepareNode(child) == s;
    } else if s.docCount > 0 && s.col > 0 {
      LaterRoot(s, child);
    } else {
      FirstRoot(s, child);
    }
  }

  lemma RootMakes(t: State, child: Child)
    requires Sane(t) && (t.HasBegunContent() || !Hanging(t.out)) && child != NoNode
    ensures Makes(t, child, if child == BlockSeq || child == BlockMap then t.BreakIf(t.HasBegunNode())
                            else t.SpaceOrIndentTo(t.HasBegunContent(), 0))
  {
    NeatNothing(t);
    if t.HasBegunContent() { BegunBoth(t); }
    hide *;
    if child == BlockSeq || child == BlockMap {
      BreakMakes(t, t, child, t.HasBegunNode());
    } else {
      RoomMakes(t, t, child, t.HasBegunContent(), 0);
    }
  }

  lemma BegunBoth(t: State)
    requires t.HasBegunContent()
    ensures t.HasBegunNode()
  {
  }

  lemma FirstRoot(s: State, child: Child)
    requires Clear(s) && s.good && s.groups == [] && child != NoNode && !(s.docCount > 0 && s.col > 0)
    ensures Ready(s, child, s.PrepareNode(child))
  {
    assert s.HasBegunContent() || !Hanging(s.out) by { if Hanging(s.out) { HangingColumn(s); } hide Sane; }
    RootMakes(s, child);
    hide Clear, Makes, Sane, Hanging, State.BreakIf, State.SpaceOrIndentTo, State.EmitBeginDoc, State.HasBegunContent,
      State.HasBegunNode;
    assert Decided(s, child) == s;
    assert Makes(s, child, s.PrepareNode(child));
    MakesReady(s, child, s.PrepareNode(child));
  }

  lemma DocNeat(s: State, mark: Token)
    requires Sane(s) && (mark == DocStart || mark == DocEnd)
    ensures var t := s.BreakIf(s.col > 0).Put(mark);
            Neat(s, t) && !Hanging(t.out) && !t.comment
  {
    var b := s.BreakIf(s.col > 0);
    BreakNeat(s, s.col > 0);
    NeatSane(s, b);
    PutNeat(b, mark);
    NeatThen(s, b, b.Put(mark));
    hide Neat, Sane, Hanging, State.BreakIf;
  }

  lemma LaterRoot(s: State, child: Child)
    requires Clear(s) && s.good && s.groups == [] && child != NoNode && s.docCount > 0 && s.col > 0
    requires s.PrepareNode(child).good
    ensures Ready(s, child, s.PrepareNode(child))
  {
    var t := s.EmitBeginDoc();
    EmitterForm(s, child);
    hide *;
    BeginDocReady(s, child);
    RootMakes(t, child);
    LaterIsReady(s, t, child, s.PrepareNode(child));
  }

  lemma EmitterForm(s: State, child: Child)
    requires Clear(s) && s.good && s.groups == [] && child != NoNode && s.docCount > 0 && s.col > 0
    ensures var t := s.EmitBeginDoc();
            && s.PrepareNode(child) == (if child == BlockSeq || child == BlockMap then t.BreakIf(t.HasBegunNode())
                                        else t.SpaceOrIndentTo(t.HasBegunContent(), 0))
            && s.PrepareNode(child).good == t.good
  {
    var t := s.EmitBeginDoc();
    EmitterKeys.TopNodeForm(s, child);
    hide *;
    SpaceIsQuiet(t, t.HasBegunContent(), 0);
    EmitterKeys.SameGood(t, t.SpaceOrIndentTo(t.HasBegunContent(), 0), []);
    BreakIsQuiet(t, t.HasBegunNode());
    EmitterKeys.SameGood(t, t.BreakIf(t.HasBegunNode()), []);
  }

  lemma BeginDocReady(s: State, child: Child)
    requires Clear(s) && s.good && s.groups == [] && s.EmitBeginDoc().good
    ensures var t := s.EmitBeginDoc();
            && Sane(t) && Spoken(t.out) == Spoken(s.out) && !Hanging(t.out) && t.groups == []
            && t.docCount == s.docCount && t.settings == s.settings && !t.comment
            && !t.HasBegunNode() && !t.HasBegunContent()
            && Decided(s, child) == s && Decided(t, child) == t
  {
    var u, t := s.BreakIf(s.col > 0).Put(DocStart), s.EmitBeginDoc();
    BeginDocForm(s);
    hide *;
    ClearParts(s);
    DocNeat(s, DocStart);
    NeatSane(s, u);
    NeatSaid(s, u);
    SaneOf(u, t);
    RootDecided(s, child);
    RootDecided(t, child);
  }

  lemma BeginDocForm(s: State)
    requires s.good && s.groups == [] && s.EmitBeginDoc().good
    ensures var u, t := s.BreakIf(s.col > 0).Put(DocStart), s.EmitBeginDoc();
            && t.out == u.out && t.col == u.col && t.comment == u.comment && t.groups == []
            && t.docCount == s.docCount && t.settings == s.settings && !t.HasBegunNode() && !t.HasBegunContent()
  {
    var u := s.BreakIf(s.col > 0);
    BreakIsQuiet(s, s.col > 0);
    PutWrites(u, DocStart);
    hide State.BreakIf, State.Put, Structural;
  }

  lemma RootDecided(s: State, child: Child)
    requires s.groups == []
    ensures Decided(s, child) == s
  {
  }

  lemma NeatSaid(s: State, t: State)
    requires Neat(s, t)
    ensures Spoken(t.out) == Spoken(s.out)
  {
  }

  lemma SaneOf(u: State, v: State)
    requires Sane(u) && v.out == u.out && v.col == u.col && v.comment == u.comment
    ensures Sane(v)
  {
  }

  lemma LaterIsReady(s: State, t: State, child: Child, p: State)
    requires Makes(t, child, p) && Decided(t, child) == t && Decided(s, child) == s && t.groups == s.groups
    requires Spoken(t.out) == Spoken(s.out) && t.docCount == s.docCount && t.settings == s.settings
    ensures Ready(s, child, p)
  {
    hide Sane, Hanging, Decided, Spoken;
  }

  // ---- every operation

  /** A block group that is the key of a block map has made its entry long. */
  ghost predicate KeysLong(groups: seq<Group>)
  {
    forall i | 0 <= i < |groups| - 1 && groups[i].kind == Map && groups[i].flow == Block ::
      groups[i].childCount % 2 == 1 && groups[i + 1].flow == Block ==> groups[i].longKey
  }

  ghost predicate Kept(s: State)
  {
    Clear(s) && KeysLong(s.groups) && (s.groups != [] ==> s.docCount > 0)
  }

  /** `u` is a state the emitter may be in after saying `ts` in `s`. */
  ghost predicate Says(s: State, u: State, ts: seq<Token>)
  {
    u.good ==> Kept(u) && Spoken(u.out) == Spoken(s.out) + ts
  }

  lemma KeptParts(s: State)
    requires Kept(s)
    ensures Clear(s) && KeysLong(s.groups) && Sane(s) && (s.groups != [] ==> s.docCount > 0)
  {
    ClearParts(s);
    hide Clear, KeysLong, Sane;
  }

  /** Only the layout of the entry on top has been decided, or a node counted. */
  ghost predicate TopOnly(a: seq<Group>, b: seq<Group>)
  {
    |b| == |a| && S.Below(b) == S.Below(a) && (a != [] ==> b[|b| - 1].flow == a[|a| - 1].flow)
  }

  lemma TopOnlyKeys(a: seq<Group>, b: seq<Group>)
    requires KeysLong(a) && TopOnly(a, b)
    ensures KeysLong(b)
  {
    forall i | 0 <= i < |b| - 1 && b[i].kind == Map && b[i].flow == Block
      ensures b[i].childCount % 2 == 1 && b[i + 1].flow == Block ==> b[i].longKey
    {
      assert b[i] == S.Below(b)[i] && a[i] == S.Below(a)[i];
      if i + 1 < |b| - 1 { assert b[i + 1] == S.Below(b)[i + 1] && a[i + 1] == S.Below(a)[i + 1]; }
    }
  }

  lemma DecidedTopOnly(s: State, child: Child)
    ensures TopOnly(s.groups, Decided(s, child).groups)
  {
    if s.groups != [] {
      S.DecidedGroups(s, child);
      hide Decided;
    }
  }

  lemma ReadyParts(s: State, child: Child, p: State)
    requires Ready(s, child, p)
    ensures Sane(p) && Spoken(p.out) == Spoken(s.out) && p.groups == Decided(s, child).groups
    ensures p.docCount == s.docCount && p.settings == s.settings
    ensures child != NoNode ==> !Hanging(p.out)
    ensures child != NoNode && child != BlockSeq && child != BlockMap ==> !p.comment
  {
    hide Sane, Hanging, Decided, Spoken;
  }

  lemma ContentSane(p: State, text: string)
    requires Sane(p) && !Hanging(p.out) && !p.comment
    ensures var t := p.Put(Content(text));
            Sane(t) && Spoken(t.out) == Spoken(p.out) + [Content(text)] && !t.comment
  {
    assert Fits(p.out, Content(text));
    PutSane(p, Content(text));
    hide Sane, Fits, Spoken, Hanging, TokenColumn;
  }

  // ---- nodes

  lemma CountedTop(t: State)
    requires t.groups != []
    ensures var u, n := t.Counted(), t.Top().childCount + 1;
            && u == t.(groups := u.groups) && TopOnly(t.groups, u.groups)
            && u.Top() == t.Top().(childCount := n, longKey := t.Top().longKey && n % 2 != 0)
  {
    var n := t.Top().childCount + 1;
    var g := t.Top().(childCount := n, longKey := t.Top().longKey && n % 2 != 0);
    WithTopHas(t, g);
    BelowStays(t, g);
    hide State.WithTop;
  }

  lemma BelowStays(t: State, g: Group)
    requires t.groups != []
    ensures S.Below(t.WithTop(g).groups) == S.Below(t.groups) && |t.WithTop(g).groups| == |t.groups|
  {
  }

  lemma CountedGroups(t: State)
    ensures var u := t.StartedNode();
            && TopOnly(t.groups, u.groups) && !u.HasBegunNode() && !u.HasBegunContent()
            && u.out == t.out && u.col == t.col && u.comment == t.comment && u.good == t.good
            && u.settings == t.settings
            && (t.groups != [] ==>
                  u.groups != [] && u.docCount == t.docCount && u.Top().childCount == t.Top().childCount + 1
                  && u.Top().kind == t.Top().kind
                  && u.Top().longKey == (t.Top().longKey && u.Top().childCount % 2 != 0))
            && (t.groups == [] ==> u.docCount == t.docCount + 1)
  {
    if t.groups != [] { CountedTop(t); } else { assert t.Counted() == t.(docCount := t.docCount + 1); }
    hide State.Counted;
  }

  /** A scalar or an alias: its text is said and its node counted. */
  lemma ContentCounted(s: State, p: State, text: string, u: State)
    requires Kept(s) && Ready(s, Scalar, p) && p.good
    requires var n := p.Put(Content(text)).StartedNode();
             u == n.(settings := u.settings, modified := u.modified, hasAlias := u.hasAlias)
    ensures Says(s, u, [Content(text)])
  {
    var t := p.Put(Content(text));
    KeptParts(s);
    ReadyParts(s, Scalar, p);
    ContentSane(p, text);
    CountedGroups(t);
    DecidedTopOnly(s, Scalar);
    var n := t.StartedNode();
    hide Sane, Hanging, Clear, Ready, Spoken, State.StartedNode, Decided, TopOnly, KeysLong, TokenColumn;
    TopOnlyKeys(s.groups, p.groups);
    TopOnlyKeys(p.groups, n.groups);
    SaneOf(t, u);
    CountedClear(u);
    DocsCounted(s, p, n);
  }

  lemma DocsCounted(s: State, p: State, n: State)
    requires TopOnly(s.groups, p.groups) && TopOnly(p.groups, n.groups) && p.docCount == s.docCount
    requires s.groups != [] ==> s.docCount > 0 && n.docCount == p.docCount
    ensures n.groups != [] ==> n.docCount > 0
  {
  }

  lemma CountedClear(u: State)
    requires Sane(u) && !u.HasBegunNode() && !u.comment
    requires (u.groups != [] ==> u.Top().childCount > 0) && u.docCount > 0
    ensures Clear(u)
  {
    hide Sane, Hanging;
  }

  lemma ScalarSays(s: State, text: string, long: bool)
    requires Kept(s) && s.good
    ensures Says(s, s.EmitScalar(text, long), [Content(text)])
  {
    var a := if long then s.SetLocal(MapKeyFormat, s.settings.(longKeys := true)) else s;
    var p := a.PrepareNode(Scalar);
    var u := s.EmitScalar(text, long);
    ScalarForm(s, text, long);
    assert a == s.(settings := a.settings, modified := a.modified);
    hide *;
    if u.good {
      SettingsKeep(s, a);
      KeptParts(a);
      PrepareReady(a, Scalar);
      ContentCounted(a, p, text, u);
      SaysFrom(s, a, u, [Content(text)]);
    } else {
      SaysNothing(s, u, [Content(text)]);
    }
  }

  lemma SaysNothing(s: State, u: State, ts: seq<Token>)
    requires !u.good
    ensures Says(s, u, ts)
  {
  }

  lemma SaysFrom(s: State, a: State, u: State, ts: seq<Token>)
    requires Says(a, u, ts) && a.out == s.out
    ensures Says(s, u, ts)
  {
    hide Kept, Spoken;
  }

  /** No setting matters to what is kept. */
  lemma SettingsKeep(s: State, a: State)
    requires Kept(s) && S.OnlySettings(s, a)
    ensures Kept(a) && a.good == s.good && a.out == s.out && a.InFlow() == s.InFlow()
  {
    KeptParts(s);
    SaneOf(s, a);
    hide Sane, Hanging, KeysLong;
  }

  lemma ScalarForm(s: State, text: string, long: bool)
    requires s.good
    ensures var a := if long then s.SetLocal(MapKeyFormat, s.settings.(longKeys := true)) else s;
            var p := a.PrepareNode(Scalar);
            var n, u := p.Put(Content(text)).StartedNode(), s.EmitScalar(text, long);
            && u == n.(settings := u.settings, modified := u.modified, hasAlias := u.hasAlias) && u.good == p.good
            && S.OnlySettings(s, a)
  {
    var a := if long then s.SetLocal(MapKeyFormat, s.settings.(longKeys := true)) else s;
    CountedGroups(a.PrepareNode(Scalar).Put(Content(text)));
    hide State.PrepareNode, State.StartedNode, Restore, TokenColumn, TopOnly, Settings.With;
  }

  lemma AliasSays(s: State, text: string, valid: bool)
    requires Kept(s) && s.good
    ensures Says(s, s.EmitAlias(text, valid), [Content(text)])
  {
    var p := s.PrepareNode(Scalar);
    var u := s.EmitAlias(text, valid);
    hide *;
    if u.good {
      AliasForm(s, text, valid);
      NotNested(s, Scalar);
      KeptParts(s);
      PrepareReady(s, Scalar);
      ContentCounted(s, p, text, u);
    } else {
      SaysNothing(s, u, [Content(text)]);
    }
  }

  lemma AliasForm(s: State, text: string, valid: bool)
    requires s.good && s.EmitAlias(text, valid).good
    ensures var p := s.PrepareNode(Scalar);
            var n, u := p.Put(Content(text)).StartedNode(), s.EmitAlias(text, valid);
            && u == n.(settings := u.settings, modified := u.modified, hasAlias := u.hasAlias) && p.good
  {
    var p := s.PrepareNode(Scalar);
    var t := p.Put(Content(text));
    assert s.EmitAlias(text, valid) == t.StartedScalar().(hasAlias := true)
      by { hide State.PrepareNode, State.StartedScalar; }
    hide *;
    ClearedNode(t);
    CountedGroups(t);
    PutGood(p, text);
  }

  lemma ClearedNode(t: State)
    ensures var n, u := t.StartedNode(), t.StartedScalar();
            && u == n.(settings := u.settings, modified := u.modified) && u.good == n.good
            && u.(hasAlias := true) == n.(settings := u.settings, modified := u.modified, hasAlias := true)
  {
    hide State.StartedNode, Restore;
  }

  lemma PutGood(p: State, text: string)
    ensures p.Put(Content(text)).good == p.good
  {
    hide TokenColumn;
  }

  lemma NotNested(s: State, child: Child)
    requires child != BlockSeq && child != BlockMap
    ensures s.InFlow() ==> child != BlockSeq && child != BlockMap
  {
  }

  // ---- labels and comments

  lemma LabelSays(s: State, op: Op)
    requires Kept(s) && s.good && (op.WriteAnchor? || op.WriteTag?)
    ensures Says(s, s.Step(op), [Content(op.text)])
  {
    var p := s.PrepareNode(Property);
    var u := s.Step(op);
    if u.good {
      LabelForm(s, op);
      hide *;
      KeptParts(s);
      PrepareReady(s, Property);
      LabelKept(s, p, op.text, u);
    } else {
      SaysNothing(s, u, [Content(op.text)]);
    }
  }

  lemma LabelForm(s: State, op: Op)
    requires s.good && (op.WriteAnchor? || op.WriteTag?) && s.Step(op).good
    ensures var p := s.PrepareNode(Property);
            var u := s.Step(op);
            u == p.Put(Content(op.text)).(hasAnchor := u.hasAnchor, hasTag := u.hasTag) && p.good && u.HasBegunContent()
  {
    hide *;
    LabelStep(s, op);
    if op.WriteAnchor? { AnchorForm(s, op.text, op.valid); } else { TagForm(s, op.text, op.valid); }
    FlaggedBegun(s.PrepareNode(Property).Put(Content(op.text)));
  }

  lemma LabelStep(s: State, op: Op)
    requires op.WriteAnchor? || op.WriteTag?
    ensures s.Step(op) == if op.WriteAnchor? then s.EmitAnchor(op.text, op.valid) else s.EmitTag(op.text, op.valid)
  {
    hide State.EmitAnchor, State.EmitTag, State.EmitBeginDoc, State.EmitEndDoc, State.EmitBeginGroup,
      State.EmitEndGroup, State.EmitNewline, State.EmitScalar, State.EmitAlias, State.EmitComment, State.SetLocal,
      State.SetGlobal;
  }

  lemma FlaggedBegun(t: State)
    ensures t.(hasAnchor := true).HasBegunContent() && t.(hasTag := true).HasBegunContent()
    ensures var a, b := t.(hasAnchor := true), t.(hasTag := true);
            && a == t.(hasAnchor := a.hasAnchor, hasTag := a.hasTag)
            && b == t.(hasAnchor := b.hasAnchor, hasTag := b.hasTag)
  {
  }

  lemma AnchorForm(s: State, text: string, valid: bool)
    requires s.good && s.EmitAnchor(text, valid).good
    ensures var p := s.PrepareNode(Property);
            s.EmitAnchor(text, valid) == p.Put(Content(text)).(hasAnchor := true) && p.good
  {
    hide State.PrepareNode, TokenColumn;
  }

  lemma TagForm(s: State, text: string, valid: bool)
    requires s.good && s.EmitTag(text, valid).good
    ensures var p := s.PrepareNode(Property);
            s.EmitTag(text, valid) == p.Put(Content(text)).(hasTag := true) && p.good
  {
    hide State.PrepareNode, TokenColumn;
  }

  lemma LabelKept(s: State, p: State, text: string, u: State)
    requires Kept(s) && Ready(s, Property, p) && p.good && u.HasBegunContent()
    requires u == p.Put(Content(text)).(hasAnchor := u.hasAnchor, hasTag := u.hasTag)
    ensures Says(s, u, [Content(text)])
  {
    KeptParts(s);
    ReadyParts(s, Property, p);
    ContentSane(p, text);
    DecidedTopOnly(s, Property);
    SaneOf(p.Put(Content(text)), u);
    hide Sane, Hanging, Ready, Spoken, Decided, KeysLong, TokenColumn;
    TopOnlyKeys(s.groups, p.groups);
    DocsKept(s, p);
  }

  lemma DocsKept(s: State, p: State)
    requires TopOnly(s.groups, p.groups) && p.docCount == s.docCount && (s.groups != [] ==> s.docCount > 0)
    ensures p.groups != [] ==> p.docCount > 0
  {
  }

  lemma RemarkSane(p: State, text: string)
    requires Sane(p)
    ensures var t := (if p.col > 0 then p.Put(Pad(2)) else p).Put(Remark(text));
            Sane(t) && Spoken(t.out) == Spoken(p.out) + [Remark(text)] && !Hanging(t.out)
  {
    var q := if p.col > 0 then p.Put(Pad(2)) else p;
    BlankNeat(p, Pad(2));
    NeatNothing(p);
    NeatSane(p, q);
    assert Fits(q.out, Remark(text)) && Spoken(q.out) == Spoken(p.out);
    PutSane(q, Remark(text));
    hide Sane, Fits, Spoken, TokenColumn, Neat;
  }

  lemma BesideKept(s: State, p: State, u: State)
    requires Kept(s) && Ready(s, NoNode, p) && Sane(u) && !Hanging(u.out) && u.HasBegunNode()
    requires u.groups == p.groups && u.docCount == p.docCount
    ensures Kept(u)
  {
    KeptParts(s);
    ReadyParts(s, NoNode, p);
    DecidedTopOnly(s, NoNode);
    hide Sane, Hanging, Ready, Decided, KeysLong;
    TopOnlyKeys(s.groups, p.groups);
    DocsKept(s, p);
  }

  lemma CommentSays(s: State, text: string)
    requires Kept(s) && s.good
    ensures Says(s, s.EmitComment(text), [Remark(text)])
  {
    var p := s.PrepareNode(NoNode);
    var u := s.EmitComment(text);
    CommentForm(s, text);
    hide *;
    if u.good {
      KeptParts(s);
      PrepareReady(s, NoNode);
      ReadyParts(s, NoNode, p);
      RemarkSane(p, text);
      var t := (if p.col > 0 then p.Put(Pad(2)) else p).Put(Remark(text));
      SaneOf(t, u);
      BesideKept(s, p, u);
      SaysIs(s, u, [Remark(text)]);
    } else {
      SaysNothing(s, u, [Remark(text)]);
    }
  }

  lemma SaysIs(s: State, u: State, ts: seq<Token>)
    requires Kept(u) && Spoken(u.out) == Spoken(s.out) + ts
    ensures Says(s, u, ts)
  {
  }

  lemma CommentForm(s: State, text: string)
    requires s.good
    ensures var p := s.PrepareNode(NoNode);
            var t, u := (if p.col > 0 then p.Put(Pad(2)) else p).Put(Remark(text)), s.EmitComment(text);
            && u.out == t.out && u.col == t.col && u.comment == t.comment && u.groups == p.groups
            && u.docCount == p.docCount && u.good == p.good && u.HasBegunNode()
            && (s.InFlow() ==> NoNode != BlockSeq && NoNode != BlockMap)
  {
    hide State.PrepareNode, TokenColumn;
  }

  lemma NewlineSays(s: State)
    requires Kept(s) && s.good
    ensures Says(s, s.EmitNewline(), [])
  {
    var p := s.PrepareNode(NoNode);
    var u := s.EmitNewline();
    NewlineForm(s);
    hide *;
    if u.good {
      KeptParts(s);
      PrepareReady(s, NoNode);
      ReadyParts(s, NoNode, p);
      BreakNeat(p, true);
      NeatSane(p, p.BreakIf(true));
      NeatSaid(p, p.BreakIf(true));
      SaneOf(p.BreakIf(true), u);
      BesideKept(s, p, u);
      assert Spoken(u.out) == Spoken(s.out) + [];
      SaysIs(s, u, []);
    } else {
      SaysNothing(s, u, []);
    }
  }

  lemma NewlineForm(s: State)
    requires s.good
    ensures var p := s.PrepareNode(NoNode);
            var t, u := p.BreakIf(true), s.EmitNewline();
            && u.out == t.out && u.col == t.col && u.comment == t.comment && u.groups == p.groups
            && u.docCount == p.docCount && u.good == p.good && u.HasBegunNode()
            && (s.InFlow() ==> NoNode != BlockSeq && NoNode != BlockMap)
  {
    hide State.PrepareNode;
  }

  // ---- groups

  lemma GroupForm(s: State, kind: GroupType)
    requires s.good
    ensures var p, u := s.PrepareNode(s.NextGroupType(kind)), s.EmitBeginGroup(kind);
            var n := p.StartedNode();
            && u.out == n.out && u.col == n.col && u.comment == n.comment && u.good == n.good
            && u.docCount == n.docCount && u.hasAnchor == n.hasAnchor && u.hasTag == n.hasTag
            && u.hasNonContent == n.hasNonContent
            && exists g: Group :: u.groups == n.groups + [g] && g.flow == n.FlowOf(kind) && g.childCount == 0
  {
    var n := s.PrepareNode(s.NextGroupType(kind)).StartedNode();
    var u := s.EmitBeginGroup(kind);
    assert u.groups == n.groups + [Group(kind, n.FlowOf(kind), n.settings.indent, 0, false, n.modified)];
    hide State.PrepareNode, State.StartedNode, State.FlowOf, State.CurGroupIndent, State.NextGroupType;
  }

  /** A group that starts in block layout as a key makes its entry long. */
  lemma BlockKeyIsLong(s: State, child: Child, groups: seq<Group>)
    requires s.groups != [] && s.CurGroupNodeType() == BlockMap && (child == BlockSeq || child == BlockMap)
    requires groups == Decided(s, child).groups && s.Top().childCount % 2 == 0
    ensures groups != [] && groups[|groups| - 1].longKey
  {
    DecidedTop(s, child);
    assert LaidOutLong(s, child);
    hide Decided, LaidOutLong;
  }

  predicate LongIfKey(g: Group) { g.kind == Map && g.flow == Block && g.childCount % 2 == 1 ==> g.longKey }

  lemma KeysPushed(groups: seq<Group>, g: Group)
    requires KeysLong(groups)
    requires groups != [] && g.flow == Block ==> LongIfKey(groups[|groups| - 1])
    ensures KeysLong(groups + [g])
  {
  }

  lemma FlowStays(s: State, child: Child, n: State, kind: GroupType)
    requires child == s.NextGroupType(kind) && TopOnly(s.groups, n.groups) && n.settings == s.settings
    ensures n.FlowOf(kind) == Block <==> child == BlockSeq || child == BlockMap
    ensures child != NoNode && (s.InFlow() ==> child != BlockSeq && child != BlockMap)
  {
  }

  lemma GroupSays(s: State, kind: GroupType)
    requires Kept(s) && s.good
    ensures Says(s, s.EmitBeginGroup(kind), [])
  {
    var child := s.NextGroupType(kind);
    var p, u := s.PrepareNode(child), s.EmitBeginGroup(kind);
    GroupForm(s, kind);
    hide *;
    CountedGroups(p);
    if u.good {
      var g: Group :| u.groups == p.StartedNode().groups + [g] && g.flow == p.StartedNode().FlowOf(kind)
                      && g.childCount == 0;
      KeptParts(s);
      DecidedTopOnly(s, child);
      GroupChild(s, kind);
      PrepareReady(s, child);
      ReadyParts(s, child, p);
      GroupKept(s, kind, p, u, g);
      assert Spoken(u.out) == Spoken(s.out) + [];
      SaysIs(s, u, []);
    } else {
      SaysNothing(s, u, []);
    }
  }

  lemma GroupChild(s: State, kind: GroupType)
    ensures var child := s.NextGroupType(kind);
            child != NoNode && (s.InFlow() ==> child != BlockSeq && child != BlockMap)
  {
  }

  lemma TopOnlyThen(a: seq<Group>, b: seq<Group>, c: seq<Group>)
    requires TopOnly(a, b) && TopOnly(b, c)
    ensures TopOnly(a, c)
  {
  }

  lemma GroupKept(s: State, kind: GroupType, p: State, u: State, g: Group)
    requires Kept(s) && Ready(s, s.NextGroupType(kind), p)
    requires var n := p.StartedNode();
             && u.out == n.out && u.col == n.col && u.comment == n.comment && u.docCount == n.docCount
             && u.hasAnchor == n.hasAnchor && u.hasTag == n.hasTag && u.hasNonContent == n.hasNonContent
             && u.groups == n.groups + [g] && g.flow == n.FlowOf(kind) && g.childCount == 0
    ensures Kept(u)
  {
    var child, n := s.NextGroupType(kind), p.StartedNode();
    hide *;
    CountedGroups(p);
    KeptParts(s);
    DecidedTopOnly(s, child);
    GroupChild(s, kind);
    ReadyParts(s, child, p);
    TopOnlyKeys(s.groups, p.groups);
    TopOnlyKeys(p.groups, n.groups);
    TopOnlyThen(s.groups, p.groups, n.groups);
    FlowStays(s, child, n, kind);
    GroupKeysLong(s, child, p, n, g);
    SaneOf(p, u);
    PushedClear(u, g, n);
    DocsCountedIn(s, p, n, u);
    KeptIs(u);
  }

  lemma DocsCountedIn(s: State, p: State, n: State, u: State)
    requires TopOnly(s.groups, p.groups) && TopOnly(p.groups, n.groups) && p.docCount == s.docCount
    requires s.groups != [] ==> s.docCount > 0
    requires p.groups != [] ==> n.docCount == p.docCount
    requires p.groups == [] ==> n.docCount == p.docCount + 1
    requires u.docCount == n.docCount
    ensures u.docCount > 0
  {
  }

  lemma KeptIs(u: State)
    requires Clear(u) && KeysLong(u.groups) && u.docCount > 0
    ensures Kept(u)
  {
    hide Clear, KeysLong;
  }

  lemma PushedClear(u: State, g: Group, n: State)
    requires Sane(u) && !Hanging(u.out) && u.groups == n.groups + [g] && g.childCount == 0
    ensures Clear(u)
  {
    hide Sane, Hanging;
  }

  lemma GroupKeysLong(s: State, child: Child, p: State, n: State, g: Group)
    requires KeysLong(n.groups) && p.groups == Decided(s, child).groups && TopOnly(s.groups, p.groups)
    requires TopOnly(p.groups, n.groups) && (g.flow == Block <==> child == BlockSeq || child == BlockMap)
    requires p.groups != [] ==>
               n.groups != [] && n.Top().childCount == p.Top().childCount + 1 && n.Top().kind == p.Top().kind
               && n.Top().longKey == (p.Top().longKey && n.Top().childCount % 2 != 0)
    ensures KeysLong(n.groups + [g])
  {
    if n.groups != [] && n.Top().kind == Map && n.Top().flow == Block && n.Top().childCount % 2 == 1 &&
       g.flow == Block
    {
      DecidedShape(s, child);
      BlockKeyIsLong(s, child, p.groups);
    }
    hide KeysLong, Decided;
    KeysPushed(n.groups, g);
  }

  lemma DecidedShape(s: State, child: Child)
    ensures var d := Decided(s, child);
            && (d.groups == [] <==> s.groups == [])
            && (s.groups != [] ==>
                  d.Top().kind == s.Top().kind && d.Top().flow == s.Top().flow
                  && d.Top().childCount == s.Top().childCount)
  {
    if s.groups != [] { DecidedTop(s, child); }
    hide Decided;
  }

  // ---- the ends of groups

  lemma ClosingNeat(f: State, kind: GroupType, wasBlock: bool)
    requires Sane(f) && (wasBlock || (f.CurGroupChildCount() == 0 && !f.HasBegunNode()) ==> !Hanging(f.out))
    ensures var x := f.CloseFlow(kind, wasBlock);
            Neat(f, x) && !Hanging(x.out) && !x.comment
  {
    var a := f.BreakIf(f.comment);
    var b := a.IndentTo(f.curIndent);
    var opens := wasBlock || (b.CurGroupChildCount() == 0 && !b.HasBegunNode());
    var c := if opens then b.Put(Open(kind)) else b;
    assert f.CloseFlow(kind, wasBlock) == c.Put(Close(kind));
    hide *;
    BreakNeat(f, f.comment);
    NeatSane(f, a);
    IndentNeat(a, f.curIndent);
    NeatSane(a, b);
    NeatThen(f, a, b);
    if opens {
      MarkNeat(b, Open(kind));
      NeatThen(f, b, c);
    }
    NeatSane(f, c);
    MarkNeat(c, Close(kind));
    NeatThen(f, c, c.Put(Close(kind)));
  }

  lemma KeysBelow(groups: seq<Group>)
    requires KeysLong(groups)
    ensures KeysLong(S.Below(groups))
  {
    var b := S.Below(groups);
    forall i | 0 <= i < |b| - 1 && b[i].kind == Map && b[i].flow == Block
      ensures b[i].childCount % 2 == 1 && b[i + 1].flow == Block ==> b[i].longKey
    {
      assert b[i] == groups[i] && b[i + 1] == groups[i + 1];
    }
  }

  lemma EndedIs(x: State, kind: GroupType)
    requires x.groups != [] && x.EndedGroup(kind).good
    ensures var u := x.EndedGroup(kind);
            && u.groups == S.Below(x.groups) && u.docCount == x.docCount && u.out == x.out && u.col == x.col
            && u.comment == x.comment && !u.HasBegunNode() && !u.HasBegunContent() && !x.HasBegunContent()
  {
    WrongKindFails(x, kind);
    PoppedIs(x);
    BackIs(x.Popped());
    hide State.Popped, State.BackBelow;
  }

  lemma WrongKindFails(x: State, kind: GroupType)
    requires x.groups != []
    ensures x.Top().kind != kind ==> !x.EndedGroup(kind).good
  {
    hide State.Popped, State.BackBelow;
  }

  lemma PoppedIs(x: State)
    requires x.groups != []
    ensures var u := x.Popped();
            && u.groups == S.Below(x.groups) && u.docCount == x.docCount && u.out == x.out && u.col == x.col
            && u.comment == x.comment && (u.good ==> !x.HasBegunContent())
  {
    hide Restore;
  }

  lemma BackIs(x: State)
    ensures var u := x.BackBelow();
            && u.groups == x.groups && u.docCount == x.docCount && u.out == x.out && u.col == x.col
            && u.comment == x.comment && !u.HasBegunNode() && !u.HasBegunContent() && u.good == x.good
  {
    hide Restore, State.CurGroupIndent;
  }

  lemma EndedClear(s: State, u: State)
    requires Sane(u) && !u.HasBegunNode() && u.docCount > 0
    requires u.groups != [] ==> u.Top().childCount > 0
    requires u.comment ==> !(u.CurGroupNodeType() == BlockMap && u.Top().childCount % 2 == 1 && !u.Top().longKey)
    ensures Clear(u)
  {
    hide Sane, Hanging;
  }

  lemma BelowCounted(s: State)
    requires S.Inv(s) && |s.groups| > 1
    ensures S.Below(s.groups)[|s.groups| - 2].childCount > 0
  {
  }

  lemma EndSays(s: State, kind: GroupType)
    requires Kept(s) && s.good && S.Inv(s)
    ensures Says(s, s.EmitEndGroup(kind), [])
  {
    var u := s.EmitEndGroup(kind);
    if u.good {
      NoGroupFails(s, kind);
      if s.Top().flow == Flow || s.Top().childCount == 0 {
        FlowEndSays(s, kind);
      } else {
        BlockEndSays(s, kind);
      }
    }
    hide Kept, State.EmitEndGroup, S.Inv;
  }

  lemma NoGroupFails(s: State, kind: GroupType)
    requires s.good
    ensures s.groups == [] ==> !s.EmitEndGroup(kind).good
  {
    hide State.CloseFlow;
  }

  lemma BlockEndSays(s: State, kind: GroupType)
    requires Kept(s) && s.good && S.Inv(s) && s.groups != [] && s.Top().flow == Block && s.Top().childCount > 0
    requires s.EmitEndGroup(kind).good
    ensures Says(s, s.EmitEndGroup(kind), [])
  {
    var u := s.EmitEndGroup(kind);
    assert u == s.EndedGroup(kind) by { hide State.EndedGroup; }
    hide *;
    KeptParts(s);
    EndedIs(s, kind);
    SaneOf(s, u);
    if |s.groups| > 1 { KeyBelow(s); }
    EndedKept(s, u);
    assert Spoken(u.out) == Spoken(s.out) + [];
    SaysIs(s, u, []);
  }

  /** Back in the group below, whose node the ended group was. */
  lemma EndedKept(s: State, u: State)
    requires Kept(s) && S.Inv(s) && s.groups != []
    requires u.groups == S.Below(s.groups) && u.docCount == s.docCount && Sane(u) && !u.HasBegunNode()
    requires u.comment && |s.groups| > 1 ==> LongIfKey(S.Below(s.groups)[|s.groups| - 2])
    ensures Kept(u)
  {
    hide *;
    KeptParts(s);
    KeysBelow(s.groups);
    BelowTop(s, u);
    if |s.groups| > 1 {
      BelowCounted(s);
      LongShown(u);
    } else {
      OutsideShown(u);
    }
    EndedClear(s, u);
    KeptIs(u);
  }

  lemma LongShown(u: State)
    requires u.groups != []
    ensures LongIfKey(u.Top()) ==>
              !(u.CurGroupNodeType() == BlockMap && u.Top().childCount % 2 == 1 && !u.Top().longKey)
  {
  }

  lemma OutsideShown(u: State)
    requires u.groups == []
    ensures u.CurGroupNodeType() != BlockMap
  {
  }

  lemma KeyBelow(s: State)
    requires KeysLong(s.groups) && |s.groups| > 1 && s.Top().flow == Block
    ensures LongIfKey(S.Below(s.groups)[|s.groups| - 2])
  {
    var i := |s.groups| - 2;
    assert s.groups[i] == S.Below(s.groups)[i] && s.groups[i + 1] == s.Top();
  }

  lemma FlowEndSays(s: State, kind: GroupType)
    requires Kept(s) && s.good && S.Inv(s) && s.groups != [] && (s.Top().flow == Flow || s.Top().childCount == 0)
    requires s.EmitEndGroup(kind).good
    ensures Says(s, s.EmitEndGroup(kind), [])
  {
    hide *;
    var u, f, wasBlock := s.EmitEndGroup(kind), S.Forced(s), s.Top().flow == Block;
    var x := f.CloseFlow(kind, wasBlock);
    KeptParts(s);
    ClearParts(s);
    ClosingForm(s, kind);
    EndedIs(x, kind);
    ForcedCounts(s, f);
    SaneOf(s, f);
    ClosingNeat(f, kind, wasBlock);
    NeatSane(f, x);
    NeatSaid(f, x);
    SaneOf(x, u);
    EndedKept(s, u);
    assert Spoken(u.out) == Spoken(s.out) + [];
    SaysIs(s, u, []);
  }

  lemma ClosingForm(s: State, kind: GroupType)
    requires s.good && s.groups != [] && (s.Top().flow == Flow || s.Top().childCount == 0)
    requires s.EmitEndGroup(kind).good
    ensures var f := S.Forced(s);
            var x := f.CloseFlow(kind, s.Top().flow == Block);
            && s.EmitEndGroup(kind) == x.EndedGroup(kind) && x.groups == f.groups && x.docCount == s.docCount
            && f == s.(groups := f.groups) && f.groups != [] && f.Top() == s.Top().(flow := Flow)
            && S.Below(f.groups) == S.Below(s.groups) && !s.HasBegunContent() && x.groups != []
            && (f.HasBegunNode() <==> s.HasBegunNode())
  {
    hide *;
    var f := S.Forced(s);
    var x := f.CloseFlow(kind, s.Top().flow == Block);
    S.FlowEndForm(s, kind);
    S.ForcedIs(s);
    CloseKeeps(f, kind, s.Top().flow == Block);
    EndedIs(x, kind);
    FlagsAlike(s, f);
  }

  lemma FlagsAlike(s: State, f: State)
    requires f == s.(groups := f.groups)
    ensures f.HasBegunNode() == s.HasBegunNode() && f.HasBegunContent() == s.HasBegunContent()
    ensures f.docCount == s.docCount
  {
  }

  lemma CloseKeeps(f: State, kind: GroupType, wasBlock: bool)
    ensures var x := f.CloseFlow(kind, wasBlock);
            && x.groups == f.groups && x.docCount == f.docCount && x.HasBegunContent() == f.HasBegunContent()
  {
    var x := f.CloseFlow(kind, wasBlock);
    S.CloseFlowWrites(f, kind, wasBlock);
    WroteParts(f, x, S.Closing(f, kind, wasBlock));
    hide State.CloseFlow, S.Closing, Structural;
  }

  lemma ForcedCounts(s: State, f: State)
    requires s.groups != [] && f.groups != [] && f.Top() == s.Top().(flow := Flow)
    ensures f.CurGroupChildCount() == s.Top().childCount
  {
  }

  lemma BelowTop(s: State, u: State)
    requires u.groups == S.Below(s.groups) && s.groups != []
    ensures |s.groups| > 1 ==> u.groups != [] && u.Top() == S.Below(s.groups)[|s.groups| - 2]
    ensures |s.groups| == 1 ==> u.groups == []
  {
  }

  // ---- documents and settings

  lemma DocSays(s: State)
    requires Kept(s) && s.good
    ensures Says(s, s.EmitBeginDoc(), []) && Says(s, s.EmitEndDoc(), [])
  {
    if s.groups == [] && !s.hasAnchor && !s.hasTag {
      KeptParts(s);
      DocForm(s);
      hide *;
      MarkerKept(s, s.EmitBeginDoc(), DocStart);
      MarkerKept(s, s.EmitEndDoc(), DocEnd);
    } else {
      SaysNothing(s, s.EmitBeginDoc(), []);
      SaysNothing(s, s.EmitEndDoc(), []);
    }
  }

  lemma DocForm(s: State)
    requires s.good && s.groups == [] && !s.hasAnchor && !s.hasTag
    ensures var b, e := s.BreakIf(s.col > 0).Put(DocStart), s.BreakIf(s.col > 0).Put(DocEnd);
            && s.EmitBeginDoc().out == b.out && s.EmitBeginDoc().col == b.col && s.EmitBeginDoc().comment == b.comment
            && s.EmitEndDoc().out == e.out && s.EmitEndDoc().col == e.col && s.EmitEndDoc().comment == e.comment
            && s.EmitBeginDoc().groups == [] && s.EmitEndDoc().groups == []
  {
  }

  lemma MarkerKept(s: State, u: State, mark: Token)
    requires Kept(s) && Sane(s) && (mark == DocStart || mark == DocEnd) && u.groups == []
    requires var t := s.BreakIf(s.col > 0).Put(mark);
             u.out == t.out && u.col == t.col && u.comment == t.comment
    ensures Says(s, u, [])
  {
    hide *;
    var t := s.BreakIf(s.col > 0).Put(mark);
    DocNeat(s, mark);
    NeatSane(s, t);
    NeatSaid(s, t);
    SaneOf(t, u);
    OutsideKept(u);
    assert Spoken(u.out) == Spoken(s.out) + [];
    SaysIs(s, u, []);
  }

  lemma OutsideKept(u: State)
    requires Sane(u) && !Hanging(u.out) && u.groups == []
    ensures Kept(u)
  {
    hide Sane, Hanging;
  }

  lemma SettingSays(s: State, op: Op)
    requires Kept(s) && S.Sets(op)
    ensures Says(s, s.Step(op), [])
  {
    var u := s.Step(op);
    S.SettingOnly(s, op);
    hide *;
    SettingsKeep(s, u);
    assert Spoken(u.out) == Spoken(s.out) + [];
    SaysIs(s, u, []);
  }

  lemma StepSays(s: State, op: Op)
    requires Kept(s) && s.good && S.Inv(s)
    ensures Says(s, s.Step(op), SaidBy(op))
  {
    hide Kept, Says, S.Inv, State.EmitBeginDoc, State.EmitEndDoc, State.EmitBeginGroup, State.EmitEndGroup,
      State.EmitNewline, State.EmitScalar, State.EmitAlias, State.EmitAnchor, State.EmitTag, State.EmitComment,
      State.SetLocal, State.SetGlobal;
    match op
    case BeginDoc => DocSays(s);
    case EndDoc => DocSays(s);
    case BeginGroup(kind) => GroupSays(s, kind);
    case EndGroup(kind) => EndSays(s, kind);
    case LineBreak => NewlineSays(s);
    case WriteScalar(text, long) => ScalarSays(s, text, long);
    case WriteAlias(text, valid) => AliasSays(s, text, valid);
    case WriteAnchor(_, _) => LabelSays(s, op);
    case WriteTag(_, _) => LabelSays(s, op);
    case WriteComment(text) => CommentSays(s, text);
    case _ => SettingSays(s, op);
  }

  // ---- every run

  lemma {:induction false} RunSays(s: State, ops: seq<Op>)
    requires Kept(s) && s.good && S.Inv(s)
    ensures Says(s, s.Run(ops), Said(ops))
    decreases |ops|
  {
    hide *;
    if ops == [] {
      RunNone(s);
      assert Spoken(s.out) == Spoken(s.out) + [];
      SaidNone();
      SaysIs(s, s, []);
    } else {
      var u := s.Step(ops[0]);
      RunSplit(s, ops);
      StepSays(s, ops[0]);
      InvSteps(s, ops[0]);
      if u.good {
        SaysParts(s, u, SaidBy(ops[0]));
        RunSays(u, ops[1..]);
        SaysThen(s, u, s.Run(ops), SaidBy(ops[0]), Said(ops[1..]));
        SaidSplit(ops);
      } else {
        S.RunStopped(u, ops[1..]);
        SaysNothing(s, s.Run(ops), Said(ops));
      }
    }
  }

  lemma SaidNone()
    ensures Said([]) == []
  {
  }

  lemma SaidSplit(ops: seq<Op>)
    requires ops != []
    ensures Said(ops) == SaidBy(ops[0]) + Said(ops[1..])
  {
  }

  lemma RunSplit(s: State, ops: seq<Op>)
    requires ops != []
    ensures s.Run(ops) == s.Step(ops[0]).Run(ops[1..])
  {
    hide State.Step;
  }

  lemma InvSteps(s: State, op: Op)
    requires S.Inv(s) && s.good
    ensures s.Step(op).good ==> S.Inv(s.Step(op))
  {
    S.InvNotTripped(s);
    S.StepSound(s, op);
    hide S.Inv, State.Step;
  }

  lemma SaysParts(s: State, u: State, ts: seq<Token>)
    requires Says(s, u, ts) && u.good
    ensures Kept(u) && Spoken(u.out) == Spoken(s.out) + ts
  {
    hide Kept, Spoken;
  }

  lemma SaysThen(s: State, t: State, u: State, a: seq<Token>, b: seq<Token>)
    requires Spoken(t.out) == Spoken(s.out) + a && Says(t, u, b)
    ensures Says(s, u, a + b)
  {
    assert Spoken(s.out) + (a + b) == Spoken(s.out) + a + b;
    hide Kept, Spoken;
  }

  lemma Initially()
    ensures Kept(INITIAL) && INITIAL.good && S.Inv(INITIAL) && Spoken(INITIAL.out) == []
  {
  }

  /** Every run that is still good has written each text it was given, once and in the order of the calls, and no
      other. */
  lemma TextsInOrder(ops: seq<Op>)
    requires INITIAL.Run(ops).good
    ensures Spoken(INITIAL.Run(ops).out) == Said(ops)
  {
    Initially();
    RunSays(INITIAL, ops);
    hide State.Run, Spoken, Said, Kept;
    assert [] + Said(ops) == Said(ops);
  }

  lemma {:induction false} TidyAt(ts: seq<Token>, i: nat)
    requires Tidy(ts) && i < |ts|
    ensures Fits(ts[..i], ts[i])
    decreases |ts|
  {
    hide Fits;
    var front := ts[..|ts| - 1];
    if i < |ts| - 1 {
      TidyAt(front, i);
      assert front[..i] == ts[..i] && front[i] == ts[i];
    }
  }

  /** In every run that is still good: no content and no bracket directly behind a content on the same line, no
      mark inside a comment, and two blanks in front of every comment that does not start its line. */
  lemma KeptApart(ops: seq<Op>)
    requires INITIAL.Run(ops).good
    ensures var out := INITIAL.Run(ops).out;
            forall i | 0 <= i < |out| :: Fits(out[..i], out[i])
  {
    Initially();
    RunSays(INITIAL, ops);
    var u := INITIAL.Run(ops);
    SaysParts(INITIAL, u, Said(ops));
    KeptParts(u);
    hide State.Run, Spoken, Said, Kept, Fits;
    forall i | 0 <= i < |u.out| ensures Fits(u.out[..i], u.out[i]) { TidyAt(u.out, i); }
  }

  // ---- the characters

  function Blanks(n: nat): string { seq(n, i => ' ') }

  function Chars(t: Token): string
  {
    match t
    case Open(kind) => if kind == Seq then "[" else "{"
    case Close(kind) => if kind == Seq then "]" else "}"
    case Comma => ","
    case Dash => "-"
    case Question => "?"
    case Colon => ":"
    case DocStart => "---\n"
    case DocEnd => "...\n"
    case Space => " "
    case Newline => "\n"
    case Pad(n) => Blanks(n)
    case Content(text) => text
    case Remark(text) => text
  }

  /** The output, character by character. */
  function Rendered(ts: seq<Token>): string
    decreases |ts|
  {
    if ts == [] then "" else Rendered(ts[..|ts| - 1]) + Chars(ts[|ts| - 1])
  }

  /** Exactly `c` characters stand behind the last line break. */
  predicate LineHas(s: string, c: nat)
  {
    c <= |s| && (forall i | |s| - c <= i < |s| :: s[i] != '\n') && (c < |s| ==> s[|s| - c - 1] == '\n')
  }

  lemma LineGoesOn(s: string, c: nat, more: string)
    requires LineHas(s, c) && '\n' !in more
    ensures LineHas(s + more, c + |more|)
  {
  }

  lemma LineEnds(s: string, more: string)
    requires more != "" && more[|more| - 1] == '\n'
    ensures LineHas(s + more, 0)
  {
  }

  lemma {:induction false} TextOnLine(s: string, c: nat, text: string)
    requires LineHas(s, c)
    ensures LineHas(s + text, ColumnAfter(c, text))
    decreases |text|
  {
    if text == "" {
      assert s + text == s;
    } else {
      var front, last := text[..|text| - 1], text[|text| - 1];
      TextOnLine(s, c, front);
      assert s + text == s + front + [last];
      if last == '\n' {
        LineEnds(s + front, [last]);
      } else {
        LineGoesOn(s + front, ColumnAfter(c, front), [last]);
      }
    }
  }

  lemma TokenOnLine(s: string, c: nat, t: Token)
    requires LineHas(s, c)
    ensures LineHas(s + Chars(t), TokenColumn(c, t))
  {
    match t
    case Content(text) => TextOnLine(s, c, text);
    case Remark(text) => TextOnLine(s, c, text);
    case Newline => LineEnds(s, "\n");
    case DocStart => LineEnds(s, "---\n");
    case DocEnd => LineEnds(s, "...\n");
    case _ => LineGoesOn(s, c, Chars(t));
    hide LineHas, ColumnAfter;
  }

  lemma {:induction false} ColumnCounts(ts: seq<Token>)
    ensures LineHas(Rendered(ts), ColumnBehind(ts))
    decreases |ts|
  {
    hide TokenColumn, Chars;
    if ts != [] {
      ColumnCounts(ts[..|ts| - 1]);
      TokenOnLine(Rendered(ts[..|ts| - 1]), ColumnBehind(ts[..|ts| - 1]), ts[|ts| - 1]);
    }
  }

  /** In every run that is still good the emitter's column is the number of characters behind the last line break
      that it has written. */
  lemma ColumnOfEveryRun(ops: seq<Op>)
    requires INITIAL.Run(ops).good
    ensures LineHas(Rendered(INITIAL.Run(ops).out), INITIAL.Run(ops).col)
  {
    Initially();
    RunSays(INITIAL, ops);
    var u := INITIAL.Run(ops);
    SaysParts(INITIAL, u, Said(ops));
    KeptParts(u);
    assert Tracked(u);
    hide State.Run, Spoken, Said, Kept, Rendered, LineHas;
    ColumnCounts(u.out);
  }
}
