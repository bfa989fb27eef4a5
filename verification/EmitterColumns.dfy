/** The columns of block layout: in every run the marks of a block group stand in the column
    that is the sum of the indents around the group. */
module EmitterColumns {
  import opened EmitterModel
  import opened EmitterLayout
  import opened EmitterSafety
  import opened EmitterKeys
  import EmitterMarks

  lemma PutTracked()
    ensures forall s: State, t: Token :: Tracked(s) ==> Tracked(s.Put(t))
  {
    forall s: State, t: Token | Tracked(s) ensures Tracked(s.Put(t)) {
      assert (s.out + [t])[..|s.out|] == s.out;
    }
  }

  lemma SameTracked(s: State, t: State)
    requires t.out == s.out && t.col == s.col
    ensures Tracked(s) == Tracked(t)
  {
  }

  // ---- marks in a column

  /** The marks that start a line of block layout; a colon does behind a long key. */
  predicate LineMark(t: Token, long: bool) { t.Dash? || t.Question? || (long && t.Colon?) }

  /** From `a` on, all line marks of `b` stand in column `c`. */
  ghost predicate Aligned(a: seq<Token>, b: seq<Token>, c: int, long: bool)
  {
    && a <= b
    && forall p | |a| <= p < |b| && LineMark(b[p], long) :: ColumnBehind(b[..p]) == c
  }

  lemma AlignedThen(x: seq<Token>, y: seq<Token>, z: seq<Token>, c: int, long: bool)
    requires Aligned(x, y, c, long) && Aligned(y, z, c, long)
    ensures Aligned(x, z, c, long)
  {
    forall p | |x| <= p < |z| && LineMark(z[p], long) ensures ColumnBehind(z[..p]) == c {
      if p < |y| { assert z[p] == y[p] && z[..p] == y[..p]; }
    }
  }

  /** What is written from `s` to `t` has its line marks in column `c`, and the stream keeps
      its column. */
  ghost predicate Lays(s: State, t: State, c: int, long: bool)
  {
    (Tracked(s) ==> Tracked(t)) && Aligned(s.out, t.out, c, long)
  }

  lemma LaysThen(s: State, t: State, u: State, c: int, long: bool)
    requires Lays(s, t, c, long) && Lays(t, u, c, long)
    ensures Lays(s, u, c, long)
  {
    AlignedThen(s.out, t.out, u.out, c, long);
  }

  lemma SameLays(s: State, t: State, c: int, long: bool)
    requires t.out == s.out && t.col == s.col
    ensures Lays(s, t, c, long)
  {
  }

  lemma PutLays(s: State, t: Token, c: int, long: bool)
    requires LineMark(t, long) ==> Tracked(s) && s.col == c
    ensures Lays(s, s.Put(t), c, long)
  {
    PutTracked();
    assert (s.out + [t])[..|s.out|] == s.out;
  }

  /** Blanks and line breaks are no marks. */
  lemma LayoutLays(s: State, condition: bool, space: bool, n: int, c: int, long: bool)
    ensures Lays(s, s.BreakIf(condition), c, long)
    ensures Lays(s, s.IndentTo(n), c, long)
    ensures Lays(s, s.SpaceOrIndentTo(space, n), c, long)
  {
    hide Lays, State.Put;
    SameLays(s, s, c, long);
    PutLays(s, Newline, c, long);
    if s.col < n { PutLays(s, Pad(n - s.col), c, long); }
    var t := s.BreakIf(s.comment);
    SameLays(t, t, c, long);
    PutLays(t, Space, c, long);
    var u := if t.col > 0 && space then t.Put(Space) else t;
    LaysThen(s, t, u, c, long);
    SameLays(u, u, c, long);
    if u.col < n { PutLays(u, Pad(n - u.col), c, long); }
    LaysThen(s, u, s.SpaceOrIndentTo(space, n), c, long);
  }

  // ---- where a line starts

  lemma LineStarts(s: State, condition: bool, c: int)
    requires c >= 0 && (condition || s.col <= c)
    ensures s.BreakIf(condition).IndentTo(c).col == c
  {
  }

  /** A line mark behind a break, or where nothing has passed its column. */
  lemma MarkStands(s: State, condition: bool, c: int, t: Token, long: bool)
    requires Tracked(s) && c >= 0 && (condition || s.col <= c)
    requires t.Dash? || t.Question? || t.Colon?
    ensures var u := s.BreakIf(condition).IndentTo(c).Put(t);
            u.col == c + 1 && Lays(s, u, c, long)
  {
    var v := s.BreakIf(condition);
    var w := v.IndentTo(c);
    LineStarts(s, condition, c);
    LayoutLays(s, condition, true, c, c, long);
    LayoutLays(v, condition, true, c, c, long);
    PutLays(w, t, c, long);
    hide Lays, Tracked, State.BreakIf, State.IndentTo;
    LaysThen(s, v, w, c, long);
    LaysThen(s, w, w.Put(t), c, long);
  }

  /** Nothing written in the block group has passed the column of its marks: nothing at all
      where no child is counted and no comment stands on the line. */
  ghost predicate Low(s: State)
  {
    (s.groups != [] && s.Top().flow == Block && !s.HasBegunContent() && !s.comment
     && (s.Top().childCount == 0 || s.HasBegunNode())) ==> s.col <= s.curIndent
  }

  /** Groups are indented by at least two. */
  ghost predicate WideGroups(groups: seq<Group>)
  {
    forall i | 0 <= i < |groups| :: groups[i].indent >= 2 && AllWide(groups[i].modified)
  }

  ghost predicate AllWide(changes: seq<Change>) { forall i | 0 <= i < |changes| :: changes[i].saved.indent >= 2 }

  ghost predicate Wide(s: State)
  {
    s.settings.indent >= 2 && AllWide(s.modified) && AllWide(s.globalModified) && WideGroups(s.groups)
  }

  /** The layout of a key of a block map that has a property is the long one. */
  ghost predicate LongWithProperty(s: State)
  {
    (s.groups != [] && s.Top().kind == Map && s.Top().flow == Block && s.Top().childCount % 2 == 0
     && s.HasBegunContent()) ==> s.Top().longKey
  }

  /** Before the first document the line is empty. */
  ghost predicate LineOfFirst(s: State)
  {
    && (s.groups == [] && s.docCount == 0 && !s.HasBegunNode() ==> s.col == 0)
    && (s.groups != [] ==> s.docCount > 0)
  }

  /** What every step keeps, even one that stops the emitter. */
  ghost predicate Steady(s: State) { Tracked(s) && Wide(s) }

  ghost predicate Lines(s: State) { Low(s) && LongWithProperty(s) && LineOfFirst(s) }

  ghost predicate Columns(s: State) { Steady(s) && Lines(s) }

  // ---- preparation in a block group

  /** The column in which a block group, if one is started now, has its marks. */
  function InnerIndent(s: State): int { s.curIndent + s.CurGroupIndent() }

  predicate Started(t: State, child: Child, c: int)
  {
    child == BlockSeq || child == BlockMap ==> t.comment || t.col <= c
  }

  lemma Breaks(s: State, condition: bool, c: int)
    requires c >= 0
    ensures condition || s.col <= c ==> s.BreakIf(condition).col <= c
    ensures s.Put(Newline).col <= c
  {
  }

  lemma BreakKeeps(s: State, condition: bool)
    ensures var t := s.BreakIf(condition);
            && (if condition then t.col == 0 && !t.comment else t == s)
            && (Tracked(s) ==> Tracked(t))
  {
    PutTracked();
  }

  /** The dash in front of a node, unless a property stands there. */
  function Dashed(s: State): State
  {
    if s.HasBegunContent() then s
    else s.BreakIf(s.CurGroupChildCount() > 0 || s.comment).IndentTo(s.curIndent).Put(Dash)
  }

  lemma DashedLays(s: State, long: bool)
    requires Tracked(s) && Low(s) && s.curIndent >= 0 && s.CurGroupNodeType() == BlockSeq
    ensures Lays(s, Dashed(s), s.curIndent, long)
    ensures s.HasBegunContent() || Dashed(s).col == s.curIndent + 1
  {
    hide Lays, Tracked, State.BreakIf, State.IndentTo, State.Put;
    SameLays(s, s, s.curIndent, long);
    if !s.HasBegunContent() {
      MarkStands(s, s.CurGroupChildCount() > 0 || s.comment, s.curIndent, Dash, long);
    }
  }

  lemma WritingKeeps(s: State, condition: bool, n: int, t: Token)
    ensures s.BreakIf(condition).HasBegunContent() == s.HasBegunContent()
    ensures s.IndentTo(n).HasBegunContent() == s.HasBegunContent()
    ensures s.Put(t).HasBegunContent() == s.HasBegunContent()
  {
    PutKeeps(s, t);
    PutKeeps(s, Newline);
    if s.col < n { PutKeeps(s, Pad(n - s.col)); }
    hide State.Put, State.HasBegunContent;
  }

  lemma PutKeeps(s: State, t: Token)
    ensures s.Put(t).HasBegunContent() == s.HasBegunContent()
  {
    hide TokenColumn, TokenComment;
  }

  lemma MarkKeeps(s: State, condition: bool, n: int, t: Token)
    ensures s.BreakIf(condition).IndentTo(n).Put(t).HasBegunContent() == s.HasBegunContent()
  {
    hide State.BreakIf, State.IndentTo, State.Put, State.HasBegunContent;
    WritingKeeps(s, condition, n, t);
    WritingKeeps(s.BreakIf(condition), condition, n, t);
    WritingKeeps(s.BreakIf(condition).IndentTo(n), condition, n, t);
  }

  lemma BlockSeqLays(s: State, child: Child, long: bool)
    requires Tracked(s) && Low(s) && s.curIndent >= 0 && s.CurGroupNodeType() == BlockSeq && s.CurGroupIndent() >= 2
    ensures var t := s.BlockSeqPrepareNode(child);
            Lays(s, t, s.curIndent, long) && Started(t, child, InnerIndent(s))
  {
    hide Lays, Tracked, Low, State.BreakIf, State.IndentTo, State.Put, State.SpaceOrIndentTo;
    var c, t := s.curIndent, s.BlockSeqPrepareNode(child);
    SameLays(s, s, c, long);
    if child != NoNode {
      var v := Dashed(s);
      DashedLays(s, long);
      MarkKeeps(s, s.CurGroupChildCount() > 0 || s.comment, s.curIndent, Dash);
      hide State.HasBegunContent;
      match child {
        case BlockSeq =>
          PutLays(v, Newline, c, long);
          Breaks(v, true, InnerIndent(s));
        case BlockMap =>
          LayoutLays(v, v.HasBegunContent() || v.comment, true, 0, c, long);
          Breaks(v, v.HasBegunContent() || v.comment, InnerIndent(s));
        case _ => LayoutLays(v, true, v.HasBegunContent(), InnerIndent(s), c, long);
      }
      assert Lays(v, t, c, long);
      LaysThen(s, v, t, c, long);
    }
  }

  /** The question mark in front of a long key, unless a property stands there. */
  function Questioned(s: State): State
  {
    if s.HasBegunContent() then s
    else
      var t := s.BreakIf(s.CurGroupChildCount() > 0);
      t.BreakIf(t.comment).IndentTo(s.curIndent).Put(Question)
  }

  lemma QuestionedLays(s: State, long: bool)
    requires Tracked(s) && Low(s) && s.curIndent >= 0 && s.CurGroupNodeType() == BlockMap
    ensures Lays(s, Questioned(s), s.curIndent, long)
    ensures s.HasBegunContent() || Questioned(s).col == s.curIndent + 1
    ensures Questioned(s).HasBegunContent() == s.HasBegunContent()
  {
    var c := s.curIndent;
    SameLays(s, s, c, long);
    if !s.HasBegunContent() {
      var t := s.BreakIf(s.CurGroupChildCount() > 0);
      BreakKeeps(s, s.CurGroupChildCount() > 0);
      LayoutLays(s, s.CurGroupChildCount() > 0, true, 0, c, long);
      assert t.comment || t.col <= c;
      WritingKeeps(s, s.CurGroupChildCount() > 0, 0, Question);
      MarkKeeps(t, t.comment, c, Question);
      hide Lays, Tracked, State.BreakIf, State.IndentTo, State.Put, State.HasBegunContent;
      MarkStands(t, t.comment, c, Question, long);
      LaysThen(s, t, Questioned(s), c, long);
    }
  }

  lemma BlockMapLongKeyLays(s: State, child: Child, long: bool)
    requires Tracked(s) && Low(s) && s.curIndent >= 0 && s.CurGroupNodeType() == BlockMap && s.CurGroupIndent() >= 2
    ensures var t := s.BlockMapPrepareLongKey(child);
            Lays(s, t, s.curIndent, long) && Started(t, child, InnerIndent(s))
  {
    hide Lays, Tracked, Low, State.BreakIf, State.IndentTo, State.Put, State.SpaceOrIndentTo;
    var c, t := s.curIndent, s.BlockMapPrepareLongKey(child);
    SameLays(s, s, c, long);
    if child != NoNode {
      var v := Questioned(s);
      QuestionedLays(s, long);
      hide State.HasBegunContent;
      LayoutLays(v, v.HasBegunContent(), true, c + 1, c, long);
      Breaks(v, v.HasBegunContent(), InnerIndent(s));
      assert Lays(v, t, c, long);
      LaysThen(s, v, t, c, long);
    }
  }

  /** The colon behind a long key, unless a property stands there. */
  function Coloned(s: State): State
  {
    if s.HasBegunContent() then s else s.Put(Newline).IndentTo(s.curIndent).Put(Colon)
  }

  lemma ColonedLays(s: State, long: bool)
    requires Tracked(s) && s.curIndent >= 0 && s.CurGroupNodeType() == BlockMap
    ensures Lays(s, Coloned(s), s.curIndent, long)
    ensures s.HasBegunContent() || Coloned(s).col == s.curIndent + 1
    ensures Coloned(s).HasBegunContent() == s.HasBegunContent()
  {
    SameLays(s, s, s.curIndent, long);
    assert s.BreakIf(true) == s.Put(Newline);
    MarkKeeps(s, true, s.curIndent, Colon);
    hide Lays, Tracked, State.BreakIf, State.IndentTo, State.Put;
    if !s.HasBegunContent() { MarkStands(s, true, s.curIndent, Colon, long); }
  }

  /** A blank where something stands on the line, and the indent. */
  lemma Spaced(s: State, n: int, c: int)
    requires n <= c && 0 < c
    ensures s.comment || s.col < c ==> s.SpaceOrIndentTo(true, n).col <= c
  {
    var t := s.BreakIf(s.comment);
    BreakKeeps(s, s.comment);
    hide State.BreakIf;
    assert (if t.col > 0 then t.Put(Space) else t).col == if t.col > 0 then t.col + 1 else 0;
  }

  lemma BlockMapLongValueLays(s: State, child: Child, long: bool)
    requires Tracked(s) && s.curIndent >= 0 && s.CurGroupNodeType() == BlockMap && s.CurGroupIndent() >= 2
    ensures var t := s.BlockMapPrepareLongKeyValue(child);
            Lays(s, t, s.curIndent, long) && Started(t, child, InnerIndent(s))
  {
    hide Lays, Tracked, State.BreakIf, State.IndentTo, State.Put, State.SpaceOrIndentTo;
    var c, t := s.curIndent, s.BlockMapPrepareLongKeyValue(child);
    SameLays(s, s, c, long);
    if child != NoNode {
      var v := Coloned(s);
      ColonedLays(s, long);
      hide State.HasBegunContent;
      var w := v.BreakIf(v.HasBegunContent());
      LayoutLays(v, v.HasBegunContent(), true, c + 1, c, long);
      LayoutLays(w, true, true, c + 1, c, long);
      Breaks(v, v.HasBegunContent(), c + 1);
      Spaced(w, c + 1, InnerIndent(s));
      LaysThen(v, w, w.SpaceOrIndentTo(true, c + 1), c, long);
      assert Lays(v, t, c, long);
      LaysThen(s, v, t, c, long);
    }
  }

  /** In front of a simple key: a new line for all but the first entry. */
  lemma SimpleKeyLine(s: State)
    requires Low(s) && s.curIndent >= 0 && s.CurGroupNodeType() == BlockMap && !s.HasBegunContent()
    ensures var v := s.BreakIf(!s.HasBegunNode() && s.CurGroupChildCount() > 0);
            !v.HasBegunContent() && (v.comment || v.col <= s.curIndent)
  {
    BreakKeeps(s, !s.HasBegunNode() && s.CurGroupChildCount() > 0);
    WritingKeeps(s, !s.HasBegunNode() && s.CurGroupChildCount() > 0, 0, Newline);
    hide State.BreakIf;
  }

  lemma IndentOnly(s: State, n: int)
    ensures s.SpaceOrIndentTo(false, n) == s.BreakIf(s.comment).IndentTo(n)
  {
  }

  /** A scalar or flow group as a simple key starts in the column of the marks. */
  lemma BlockMapSimpleKeyLays(s: State, child: Child, long: bool)
    requires Tracked(s) && Low(s) && s.curIndent >= 0 && s.CurGroupNodeType() == BlockMap && !s.HasBegunContent()
    requires child != BlockSeq && child != BlockMap
    ensures var t := s.BlockMapPrepareSimpleKey(child);
            Lays(s, t, s.curIndent, long) && (child != NoNode ==> t.col == s.curIndent)
  {
    var c, t := s.curIndent, s.BlockMapPrepareSimpleKey(child);
    SimpleKeyLine(s);
    hide Lays, Tracked, Low, State.BreakIf, State.SpaceOrIndentTo, State.IndentTo, State.HasBegunContent;
    SameLays(s, s, c, long);
    if child != NoNode {
      var v := s.BreakIf(!s.HasBegunNode() && s.CurGroupChildCount() > 0);
      IndentOnly(v, c);
      LineStarts(v, v.comment, c);
      LayoutLays(s, !s.HasBegunNode() && s.CurGroupChildCount() > 0, true, 0, c, long);
      LayoutLays(v, true, false, c, c, long);
      LaysThen(s, v, t, c, long);
    }
  }

  /** The colon behind a simple key stands on the line of the key. */
  lemma BlockMapSimpleValueLays(s: State, child: Child)
    requires s.CurGroupNodeType() == BlockMap && !s.Top().longKey && s.curIndent >= 0 && s.CurGroupIndent() >= 0
    ensures var t := s.BlockMapPrepareSimpleKeyValue(child);
            Lays(s, t, s.curIndent, false) && Started(t, child, InnerIndent(s))
  {
    hide Lays, State.Put, State.SpaceOrIndentTo;
    var c, t := s.curIndent, s.BlockMapPrepareSimpleKeyValue(child);
    SameLays(s, s, c, false);
    var u := if s.hasAlias then s.Put(Space) else s;
    PutLays(s, Space, c, false);
    PutLays(u, Colon, c, false);
    LaysThen(s, u, u.Put(Colon), c, false);
    var v := if s.HasBegunNode() then s else u.Put(Colon);
    assert Lays(s, v, c, false);
    SameLays(v, v, c, false);
    PutLays(v, Newline, c, false);
    Breaks(v, true, InnerIndent(s));
    LayoutLays(v, true, true, InnerIndent(s), c, false);
    assert Lays(v, t, c, false);
    LaysThen(s, v, t, c, false);
  }

  /** What a decision about the layout leaves alone. */
  lemma DecidedColumns(s: State, child: Child)
    requires s.groups != []
    ensures var d := Decided(s, child);
            && d.groups != [] && d.out == s.out && d.col == s.col && d.curIndent == s.curIndent
            && d.HasBegunContent() == s.HasBegunContent()
            && d.CurGroupIndent() == s.CurGroupIndent() && d.CurGroupNodeType() == s.CurGroupNodeType()
            && (Low(s) ==> Low(d)) && (Tracked(s) ==> Tracked(d))
            && (s.Top().kind == Map ==> d.Top().longKey == LaidOutLong(s, child))
  {
    DecidedGroups(s, child);
    DecidedTop(s, child);
    hide Decided, LaidOutLong;
  }

  /** The preparation of a node in a block group: its line marks stand in the column of the
      group, and so does a simple key. */
  lemma BlockPrepared(s: State, child: Child)
    requires Columns(s) && s.curIndent >= 0 && s.groups != [] && s.Top().flow == Block
    ensures var t := s.PrepareNode(child);
            && Lays(s, t, s.curIndent, LaidOutLong(s, child)) && Started(t, child, InnerIndent(s))
            && (child != NoNode && s.Top().kind == Map && s.Top().childCount % 2 == 0 && !LaidOutLong(s, child) ==>
                  t.col == s.curIndent)
  {
    var d, long := Decided(s, child), LaidOutLong(s, child);
    WideTop(s);
    DecidedColumns(s, child);
    hide Lays, Tracked, Low, Wide, State.HasBegunContent, State.BlockMapPrepareLongKey, State.BlockMapPrepareSimpleKey,
      State.BlockMapPrepareLongKeyValue, State.BlockMapPrepareSimpleKeyValue, State.BlockSeqPrepareNode;
    if s.Top().kind == Seq {
      BlockSeqLays(s, child, long);
    } else {
      BlockMapDispatch(s, child);
      SameLays(s, d, s.curIndent, long);
      hide Decided;
      if s.Top().childCount % 2 == 0 {
        if long { BlockMapLongKeyLays(d, child, long); } else { BlockMapSimpleKeyLays(d, child, long); }
      } else {
        if long { BlockMapLongValueLays(d, child, long); } else { BlockMapSimpleValueLays(d, child); }
      }
      LaysThen(s, d, s.PrepareNode(child), s.curIndent, long);
    }
  }

  lemma WideTop(s: State)
    requires Wide(s) && s.groups != []
    ensures s.CurGroupIndent() >= 2
  {
  }

  // ---- every step keeps the column of the stream and the width of indents

  lemma WroteTracked(s: State, t: State, ts: seq<Token>)
    requires Wrote(s, t, ts)
    ensures t == WithOutput(s, t) && (Tracked(s) ==> Tracked(t))
  {
  }

  lemma DocTracked(s: State)
    requires Tracked(s)
    ensures Tracked(s.EmitBeginDoc()) && Tracked(s.EmitEndDoc())
  {
    hide Wrote, Structural;
    var t := s.BreakIf(s.col > 0);
    BreakIsQuiet(s, s.col > 0);
    WroteTracked(s, t, []);
    hide State.BreakIf;
    PutTracked();
    SameTracked(t.Put(DocStart), t.Put(DocStart).(hasAnchor := false, hasTag := false, hasNonContent := false));
    SameTracked(s, s.SetError());
    hide Tracked, State.Put;
  }

  lemma TopNodeTracked(s: State, child: Child)
    requires Tracked(s)
    ensures Tracked(s.PrepareTopNode(child))
  {
    hide Tracked, Wrote, State.BreakIf, State.SpaceOrIndentTo, State.EmitBeginDoc;
    DocTracked(s);
    var t := if s.CurGroupChildCount() > 0 && s.col > 0 then s.EmitBeginDoc() else s;
    BreakIsQuiet(t, t.HasBegunNode());
    SpaceIsQuiet(t, t.HasBegunContent(), 0);
    WroteTracked(t, t.BreakIf(t.HasBegunNode()), []);
    WroteTracked(t, t.SpaceOrIndentTo(t.HasBegunContent(), 0), []);
  }

  lemma CountedSame(s: State)
    ensures s.StartedNode().out == s.out && s.StartedNode().col == s.col
  {
    if s.groups != [] {
      var n := s.Top().childCount + 1;
      TopReplaced(s, s.Top().(childCount := n, longKey := s.Top().longKey && n % 2 != 0));
    }
    hide State.WithTop;
  }

  lemma TopReplaced(s: State, g: Group)
    requires s.groups != []
    ensures s.WithTop(g).out == s.out && s.WithTop(g).col == s.col
  {
  }

  lemma EndedSame(s: State, kind: GroupType)
    ensures s.EndedGroup(kind).out == s.out && s.EndedGroup(kind).col == s.col
  {
    hide Restore, State.CurGroupIndent;
    if s.groups != [] {
      var p := s.Popped();
      assert p.out == s.out && p.col == s.col;
      hide State.Popped;
    }
  }

  /** Counting nodes, ending groups and restoring settings writes nothing. */
  lemma BookWritesNothing(s: State, kind: GroupType)
    ensures s.StartedScalar().out == s.out && s.StartedScalar().col == s.col
    ensures s.StartedGroup(kind).out == s.out && s.StartedGroup(kind).col == s.col
  {
    CountedSame(s);
    hide Restore, State.StartedNode;
  }

  lemma {:induction false} RestoreWide(st: Settings, changes: seq<Change>)
    requires st.indent >= 2 && AllWide(changes)
    ensures Restore(st, changes).indent >= 2
    decreases |changes|
  {
    if changes != [] {
      RestoreWide(st.With(changes[0].which, changes[0].saved), changes[1..]);
    }
  }

  lemma WideWithTop(groups: seq<Group>, g: Group)
    requires WideGroups(groups) && g.indent >= 2 && AllWide(g.modified)
    ensures WideGroups(groups + [g]) && (groups != [] ==> WideGroups(groups[..|groups| - 1] + [g]))
  {
    hide AllWide;
  }

  /** Wide, as far as a step that writes is concerned. */
  lemma SameWide(s: State, t: State)
    requires Wide(s) && t.settings == s.settings && t.modified == s.modified
    requires t.globalModified == s.globalModified && t.groups == s.groups
    ensures Wide(t)
  {
  }

  lemma DecidedWide(s: State, child: Child)
    requires Wide(s) && s.groups != []
    ensures Wide(Decided(s, child))
  {
    hide LaidOutLong, AllWide;
    WideWithTop(s.groups, s.Top().(longKey := LaidOutLong(s, child)));
  }

  lemma PreparedIs(s: State, child: Child)
    requires s.groups != [] && (s.InFlow() ==> child != BlockSeq && child != BlockMap)
    ensures s.PrepareNode(child) == WithOutput(Decided(s, child), s.PrepareNode(child))
    ensures Tracked(s) ==> Tracked(s.PrepareNode(child))
  {
    hide State.PrepareNode, Decided, Lead, LaidOutLong, Wrote, Tracked;
    PrepareWrites(s, child);
    WroteTracked(Decided(s, child), s.PrepareNode(child), Lead(s, child));
    DecidedGroups(s, child);
    SameTracked(s, Decided(s, child));
  }

  /** The same but for the output and the flags. */
  ghost predicate SameBooks(s: State, t: State)
  {
    && t.groups == s.groups && t.settings == s.settings && t.modified == s.modified
    && t.globalModified == s.globalModified && t.docCount == s.docCount && t.curIndent == s.curIndent
  }

  lemma SameBooksThen(s: State, t: State, u: State)
    requires SameBooks(s, t) && SameBooks(t, u)
    ensures SameBooks(s, u) && SameBooks(s, s)
  {
  }

  lemma LayoutBooks(s: State, condition: bool, space: bool, n: int)
    ensures SameBooks(s, s) && SameBooks(s, s.BreakIf(condition)) && SameBooks(s, s.SpaceOrIndentTo(space, n))
  {
    BreakIsQuiet(s, condition);
    SpaceIsQuiet(s, space, n);
    hide State.BreakIf, State.SpaceOrIndentTo, Structural;
  }

  lemma TopNodeKeeps(s: State, child: Child)
    requires s.groups == []
    ensures SameBooks(s, s.PrepareTopNode(child))
  {
    hide State.SpaceOrIndentTo, State.BreakIf, State.EmitBeginDoc, SameBooks;
    LayoutBooks(s, true, true, 0);
    if child != NoNode {
      var t := if s.CurGroupChildCount() > 0 && s.col > 0 then s.EmitBeginDoc() else s;
      BeginDocKeeps(s);
      LayoutBooks(t, t.HasBegunNode(), t.HasBegunContent(), 0);
      SameBooksThen(s, t, s.PrepareTopNode(child));
    }
  }

  lemma TopNodeOnly(s: State, child: Child)
    requires s.groups == []
    ensures s.PrepareNode(child) == s.PrepareTopNode(child)
  {
    hide State.PrepareTopNode, State.FlowSeqPrepareNode, State.BlockSeqPrepareNode, State.FlowMapPrepareNode,
      State.BlockMapPrepareNode;
  }

  lemma BeginDocKeeps(s: State)
    ensures SameBooks(s, s.EmitBeginDoc())
  {
  }

  lemma PrepareSteady(s: State, child: Child)
    requires Steady(s) && (s.InFlow() ==> child != BlockSeq && child != BlockMap)
    ensures Steady(s.PrepareNode(child))
  {
    hide Wide, Tracked, State.PrepareNode, Decided;
    if s.groups == [] {
      TopNodeTracked(s, child);
      TopNodeOnly(s, child);
      TopNodeKeeps(s, child);
      SameWide(s, s.PrepareNode(child));
    } else {
      PreparedIs(s, child);
      DecidedWide(s, child);
      SameWide(Decided(s, child), s.PrepareNode(child));
    }
  }

  lemma CountedWide(s: State)
    requires Wide(s)
    ensures Wide(s.StartedNode())
  {
    if s.groups != [] {
      hide AllWide;
      var n := s.Top().childCount + 1;
      WideWithTop(s.groups, s.Top().(childCount := n, longKey := s.Top().longKey && n % 2 != 0));
    }
  }

  lemma StartedWide(s: State, kind: GroupType)
    requires Wide(s)
    ensures Wide(s.StartedScalar()) && Wide(s.StartedGroup(kind))
  {
    CountedWide(s);
    var t := s.StartedNode();
    RestoreWide(t.settings, t.modified);
    WideWithTop(t.groups, Group(kind, t.FlowOf(kind), t.settings.indent, 0, false, t.modified));
    hide State.StartedNode, Restore, State.FlowOf;
  }

  lemma PoppedWide(s: State)
    requires Wide(s) && s.groups != []
    ensures Wide(s.Popped())
  {
    RestoreWide(s.settings, s.Top().modified);
    hide Restore, AllWide;
  }

  lemma BackWide(s: State)
    requires Wide(s)
    ensures Wide(s.BackBelow())
  {
    var o := s.Outdented();
    var r := o.RestoreGlobalModifiedSettings();
    RestoreWide(o.settings, o.globalModified);
    assert Wide(r) by { hide Restore; }
    RestoreWide(r.settings, r.modified);
    assert Wide(r.ClearModifiedSettings()) by { hide Restore, State.RestoreGlobalModifiedSettings; }
    SameWide(r.ClearModifiedSettings(), s.BackBelow());
  }

  lemma EndedWide(s: State, kind: GroupType)
    requires Wide(s)
    ensures Wide(s.EndedGroup(kind))
  {
    if s.groups != [] {
      PoppedWide(s);
      BackWide(s.Popped());
      hide State.Popped, State.BackBelow;
    }
  }

  lemma SetWide(s: State, which: Setting, value: Settings)
    requires Wide(s) && value.indent >= 2
    ensures Wide(s.SetLocal(which, value)) && Wide(s.SetGlobal(which, value))
  {
    hide WideGroups;
  }

  lemma SettingWide(s: State, op: Op)
    requires Wide(s) && Sets(op)
    ensures Wide(s.Step(op))
  {
    var st := s.settings;
    assert st.indent >= 2;
    hide Wide, State.SetLocal, State.SetGlobal;
    match op
    case LocalFlow(f) =>
      if s.good {
        SetWide(s, SeqFormat, st.(seqFormat := f));
        SetWide(s.SetLocal(SeqFormat, st.(seqFormat := f)), MapFormat, st.(mapFormat := f));
      }
    case LocalKeys(long) => SetWide(s, MapKeyFormat, st.(longKeys := long));
    case LocalIndent(n) => if n > 1 { SetWide(s, IndentWidth, st.(indent := n)); }
    case GlobalSeqFlow(f) => SetWide(s, SeqFormat, st.(seqFormat := f));
    case GlobalMapFlow(f) => SetWide(s, MapFormat, st.(mapFormat := f));
    case GlobalKeys(long) => SetWide(s, MapKeyFormat, st.(longKeys := long));
    case GlobalIndent(n) => if n > 1 { SetWide(s, IndentWidth, st.(indent := n)); }
  }

  lemma ClosedBooks(s: State, kind: GroupType, wasBlock: bool)
    ensures SameBooks(s, s.CloseFlow(kind, wasBlock))
  {
    hide State.CloseFlow, Closing, Structural;
    CloseFlowWrites(s, kind, wasBlock);
  }

  lemma PutBooks(s: State, t: Token)
    ensures SameBooks(s, s.Put(t))
  {
  }

  lemma FlagBooks(t: State)
    ensures SameBooks(t, t.SetError()) && SameBooks(t, t.(hasAlias := true)) && SameBooks(t, t.(hasAnchor := true))
    ensures SameBooks(t, t.(hasTag := true)) && SameBooks(t, t.(hasNonContent := true)) && SameBooks(t, t)
  {
  }

  lemma PutSteady(s: State, t: Token)
    requires Steady(s)
    ensures Steady(s.Put(t))
  {
    PutTracked();
    PutBooks(s, t);
    SameWide(s, s.Put(t));
    hide Wide, Tracked;
  }

  /** Flags do not matter. */
  lemma SameSteady(s: State, t: State)
    requires Steady(s) && SameBooks(s, t) && t.out == s.out && t.col == s.col
    ensures Steady(t)
  {
  }

  /** Counting nodes, and ending groups. */
  lemma BookSteady(s: State, kind: GroupType)
    requires Steady(s)
    ensures Steady(s.StartedScalar()) && Steady(s.StartedGroup(kind)) && Steady(s.EndedGroup(kind))
  {
    BookWritesNothing(s, kind);
    EndedSame(s, kind);
    StartedWide(s, kind);
    EndedWide(s, kind);
    SameTracked(s, s.StartedScalar());
    SameTracked(s, s.StartedGroup(kind));
    SameTracked(s, s.EndedGroup(kind));
    hide Wide, Tracked, State.StartedScalar, State.StartedGroup, State.EndedGroup;
  }

  // ---- lines

  /** Where a block group is started outside of all groups, the line is empty. */
  lemma FirstLine(s: State, child: Child)
    requires s.good && s.groups == [] && LineOfFirst(s) && (child == BlockSeq || child == BlockMap)
    ensures s.PrepareTopNode(child).good ==> s.PrepareTopNode(child).col == 0
  {
    var t := if s.CurGroupChildCount() > 0 && s.col > 0 then s.EmitBeginDoc() else s;
    BreakKeeps(t, t.HasBegunNode());
    assert t.good ==> t.HasBegunNode() || t.col == 0;
    hide State.EmitBeginDoc, State.BreakIf;
  }

  lemma StartedGroupIs(s: State, kind: GroupType)
    ensures var u := s.StartedGroup(kind);
            && u.groups != [] && u.Top().kind == kind && u.Top().flow == s.FlowOf(kind) && u.Top().childCount == 0
            && !u.HasBegunNode() && u.good == s.good && u.comment == s.comment && u.col == s.col
            && u.curIndent == InnerIndent(s)
            && (u.docCount > 0 <== s.docCount > 0 || s.groups == [])
  {
    CountedIs(s);
    hide State.StartedNode;
  }

  lemma TopOnly(s: State, g: Group)
    requires s.groups != [] && g.flow == s.Top().flow && g.indent == s.Top().indent
    ensures var u := s.WithTop(g);
            && u == s.(groups := u.groups) && |u.groups| == |s.groups| && u.Top() == g
            && u.InFlow() == s.InFlow() && u.CurGroupIndent() == s.CurGroupIndent()
  {
    WithTopHas(s, g);
    assert |s.WithTop(g).groups| == |s.groups|;
    hide State.WithTop;
  }

  lemma CountedOnly(s: State)
    ensures var c := s.Counted();
            && c == s.(groups := c.groups, docCount := c.docCount) && |c.groups| == |s.groups|
            && c.InFlow() == s.InFlow() && c.CurGroupIndent() == s.CurGroupIndent()
            && (s.groups != [] ==> c.Top().childCount > 0 && c.docCount == s.docCount)
            && (s.groups == [] ==> c.docCount > 0)
  {
    if s.groups == [] {
      FirstCounted(s);
    } else {
      CountedTop(s);
      hide State.Counted, State.WithTop, State.InFlow, State.CurGroupIndent;
      TopOnly(s, OneMore(s.Top()));
    }
  }

  function OneMore(g: Group): Group
  {
    g.(childCount := g.childCount + 1, longKey := g.longKey && (g.childCount + 1) % 2 != 0)
  }

  lemma CountedTop(s: State)
    requires s.groups != []
    ensures s.Counted() == s.WithTop(OneMore(s.Top()))
  {
    hide State.WithTop;
  }

  lemma FirstCounted(s: State)
    requires s.groups == []
    ensures var c := s.Counted();
            && c == s.(docCount := c.docCount) && c.docCount > 0
            && c.InFlow() == s.InFlow() && c.CurGroupIndent() == s.CurGroupIndent()
  {
  }

  lemma CountedIs(s: State)
    ensures var u := s.StartedNode();
            && !u.HasBegunNode() && u.good == s.good && u.comment == s.comment && u.col == s.col
            && u.curIndent == s.curIndent && u.settings == s.settings
            && u.CurGroupIndent() == s.CurGroupIndent()
            && u.FlowOf(Seq) == s.FlowOf(Seq) && u.FlowOf(Map) == s.FlowOf(Map)
            && |u.groups| == |s.groups| && (s.groups != [] ==> u.Top().childCount > 0 && u.docCount == s.docCount)
            && (s.groups == [] ==> u.docCount > 0)
  {
    var c := s.Counted();
    CountedOnly(s);
    hide State.Counted;
    assert s.StartedNode() == c.(hasAnchor := false, hasAlias := false, hasTag := false, hasNonContent := false);
    hide State.StartedNode;
  }

  /** What a preparation leaves alone. */
  lemma PreparedKeeps(s: State, child: Child)
    requires s.InFlow() ==> child != BlockSeq && child != BlockMap
    ensures var p := s.PrepareNode(child);
            && (p.groups == [] <==> s.groups == []) && p.docCount == s.docCount && p.curIndent == s.curIndent
            && p.CurGroupIndent() == s.CurGroupIndent()
            && p.FlowOf(Seq) == s.FlowOf(Seq) && p.FlowOf(Map) == s.FlowOf(Map)
    ensures s.groups != [] ==>
              var p := s.PrepareNode(child);
              && p.good == s.good && p.HasBegunContent() == s.HasBegunContent()
              && p.Top() == s.Top().(longKey := p.Top().longKey)
              && (s.Top().kind == Map ==> p.Top().longKey == LaidOutLong(s, child))
  {
    if s.groups == [] {
      hide State.PrepareNode, State.PrepareTopNode;
      TopNodeOnly(s, child);
      TopNodeKeeps(s, child);
    } else {
      hide State.PrepareNode, Decided, LaidOutLong;
      PreparedIs(s, child);
      DecidedGroups(s, child);
      DecidedTop(s, child);
    }
  }

  lemma InvIndent(s: State)
    requires Inv(s)
    ensures s.curIndent >= 0 && (s.groups == [] ==> s.curIndent == 0)
    ensures |s.groups| > 1 ==> s.groups[|s.groups| - 2].childCount > 0
  {
  }

  /** Where a block group is started, its column has not been passed. */
  lemma StartsLow(s: State, child: Child)
    requires Inv(s) && s.good && Columns(s) && !s.InFlow() && (child == BlockSeq || child == BlockMap)
    ensures var p := s.PrepareNode(child); p.good ==> p.comment || p.col <= InnerIndent(p)
  {
    InvIndent(s);
    if s.groups == [] {
      TopNodeOnly(s, child);
      TopNodeKeeps(s, child);
      hide Inv, Wide, Tracked, Low, State.PrepareNode, State.PrepareTopNode;
      FirstLine(s, child);
    } else {
      PreparedKeeps(s, child);
      hide Inv, State.PrepareNode, Wide, Tracked, Lays, LaidOutLong, LineOfFirst, LongWithProperty;
      BlockPrepared(s, child);
    }
  }

  lemma StartedLines(s: State, p: State, kind: GroupType)
    requires (p.groups == [] <==> s.groups == []) && p.docCount == s.docCount && p.FlowOf(kind) == s.FlowOf(kind)
    requires s.groups != [] ==> s.docCount > 0
    requires p.good && s.FlowOf(kind) == Block ==> p.comment || p.col <= InnerIndent(p)
    ensures p.StartedGroup(kind).good ==> Lines(p.StartedGroup(kind))
  {
    StartedGroupIs(p, kind);
    hide State.StartedGroup, State.FlowOf;
  }

  lemma BeginGroupColumns(s: State, kind: GroupType)
    requires Inv(s) && s.good && Columns(s)
    ensures Steady(s.EmitBeginGroup(kind))
    ensures s.EmitBeginGroup(kind).good ==> Columns(s.EmitBeginGroup(kind))
  {
    var child := s.NextGroupType(kind);
    assert s.FlowOf(kind) == Block ==> !s.InFlow() && (child == BlockSeq || child == BlockMap);
    assert s.InFlow() ==> child != BlockSeq && child != BlockMap;
    assert s.groups != [] ==> s.docCount > 0;
    PrepareSteady(s, child);
    hide Inv, Steady, Lines, State.PrepareNode, State.StartedGroup, State.FlowOf, State.NextGroupType, LaidOutLong,
      InnerIndent;
    BookSteady(s.PrepareNode(child), kind);
    PreparedKeeps(s, child);
    if s.FlowOf(kind) == Block { StartsLow(s, child); }
    StartedLines(s, s.PrepareNode(child), kind);
  }

  /** Behind a scalar or alias. */
  lemma CountedColumns(t: State)
    requires Steady(t) && (t.groups != [] ==> t.docCount > 0)
    ensures Columns(t.StartedScalar()) && Columns(t.StartedScalar().(hasAlias := true))
  {
    BookSteady(t, Seq);
    CountedIs(t);
    hide Steady, State.StartedNode, Restore;
    FlagBooks(t.StartedScalar());
    SameSteady(t.StartedScalar(), t.StartedScalar().(hasAlias := true));
  }

  lemma SameLines(s: State, t: State)
    requires Lines(s) && t.groups == s.groups && t.HasBegunNode() == s.HasBegunNode()
    requires t.HasBegunContent() == s.HasBegunContent() && t.comment == s.comment && t.col == s.col
    requires t.curIndent == s.curIndent && t.docCount == s.docCount
    ensures Lines(t)
  {
  }

  /** A scalar text with room made for it. */
  lemma ContentColumns(s: State, text: string)
    requires Columns(s)
    ensures var t := s.PrepareNode(Scalar).Put(Content(text));
            Columns(t.StartedScalar()) && Columns(t.StartedScalar().(hasAlias := true))
  {
    PrepareSteady(s, Scalar);
    PreparedKeeps(s, Scalar);
    var p := s.PrepareNode(Scalar);
    assert s.groups != [] ==> s.docCount > 0;
    hide Columns, Steady, State.PrepareNode, State.StartedScalar, LaidOutLong;
    PutSteady(p, Content(text));
    PutBooks(p, Content(text));
    CountedColumns(p.Put(Content(text)));
  }

  lemma ScalarColumns(s: State, text: string, long: bool)
    requires s.good && Columns(s)
    ensures Columns(s.EmitScalar(text, long))
  {
    var s1 := if long then s.SetLocal(MapKeyFormat, s.settings.(longKeys := true)) else s;
    SetColumns(s, MapKeyFormat, s.settings.(longKeys := true));
    hide Columns, State.PrepareNode, State.StartedScalar, State.SetLocal, State.Put;
    ContentColumns(s1, text);
  }

  lemma SetColumns(s: State, which: Setting, value: Settings)
    requires Columns(s) && value.indent >= 2
    ensures Columns(s.SetLocal(which, value)) && Columns(s.SetGlobal(which, value))
  {
    SetWide(s, which, value);
    hide AllWide, WideGroups, ColumnBehind;
  }

  lemma AliasColumns(s: State, text: string, valid: bool)
    requires s.good && Columns(s)
    ensures s.EmitAlias(text, valid).good ==> Columns(s.EmitAlias(text, valid))
  {
    hide Columns, State.PrepareNode, State.StartedScalar, State.Put;
    ContentColumns(s, text);
  }

  /** `p` is `s` with room made for a node or comment. */
  ghost predicate RoomMade(s: State, p: State, child: Child)
  {
    && (p.groups == [] <==> s.groups == []) && p.docCount == s.docCount && p.curIndent == s.curIndent >= 0
    && (s.groups != [] && p.groups != [] ==>
          && p.HasBegunContent() == s.HasBegunContent()
          && p.Top() == s.Top().(longKey := p.Top().longKey)
          && (s.Top().kind == Map ==> p.Top().longKey == LaidOutLong(s, child)))
  }

  lemma MakesRoom(s: State, child: Child)
    requires Inv(s) && (s.InFlow() ==> child != BlockSeq && child != BlockMap)
    ensures RoomMade(s, s.PrepareNode(child), child)
  {
    InvIndent(s);
    PreparedKeeps(s, child);
    hide State.PrepareNode, Inv, LaidOutLong;
  }

  /** Behind an anchor or tag. */
  lemma PropertyLines(s: State, p: State, t: State)
    requires Lines(s) && RoomMade(s, p, Property) && SameBooks(p, t) && t.HasBegunContent()
    ensures Lines(t)
  {
  }

  /** Behind a comment or line break. */
  lemma CommentLines(s: State, p: State, t: State)
    requires Lines(s) && RoomMade(s, p, NoNode) && SameBooks(p, t)
    requires t.HasBegunNode() && t.HasBegunContent() == p.HasBegunContent() && (t.comment || t.col == 0)
    ensures Lines(t)
  {
  }

  /** A comment or line break is written. */
  lemma Noted(p: State, t: Token)
    requires t == Newline || t.Remark?
    ensures var u := p.Put(t).(hasNonContent := true);
            && SameBooks(p, u) && u.HasBegunNode() && u.HasBegunContent() == p.HasBegunContent()
            && (u.comment || u.col == 0)
  {
  }

  /** An anchor or tag is written. */
  lemma Named(p: State, text: string)
    ensures var t := p.Put(Content(text));
            && SameBooks(p, t.(hasAnchor := true)) && t.(hasAnchor := true).HasBegunContent()
            && SameBooks(p, t.(hasTag := true)) && t.(hasTag := true).HasBegunContent()
  {
    hide ColumnAfter;
  }

  lemma AnchorColumns(s: State, text: string, valid: bool)
    requires Inv(s) && s.good && Columns(s) && s.EmitAnchor(text, valid).good
    ensures Columns(s.EmitAnchor(text, valid))
  {
    hide Inv, Steady, Lines, RoomMade, SameBooks, State.PrepareNode, State.Put, State.EmitAnchor, State.HasBegunContent;
    var p := s.PrepareNode(Property);
    MakesRoom(s, Property);
    PrepareSteady(s, Property);
    EmitterMarks.AnchorFlags(s, text, valid);
    Named(p, text);
    PutSteady(p, Content(text));
    var t := p.Put(Content(text));
    FlagBooks(t);
    SameSteady(t, t.(hasAnchor := true));
    PropertyLines(s, p, t.(hasAnchor := true));
  }

  lemma TagColumns(s: State, text: string, valid: bool)
    requires Inv(s) && s.good && Columns(s) && s.EmitTag(text, valid).good
    ensures Columns(s.EmitTag(text, valid))
  {
    hide Inv, Steady, Lines, RoomMade, SameBooks, State.PrepareNode, State.Put, State.EmitTag, State.HasBegunContent;
    var p := s.PrepareNode(Property);
    MakesRoom(s, Property);
    PrepareSteady(s, Property);
    EmitterMarks.TagFlags(s, text, valid);
    Named(p, text);
    PutSteady(p, Content(text));
    var t := p.Put(Content(text));
    FlagBooks(t);
    SameSteady(t, t.(hasTag := true));
    PropertyLines(s, p, t.(hasTag := true));
  }

  lemma NewlineColumns(s: State)
    requires Inv(s) && s.good && Columns(s)
    ensures Columns(s.EmitNewline())
  {
    hide Inv, Steady, Lines, RoomMade, SameBooks, State.PrepareNode, State.Put, State.HasBegunNode,
      State.HasBegunContent;
    var p := s.PrepareNode(NoNode);
    MakesRoom(s, NoNode);
    PrepareSteady(s, NoNode);
    Noted(p, Newline);
    PutSteady(p, Newline);
    FlagBooks(p.Put(Newline));
    SameSteady(p.Put(Newline), s.EmitNewline());
    CommentLines(s, p, s.EmitNewline());
  }

  lemma RemarkColumns(s: State, text: string)
    requires Inv(s) && s.good && Columns(s)
    ensures Columns(s.EmitComment(text))
  {
    hide Inv, Steady, Lines, RoomMade, SameBooks, State.PrepareNode, State.Put, State.HasBegunNode,
      State.HasBegunContent;
    var p := s.PrepareNode(NoNode);
    MakesRoom(s, NoNode);
    PrepareSteady(s, NoNode);
    PutSteady(p, Pad(2));
    var q := if p.col > 0 then p.Put(Pad(2)) else p;
    PutBooks(p, Pad(2));
    FlagBooks(p);
    PutKeeps(p, Pad(2));
    Noted(q, Remark(text));
    PutSteady(q, Remark(text));
    FlagBooks(q.Put(Remark(text)));
    SameSteady(q.Put(Remark(text)), s.EmitComment(text));
    SameBooksThen(p, q, s.EmitComment(text));
    CommentLines(s, p, s.EmitComment(text));
  }

  lemma EndColumns(s: State, kind: GroupType)
    requires Inv(s) && s.good && Columns(s) && s.EmitEndGroup(kind).good
    ensures Columns(s.EmitEndGroup(kind))
  {
    InvIndent(s);
    assert s.groups != [];
    hide Steady, Inv, Lines, State.EmitEndGroup;
    EndSteady(s, kind);
    EndPops(s, kind);
    EndKeeps(s, kind);
    CalmLines(s, s.EmitEndGroup(kind));
  }

  lemma EndSteady(s: State, kind: GroupType)
    requires s.good && s.groups != [] && Steady(s)
    ensures Steady(s.EmitEndGroup(kind))
  {
    var wasBlock := s.Top().flow == Block;
    var t := if s.CurGroupChildCount() == 0 then s.ForceFlow() else s;
    TopReplaced(s, s.Top().(flow := Flow));
    WideWithTop(s.groups, s.Top().(flow := Flow));
    assert Steady(t) by { hide AllWide, WideGroups, ColumnBehind; }
    var u := if t.InFlow() then t.CloseFlow(kind, wasBlock) else t;
    hide Steady, State.CloseFlow, State.EndedGroup, State.ForceFlow;
    CloseSteady(t, kind, wasBlock);
    BookSteady(u, kind);
  }

  lemma CloseSteady(s: State, kind: GroupType, wasBlock: bool)
    requires Steady(s)
    ensures Steady(s.CloseFlow(kind, wasBlock))
  {
    CloseFlowWrites(s, kind, wasBlock);
    WroteTracked(s, s.CloseFlow(kind, wasBlock), Closing(s, kind, wasBlock));
    ClosedBooks(s, kind, wasBlock);
    hide State.CloseFlow, Tracked, Wide;
    SameWide(s, s.CloseFlow(kind, wasBlock));
  }

  /** Between two children of a group. */
  lemma CalmLines(s: State, u: State)
    requires Lines(s) && s.groups != [] && u.groups == Below(s.groups) && u.docCount == s.docCount
    requires |s.groups| > 1 ==> s.groups[|s.groups| - 2].childCount > 0
    requires !u.HasBegunNode()
    ensures Lines(u)
  {
  }

  lemma EndKeeps(s: State, kind: GroupType)
    requires s.good && s.groups != [] && s.EmitEndGroup(kind).good
    ensures var u := s.EmitEndGroup(kind); u.docCount == s.docCount && !u.HasBegunNode()
  {
    var wasBlock := s.Top().flow == Block;
    var t := if s.CurGroupChildCount() == 0 then s.ForceFlow() else s;
    var u := if t.InFlow() then t.CloseFlow(kind, wasBlock) else t;
    assert t.docCount == s.docCount;
    ClosedBooks(t, kind, wasBlock);
    EndedKeeps(u, kind);
    hide State.EndedGroup, State.CloseFlow, State.ForceFlow;
  }

  lemma EndedKeeps(s: State, kind: GroupType)
    requires s.EndedGroup(kind).good
    ensures s.EndedGroup(kind).docCount == s.docCount && !s.EndedGroup(kind).HasBegunNode()
  {
    BackKeeps(s);
    if s.groups != [] { BackKeeps(s.Popped()); }
    hide Restore, State.BackBelow, State.HasBegunNode;
  }

  lemma BackKeeps(s: State)
    ensures s.BackBelow().docCount == s.docCount && !s.BackBelow().HasBegunNode()
  {
    hide Restore, State.Outdented;
    assert s.Outdented().docCount == s.docCount by { OutdentKeeps(s); }
  }

  lemma OutdentKeeps(s: State)
    ensures s.Outdented().docCount == s.docCount
  {
  }

  lemma DocLines(s: State)
    requires s.good && Lines(s)
    ensures s.EmitBeginDoc().good ==> Lines(s.EmitBeginDoc())
    ensures s.EmitEndDoc().good ==> Lines(s.EmitEndDoc())
  {
  }

  lemma DocColumns(s: State)
    requires s.good && Columns(s)
    ensures s.EmitBeginDoc().good ==> Columns(s.EmitBeginDoc())
    ensures s.EmitEndDoc().good ==> Columns(s.EmitEndDoc())
  {
    DocLines(s);
    DocTracked(s);
    BeginDocKeeps(s);
    EndDocKeeps(s);
    hide Lines, Tracked, Wide, State.EmitBeginDoc, State.EmitEndDoc;
    SameWide(s, s.EmitBeginDoc());
    SameWide(s, s.EmitEndDoc());
  }

  lemma EndDocKeeps(s: State)
    ensures SameBooks(s, s.EmitEndDoc())
  {
    LayoutBooks(s, s.col > 0, true, 0);
    PutBooks(s.BreakIf(s.col > 0), DocEnd);
    FlagBooks(s);
    hide State.BreakIf, State.Put, State.SetError;
  }

  lemma SettingColumns(s: State, op: Op)
    requires Columns(s) && Sets(op)
    ensures Columns(s.Step(op))
  {
    SettingWide(s, op);
    SettingOnly(s, op);
    hide State.Step, Wide;
    SameTracked(s, s.Step(op));
    SameLines(s, s.Step(op));
  }

  lemma StepColumns(s: State, op: Op)
    requires Inv(s) && s.good && Columns(s) && s.Step(op).good
    ensures Columns(s.Step(op))
  {
    hide Inv, Columns, State.EmitBeginGroup, State.EmitEndGroup, State.EmitScalar, State.EmitAlias,
      State.EmitBeginDoc, State.EmitEndDoc, State.EmitAnchor, State.EmitTag, State.EmitComment, State.EmitNewline;
    match op
    case BeginDoc => DocColumns(s);
    case EndDoc => DocColumns(s);
    case BeginGroup(kind) => BeginGroupColumns(s, kind);
    case EndGroup(kind) => EndColumns(s, kind);
    case WriteScalar(text, long) => ScalarColumns(s, text, long);
    case WriteAlias(text, valid) => AliasColumns(s, text, valid);
    case LineBreak => NewlineColumns(s);
    case WriteComment(text) => RemarkColumns(s, text);
    case WriteAnchor(text, valid) => AnchorColumns(s, text, valid);
    case WriteTag(text, valid) => TagColumns(s, text, valid);
    case _ =>
      hide State.Step;
      SettingColumns(s, op);
  }

  lemma {:induction false} RunColumns(s: State, ops: seq<Op>)
    requires s.good ==> Inv(s) && Columns(s)
    ensures s.Run(ops).good ==> Inv(s.Run(ops)) && Columns(s.Run(ops))
    decreases |ops|
  {
    if ops != [] {
      if s.good && s.Step(ops[0]).good {
        assert Sound(s) by { InvNotTripped(s); }
        StepSound(s, ops[0]);
        StepColumns(s, ops[0]);
      }
      if !s.good { StoppedStep(s, ops[0]); }
      hide Inv, Columns, State.Step;
      RunColumns(s.Step(ops[0]), ops[1..]);
    }
  }

  lemma InitialColumns()
    ensures Inv(INITIAL) && Columns(INITIAL)
  {
  }

  /** In every run that is still good, wherever a block group is on top: the dashes, question
      marks and colons of long keys written for its next node, property or comment stand in the
      column that is the sum of the indents around the group, and a simple key starts in that
      column. The columns are those of the output itself. */
  lemma BlockMarksStand(ops: seq<Op>, child: Child)
    requires var s := INITIAL.Run(ops); s.good && s.groups != [] && s.Top().flow == Block
    ensures var s := INITIAL.Run(ops); var t := s.PrepareNode(child); var c := IndentSum(Below(s.groups));
            && Structural(t.out) == Structural(s.out) + Lead(s, child)
            && Aligned(s.out, t.out, c, LaidOutLong(s, child))
            && (s.Top().kind == Map && s.Top().childCount % 2 == 0 && !LaidOutLong(s, child) && child != NoNode ==>
                  ColumnBehind(t.out) == c)
  {
    var s := INITIAL.Run(ops);
    InitialColumns();
    RunColumns(INITIAL, ops);
    hide State.Run, State.PrepareNode, LaidOutLong, Lead, Unmatched, Aligned, Structural;
    BlockPrepared(s, child);
    PrepareWrites(s, child);
    DecidedGroups(s, child);
  }

  // ---- flow groups as simple keys

  /** A flow group has been started as a simple key in column `c` of a block map, and nothing
      of it is written. */
  ghost predicate AtFlowKeyStart(t: State, kind: GroupType, c: int, width: int)
  {
    && t.good && t.groups != [] && t.Top().kind == kind && t.Top().flow == Flow && t.Top().childCount == 0
    && !t.Top().longKey && !t.HasBegunNode() && !t.comment && t.col == c >= 0 && t.LastIndent() == c
    && t.curIndent == c + width
  }

  lemma KeyPrepared(s: State, child: Child)
    requires s.CurGroupNodeType() == BlockMap && s.Top().childCount % 2 == 0 && !LaidOutLong(s, child)
    requires child != NoNode && child != BlockSeq && child != BlockMap
    ensures !s.PrepareNode(child).comment
  {
    BlockMapDispatch(s, child);
    var d := Decided(s, child);
    hide State.PrepareNode, State.IndentTo, State.BreakIf, Decided;
    var v := d.BreakIf(!d.HasBegunNode() && d.CurGroupChildCount() > 0);
    SpacedComment(v, v.HasBegunContent(), d.curIndent);
  }

  lemma SpacedComment(s: State, space: bool, n: int)
    ensures !s.SpaceOrIndentTo(space, n).comment
  {
    BreakKeeps(s, s.comment);
    hide State.BreakIf;
  }

  lemma CountedBelow(s: State)
    ensures |s.StartedNode().groups| == |s.groups|
    ensures s.groups != [] ==> s.StartedNode().Top().indent == s.Top().indent
  {
    if s.groups != [] {
      var n := s.Top().childCount + 1;
      var g := s.Top().(childCount := n, longKey := s.Top().longKey && n % 2 != 0);
      WithTopHas(s, g);
      assert |s.WithTop(g).groups| == |s.groups|;
      hide State.WithTop;
    }
  }

  lemma PushedAbove(s: State, kind: GroupType)
    requires s.groups != []
    ensures var u := s.StartedGroup(kind);
            && !u.Top().longKey && |u.groups| > 1 && u.groups[|u.groups| - 2].indent == s.Top().indent
  {
    CountedBelow(s);
    hide State.StartedNode, State.FlowOf;
  }

  lemma FlowKeyStarted(s: State, kind: GroupType)
    requires s.good && Inv(s) && Columns(s) && s.CurGroupNodeType() == BlockMap && s.Top().childCount % 2 == 0
    requires s.FlowOf(kind) == Flow && !LaidOutLong(s, s.NextGroupType(kind))
    ensures AtFlowKeyStart(s.EmitBeginGroup(kind), kind, s.curIndent, s.CurGroupIndent())
  {
    var child := s.NextGroupType(kind);
    var p := s.PrepareNode(child);
    InvIndent(s);
    BlockPrepared(s, child);
    KeyPrepared(s, child);
    PreparedKeeps(s, child);
    StartedGroupIs(p, kind);
    PushedAbove(p, kind);
    hide Inv, Columns, Lays, State.PrepareNode, State.StartedGroup, LaidOutLong;
  }

  lemma FlowStartIsNothing(t: State)
    requires !t.comment && t.col == t.LastIndent()
    ensures t.FlowStart() == t
  {
  }

  lemma PutGrows(s: State, t: Token)
    ensures s.Put(t).out == s.out + [t] && s.out <= s.Put(t).out
  {
  }

  lemma FlowChildGrows(s: State, child: Child)
    ensures s.out <= s.FlowChild(child).out
  {
    LayoutLays(s, true, s.HasBegunContent() || s.CurGroupChildCount() > 0, s.LastIndent(), 0, false);
    hide State.SpaceOrIndentTo, Tracked;
  }

  /** The bracket of a flow group starts where its first child makes room. */
  lemma FirstOpens(t: State, kind: GroupType, c: int, width: int, child: Child)
    requires AtFlowKeyStart(t, kind, c, width)
    ensures t.out + [Open(kind)] <= t.PrepareNode(child).out
  {
    FlowStartIsNothing(t);
    if kind == Seq {
      hide State.FlowStart, State.FlowChild;
      PutGrows(t, Open(Seq));
      FlowChildGrows(t.Put(Open(Seq)), child);
    } else {
      FirstKeyOpens(t, c, width, child);
    }
  }

  lemma FirstKeyOpens(t: State, c: int, width: int, child: Child)
    requires AtFlowKeyStart(t, Map, c, width)
    ensures t.out + [Open(Map)] <= t.PrepareNode(child).out
  {
    var d := Decided(t, child);
    FlowMapDispatch(t, child);
    DecidedColumns(t, child);
    DecidedFlow(t, child);
    FlowStartIsNothing(d);
    hide Decided, State.FlowStart, State.FlowChild, State.PrepareNode, LaidOutLong;
    var u := d.Put(Open(Map));
    PutGrows(d, Open(Map));
    PutGrows(u, Space);
    PutGrows(u.Put(Space), Question);
    FlowChildGrows(u, child);
    FlowChildGrows(u.Put(Space).Put(Question), child);
  }

  lemma DecidedFlow(t: State, child: Child)
    requires t.CurGroupNodeType() == FlowMap
    ensures var d := Decided(t, child);
            && d.comment == t.comment && d.LastIndent() == t.LastIndent() && d.HasBegunNode() == t.HasBegunNode()
            && d.CurGroupChildCount() == t.CurGroupChildCount()
  {
    hide LaidOutLong;
    KeepingTheTop(t);
  }

  lemma ClosedOut(f: State, kind: GroupType, width: nat)
    requires !f.comment && width > 0 && f.col + width == f.curIndent
    requires f.CurGroupChildCount() == 0 && !f.HasBegunNode()
    ensures f.CloseFlow(kind, false).out == f.out + [Pad(width), Open(kind), Close(kind)]
  {
    var v := f.Put(Pad(width));
    assert f.BreakIf(f.comment).IndentTo(f.curIndent) == v;
    PutGrows(f, Pad(width));
    PutBooks(f, Pad(width));
    assert !v.HasBegunNode();
    PutGrows(v, Open(kind));
    PutGrows(v.Put(Open(kind)), Close(kind));
    hide State.Put, State.BreakIf, State.IndentTo;
    assert f.CloseFlow(kind, false) == v.Put(Open(kind)).Put(Close(kind));
  }

  /** The brackets of a group that stays empty are written when it ends. */
  lemma EmptyCloses(t: State, kind: GroupType, c: int, width: nat)
    requires AtFlowKeyStart(t, kind, c, width) && width > 0
    ensures t.EmitEndGroup(kind).out == t.out + [Pad(width), Open(kind), Close(kind)]
  {
    var f := Forced(t);
    FlowEndForm(t, kind);
    ForcedIs(t);
    hide State.EndedGroup, State.CloseFlow, Forced, State.EmitEndGroup;
    ClosedOut(f, kind, width);
    EndedSame(f.CloseFlow(kind, false), kind);
  }

  /** Where the bracket of a flow group stands that is a simple key: at the end of `t.out` when
      it gets something to hold, and behind a run of blanks when it is ended empty. */
  ghost predicate KeyBracket(t: State, kind: GroupType, c: int, width: nat)
  {
    && (forall child :: t.out + [Open(kind)] <= t.PrepareNode(child).out)
    && ColumnBehind(t.out) == c
    && t.EmitEndGroup(kind).out == t.out + [Pad(width), Open(kind), Close(kind)]
    && ColumnBehind(t.out + [Pad(width)]) == c + width
  }

  lemma PadColumn(ts: seq<Token>, width: nat)
    ensures ColumnBehind(ts + [Pad(width)]) == ColumnBehind(ts) + width
  {
    assert (ts + [Pad(width)])[..|ts|] == ts;
  }

  lemma OpensWithAny(t: State, kind: GroupType, c: int, width: nat)
    requires AtFlowKeyStart(t, kind, c, width)
    ensures forall child :: t.out + [Open(kind)] <= t.PrepareNode(child).out
  {
    hide *;
    forall child ensures t.out + [Open(kind)] <= t.PrepareNode(child).out {
      FirstOpens(t, kind, c, width, child);
    }
  }

  lemma StartColumn(t: State, kind: GroupType, c: int, width: nat)
    requires Tracked(t) && AtFlowKeyStart(t, kind, c, width)
    ensures ColumnBehind(t.out) == c && ColumnBehind(t.out + [Pad(width)]) == c + width
  {
    PadColumn(t.out, width);
    hide ColumnBehind;
  }

  lemma BracketStands(t: State, kind: GroupType, c: int, width: nat)
    requires Tracked(t) && AtFlowKeyStart(t, kind, c, width) && width > 0
    ensures KeyBracket(t, kind, c, width)
  {
    hide State.PrepareNode, State.EmitEndGroup, AtFlowKeyStart, Tracked, ColumnBehind;
    StartColumn(t, kind, c, width);
    OpensWithAny(t, kind, c, width);
    EmptyCloses(t, kind, c, width);
  }

  lemma KeyBracketStands(s: State, kind: GroupType)
    requires s.good && Inv(s) && Columns(s) && s.CurGroupNodeType() == BlockMap && s.Top().childCount % 2 == 0
    requires s.FlowOf(kind) == Flow && !LaidOutLong(s, s.NextGroupType(kind))
    ensures s.curIndent == IndentSum(Below(s.groups)) && s.Top().indent >= 2
    ensures KeyBracket(s.EmitBeginGroup(kind), kind, s.curIndent, s.Top().indent)
  {
    WideTop(s);
    FlowKeyStarted(s, kind);
    BeginGroupColumns(s, kind);
    hide State.EmitBeginGroup, KeyBracket, AtFlowKeyStart, LaidOutLong;
    BracketStands(s.EmitBeginGroup(kind), kind, s.curIndent, s.Top().indent);
  }

  /** A flow group as a simple key of a block map, in every run: its bracket stands in the
      column of the marks of the map exactly when the group gets something to hold. The
      brackets of an empty one stand where the marks of a group nested in the map would,
      which is where the value of the entry before may have them. */
  lemma FlowKeyStandsExactly(ops: seq<Op>, kind: GroupType)
    requires var s := INITIAL.Run(ops);
             && s.good && s.CurGroupNodeType() == BlockMap && s.Top().childCount % 2 == 0
             && s.FlowOf(kind) == Flow && !LaidOutLong(s, s.NextGroupType(kind))
    ensures var s := INITIAL.Run(ops);
            && KeyBracket(s.EmitBeginGroup(kind), kind, IndentSum(Below(s.groups)), s.Top().indent)
            && IndentSum(s.groups) == IndentSum(Below(s.groups)) + s.Top().indent > IndentSum(Below(s.groups))
  {
    var s := INITIAL.Run(ops);
    hide State.Run, State.EmitBeginGroup, LaidOutLong, Inv, Columns, KeyBracket;
    InitialColumns();
    RunColumns(INITIAL, ops);
    KeyBracketStands(s, kind);
  }
}
