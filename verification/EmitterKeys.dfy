/** A map value is laid out in long-key form exactly when its key was, whatever is written
    in between; and the settings a node changes locally. */
module EmitterKeys {
  import opened EmitterModel
  import opened EmitterLayout
  import opened EmitterSafety

  /** Group number `i` is a map that waits for the value of its entry `n / 2`. */
  ghost predicate Waits(s: State, i: nat, n: nat)
  {
    s.good && i < |s.groups| && s.groups[i].kind == Map && s.groups[i].childCount == n && n % 2 == 1
  }

  /** While a map waits for a value, writing something does not touch the group: only the
      top of the stack is ever changed. */
  ghost predicate Undisturbed(s: State, t: State, i: nat)
  {
    i < |s.groups| && i < |t.groups| && t.groups[i].longKey == s.groups[i].longKey
  }

  lemma PrepareUndisturbed(s: State, child: Child, i: nat, n: nat)
    requires Inv(s) && Waits(s, i, n)
    requires s.InFlow() ==> child != BlockSeq && child != BlockMap
    ensures var t := s.PrepareNode(child);
            |t.groups| == |s.groups| && t.groups[i] == s.groups[i] && t.good
  {
    hide Inv, State.PrepareNode, Brackets;
    assert Brackets(s, s.HasBegunNode()) by { InvBrackets(s); }
    PrepareOpens(s, child);
    DecidedWaits(s, child, i, n);
  }

  lemma InvBrackets(s: State)
    requires Inv(s)
    ensures Brackets(s, s.HasBegunNode())
  {
  }

  lemma DecidedWaits(s: State, child: Child, i: nat, n: nat)
    requires Waits(s, i, n)
    ensures var d := Decided(s, child); |d.groups| == |s.groups| && d.groups[i] == s.groups[i] && d.good
  {
  }

  /** Counting a node either leaves the waiting map alone or is its value. */
  lemma StartedUndisturbed(s: State, i: nat, n: nat)
    requires Waits(s, i, n)
    ensures var t := s.StartedNode();
            && |t.groups| == |s.groups| && t.good
            && (t.groups[i] == s.groups[i] || (i == |s.groups| - 1 && t.groups[i].childCount == n + 1))
  {
  }

  lemma GroupUndisturbed(s: State, kind: GroupType, i: nat, n: nat)
    requires Inv(s) && Waits(s, i, n)
    requires Waits(s.EmitBeginGroup(kind), i, n)
    ensures Undisturbed(s, s.EmitBeginGroup(kind), i)
  {
    hide Inv, State.PrepareNode, State.StartedNode;
    PrepareUndisturbed(s, s.NextGroupType(kind), i, n);
    StartedUndisturbed(s.PrepareNode(s.NextGroupType(kind)), i, n);
  }

  lemma ScalarUndisturbed(s: State, text: string, i: nat, n: nat)
    requires Inv(s) && Waits(s, i, n)
    requires Waits(s.PrepareNode(Scalar).Put(Content(text)).StartedScalar(), i, n)
    ensures Undisturbed(s, s.PrepareNode(Scalar).Put(Content(text)).StartedScalar(), i)
  {
    hide Inv, State.PrepareNode, State.StartedNode;
    PrepareUndisturbed(s, Scalar, i, n);
    StartedUndisturbed(s.PrepareNode(Scalar).Put(Content(text)), i, n);
  }

  lemma ContentUndisturbed(s: State, op: Op, i: nat, n: nat)
    requires Inv(s) && Waits(s, i, n) && Waits(s.Step(op), i, n)
    requires op.WriteScalar? || op.WriteAlias?
    ensures Undisturbed(s, s.Step(op), i)
  {
    hide Inv, State.PrepareNode, State.StartedScalar, State.Put;
    match op
    case WriteScalar(text, long) =>
      var s1 := if long then s.SetLocal(MapKeyFormat, s.settings.(longKeys := true)) else s;
      SameInv(s, s1);
      ScalarUndisturbed(s1, text, i, n);
    case WriteAlias(text, valid) =>
      if !s.hasAnchor && !s.hasTag && valid {
        ScalarUndisturbed(s, text, i, n);
      }
  }

  lemma BesideUndisturbed(s: State, op: Op, i: nat, n: nat)
    requires Inv(s) && Waits(s, i, n) && Waits(s.Step(op), i, n)
    requires op.LineBreak? || op.WriteComment? || op.WriteAnchor? || op.WriteTag?
    ensures Undisturbed(s, s.Step(op), i)
  {
    hide Inv, State.PrepareNode, State.Put;
    if op.LineBreak? || op.WriteComment? {
      PrepareUndisturbed(s, NoNode, i, n);
      PutSame(s.PrepareNode(NoNode));
    } else {
      PrepareUndisturbed(s, Property, i, n);
      PutSame(s.PrepareNode(Property));
    }
  }

  lemma PutSame(s: State)
    ensures forall t: Token :: s.Put(t).groups == s.groups && s.Put(t).good == s.good
    ensures forall t: Token, u: Token :: s.Put(u).Put(t).groups == s.groups && s.Put(u).Put(t).good == s.good
  {
  }

  lemma EndedPops(s: State, kind: GroupType)
    requires s.groups != []
    ensures s.EndedGroup(kind).groups == Below(s.groups)
  {
    hide Restore;
  }

  lemma EndPops(s: State, kind: GroupType)
    requires s.good && s.groups != []
    ensures s.EmitEndGroup(kind).groups == Below(s.groups)
  {
    if s.Top().flow == Flow || s.Top().childCount == 0 {
      FlowEndPops(s, kind);
    } else {
      hide State.CloseFlow, State.EndedGroup, State.ForceFlow;
      EndedPops(s, kind);
    }
  }

  lemma FlowEndPops(s: State, kind: GroupType)
    requires s.good && s.groups != [] && (s.Top().flow == Flow || s.Top().childCount == 0)
    ensures s.EmitEndGroup(kind).groups == Below(s.groups)
  {
    hide State.CloseFlow, State.EndedGroup, Forced, State.EmitEndGroup;
    FlowEndForm(s, kind);
    ForcedIs(s);
    var t := Forced(s);
    CloseFlowWrites(t, kind, s.Top().flow == Block);
    SameBook(t, t.CloseFlow(kind, s.Top().flow == Block), Closing(t, kind, s.Top().flow == Block));
    EndedPops(t.CloseFlow(kind, s.Top().flow == Block), kind);
  }

  lemma EndUndisturbed(s: State, kind: GroupType, i: nat, n: nat)
    requires Inv(s) && Waits(s, i, n) && Waits(s.EmitEndGroup(kind), i, n)
    ensures Undisturbed(s, s.EmitEndGroup(kind), i)
  {
    hide Inv, State.EmitEndGroup;
    EndPops(s, kind);
  }

  lemma StepUndisturbed(s: State, op: Op, i: nat, n: nat)
    requires Inv(s) && Waits(s, i, n) && Waits(s.Step(op), i, n)
    ensures Undisturbed(s, s.Step(op), i)
  {
    hide Inv, State.EmitBeginGroup, State.EmitEndGroup;
    match op
    case BeginDoc =>
    case EndDoc =>
    case BeginGroup(kind) => GroupUndisturbed(s, kind, i, n);
    case EndGroup(kind) => EndUndisturbed(s, kind, i, n);
    case WriteScalar(_, _) => ContentUndisturbed(s, op, i, n);
    case WriteAlias(_, _) => ContentUndisturbed(s, op, i, n);
    case LineBreak => BesideUndisturbed(s, op, i, n);
    case WriteComment(_) => BesideUndisturbed(s, op, i, n);
    case WriteAnchor(_, _) => BesideUndisturbed(s, op, i, n);
    case WriteTag(_, _) => BesideUndisturbed(s, op, i, n);
    case _ => SettingOnly(s, op);
  }

  /** A map that waits for a value through a whole stretch of calls, however much nested
      output they write, still has the layout its key gave it. */
  lemma {:induction false} StretchUndisturbed(s: State, ops: seq<Op>, i: nat, n: nat)
    requires Inv(s)
    requires forall k | 0 <= k <= |ops| :: Waits(s.Run(ops[..k]), i, n)
    ensures Undisturbed(s, s.Run(ops), i)
    decreases |ops|
  {
    assert s.Run(ops[..0]) == s;
    if ops != [] {
      var t := s.Step(ops[0]);
      forall k | 0 <= k <= |ops| - 1 ensures t.Run(ops[1..][..k]) == s.Run(ops[..k + 1]) {
        assert ops[..k + 1][1..] == ops[1..][..k];
      }
      assert t.Run(ops[1..][..0]) == t;
      StepSound(s, ops[0]);
      StepUndisturbed(s, ops[0], i, n);
      StretchUndisturbed(t, ops[1..], i, n);
    }
  }

  /** Whether the entry at hand is laid out in the long form when `op` writes its key. */
  ghost predicate LongBy(s: State, op: Op)
    requires s.groups != []
  {
    match op
    case WriteScalar(_, long) => long || LaidOutLong(s, Scalar)
    case WriteAlias(_, _) => LaidOutLong(s, Scalar)
    case BeginGroup(kind) => LaidOutLong(s, s.NextGroupType(kind))
    case _ => false
  }

  ghost predicate AtKey(s: State) {
    s.good && s.groups != [] && s.Top().kind == Map && s.Top().childCount % 2 == 0
  }

  /** Counting a key makes the layout decided for it that of the whole entry. */
  lemma KeyCounted(s: State, child: Child, t: State)
    requires AtKey(s) && t == WithOutput(Decided(s, child), t)
    ensures var u := t.StartedNode(); var i := |s.groups| - 1;
            Waits(u, i, s.Top().childCount + 1) && |u.groups| == i + 1
            && u.groups[i].longKey == LaidOutLong(s, child)
  {
    hide LaidOutLong;
    DecidedTop(s, child);
  }

  lemma GroupKey(s: State, kind: GroupType)
    requires Inv(s) && AtKey(s)
    ensures var u := s.EmitBeginGroup(kind); var i := |s.groups| - 1;
            Waits(u, i, s.Top().childCount + 1) && u.groups[i].longKey == LaidOutLong(s, s.NextGroupType(kind))
  {
    hide State.PrepareNode, State.StartedNode, LaidOutLong, Decided, Shape, Unmatched;
    PrepareOpens(s, s.NextGroupType(kind));
    KeyCounted(s, s.NextGroupType(kind), s.PrepareNode(s.NextGroupType(kind)));
  }

  lemma ScalarKey(s: State, text: string)
    requires Inv(s) && AtKey(s)
    ensures var u := s.PrepareNode(Scalar).Put(Content(text)).StartedScalar(); var i := |s.groups| - 1;
            Waits(u, i, s.Top().childCount + 1) && u.groups[i].longKey == LaidOutLong(s, Scalar)
  {
    hide State.PrepareNode, State.StartedNode, LaidOutLong, Decided, Shape, Unmatched, Restore;
    PrepareOpens(s, Scalar);
    KeyCounted(s, Scalar, s.PrepareNode(Scalar).Put(Content(text)));
  }

  lemma KeyDecides(s: State, op: Op)
    requires Inv(s) && AtKey(s) && s.Step(op).good
    requires op.WriteScalar? || op.WriteAlias? || op.BeginGroup?
    ensures var u := s.Step(op); var i := |s.groups| - 1;
            Waits(u, i, s.Top().childCount + 1) && u.groups[i].longKey == LongBy(s, op)
  {
    hide Inv, State.PrepareNode, State.StartedScalar, State.Put, State.EmitBeginGroup;
    match op
    case WriteScalar(text, long) =>
      var s1 := if long then s.SetLocal(MapKeyFormat, s.settings.(longKeys := true)) else s;
      SameInv(s, s1);
      ScalarKey(s1, text);
    case WriteAlias(text, valid) => ScalarKey(s, text);
    case BeginGroup(kind) => GroupKey(s, kind);
  }

  /** The value of a map entry is laid out in the long form exactly when its key was: `op`
      writes or starts the key, `ops` is any stretch of calls during which the map waits,
      and `child` is whatever is written as the value. */
  lemma ValueLaidOutLikeKey(s: State, op: Op, ops: seq<Op>, child: Child)
    requires Inv(s) && AtKey(s) && (op.WriteScalar? || op.WriteAlias? || op.BeginGroup?)
    requires forall k | 0 <= k <= |ops| ::
               Waits(s.Step(op).Run(ops[..k]), |s.groups| - 1, s.Top().childCount + 1)
    requires |s.Step(op).Run(ops).groups| == |s.groups|
    ensures LaidOutLong(s.Step(op).Run(ops), child) == LongBy(s, op)
  {
    hide State.Step, Inv, State.Run, LongBy;
    var t := s.Step(op);
    assert Waits(t.Run(ops[..0]), |s.groups| - 1, s.Top().childCount + 1);
    RunNothing(t, ops);
    assert Waits(t.Run(ops[..|ops|]), |s.groups| - 1, s.Top().childCount + 1) && ops[..|ops|] == ops;
    assert Inv(t) by {
      assert Sound(s) by { InvNotTripped(s); }
      StepSound(s, op);
    }
    KeyDecides(s, op);
    StretchUndisturbed(t, ops, |s.groups| - 1, s.Top().childCount + 1);
  }

  lemma RunNothing(s: State, ops: seq<Op>)
    ensures s.Run(ops[..0]) == s
  {
  }

  // ---- the question mark of flow maps

  lemma CountingWritesNothing(s: State)
    ensures s.StartedNode().out == s.out && s.StartedScalar().out == s.out
  {
    hide Restore, State.WithTop;
    if s.groups != [] { WithTopSame(s); }
    assert s.StartedNode().out == s.out;
    hide State.StartedNode;
  }

  lemma WithTopSame(s: State)
    requires s.groups != []
    ensures forall g :: s.WithTop(g) == s.(groups := s.WithTop(g).groups)
  {
  }

  /** A scalar writes its lead and its text. */
  lemma ScalarWrites(s: State, text: string)
    requires Inv(s) && s.groups != []
    ensures Structural(s.PrepareNode(Scalar).Put(Content(text)).StartedScalar().out) ==
            Structural(s.out) + Lead(s, Scalar) + [Content(text)]
  {
    hide Inv, State.PrepareNode, State.StartedScalar, Structural, Decided, State.Put, Wrote, Lead;
    var p := s.PrepareNode(Scalar);
    var t := p.Put(Content(text));
    PrepareWrites(s, Scalar);
    PutWrites(p, Content(text));
    WroteThen(Decided(s, Scalar), p, t, Lead(s, Scalar), [Content(text)]);
    WroteStructure(Decided(s, Scalar), t, Lead(s, Scalar) + [Content(text)]);
    DecidedGroups(s, Scalar);
    CountingWritesNothing(t);
    assert Structural(s.out) + (Lead(s, Scalar) + [Content(text)]) ==
           Structural(s.out) + Lead(s, Scalar) + [Content(text)];
  }

  lemma WroteStructure(s: State, t: State, ts: seq<Token>)
    requires Wrote(s, t, ts)
    ensures Structural(t.out) == Structural(s.out) + ts
  {
  }

  /** What stands in front of a key of a flow map. */
  function FlowKeyLead(s: State, long: bool): seq<Token>
    requires s.groups != []
  {
    var first := if s.Top().childCount == 0 then Open(Map) else Comma;
    if s.HasBegunNode() then [] else if long then [first, Question] else [first]
  }

  lemma FlowKeyLeadIs(s: State)
    requires AtKey(s) && s.Top().flow == Flow
    ensures Lead(s, Scalar) == FlowKeyLead(s, LaidOutLong(s, Scalar))
  {
  }

  /** Asking for a long key changes the layout of the key and nothing in front of it. */
  lemma AskedFor(s: State, long: bool)
    requires AtKey(s)
    ensures var s1 := if long then s.SetLocal(MapKeyFormat, s.settings.(longKeys := true)) else s;
            && OnlySettings(s, s1)
            && LaidOutLong(s1, Scalar) == (long || LaidOutLong(s, Scalar))
            && forall b :: FlowKeyLead(s1, b) == FlowKeyLead(s, b)
  {
  }

  lemma SettingsKeep(s: State, t: State)
    requires OnlySettings(s, t)
    ensures t.groups == s.groups && t.out == s.out && t.good == s.good
    ensures Inv(s) ==> Inv(t)
  {
    if Inv(s) { SameInv(s, t); }
  }

  /** A scalar key of a flow map: the entry is laid out as asked for, but the call writes the
      question mark of the long form only when nothing of the key, no anchor, tag, comment or
      line break, was written before. */
  lemma FlowScalarKeyWrites(s: State, text: string, long: bool)
    requires Inv(s) && AtKey(s) && s.Top().flow == Flow
    ensures var u := s.EmitScalar(text, long); var asked := long || LaidOutLong(s, Scalar);
            && Waits(u, |s.groups| - 1, s.Top().childCount + 1)
            && u.groups[|s.groups| - 1].longKey == asked
            && Structural(u.out) == Structural(s.out) + FlowKeyLead(s, asked) + [Content(text)]
  {
    var s1 := if long then s.SetLocal(MapKeyFormat, s.settings.(longKeys := true)) else s;
    AskedFor(s, long);
    SettingsKeep(s, s1);
    hide Inv, State.PrepareNode, State.StartedScalar, Structural, State.Put, Lead, FlowKeyLead, LaidOutLong,
      State.SetLocal, OnlySettings;
    FlowKeyLeadIs(s1);
    ScalarKey(s1, text);
    ScalarWrites(s1, text);
  }

  // ---- properties of later documents

  lemma TopNodeForm(s: State, child: Child)
    requires s.groups == [] && child != NoNode
    ensures var t := if s.docCount > 0 && s.col > 0 then s.EmitBeginDoc() else s;
            s.PrepareNode(child) == if child == BlockSeq || child == BlockMap then t.BreakIf(t.HasBegunNode())
                                    else t.SpaceOrIndentTo(t.HasBegunContent(), 0)
  {
    hide State.SpaceOrIndentTo, State.BreakIf, State.EmitBeginDoc;
  }

  /** An anchor or tag in front of any document but the first one: the node after it is an
      error exactly when something stands on its line, which the property itself does. */
  lemma PropertyOfLaterDocument(s: State, child: Child)
    requires s.good && s.groups == [] && s.HasBegunContent() && child != NoNode
    ensures s.PrepareNode(child).good <==> s.docCount == 0 || s.col == 0
  {
    BeginDocFails(s);
    TopNodeForm(s, child);
    hide State.SpaceOrIndentTo, State.BreakIf, Wrote, State.EmitBeginDoc, State.PrepareNode;
    var t := if s.docCount > 0 && s.col > 0 then s.EmitBeginDoc() else s;
    SpaceIsQuiet(t, t.HasBegunContent(), 0);
    BreakIsQuiet(t, t.HasBegunNode());
    SameGood(t, s.PrepareNode(child), []);
  }

  lemma BeginDocFails(s: State)
    requires s.good && s.HasBegunContent()
    ensures !s.EmitBeginDoc().good
  {
  }

  lemma SameGood(s: State, t: State, ts: seq<Token>)
    requires Wrote(s, t, ts)
    ensures t.good == s.good
  {
  }

  // ---- local settings

  /** The first change of a setting among pending changes. */
  function FirstSaved(which: Setting, changes: seq<Change>): seq<Settings>
    decreases |changes|
  {
    if changes == [] then []
    else if changes[0].which == which then [changes[0].saved]
    else FirstSaved(which, changes[1..])
  }

  /** The last change of a setting among pending changes. */
  function LastSaved(which: Setting, changes: seq<Change>): seq<Settings>
    decreases |changes|
  {
    if changes == [] then []
    else
      var later := LastSaved(which, changes[1..]);
      if later != [] then later else if changes[0].which == which then [changes[0].saved] else []
  }

  predicate SameSetting(which: Setting, a: Settings, b: Settings)
  {
    match which
    case SeqFormat => a.seqFormat == b.seqFormat
    case MapFormat => a.mapFormat == b.mapFormat
    case MapKeyFormat => a.longKeys == b.longKeys
    case IndentWidth => a.indent == b.indent
  }

  /** Taking pending changes back leaves each setting at the value from before its last
      change. */
  lemma {:induction false} RestoreGivesLastSaved(st: Settings, which: Setting, changes: seq<Change>)
    ensures var last := LastSaved(which, changes);
            SameSetting(which, Restore(st, changes), if last == [] then st else last[0])
    decreases |changes|
  {
    if changes != [] {
      RestoreGivesLastSaved(st.With(changes[0].which, changes[0].saved), which, changes[1..]);
    }
  }

  /** So a setting is back at the value from before all of them exactly when the first and
      the last change of it saved the same value. */
  lemma LocalSettingIsUndoneExactly(st: Settings, which: Setting, changes: seq<Change>)
    requires FirstSaved(which, changes) != []
    ensures LastSaved(which, changes) != []
    ensures SameSetting(which, Restore(st, changes), FirstSaved(which, changes)[0])
       <==> SameSetting(which, LastSaved(which, changes)[0], FirstSaved(which, changes)[0])
  {
    RestoreGivesLastSaved(st, which, changes);
    SavedBoth(which, changes);
  }

  lemma {:induction false} SavedBoth(which: Setting, changes: seq<Change>)
    ensures FirstSaved(which, changes) != [] <==> LastSaved(which, changes) != []
    decreases |changes|
  {
    if changes != [] {
      SavedBoth(which, changes[1..]);
    }
  }

  /** Two local indents, one after the other, for a document of one scalar. */
  function IndentedTwice(): State
  {
    INITIAL.Step(LocalIndent(4)).Step(LocalIndent(8))
  }

  /** An indent set twice for one scalar stays changed after it. */
  lemma IndentSetTwiceStays()
    ensures IndentedTwice().Step(WriteScalar("a", false)).settings.indent == 4
  {
  }
}
