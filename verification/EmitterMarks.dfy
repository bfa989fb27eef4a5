/** The question mark of map entries in the long form: when an entry is laid out long and its
    question mark is in the output, over any stretch of calls in front of its key. */
module EmitterMarks {
  import opened EmitterModel
  import opened EmitterLayout
  import opened EmitterSafety
  import opened EmitterKeys
  import opened EmitterTree

  /** Whether the last mark of a structure that is not content is a question mark. */
  predicate QuestionLast(ts: seq<Token>)
    decreases |ts|
  {
    ts != [] && (if ts[|ts| - 1].Content? then QuestionLast(ts[..|ts| - 1]) else ts[|ts| - 1] == Question)
  }

  lemma QuestionLastPut(ts: seq<Token>, t: Token)
    ensures QuestionLast(ts + [t]) == if t.Content? then QuestionLast(ts) else t == Question
  {
    assert (ts + [t])[..|ts|] == ts;
  }

  lemma QuestionLastAfter(ts: seq<Token>, lead: seq<Token>, mark: seq<Token>)
    requires mark == [] || (|mark| == 1 && mark[0].Content?)
    ensures lead == [] ==> QuestionLast(ts + lead + mark) == QuestionLast(ts)
    ensures lead != [] && !lead[|lead| - 1].Content? ==>
              QuestionLast(ts + lead + mark) == (lead[|lead| - 1] == Question)
  {
    var front := ts + lead;
    if lead == [] {
      assert front == ts;
    } else {
      assert front == ts + lead[..|lead| - 1] + [lead[|lead| - 1]];
      QuestionLastPut(ts + lead[..|lead| - 1], lead[|lead| - 1]);
    }
    if mark == [] {
      assert front + mark == front;
    } else {
      assert mark == [mark[0]];
      QuestionLastPut(front, mark[0]);
    }
  }

  /** What may be written or set in front of a key. */
  predicate BesideKey(op: Op)
  {
    op.LineBreak? || op.WriteComment? || op.WriteAnchor? || op.WriteTag? || Sets(op)
  }

  ghost predicate Marked(s: State) { QuestionLast(Structural(s.out)) }

  /** `u` is still in front of the key that `s` is in front of. */
  ghost predicate SameKey(s: State, u: State)
  {
    && s.groups != [] && |u.groups| == |s.groups|
    && Below(u.groups) == Below(s.groups)
    && u.Top() == s.Top().(longKey := u.Top().longKey)
  }

  ghost predicate AtFlowKey(s: State) { Inv(s) && AtKey(s) && s.Top().flow == Flow }

  ghost predicate AtBlockKey(s: State) { Inv(s) && AtKey(s) && s.Top().flow == Block }

  // ---- one call

  /** A preparation at a key, and what is written behind it. */
  lemma Prepared(s: State, child: Child, t: State, mark: seq<Token>)
    requires AtKey(s) && (s.Top().flow == Flow ==> child != BlockSeq && child != BlockMap)
    requires Wrote(s.PrepareNode(child), t, mark)
    requires mark == [] || (|mark| == 1 && mark[0].Content?)
    ensures t == WithOutput(Decided(s, child), t) && SameKey(s, t) && t.Top().longKey == LaidOutLong(s, child)
    ensures Marked(t) == if Lead(s, child) == [] then Marked(s)
                         else Lead(s, child)[|Lead(s, child)| - 1] == Question
  {
    hide State.PrepareNode, Structural, LaidOutLong, Wrote, QuestionLast;
    var p := s.PrepareNode(child);
    PrepareWrites(s, child);
    WroteParts(Decided(s, child), p, Lead(s, child));
    WroteParts(p, t, mark);
    DecidedGroups(s, child);
    DecidedTop(s, child);
    KeyLead(s, child);
    QuestionLastAfter(Structural(s.out), Lead(s, child), mark);
  }

  /** The marks in front of a key. */
  lemma KeyLead(s: State, child: Child)
    requires AtKey(s)
    ensures var lead := Lead(s, child);
            && (lead != [] ==> !lead[|lead| - 1].Content?)
            && (s.Top().flow == Flow ==>
                  if s.HasBegunNode() then lead == []
                  else lead != [] && (lead[|lead| - 1] == Question <==> LaidOutLong(s, child)))
            && (s.Top().flow == Block ==>
                  lead == if LaidOutLong(s, child) && child != NoNode && !s.HasBegunContent() then [Question] else [])
  {
    hide LaidOutLong;
  }

  /** What a call in front of a key makes room for. */
  function ChildOf(op: Op): Child { if op.WriteAnchor? || op.WriteTag? then Property else NoNode }

  function MarkOf(op: Op): seq<Token>
  {
    match op
    case WriteAnchor(text, _) => [Content(text)]
    case WriteTag(text, _) => [Content(text)]
    case _ => []
  }

  /** After the preparation and what is written behind it, before the flag is set. */
  function Besides(s: State, op: Op): State
  {
    var p := s.PrepareNode(ChildOf(op));
    match op
    case LineBreak => p.Put(Newline)
    case WriteComment(text) => (if p.col > 0 then p.Put(Pad(2)) else p).Put(Remark(text))
    case WriteAnchor(text, _) => p.Put(Content(text))
    case WriteTag(text, _) => p.Put(Content(text))
    case _ => p
  }

  lemma BesideWrites(s: State, op: Op)
    requires BesideKey(op) && !Sets(op)
    ensures Wrote(s.PrepareNode(ChildOf(op)), Besides(s, op), MarkOf(op))
  {
    hide Wrote, State.PrepareNode, State.Put;
    var p := s.PrepareNode(ChildOf(op));
    match op
    case LineBreak => PutWrites(p, Newline);
    case WriteAnchor(text, _) => PutWrites(p, Content(text));
    case WriteTag(text, _) => PutWrites(p, Content(text));
    case WriteComment(text) => RemarkWrites(p, text);
  }

  lemma RemarkWrites(p: State, text: string)
    ensures Wrote(p, (if p.col > 0 then p.Put(Pad(2)) else p).Put(Remark(text)), [])
  {
    hide Wrote, State.Put;
    var q := if p.col > 0 then p.Put(Pad(2)) else p;
    NothingWrites(p);
    PutWrites(p, Pad(2));
    PutWrites(q, Remark(text));
    QuietThen(p, q, q.Put(Remark(text)), []);
  }

  /** Behind the text only flags are set. */
  ghost predicate Flagged(t: State, u: State, property: bool)
  {
    && u == t.(hasAnchor := u.hasAnchor, hasTag := u.hasTag, hasNonContent := u.hasNonContent)
    && u.HasBegunNode()
    && (u.HasBegunContent() <==> t.HasBegunContent() || property)
  }

  lemma SomeFlag(t: State)
    ensures Flagged(t, t.(hasAnchor := true), true) && Flagged(t, t.(hasTag := true), true)
    ensures Flagged(t, t.(hasNonContent := true), false)
  {
  }

  lemma AnchorFlags(s: State, text: string, valid: bool)
    requires s.good && s.EmitAnchor(text, valid).good
    ensures s.EmitAnchor(text, valid) == s.PrepareNode(Property).Put(Content(text)).(hasAnchor := true)
  {
    hide State.PrepareNode, State.Put;
  }

  lemma TagFlags(s: State, text: string, valid: bool)
    requires s.good && s.EmitTag(text, valid).good
    ensures s.EmitTag(text, valid) == s.PrepareNode(Property).Put(Content(text)).(hasTag := true)
  {
    hide State.PrepareNode, State.Put;
  }

  lemma BesideFlags(s: State, op: Op)
    requires s.good && BesideKey(op) && !Sets(op) && s.Step(op).good
    ensures Flagged(Besides(s, op), s.Step(op), ChildOf(op) == Property)
  {
    hide State.PrepareNode, State.Put, State.EmitAnchor, State.EmitTag, Flagged;
    SomeFlag(Besides(s, op));
    match op
    case WriteAnchor(text, valid) => AnchorFlags(s, text, valid);
    case WriteTag(text, valid) => TagFlags(s, text, valid);
    case LineBreak =>
    case WriteComment(text) =>
  }

  /** One call in front of a key: it decides the layout of the entry and writes the lead. */
  lemma BesideStep(s: State, op: Op)
    requires AtKey(s) && BesideKey(op) && !Sets(op) && s.Step(op).good
    ensures var u := s.Step(op);
            && AtKey(u) && SameKey(s, u) && u.HasBegunNode()
            && (u.HasBegunContent() <==> s.HasBegunContent() || ChildOf(op) == Property)
            && u.Top().longKey == LaidOutLong(s, ChildOf(op)) && u.settings == s.settings
            && Marked(u) == if Lead(s, ChildOf(op)) == [] then Marked(s)
                            else Lead(s, ChildOf(op))[|Lead(s, ChildOf(op))| - 1] == Question
  {
    hide Wrote, State.PrepareNode, State.Step, Lead, LaidOutLong, Decided, Structural, QuestionLast, Besides;
    BesideFlags(s, op);
    BesideWrites(s, op);
    DecidedGroups(s, ChildOf(op));
    Prepared(s, ChildOf(op), Besides(s, op), MarkOf(op));
  }

  lemma SettingStepKeeps(s: State, op: Op)
    requires AtKey(s) && Sets(op)
    ensures var u := s.Step(op);
            AtKey(u) && SameKey(s, u) && u.groups == s.groups && u.out == s.out
            && u.HasBegunNode() == s.HasBegunNode() && u.HasBegunContent() == s.HasBegunContent()
  {
    SettingOnly(s, op);
    hide State.Step;
  }

  /** Something of the key is written, and its entry is not laid out long. */
  predicate BegunShort(s: State) { s.groups != [] && s.HasBegunNode() && !s.Top().longKey }

  /** A call in front of a key of a flow map: the first that writes decides about the mark,
      later ones may make the layout long but write no mark. */
  lemma FlowBeside(s: State, op: Op)
    requires AtFlowKey(s) && BesideKey(op) && s.Step(op).good
    ensures var u := s.Step(op);
            && AtFlowKey(u) && SameKey(s, u)
            && (s.HasBegunNode() ==> u.HasBegunNode() && Marked(u) == Marked(s) && (BegunShort(u) ==> BegunShort(s)))
            && (!s.HasBegunNode() && u.HasBegunNode() ==> Marked(u) == !BegunShort(u))
  {
    assert Sound(s) by { InvNotTripped(s); }
    StepSound(s, op);
    hide Inv, State.Step, Structural, QuestionLast;
    if Sets(op) {
      SettingStepKeeps(s, op);
    } else {
      BesideStep(s, op);
      KeyLead(s, ChildOf(op));
    }
  }

  /** Once a property is written, the layout is long and the mark is there. */
  ghost predicate LongAndMarked(s: State)
  {
    s.groups != [] && (s.HasBegunContent() ==> s.Top().longKey && Marked(s))
  }

  /** In a block map a comment or line break writes no mark, and the first property makes
      the layout long and writes it. */
  lemma BlockBeside(s: State, op: Op)
    requires AtBlockKey(s) && BesideKey(op) && s.Step(op).good
    requires LongAndMarked(s)
    ensures AtBlockKey(s.Step(op)) && SameKey(s, s.Step(op)) && LongAndMarked(s.Step(op))
  {
    assert Sound(s) by { InvNotTripped(s); }
    StepSound(s, op);
    hide Inv, State.Step, Structural, QuestionLast;
    if Sets(op) {
      SettingStepKeeps(s, op);
    } else {
      BesideStep(s, op);
      KeyLead(s, ChildOf(op));
    }
  }

  // ---- the key

  predicate WritesKey(op: Op) { op.WriteScalar? || op.WriteAlias? || op.BeginGroup? }

  /** The marks with which a key is written; a scalar may ask for the long form. */
  lemma KeyMarks(s: State, op: Op)
    requires Inv(s) && AtKey(s) && WritesKey(op) && s.Step(op).good
    requires s.HasBegunContent() && s.Top().flow == Block ==> s.Top().longKey
    ensures Marked(s.Step(op)) ==
            if s.Top().flow == Flow then (if s.HasBegunNode() then Marked(s) else LongBy(s, op))
            else if LongBy(s, op) && !s.HasBegunContent() then true else Marked(s)
  {
    hide Inv, State.PrepareNode, State.StartedScalar, State.EmitBeginGroup, State.Put, Structural, QuestionLast, Wrote,
      Lead, LaidOutLong, State.SetLocal, Decided, OnlySettings;
    match op
    case WriteScalar(text, long) =>
      var s1 := if long then s.SetLocal(MapKeyFormat, s.settings.(longKeys := true)) else s;
      AskedFor(s, long);
      SettingsKeep(s, s1);
      SameMarks(s, s1);
      ContentMarks(s1, text);
    case WriteAlias(text, valid) => ContentMarks(s, text);
    case BeginGroup(kind) => GroupMarks(s, kind);
  }

  lemma GroupMarks(s: State, kind: GroupType)
    requires AtKey(s) && (s.HasBegunContent() && s.Top().flow == Block ==> s.Top().longKey)
    ensures var long := LaidOutLong(s, s.NextGroupType(kind));
            Marked(s.EmitBeginGroup(kind)) ==
            if s.Top().flow == Flow then (if s.HasBegunNode() then Marked(s) else long)
            else if long && !s.HasBegunContent() then true else Marked(s)
  {
    hide State.PrepareNode, State.StartedGroup, Structural, QuestionLast, Wrote, Lead, LaidOutLong, Decided;
    var child := s.NextGroupType(kind);
    var p := s.PrepareNode(child);
    NothingWrites(p);
    Prepared(s, child, p, []);
    KeyLead(s, child);
    GroupWritesNothing(p, kind);
  }

  lemma SameMarks(s: State, t: State)
    requires OnlySettings(s, t)
    ensures t.HasBegunNode() == s.HasBegunNode() && t.HasBegunContent() == s.HasBegunContent()
    ensures t.groups == s.groups && t.good == s.good && Marked(t) == Marked(s)
  {
  }

  lemma GroupWritesNothing(s: State, kind: GroupType)
    ensures s.StartedGroup(kind).out == s.out
  {
    CountingWritesNothing(s);
    hide State.StartedNode;
  }

  lemma ContentMarks(s: State, text: string)
    requires AtKey(s)
    ensures Marked(s.PrepareNode(Scalar).Put(Content(text)).StartedScalar()) ==
            if s.Top().flow == Flow then (if s.HasBegunNode() then Marked(s) else LaidOutLong(s, Scalar))
            else if LaidOutLong(s, Scalar) && !s.HasBegunContent() then true else Marked(s)
  {
    hide State.PrepareNode, State.StartedScalar, State.Put, Structural, QuestionLast, Wrote, Lead, LaidOutLong;
    var t := s.PrepareNode(Scalar).Put(Content(text));
    PutWrites(s.PrepareNode(Scalar), Content(text));
    Prepared(s, Scalar, t, [Content(text)]);
    KeyLead(s, Scalar);
    CountingWritesNothing(t);
  }

  // ---- a whole entry

  ghost predicate ShortAtSomeTime(s: State, ops: seq<Op>)
  {
    exists k :: 0 <= k <= |ops| && BegunShort(s.Run(ops[..k]))
  }

  lemma ShortLater(s: State, ops: seq<Op>, op: Op)
    ensures ShortAtSomeTime(s, ops + [op]) <==> ShortAtSomeTime(s, ops) || BegunShort(s.Run(ops + [op]))
  {
    hide BegunShort, State.Run;
    var all := ops + [op];
    assert all[..|all|] == all;
    forall k | 0 <= k <= |ops| ensures all[..k] == ops[..k] {
    }
    if ShortAtSomeTime(s, ops) {
      var k :| 0 <= k <= |ops| && BegunShort(s.Run(ops[..k]));
      assert BegunShort(s.Run(all[..k]));
    }
    if BegunShort(s.Run(all)) {
      assert BegunShort(s.Run(all[..|all|]));
    }
  }

  lemma ShortNow(s: State, ops: seq<Op>)
    ensures BegunShort(s.Run(ops)) ==> ShortAtSomeTime(s, ops)
  {
    assert ops[..|ops|] == ops;
  }

  lemma ShortNone(s: State)
    ensures ShortAtSomeTime(s, []) <==> BegunShort(s)
  {
    var none: seq<Op> := [];
    assert none[..0] == none;
    RunNone(s);
  }

  lemma RunLast(s: State, ops: seq<Op>, op: Op)
    ensures s.Run(ops + [op]) == s.Run(ops).Step(op)
    ensures s.Run(ops + [op]).good ==> s.Run(ops).good
  {
    RunConcat(s, ops, [op]);
    RunOne(s.Run(ops), op);
    if !s.Run(ops).good { StoppedStep(s.Run(ops), op); }
  }

  lemma SameKeyThen(s: State, t: State, u: State)
    requires SameKey(s, t) && SameKey(t, u)
    ensures SameKey(s, u)
  {
  }

  lemma NotBegun(s: State)
    ensures BegunShort(s) ==> s.HasBegunNode()
  {
  }

  lemma FlowKeyStarts(s: State)
    requires AtFlowKey(s) && !s.HasBegunNode()
    ensures SameKey(s, s) && !BegunShort(s)
  {
    hide Inv;
  }

  lemma BlockKeyStarts(s: State)
    requires AtBlockKey(s) && !s.HasBegunNode()
    ensures SameKey(s, s) && LongAndMarked(s)
  {
    hide Inv, Marked;
  }

  /** Calls in front of a key of a flow map. */
  lemma {:induction false} FlowStretch(s: State, ops: seq<Op>)
    requires AtFlowKey(s) && !s.HasBegunNode()
    requires (forall i | 0 <= i < |ops| :: BesideKey(ops[i])) && s.Run(ops).good
    ensures var u := s.Run(ops);
            && AtFlowKey(u) && SameKey(s, u)
            && (if u.HasBegunNode() then Marked(u) <==> !ShortAtSomeTime(s, ops) else !ShortAtSomeTime(s, ops))
    decreases |ops|
  {
    hide *;
    FlowKeyStarts(s);
    if ops == [] {
      RunNone(s);
      ShortNone(s);
    } else {
      var front, last := ops[..|ops| - 1], ops[|ops| - 1];
      assert ops == front + [last];
      RunLast(s, front, last);
      FlowStretch(s, front);
      FlowBeside(s.Run(front), last);
      SameKeyThen(s, s.Run(front), s.Run(ops));
      NotBegun(s.Run(ops));
      ShortNow(s, front);
      ShortLater(s, front, last);
    }
  }

  /** Calls in front of a key of a block map. */
  lemma {:induction false} BlockStretch(s: State, ops: seq<Op>)
    requires AtBlockKey(s) && !s.HasBegunNode()
    requires (forall i | 0 <= i < |ops| :: BesideKey(ops[i])) && s.Run(ops).good
    ensures AtBlockKey(s.Run(ops)) && SameKey(s, s.Run(ops)) && LongAndMarked(s.Run(ops))
    decreases |ops|
  {
    hide *;
    BlockKeyStarts(s);
    if ops == [] {
      RunNone(s);
    } else {
      var front, last := ops[..|ops| - 1], ops[|ops| - 1];
      assert ops == front + [last];
      RunLast(s, front, last);
      BlockStretch(s, front);
      BlockBeside(s.Run(front), last);
      SameKeyThen(s, s.Run(front), s.Run(ops));
    }
  }

  /** An entry of a flow map, from in front of its key: `ops` are the comments, line breaks,
      properties and settings in front of the key and `op` writes or starts the key. The entry
      is laid out long without its question mark exactly when `op` finds or asks for the long
      form and something of the key was written at a time when the layout was not long. */
  lemma FlowMarkMissingExactly(s: State, ops: seq<Op>, op: Op)
    requires AtFlowKey(s) && !s.HasBegunNode()
    requires (forall i | 0 <= i < |ops| :: BesideKey(ops[i])) && WritesKey(op) && s.Run(ops + [op]).good
    ensures s.Run(ops).groups != [] && |s.Run(ops + [op]).groups| >= |s.groups|
    ensures s.Run(ops + [op]).groups[|s.groups| - 1].longKey && !Marked(s.Run(ops + [op]))
       <==> LongBy(s.Run(ops), op) && ShortAtSomeTime(s, ops)
  {
    hide Inv, Marked, State.Run, State.Step, BesideKey, LongBy, ShortAtSomeTime, State.HasBegunNode;
    RunLast(s, ops, op);
    FlowStretch(s, ops);
    KeyMarks(s.Run(ops), op);
    KeyDecides(s.Run(ops), op);
  }

  // ---- the same over the calls alone

  /** Whether long keys are set after settings and other calls in front of a key. */
  predicate KeysSet(start: bool, ops: seq<Op>)
    decreases |ops|
  {
    if ops == [] then start
    else
      match ops[|ops| - 1]
      case LocalKeys(long) => long
      case GlobalKeys(long) => long
      case _ => KeysSet(start, ops[..|ops| - 1])
  }

  /** Whether one of the calls writes. */
  predicate SomeWrites(ops: seq<Op>)
    decreases |ops|
  {
    ops != [] && (SomeWrites(ops[..|ops| - 1]) || !Sets(ops[|ops| - 1]))
  }

  /** The first call that writes finds long keys not set. */
  predicate FirstFindsShort(start: bool, ops: seq<Op>)
    decreases |ops|
  {
    ops != [] &&
    var front := ops[..|ops| - 1];
    if SomeWrites(front) then FirstFindsShort(start, front) else !Sets(ops[|ops| - 1]) && !KeysSet(start, front)
  }

  /** Some call that writes finds long keys set. */
  predicate SomeFindsLong(start: bool, ops: seq<Op>)
    decreases |ops|
  {
    ops != [] &&
    var front := ops[..|ops| - 1];
    SomeFindsLong(start, front) || (!Sets(ops[|ops| - 1]) && KeysSet(start, front))
  }

  /** The key itself asks for the long form. */
  predicate Asks(op: Op) { op.WriteScalar? && op.longKey }

  lemma SetSettings(s: State, which: Setting, value: Settings)
    ensures s.SetLocal(which, value).settings == s.settings.With(which, value)
    ensures s.SetGlobal(which, value).settings == s.settings.With(which, value)
  {
  }

  lemma KeysStep(s: State, op: Op)
    requires s.good && Sets(op)
    ensures s.Step(op).settings.longKeys ==
            if op.LocalKeys? || op.GlobalKeys? then op.longKeys else s.settings.longKeys
  {
    hide State.SetLocal, State.SetGlobal;
    var st := s.settings;
    match op
    case LocalFlow(f) =>
      SetSettings(s, SeqFormat, st.(seqFormat := f));
      SetSettings(s.SetLocal(SeqFormat, st.(seqFormat := f)), MapFormat, st.(mapFormat := f));
    case LocalKeys(long) => SetSettings(s, MapKeyFormat, st.(longKeys := long));
    case LocalIndent(n) => if n > 1 { SetSettings(s, IndentWidth, st.(indent := n)); }
    case GlobalSeqFlow(f) => SetSettings(s, SeqFormat, st.(seqFormat := f));
    case GlobalMapFlow(f) => SetSettings(s, MapFormat, st.(mapFormat := f));
    case GlobalKeys(long) => SetSettings(s, MapKeyFormat, st.(longKeys := long));
    case GlobalIndent(n) => if n > 1 { SetSettings(s, IndentWidth, st.(indent := n)); }
  }

  /** One more call. */
  lemma CallsLast(start: bool, ops: seq<Op>, op: Op)
    ensures KeysSet(start, ops + [op]) == if op.LocalKeys? || op.GlobalKeys? then op.longKeys else KeysSet(start, ops)
    ensures SomeWrites(ops + [op]) <==> SomeWrites(ops) || !Sets(op)
    ensures SomeFindsLong(start, ops + [op]) <==> SomeFindsLong(start, ops) || (!Sets(op) && KeysSet(start, ops))
    ensures FirstFindsShort(start, ops + [op]) <==>
              if SomeWrites(ops) then FirstFindsShort(start, ops) else !Sets(op) && !KeysSet(start, ops)
  {
    assert (ops + [op])[..|ops|] == ops;
  }

  /** What the calls in front of a key of a flow map make of the state, from the calls alone. */
  ghost predicate Foretold(s: State, u: State, ops: seq<Op>)
  {
    && u.groups != [] && u.settings.longKeys == KeysSet(s.settings.longKeys, ops)
    && u.HasBegunNode() == SomeWrites(ops)
    && u.Top().longKey == SomeFindsLong(s.settings.longKeys, ops)
  }

  lemma FlowLong(s: State, child: Child)
    requires AtKey(s) && s.Top().flow == Flow
    ensures LaidOutLong(s, child) <==> s.Top().longKey || s.settings.longKeys
  {
  }

  lemma ForetoldStep(s: State, v: State, ops: seq<Op>, op: Op)
    requires AtFlowKey(v) && BesideKey(op) && v.Step(op).good && Foretold(s, v, ops)
    ensures Foretold(s, v.Step(op), ops + [op])
  {
    CallsLast(s.settings.longKeys, ops, op);
    hide Inv, State.Step, Marked, Lead, KeysSet, SomeWrites, SomeFindsLong, LaidOutLong, State.HasBegunContent,
      State.HasBegunNode;
    if Sets(op) {
      SettingStepKeeps(v, op);
      KeysStep(v, op);
    } else {
      FlowLong(v, ChildOf(op));
      BesideStep(v, op);
    }
  }

  lemma ForetoldNone(s: State)
    requires AtFlowKey(s) && !s.HasBegunNode() && !s.Top().longKey
    ensures Foretold(s, s, []) && !FirstFindsShort(s.settings.longKeys, []) && !BegunShort(s)
  {
    hide Inv;
  }

  lemma {:induction false} ForetoldRun(s: State, ops: seq<Op>)
    requires AtFlowKey(s) && !s.HasBegunNode() && !s.Top().longKey
    requires (forall i | 0 <= i < |ops| :: BesideKey(ops[i])) && s.Run(ops).good
    ensures Foretold(s, s.Run(ops), ops)
    ensures ShortAtSomeTime(s, ops) <==> FirstFindsShort(s.settings.longKeys, ops)
    decreases |ops|
  {
    hide *;
    if ops == [] {
      RunNone(s);
      ShortNone(s);
      ForetoldNone(s);
    } else {
      var front, last := ops[..|ops| - 1], ops[|ops| - 1];
      assert ops == front + [last];
      RunLast(s, front, last);
      FlowStretch(s, front);
      ForetoldRun(s, front);
      ForetoldStep(s, s.Run(front), front, last);
      ShortLater(s, front, last);
      ShortStep(s, front, last);
    }
  }

  lemma ShortStep(s: State, ops: seq<Op>, op: Op)
    requires var v, u := s.Run(ops), s.Run(ops + [op]);
             && Foretold(s, v, ops) && Foretold(s, u, ops + [op])
             && (v.HasBegunNode() || !ShortAtSomeTime(s, ops))
    requires ShortAtSomeTime(s, ops) <==> FirstFindsShort(s.settings.longKeys, ops)
    requires ShortAtSomeTime(s, ops + [op]) <==> ShortAtSomeTime(s, ops) || BegunShort(s.Run(ops + [op]))
    ensures ShortAtSomeTime(s, ops + [op]) <==> FirstFindsShort(s.settings.longKeys, ops + [op])
  {
    var v, u := s.Run(ops), s.Run(ops + [op]);
    CallsLast(s.settings.longKeys, ops, op);
    ShortNow(s, ops);
    NothingFound(s.settings.longKeys, ops);
    hide ShortAtSomeTime, State.Run, State.HasBegunNode, KeysSet, SomeWrites, SomeFindsLong, FirstFindsShort;
  }

  lemma {:induction false} NothingFound(start: bool, ops: seq<Op>)
    ensures !SomeWrites(ops) ==> !SomeFindsLong(start, ops)
    decreases |ops|
  {
    if ops != [] { NothingFound(start, ops[..|ops| - 1]); }
  }

  /** At a key of a flow map whose layout is still open: the question mark is missing exactly
      when the first call of the entry that wrote found long keys not set, and the key asks
      for the long form, or it or a call in between found long keys set. */
  lemma FlowMarkMissingByCalls(s: State, ops: seq<Op>, op: Op)
    requires AtFlowKey(s) && !s.HasBegunNode() && !s.Top().longKey
    requires (forall i | 0 <= i < |ops| :: BesideKey(ops[i])) && WritesKey(op) && s.Run(ops + [op]).good
    ensures var start := s.settings.longKeys; var u := s.Run(ops + [op]);
            && |u.groups| >= |s.groups|
            && (u.groups[|s.groups| - 1].longKey && !Marked(u) <==>
                  FirstFindsShort(start, ops) && (Asks(op) || KeysSet(start, ops) || SomeFindsLong(start, ops)))
  {
    FlowMarkMissingExactly(s, ops, op);
    RunLast(s, ops, op);
    FlowStretch(s, ops);
    ForetoldRun(s, ops);
    hide Inv, State.Run, State.Step, Marked, ShortAtSomeTime, FirstFindsShort, KeysSet, SomeFindsLong,
      State.HasBegunNode, SomeWrites;
    var t := s.Run(ops);
    assert LongBy(t, op) <==> Asks(op) || t.settings.longKeys || t.Top().longKey;
  }

  /** In a block map no entry that is laid out long misses its question mark. */
  lemma BlockMarkNeverMissing(s: State, ops: seq<Op>, op: Op)
    requires AtBlockKey(s) && !s.HasBegunNode()
    requires (forall i | 0 <= i < |ops| :: BesideKey(ops[i])) && WritesKey(op) && s.Run(ops + [op]).good
    ensures s.Run(ops).groups != [] && |s.Run(ops + [op]).groups| >= |s.groups|
    ensures var u := s.Run(ops + [op]);
            && u.groups[|s.groups| - 1].longKey == LongBy(s.Run(ops), op)
            && (u.groups[|s.groups| - 1].longKey ==> Marked(u))
  {
    hide Inv, Marked, State.Run, State.Step, BesideKey, LongBy;
    RunLast(s, ops, op);
    BlockStretch(s, ops);
    KeyMarks(s.Run(ops), op);
    KeyDecides(s.Run(ops), op);
  }

  lemma CommentStep(s: State, comment: string)
    requires AtFlowKey(s)
    ensures s.Step(WriteComment(comment)).good
  {
    hide State.PrepareNode, Inv, Wrote;
    NothingWrites(s.PrepareNode(NoNode));
    Prepared(s, NoNode, s.PrepareNode(NoNode), []);
    DecidedGroups(s, NoNode);
  }

  lemma ScalarStep(s: State, text: string)
    requires AtFlowKey(s)
    ensures s.Step(WriteScalar(text, true)).good && LongBy(s, WriteScalar(text, true))
  {
    var s1 := s.SetLocal(MapKeyFormat, s.settings.(longKeys := true));
    AskedFor(s, true);
    SettingsKeep(s, s1);
    hide Inv, State.PrepareNode, State.StartedScalar, State.Put, State.SetLocal, OnlySettings;
    ScalarKey(s1, text);
  }

  /** A comment in front of a key that asks for the long form hides the question mark. */
  lemma CommentHidesTheMark(s: State, comment: string, key: string)
    requires AtFlowKey(s) && !s.HasBegunNode() && !s.settings.longKeys && !s.Top().longKey
    ensures var u := s.Run([WriteComment(comment)] + [WriteScalar(key, true)]);
            && u.good && |u.groups| >= |s.groups|
            && u.groups[|s.groups| - 1].longKey && !Marked(u)
  {
    var ops, op := [WriteComment(comment)], WriteScalar(key, true);
    assert ops[..1] == ops;
    assert !LaidOutLong(s, NoNode);
    hide Inv, State.Run, State.Step, Marked, Lead, LaidOutLong, LongBy;
    RunOne(s, ops[0]);
    RunLast(s, ops, op);
    CommentStep(s, comment);
    BesideStep(s, ops[0]);
    FlowBeside(s, ops[0]);
    ScalarStep(s.Run(ops), key);
    assert BegunShort(s.Run(ops[..1]));
    FlowMarkMissingExactly(s, ops, op);
  }

  lemma FlowSet()
    ensures var s := INITIAL.Step(GlobalMapFlow(Flow));
            && Calm(s) && s.good && !s.InFlow() && s.groups == []
            && s.settings.mapFormat == Flow && !s.settings.longKeys
  {
    var value := INITIAL.settings.(mapFormat := Flow);
    InitiallyCalm();
    SetGlobalCalm(INITIAL, MapFormat, value);
    hide Calm, Restore;
    assert INITIAL.Step(GlobalMapFlow(Flow)) == INITIAL.SetGlobal(MapFormat, value);
  }

  lemma InitiallyInv()
    ensures Inv(INITIAL)
  {
  }

  lemma AtEmptyMap(s: State)
    requires Inv(s) && s.good && |s.groups| == 1
    requires s.groups[0].kind == Map && s.groups[0].flow == Flow && s.groups[0].childCount == 0
    ensures AtFlowKey(s) && s.Top() == s.groups[0]
  {
    hide Inv;
  }

  /** At the start of a map of a new emitter in flow layout. */
  lemma AtFirstKey()
    ensures var s := INITIAL.Run([GlobalMapFlow(Flow)] + [BeginGroup(Map)]);
            AtFlowKey(s) && !s.HasBegunNode() && !s.settings.longKeys && |s.groups| == 1 && !s.Top().longKey
  {
    hide *;
    var s := INITIAL.Step(GlobalMapFlow(Flow));
    FlowSet();
    InitiallyInv();
    RunLast(INITIAL, [GlobalMapFlow(Flow)], BeginGroup(Map));
    RunOne(INITIAL, GlobalMapFlow(Flow));
    FirstMap(s);
    RunSound(INITIAL, [GlobalMapFlow(Flow)] + [BeginGroup(Map)]);
    AtEmptyMap(s.Step(BeginGroup(Map)));
  }

  lemma FirstMap(s: State)
    requires Calm(s) && s.groups == [] && s.settings.mapFormat == Flow
    ensures var t := s.Step(BeginGroup(Map));
            && t.good && t.groups == [Group(Map, Flow, s.settings.indent, 0, false, [])]
            && !t.HasBegunNode() && t.settings == s.settings
  {
    var t := s.Step(BeginGroup(Map));
    GroupBegun(s, Map);
    CalmPushed(s, Map, s.settings.longKeys, t);
    hide State.Step, Restore, Pushed;
    assert t.groups == Below(t.groups) + [t.Top()];
  }

  /** A run from the start that lays an entry out long without its question mark. */
  lemma MarkMissed()
    ensures var u := INITIAL.Run([GlobalMapFlow(Flow), BeginGroup(Map), WriteComment("c"), WriteScalar("k", true)]);
            u.good && |u.groups| > 0 && u.groups[0].longKey && !Marked(u)
  {
    var start, rest := [GlobalMapFlow(Flow)] + [BeginGroup(Map)], [WriteComment("c")] + [WriteScalar("k", true)];
    AtFirstKey();
    hide AtFlowKey, State.Run, Marked;
    RunConcat(INITIAL, start, rest);
    assert start + rest == [GlobalMapFlow(Flow), BeginGroup(Map), WriteComment("c"), WriteScalar("k", true)];
    CommentHidesTheMark(INITIAL.Run(start), "c", "k");
  }
}
