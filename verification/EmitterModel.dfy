/** The YAML emitter as a state machine: the stack of open groups, the flags that say
    what the next node has in front of it, the formatting settings with their pending
    changes, and the tokens written so far. */
module EmitterModel {

  datatype GroupType = Seq | Map

  datatype FlowType = Flow | Block

  /** What PrepareNode is asked to make room for. */
  datatype Child = NoNode | Property | Scalar | FlowSeq | BlockSeq | FlowMap | BlockMap

  /** A piece of output. `Pad` is a run of blanks. */
  datatype Token =
    | Open(kind: GroupType)
    | Close(kind: GroupType)
    | Comma
    | Dash
    | Question
    | Colon
    | DocStart
    | DocEnd
    | Space
    | Newline
    | Pad(width: nat)
    | Content(text: string)
    | Remark(text: string)

  /** The column after a piece of text that starts in column `col`. */
  function ColumnAfter(col: nat, text: string): nat
    decreases |text|
  {
    if text == [] then col
    else if text[|text| - 1] == '\n' then 0
    else 1 + ColumnAfter(col, text[..|text| - 1])
  }

  function TokenColumn(col: nat, t: Token): nat
  {
    match t
    case Open(_) => col + 1
    case Close(_) => col + 1
    case Comma => col + 1
    case Dash => col + 1
    case Question => col + 1
    case Colon => col + 1
    case Space => col + 1
    case DocStart => 0
    case DocEnd => 0
    case Newline => 0
    case Pad(n) => col + n
    case Content(text) => ColumnAfter(col, text)
    case Remark(text) => ColumnAfter(col, text)
  }

  /** Whether the stream is inside a comment after the token. */
  function TokenComment(comment: bool, t: Token): bool
  {
    match t
    case DocStart => false
    case DocEnd => false
    case Newline => false
    case Content(text) => comment && '\n' !in text
    case Remark(_) => true
    case _ => comment
  }

  // ---- settings

  datatype Setting = SeqFormat | MapFormat | MapKeyFormat | IndentWidth

  datatype Settings = Settings(seqFormat: FlowType, mapFormat: FlowType, longKeys: bool, indent: nat)
  {
    /** These settings with one of them taken from `other`. */
    function With(which: Setting, other: Settings): Settings
    {
      match which
      case SeqFormat => this.(seqFormat := other.seqFormat)
      case MapFormat => this.(mapFormat := other.mapFormat)
      case MapKeyFormat => this.(longKeys := other.longKeys)
      case IndentWidth => this.(indent := other.indent)
    }
  }

  /** A setting that was changed, and the settings from before the change. */
  datatype Change = Change(which: Setting, saved: Settings)

  /** Takes the changes back one by one, the oldest first. */
  function Restore(st: Settings, changes: seq<Change>): Settings
    decreases |changes|
  {
    if changes == [] then st
    else Restore(st.With(changes[0].which, changes[0].saved), changes[1..])
  }

  const DEFAULT_SETTINGS := Settings(Block, Block, false, 2)

  // ---- the state

  datatype Group = Group(kind: GroupType, flow: FlowType, indent: nat, childCount: nat, longKey: bool,
                         modified: seq<Change>)
  {
    function NodeType(): Child
    {
      if kind == Seq then (if flow == Flow then FlowSeq else BlockSeq)
      else (if flow == Flow then FlowMap else BlockMap)
    }
  }

  datatype Op =
    | BeginDoc
    | EndDoc
    | BeginGroup(kind: GroupType)
    | EndGroup(kind: GroupType)
    | LineBreak
    | WriteScalar(text: string, longKey: bool)
    | WriteAlias(text: string, valid: bool)
    | WriteAnchor(text: string, valid: bool)
    | WriteTag(text: string, valid: bool)
    | WriteComment(text: string)
    | LocalFlow(format: FlowType)
    | LocalKeys(longKeys: bool)
    | LocalIndent(n: nat)
    | GlobalSeqFlow(format: FlowType)
    | GlobalMapFlow(format: FlowType)
    | GlobalKeys(longKeys: bool)
    | GlobalIndent(n: nat)

  datatype State = State(
    good: bool,
    groups: seq<Group>,
    curIndent: int,
    hasAnchor: bool,
    hasAlias: bool,
    hasTag: bool,
    hasNonContent: bool,
    docCount: nat,
    settings: Settings,
    modified: seq<Change>,
    globalModified: seq<Change>,
    out: seq<Token>,
    col: nat,
    comment: bool,
    tripped: bool)   // an assertion of the emitter has failed
  {
    // ---- looking at the state

    function HasBegunNode(): bool { hasAnchor || hasTag || hasNonContent }

    function HasBegunContent(): bool { hasAnchor || hasTag }

    function Top(): Group
      requires groups != []
    {
      groups[|groups| - 1]
    }

    function InFlow(): bool { groups != [] && Top().flow == Flow }

    function CurGroupNodeType(): Child { if groups == [] then NoNode else Top().NodeType() }

    function CurGroupIndent(): nat { if groups == [] then 0 else Top().indent }

    function CurGroupChildCount(): nat { if groups == [] then docCount else Top().childCount }

    function CurGroupLongKey(): bool { groups != [] && Top().longKey }

    function LastIndent(): int
    {
      if |groups| <= 1 then 0 else curIndent - groups[|groups| - 2].indent
    }

    /** The layout of a new group: inside a flow group everything is flow. */
    function FlowOf(kind: GroupType): FlowType
    {
      if InFlow() then Flow else if kind == Seq then settings.seqFormat else settings.mapFormat
    }

    function NextGroupType(kind: GroupType): Child
    {
      Group(kind, FlowOf(kind), 0, 0, false, []).NodeType()
    }

    // ---- writing

    function Put(t: Token): State
    {
      this.(out := out + [t], col := TokenColumn(col, t), comment := TokenComment(comment, t))
    }

    function BreakIf(condition: bool): State { if condition then Put(Newline) else this }

    function IndentTo(n: int): State { if col < n then Put(Pad(n - col)) else this }

    function SpaceOrIndentTo(requireSpace: bool, indent: int): State
    {
      var s := BreakIf(comment);
      (if s.col > 0 && requireSpace then s.Put(Space) else s).IndentTo(indent)
    }

    function SetError(): State { this.(good := false) }

    function Trip(): State { this.(tripped := true) }

    // ---- bookkeeping of nodes and groups

    function WithTop(g: Group): State
      requires groups != []
    {
      this.(groups := groups[..|groups| - 1] + [g])
    }

    function SetLongKey(): State
    {
      if groups == [] then Trip()
      else
        var s := if Top().kind != Map then Trip() else this;
        s.WithTop(s.Top().(longKey := true))
    }

    function ForceFlow(): State
    {
      if groups == [] then Trip() else WithTop(Top().(flow := Flow))
    }

    /** One more document or child. */
    function Counted(): State
    {
      if groups == [] then this.(docCount := docCount + 1)
      else
        var n := Top().childCount + 1;
        WithTop(Top().(childCount := n, longKey := Top().longKey && n % 2 != 0))
    }

    function StartedNode(): State
    {
      Counted().(hasAnchor := false, hasAlias := false, hasTag := false, hasNonContent := false)
    }

    function ClearModifiedSettings(): State
    {
      this.(settings := Restore(settings, modified), modified := [])
    }

    function StartedScalar(): State { StartedNode().ClearModifiedSettings() }

    function StartedGroup(kind: GroupType): State
    {
      var s := StartedNode();
      s.(curIndent := s.curIndent + s.CurGroupIndent(),
         modified := [],
         groups := s.groups + [Group(kind, s.FlowOf(kind), s.settings.indent, 0, false, s.modified)])
    }

    /** Without the group on top, and with the settings from before it. */
    function Popped(): State
      requires groups != []
    {
      this.(good := good && !hasTag && !hasAnchor,
            groups := groups[..|groups| - 1],
            settings := Restore(settings, Top().modified))
    }

    /** At the indent of the group on top again. */
    function Outdented(): State
    {
      this.(curIndent := curIndent - CurGroupIndent(), tripped := tripped || curIndent < CurGroupIndent())
    }

    function RestoreGlobalModifiedSettings(): State { this.(settings := Restore(settings, globalModified)) }

    /** Back at the indent, the settings and the flags of the group below. */
    function BackBelow(): State
    {
      Outdented().RestoreGlobalModifiedSettings().ClearModifiedSettings()
      .(hasAnchor := false, hasTag := false, hasNonContent := false)
    }

    function EndedGroup(kind: GroupType): State
    {
      if groups == [] then SetError()
      else if Top().kind != kind then Popped().SetError()
      else Popped().BackBelow()
    }

    // ---- making room for a node

    function PrepareNode(child: Child): State
    {
      match CurGroupNodeType()
      case NoNode => PrepareTopNode(child)
      case FlowSeq => FlowSeqPrepareNode(child)
      case BlockSeq => BlockSeqPrepareNode(child)
      case FlowMap => FlowMapPrepareNode(child)
      case BlockMap => BlockMapPrepareNode(child)
      case _ => Trip()
    }

    function PrepareTopNode(child: Child): State
    {
      if child == NoNode then this
      else
        var s := if CurGroupChildCount() > 0 && col > 0 then EmitBeginDoc() else this;
        match child
        case BlockSeq => s.BreakIf(s.HasBegunNode())
        case BlockMap => s.BreakIf(s.HasBegunNode())
        case _ => s.SpaceOrIndentTo(s.HasBegunContent(), 0)
    }

    /** The part that every flow layout ends with. */
    function FlowChild(child: Child): State
    {
      match child
      case NoNode => this
      case BlockSeq => Trip()
      case BlockMap => Trip()
      case _ => SpaceOrIndentTo(HasBegunContent() || CurGroupChildCount() > 0, LastIndent())
    }

    /** The part that every flow layout starts with. */
    function FlowStart(): State { BreakIf(comment).IndentTo(LastIndent()) }

    function FlowSeqPrepareNode(child: Child): State
    {
      var s := if HasBegunNode() then this
               else FlowStart().Put(if CurGroupChildCount() == 0 then Open(Seq) else Comma);
      s.FlowChild(child)
    }

    function BlockSeqPrepareNode(child: Child): State
    {
      if child == NoNode then this
      else
        var s := if HasBegunContent() then this
                 else BreakIf(CurGroupChildCount() > 0 || comment).IndentTo(curIndent).Put(Dash);
        match child
        case BlockSeq => s.Put(Newline)
        case BlockMap => s.BreakIf(s.HasBegunContent() || s.comment)
        case _ => s.SpaceOrIndentTo(s.HasBegunContent(), curIndent + CurGroupIndent())
    }

    function FlowMapPrepareNode(child: Child): State
    {
      if CurGroupChildCount() % 2 == 0 then
        var s := if settings.longKeys then SetLongKey() else this;
        if s.CurGroupLongKey() then s.FlowMapPrepareLongKey(child) else s.FlowMapPrepareSimpleKey(child)
      else if CurGroupLongKey() then FlowMapPrepareLongKeyValue(child)
      else FlowMapPrepareSimpleKeyValue(child)
    }

    function FlowMapPrepareLongKey(child: Child): State
    {
      var s := if HasBegunNode() then this
               else FlowStart().Put(if CurGroupChildCount() == 0 then Open(Map) else Comma).Put(Space).Put(Question);
      s.FlowChild(child)
    }

    function FlowMapPrepareLongKeyValue(child: Child): State
    {
      var s := if HasBegunNode() then this else FlowStart().Put(Colon);
      s.FlowChild(child)
    }

    function FlowMapPrepareSimpleKey(child: Child): State
    {
      var s := if HasBegunNode() then this
               else FlowStart().Put(if CurGroupChildCount() == 0 then Open(Map) else Comma);
      s.FlowChild(child)
    }

    function FlowMapPrepareSimpleKeyValue(child: Child): State
    {
      var s := if HasBegunNode() then this
               else
                 var t := FlowStart();
                 (if t.hasAlias then t.Put(Space) else t).Put(Colon);
      s.FlowChild(child)
    }

    function BlockMapPrepareNode(child: Child): State
    {
      if CurGroupChildCount() % 2 == 0 then
        var s := if settings.longKeys then SetLongKey() else this;
        var t := if child == BlockSeq || child == BlockMap || child == Property then s.SetLongKey() else s;
        if t.CurGroupLongKey() then t.BlockMapPrepareLongKey(child) else t.BlockMapPrepareSimpleKey(child)
      else if CurGroupLongKey() then BlockMapPrepareLongKeyValue(child)
      else BlockMapPrepareSimpleKeyValue(child)
    }

    function BlockMapPrepareLongKey(child: Child): State
    {
      if child == NoNode then this
      else
        var s := if HasBegunContent() then this
                 else
                   var t := BreakIf(CurGroupChildCount() > 0);
                   t.BreakIf(t.comment).IndentTo(curIndent).Put(Question);
        match child
        case BlockSeq => s.BreakIf(s.HasBegunContent())
        case BlockMap => s.BreakIf(s.HasBegunContent())
        case _ => s.SpaceOrIndentTo(true, curIndent + 1)
    }

    function BlockMapPrepareLongKeyValue(child: Child): State
    {
      if child == NoNode then this
      else
        var s := if HasBegunContent() then this else Put(Newline).IndentTo(curIndent).Put(Colon);
        match child
        case BlockSeq => s.BreakIf(s.HasBegunContent()).SpaceOrIndentTo(true, curIndent + 1)
        case BlockMap => s.BreakIf(s.HasBegunContent()).SpaceOrIndentTo(true, curIndent + 1)
        case _ => s.SpaceOrIndentTo(true, curIndent + 1)
    }

    function BlockMapPrepareSimpleKey(child: Child): State
    {
      if child == NoNode then this
      else
        var s := BreakIf(!HasBegunNode() && CurGroupChildCount() > 0);
        match child
        case BlockSeq => s
        case BlockMap => s
        case _ => s.SpaceOrIndentTo(s.HasBegunContent(), curIndent)
    }

    function BlockMapPrepareSimpleKeyValue(child: Child): State
    {
      var s := if HasBegunNode() then this else (if hasAlias then Put(Space) else this).Put(Colon);
      match child
      case NoNode => s
      case BlockSeq => s.Put(Newline)
      case BlockMap => s.Put(Newline)
      case _ => s.SpaceOrIndentTo(true, curIndent + CurGroupIndent())
    }

    // ---- the operations

    function EmitBeginDoc(): State
    {
      if !good then this
      else if groups != [] || hasAnchor || hasTag then SetError()
      else BreakIf(col > 0).Put(DocStart).(hasAnchor := false, hasTag := false, hasNonContent := false)
    }

    function EmitEndDoc(): State
    {
      if !good then this
      else if groups != [] || hasAnchor || hasTag then SetError()
      else BreakIf(col > 0).Put(DocEnd)
    }

    function EmitBeginGroup(kind: GroupType): State
    {
      if !good then this else PrepareNode(NextGroupType(kind)).StartedGroup(kind)
    }

    /** The closing of a group that is written in flow layout. */
    function CloseFlow(kind: GroupType, wasBlock: bool): State
    {
      var s := BreakIf(comment).IndentTo(curIndent);
      (if wasBlock || (s.CurGroupChildCount() == 0 && !s.HasBegunNode()) then s.Put(Open(kind)) else s)
      .Put(Close(kind))
    }

    function EmitEndGroup(kind: GroupType): State
    {
      if !good then this
      else
        var wasBlock := groups != [] && Top().flow == Block;
        var s := if CurGroupChildCount() == 0 then ForceFlow() else this;
        (if s.InFlow() then s.CloseFlow(kind, wasBlock) else s).EndedGroup(kind)
    }

    function EmitNewline(): State
    {
      if !good then this else PrepareNode(NoNode).Put(Newline).(hasNonContent := true)
    }

    /** `longKey` says that the text is a literal or long one, which asks for a long key. */
    function EmitScalar(text: string, longKey: bool): State
    {
      if !good then this
      else
        var s := if longKey then SetLocal(MapKeyFormat, settings.(longKeys := true)) else this;
        s.PrepareNode(Scalar).Put(Content(text)).StartedScalar()
    }

    function EmitAlias(text: string, valid: bool): State
    {
      if !good then this
      else if hasAnchor || hasTag then SetError()
      else
        var s := PrepareNode(Scalar).Put(Content(text));
        if !valid then s.SetError() else s.StartedScalar().(hasAlias := true)
    }

    function EmitAnchor(text: string, valid: bool): State
    {
      if !good then this
      else if hasAnchor then SetError()
      else
        var s := PrepareNode(Property).Put(Content(text));
        if !valid then s.SetError() else s.(hasAnchor := true)
    }

    function EmitTag(text: string, valid: bool): State
    {
      if !good then this
      else if hasTag then SetError()
      else
        var s := PrepareNode(Property).Put(Content(text));
        if !valid then s.SetError() else s.(hasTag := true)
    }

    function EmitComment(text: string): State
    {
      if !good then this
      else
        var s := PrepareNode(NoNode);
        (if s.col > 0 then s.Put(Pad(2)) else s).Put(Remark(text)).(hasNonContent := true)
    }

    function SetLocal(which: Setting, value: Settings): State
    {
      this.(modified := modified + [Change(which, settings)], settings := settings.With(which, value))
    }

    function SetGlobal(which: Setting, value: Settings): State
    {
      var st := settings.With(which, value);
      this.(settings := st, globalModified := globalModified + [Change(which, st)])
    }

    function Step(op: Op): State
    {
      match op
      case BeginDoc => EmitBeginDoc()
      case EndDoc => EmitEndDoc()
      case BeginGroup(kind) => EmitBeginGroup(kind)
      case EndGroup(kind) => EmitEndGroup(kind)
      case LineBreak => EmitNewline()
      case WriteScalar(text, longKey) => EmitScalar(text, longKey)
      case WriteAlias(text, valid) => EmitAlias(text, valid)
      case WriteAnchor(text, valid) => EmitAnchor(text, valid)
      case WriteTag(text, valid) => EmitTag(text, valid)
      case WriteComment(text) => EmitComment(text)
      case LocalFlow(f) =>
        if !good then this
        else SetLocal(SeqFormat, settings.(seqFormat := f)).SetLocal(MapFormat, settings.(mapFormat := f))
      case LocalKeys(long) => if !good then this else SetLocal(MapKeyFormat, settings.(longKeys := long))
      case LocalIndent(n) => if n <= 1 then this else SetLocal(IndentWidth, settings.(indent := n))
      case GlobalSeqFlow(f) => SetGlobal(SeqFormat, settings.(seqFormat := f))
      case GlobalMapFlow(f) => SetGlobal(MapFormat, settings.(mapFormat := f))
      case GlobalKeys(long) => SetGlobal(MapKeyFormat, settings.(longKeys := long))
      case GlobalIndent(n) => if n <= 1 then this else SetGlobal(IndentWidth, settings.(indent := n))
    }

    function Run(ops: seq<Op>): State
      decreases |ops|
    {
      if ops == [] then this else Step(ops[0]).Run(ops[1..])
    }
  }

  const INITIAL := State(true, [], 0, false, false, false, false, 0, DEFAULT_SETTINGS, [], [], [], 0, false, false)
}
