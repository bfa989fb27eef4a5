/** The emitter as an object: every method updates the stack of groups, the flags and the
    output in place, and is proved to do what the state machine says. The two objects of the
    program (the emitter with its stream, and its state) are one object here. */
module EmitterClass {
  import opened EmitterModel
  import opened EmitterSafety

  class Emitter {
    var good: bool
    var groups: seq<Group>
    var curIndent: int
    var hasAnchor: bool
    var hasAlias: bool
    var hasTag: bool
    var hasNonContent: bool
    var docCount: nat
    var settings: Settings
    var modified: seq<Change>
    var globalModified: seq<Change>
    var out: seq<Token>
    var col: nat
    var comment: bool
    var tripped: bool

    /** The fields as one value. */
    function S(): State
      reads this
    {
      State(good, groups, curIndent, hasAnchor, hasAlias, hasTag, hasNonContent, docCount, settings, modified,
            globalModified, out, col, comment, tripped)
    }

    constructor ()
      ensures S() == INITIAL
    {
      good, groups, curIndent, docCount := true, [], 0, 0;
      hasAnchor, hasAlias, hasTag, hasNonContent := false, false, false, false;
      settings, modified, globalModified := DEFAULT_SETTINGS, [], [];
      out, col, comment, tripped := [], 0, false, false;
    }

    // ---- writing

    method Put(t: Token)
      modifies this
      ensures S() == old(S()).Put(t)
    {
      out, col, comment := out + [t], TokenColumn(col, t), TokenComment(comment, t);
    }

    method BreakIf(condition: bool)
      modifies this
      ensures S() == old(S()).BreakIf(condition)
    {
      if condition { Put(Newline); }
    }

    method IndentTo(n: int)
      modifies this
      ensures S() == old(S()).IndentTo(n)
    {
      if col < n { Put(Pad(n - col)); }
    }

    method SpaceOrIndentTo(requireSpace: bool, indent: int)
      modifies this
      ensures S() == old(S()).SpaceOrIndentTo(requireSpace, indent)
    {
      BreakIf(comment);
      if col > 0 && requireSpace { Put(Space); }
      IndentTo(indent);
    }

    // ---- bookkeeping

    method SetError()
      modifies this
      ensures S() == old(S()).SetError()
    {
      good := false;
    }

    method Trip()
      modifies this
      ensures S() == old(S()).Trip()
    {
      tripped := true;
    }

    method SetLongKey()
      modifies this
      ensures S() == old(S()).SetLongKey()
    {
      if groups == [] {
        Trip();
      } else {
        var top := groups[|groups| - 1];
        if top.kind != Map { Trip(); }
        groups := groups[..|groups| - 1] + [top.(longKey := true)];
      }
    }

    method ForceFlow()
      modifies this
      ensures S() == old(S()).ForceFlow()
    {
      if groups == [] {
        Trip();
      } else {
        groups := groups[..|groups| - 1] + [groups[|groups| - 1].(flow := Flow)];
      }
    }

    method Counted()
      modifies this
      ensures S() == old(S()).Counted()
    {
      if groups == [] {
        docCount := docCount + 1;
      } else {
        var top := groups[|groups| - 1];
        var n := top.childCount + 1;
        groups := groups[..|groups| - 1] + [top.(childCount := n, longKey := top.longKey && n % 2 != 0)];
      }
    }

    method StartedNode()
      modifies this
      ensures S() == old(S()).StartedNode()
    {
      Counted();
      hasAnchor, hasAlias, hasTag, hasNonContent := false, false, false, false;
    }

    /** Pops the pending changes, oldest first. */
    method RestoreAll(changes: seq<Change>)
      modifies this`settings
      ensures settings == Restore(old(settings), changes)
    {
      var i := 0;
      while i < |changes|
        invariant i <= |changes|
        invariant Restore(settings, changes[i..]) == Restore(old(settings), changes)
      {
        assert changes[i..][1..] == changes[i + 1..];
        settings := settings.With(changes[i].which, changes[i].saved);
        i := i + 1;
      }
    }

    method ClearModifiedSettings()
      modifies this
      ensures S() == old(S()).ClearModifiedSettings()
    {
      RestoreAll(modified);
      modified := [];
    }

    method StartedScalar()
      modifies this
      ensures S() == old(S()).StartedScalar()
    {
      StartedNode();
      ClearModifiedSettings();
    }

    method StartedGroup(kind: GroupType)
      modifies this
      ensures S() == old(S()).StartedGroup(kind)
    {
      hide State.StartedNode;
      StartedNode();
      curIndent := curIndent + S().CurGroupIndent();
      var g := Group(kind, S().FlowOf(kind), settings.indent, 0, false, modified);
      modified := [];
      groups := groups + [g];
    }

    method Popped()
      requires groups != []
      modifies this
      ensures S() == old(S()).Popped()
    {
      if hasTag { SetError(); }
      if hasAnchor { SetError(); }
      var finished := groups[|groups| - 1];
      groups := groups[..|groups| - 1];
      RestoreAll(finished.modified);
    }

    method Outdented()
      modifies this
      ensures S() == old(S()).Outdented()
    {
      var lastIndent := S().CurGroupIndent();
      if curIndent < lastIndent { Trip(); }
      curIndent := curIndent - lastIndent;
    }

    method RestoreGlobalModifiedSettings()
      modifies this
      ensures S() == old(S()).RestoreGlobalModifiedSettings()
    {
      RestoreAll(globalModified);
    }

    method BackBelow()
      modifies this
      ensures S() == old(S()).BackBelow()
    {
      hide State.Outdented, State.RestoreGlobalModifiedSettings, State.ClearModifiedSettings;
      Outdented();
      RestoreGlobalModifiedSettings();
      ClearModifiedSettings();
      hasAnchor, hasTag, hasNonContent := false, false, false;
    }

    method EndedGroup(kind: GroupType)
      modifies this
      ensures S() == old(S()).EndedGroup(kind)
    {
      hide State.Popped, State.BackBelow;
      if groups == [] {
        SetError();
      } else if groups[|groups| - 1].kind != kind {
        Popped();
        SetError();
      } else {
        Popped();
        BackBelow();
      }
    }

    // ---- making room for a node

    method PrepareNode(child: Child)
      modifies this
      ensures S() == old(S()).PrepareNode(child)
    {
      match S().CurGroupNodeType()
      case NoNode => PrepareTopNode(child);
      case FlowSeq => FlowSeqPrepareNode(child);
      case BlockSeq => BlockSeqPrepareNode(child);
      case FlowMap => FlowMapPrepareNode(child);
      case BlockMap => BlockMapPrepareNode(child);
      case _ => Trip();
    }

    method PrepareTopNode(child: Child)
      modifies this
      ensures S() == old(S()).PrepareTopNode(child)
    {
      hide State.EmitBeginDoc, State.BreakIf, State.SpaceOrIndentTo;
      if child == NoNode { return; }
      if S().CurGroupChildCount() > 0 && col > 0 { EmitBeginDoc(); }
      if child == BlockSeq || child == BlockMap {
        BreakIf(S().HasBegunNode());
      } else {
        SpaceOrIndentTo(S().HasBegunContent(), 0);
      }
    }

    method FlowChild(child: Child)
      modifies this
      ensures S() == old(S()).FlowChild(child)
    {
      match child
      case NoNode =>
      case BlockSeq => Trip();
      case BlockMap => Trip();
      case _ => SpaceOrIndentTo(S().HasBegunContent() || S().CurGroupChildCount() > 0, S().LastIndent());
    }

    method FlowStart()
      modifies this
      ensures S() == old(S()).FlowStart()
    {
      var lastIndent := S().LastIndent();
      BreakIf(comment);
      IndentTo(lastIndent);
    }

    method FlowSeqPrepareNode(child: Child)
      modifies this
      ensures S() == old(S()).FlowSeqPrepareNode(child)
    {
      hide State.Put, State.FlowStart, State.FlowChild;
      var first := S().CurGroupChildCount() == 0;
      if !S().HasBegunNode() {
        FlowStart();
        Put(if first then Open(Seq) else Comma);
      }
      FlowChild(child);
    }

    method BlockSeqPrepareNode(child: Child)
      modifies this
      ensures S() == old(S()).BlockSeqPrepareNode(child)
    {
      hide State.Put, State.BreakIf, State.IndentTo, State.SpaceOrIndentTo;
      var indent := curIndent;
      var nextIndent := indent + S().CurGroupIndent();
      if child == NoNode { return; }
      if !S().HasBegunContent() {
        BreakIf(S().CurGroupChildCount() > 0 || comment);
        IndentTo(indent);
        Put(Dash);
      }
      if child == BlockSeq {
        Put(Newline);
      } else if child == BlockMap {
        BreakIf(S().HasBegunContent() || comment);
      } else {
        SpaceOrIndentTo(S().HasBegunContent(), nextIndent);
      }
    }

    method FlowMapPrepareNode(child: Child)
      modifies this
      ensures S() == old(S()).FlowMapPrepareNode(child)
    {
      if S().CurGroupChildCount() % 2 == 0 {
        if settings.longKeys { SetLongKey(); }
        if S().CurGroupLongKey() { FlowMapPrepareLongKey(child); } else { FlowMapPrepareSimpleKey(child); }
      } else {
        if S().CurGroupLongKey() { FlowMapPrepareLongKeyValue(child); } else { FlowMapPrepareSimpleKeyValue(child); }
      }
    }

    method FlowMapPrepareLongKey(child: Child)
      modifies this
      ensures S() == old(S()).FlowMapPrepareLongKey(child)
    {
      hide State.Put, State.FlowStart, State.FlowChild;
      var first := S().CurGroupChildCount() == 0;
      if !S().HasBegunNode() {
        FlowStart();
        Put(if first then Open(Map) else Comma);
        Put(Space);
        Put(Question);
      }
      FlowChild(child);
    }

    method FlowMapPrepareLongKeyValue(child: Child)
      modifies this
      ensures S() == old(S()).FlowMapPrepareLongKeyValue(child)
    {
      hide State.Put, State.FlowStart, State.FlowChild;
      if !S().HasBegunNode() {
        FlowStart();
        Put(Colon);
      }
      FlowChild(child);
    }

    method FlowMapPrepareSimpleKey(child: Child)
      modifies this
      ensures S() == old(S()).FlowMapPrepareSimpleKey(child)
    {
      hide State.Put, State.FlowStart, State.FlowChild;
      var first := S().CurGroupChildCount() == 0;
      if !S().HasBegunNode() {
        FlowStart();
        Put(if first then Open(Map) else Comma);
      }
      FlowChild(child);
    }

    method FlowMapPrepareSimpleKeyValue(child: Child)
      modifies this
      ensures S() == old(S()).FlowMapPrepareSimpleKeyValue(child)
    {
      hide State.Put, State.FlowStart, State.FlowChild;
      if !S().HasBegunNode() {
        FlowStart();
        if hasAlias { Put(Space); }
        Put(Colon);
      }
      FlowChild(child);
    }

    method BlockMapPrepareNode(child: Child)
      modifies this
      ensures S() == old(S()).BlockMapPrepareNode(child)
    {
      if S().CurGroupChildCount() % 2 == 0 {
        if settings.longKeys { SetLongKey(); }
        if child == BlockSeq || child == BlockMap || child == Property { SetLongKey(); }
        if S().CurGroupLongKey() { BlockMapPrepareLongKey(child); } else { BlockMapPrepareSimpleKey(child); }
      } else {
        if S().CurGroupLongKey() { BlockMapPrepareLongKeyValue(child); } else { BlockMapPrepareSimpleKeyValue(child); }
      }
    }

    method BlockMapPrepareLongKey(child: Child)
      modifies this
      ensures S() == old(S()).BlockMapPrepareLongKey(child)
    {
      hide State.Put, State.BreakIf, State.IndentTo, State.SpaceOrIndentTo;
      var indent := curIndent;
      if child == NoNode { return; }
      if !S().HasBegunContent() {
        BreakIf(S().CurGroupChildCount() > 0);
        BreakIf(comment);
        IndentTo(indent);
        Put(Question);
      }
      if child == BlockSeq || child == BlockMap {
        BreakIf(S().HasBegunContent());
      } else {
        SpaceOrIndentTo(true, indent + 1);
      }
    }

    method BlockMapPrepareLongKeyValue(child: Child)
      modifies this
      ensures S() == old(S()).BlockMapPrepareLongKeyValue(child)
    {
      hide State.Put, State.BreakIf, State.IndentTo, State.SpaceOrIndentTo;
      var indent := curIndent;
      if child == NoNode { return; }
      if !S().HasBegunContent() {
        Put(Newline);
        IndentTo(indent);
        Put(Colon);
      }
      if child == BlockSeq || child == BlockMap {
        BreakIf(S().HasBegunContent());
      }
      SpaceOrIndentTo(true, indent + 1);
    }

    method BlockMapPrepareSimpleKey(child: Child)
      modifies this
      ensures S() == old(S()).BlockMapPrepareSimpleKey(child)
    {
      var indent := curIndent;
      if child == NoNode { return; }
      BreakIf(!S().HasBegunNode() && S().CurGroupChildCount() > 0);
      if child != BlockSeq && child != BlockMap {
        SpaceOrIndentTo(S().HasBegunContent(), indent);
      }
    }

    method BlockMapPrepareSimpleKeyValue(child: Child)
      modifies this
      ensures S() == old(S()).BlockMapPrepareSimpleKeyValue(child)
    {
      var nextIndent := curIndent + S().CurGroupIndent();
      if !S().HasBegunNode() {
        if hasAlias { Put(Space); }
        Put(Colon);
      }
      match child
      case NoNode =>
      case BlockSeq => Put(Newline);
      case BlockMap => Put(Newline);
      case _ => SpaceOrIndentTo(true, nextIndent);
    }

    // ---- the operations

    method EmitBeginDoc()
      modifies this
      ensures S() == old(S()).EmitBeginDoc()
    {
      hide State.BreakIf, State.Put;
      if !good { return; }
      if groups != [] || hasAnchor || hasTag {
        SetError();
        return;
      }
      BreakIf(col > 0);
      Put(DocStart);
      hasAnchor, hasTag, hasNonContent := false, false, false;
    }

    method EmitEndDoc()
      modifies this
      ensures S() == old(S()).EmitEndDoc()
    {
      hide State.BreakIf, State.Put;
      if !good { return; }
      if groups != [] || hasAnchor || hasTag {
        SetError();
        return;
      }
      BreakIf(col > 0);
      Put(DocEnd);
    }

    method EmitBeginGroup(kind: GroupType)
      modifies this
      ensures S() == old(S()).EmitBeginGroup(kind)
    {
      if !good { return; }
      PrepareNode(S().NextGroupType(kind));
      StartedGroup(kind);
    }

    method CloseFlow(kind: GroupType, wasBlock: bool)
      modifies this
      ensures S() == old(S()).CloseFlow(kind, wasBlock)
    {
      BreakIf(comment);
      IndentTo(curIndent);
      if wasBlock || (S().CurGroupChildCount() == 0 && !S().HasBegunNode()) { Put(Open(kind)); }
      Put(Close(kind));
    }

    method EmitEndGroup(kind: GroupType)
      modifies this
      ensures S() == old(S()).EmitEndGroup(kind)
    {
      if !good { return; }
      var wasBlock := groups != [] && groups[|groups| - 1].flow == Block;
      if S().CurGroupChildCount() == 0 { ForceFlow(); }
      if S().InFlow() { CloseFlow(kind, wasBlock); }
      EndedGroup(kind);
    }

    method EmitNewline()
      modifies this
      ensures S() == old(S()).EmitNewline()
    {
      if !good { return; }
      PrepareNode(NoNode);
      Put(Newline);
      hasNonContent := true;
    }

    method EmitScalar(text: string, longKey: bool)
      modifies this
      ensures S() == old(S()).EmitScalar(text, longKey)
    {
      hide State.PrepareNode, State.Put, State.StartedScalar, State.SetLocal;
      if !good { return; }
      if longKey { SetLocal(MapKeyFormat, settings.(longKeys := true)); }
      PrepareNode(Scalar);
      Put(Content(text));
      StartedScalar();
    }

    method EmitAlias(text: string, valid: bool)
      modifies this
      ensures S() == old(S()).EmitAlias(text, valid)
    {
      hide State.PrepareNode, State.Put, State.StartedScalar;
      if !good { return; }
      if hasAnchor || hasTag {
        SetError();
        return;
      }
      PrepareNode(Scalar);
      Put(Content(text));
      if !valid {
        SetError();
        return;
      }
      StartedScalar();
      hasAlias := true;
    }

    method EmitAnchor(text: string, valid: bool)
      modifies this
      ensures S() == old(S()).EmitAnchor(text, valid)
    {
      hide State.PrepareNode, State.Put;
      if !good { return; }
      if hasAnchor {
        SetError();
        return;
      }
      PrepareNode(Property);
      Put(Content(text));
      if !valid {
        SetError();
        return;
      }
      hasAnchor := true;
    }

    method EmitTag(text: string, valid: bool)
      modifies this
      ensures S() == old(S()).EmitTag(text, valid)
    {
      hide State.PrepareNode, State.Put;
      if !good { return; }
      if hasTag {
        SetError();
        return;
      }
      PrepareNode(Property);
      Put(Content(text));
      if !valid {
        SetError();
        return;
      }
      hasTag := true;
    }

    method EmitComment(text: string)
      modifies this
      ensures S() == old(S()).EmitComment(text)
    {
      hide State.PrepareNode, State.Put;
      if !good { return; }
      PrepareNode(NoNode);
      if col > 0 { Put(Pad(2)); }
      Put(Remark(text));
      hasNonContent := true;
    }

    method SetLocal(which: Setting, value: Settings)
      modifies this
      ensures S() == old(S()).SetLocal(which, value)
    {
      modified := modified + [Change(which, settings)];
      settings := settings.With(which, value);
    }

    method SetGlobal(which: Setting, value: Settings)
      modifies this
      ensures S() == old(S()).SetGlobal(which, value)
    {
      settings := settings.With(which, value);
      globalModified := globalModified + [Change(which, settings)];
    }

    method Do(op: Op)
      modifies this
      ensures S() == old(S()).Step(op)
    {
      hide State.EmitBeginDoc, State.EmitEndDoc, State.EmitBeginGroup, State.EmitEndGroup, State.EmitNewline,
        State.EmitScalar, State.EmitAlias, State.EmitAnchor, State.EmitTag, State.EmitComment;
      match op
      case BeginDoc => EmitBeginDoc();
      case EndDoc => EmitEndDoc();
      case BeginGroup(kind) => EmitBeginGroup(kind);
      case EndGroup(kind) => EmitEndGroup(kind);
      case LineBreak => EmitNewline();
      case WriteScalar(text, longKey) => EmitScalar(text, longKey);
      case WriteAlias(text, valid) => EmitAlias(text, valid);
      case WriteAnchor(text, valid) => EmitAnchor(text, valid);
      case WriteTag(text, valid) => EmitTag(text, valid);
      case WriteComment(text) => EmitComment(text);
      case _ => SetFormat(op);
    }

    method SetFormat(op: Op)
      requires Sets(op)
      modifies this
      ensures S() == old(S()).Step(op)
    {
      hide State.SetLocal, State.SetGlobal;
      var before := settings;
      match op
      case LocalFlow(f) =>
        if good {
          SetLocal(SeqFormat, settings.(seqFormat := f));
          SetLocal(MapFormat, before.(mapFormat := f));
        }
      case LocalKeys(long) => if good { SetLocal(MapKeyFormat, settings.(longKeys := long)); }
      case LocalIndent(n) => if n > 1 { SetLocal(IndentWidth, settings.(indent := n)); }
      case GlobalSeqFlow(f) => SetGlobal(SeqFormat, settings.(seqFormat := f));
      case GlobalMapFlow(f) => SetGlobal(MapFormat, settings.(mapFormat := f));
      case GlobalKeys(long) => SetGlobal(MapKeyFormat, settings.(longKeys := long));
      case GlobalIndent(n) => if n > 1 { SetGlobal(IndentWidth, settings.(indent := n)); }
    }
  }

  /** A whole sequence of calls on a new emitter. */
  method EmitAll(ops: seq<Op>) returns (e: Emitter)
    ensures fresh(e) && e.S() == INITIAL.Run(ops)
  {
    e := new Emitter();
    var i := 0;
    while i < |ops|
      invariant i <= |ops|
      invariant fresh(e) && e.S().Run(ops[i..]) == INITIAL.Run(ops)
    {
      assert ops[i..][1..] == ops[i + 1..];
      e.Do(ops[i]);
      i := i + 1;
    }
  }
}
