/** Which settings are in force behind every run of calls, told by the calls alone: a local call lasts for one node,
    and what a global call asks for outlives the groups it is made in. */
module EmitterScopes {
  import opened Wrappers
  import opened EmitterModel
  import opened EmitterLayout
  import opened EmitterTree
  import opened EmitterSettings
  import EmitterKeys
  import S = EmitterSafety

  // ---- what the calls ask for

  /** Whether a call changes a setting for the next node. */
  predicate SetsLocally(op: Op, which: Setting)
  {
    match op
    case LocalFlow(_) => which == SeqFormat || which == MapFormat
    case LocalKeys(_) => which == MapKeyFormat
    case LocalIndent(n) => which == IndentWidth && n > 1
    case _ => false
  }

  predicate IsNode(op: Op) { op.WriteScalar? || op.WriteAlias? || op.BeginGroup? || op.EndGroup? }

  /** Settings as a call asks for them. */
  function Asked(op: Op): Settings
  {
    var st := Settings(Block, Block, false, 2);
    match op
    case LocalFlow(f) => st.(seqFormat := f, mapFormat := f)
    case LocalKeys(long) => st.(longKeys := long)
    case LocalIndent(n) => st.(indent := n)
    case GlobalSeqFlow(f) => st.(seqFormat := f)
    case GlobalMapFlow(f) => st.(mapFormat := f)
    case GlobalKeys(long) => st.(longKeys := long)
    case GlobalIndent(n) => st.(indent := n)
    case _ => st
  }

  /** The first of two values that is there. */
  function Either(a: Option<Settings>, b: Settings): Settings { if a.Some? then a.value else b }

  /** What is known of a setting: its value, the value from before the local calls that wait for a node, the same for
      each open group, and what the last global call asked for. */
  datatype Scope = Scope(now: Settings, before: Option<Settings>, outer: seq<Option<Settings>>,
                         global: Option<Settings>)
  {
    /** Behind a scalar or an alias. */
    function Over(): Scope { this.(now := Either(before, now), before := None) }

    /** Behind the end of a group. */
    function Closed(): Scope
      requires outer != []
    {
      var last := outer[|outer| - 1];
      this.(now := Either(before, Either(global, Either(last, now))), before := None, outer := outer[..|outer| - 1])
    }

    function After(op: Op, which: Setting): Scope
    {
      if Sets(op, which) then this.(now := Asked(op), global := Some(Asked(op)))
      else if SetsLocally(op, which) then this.(now := Asked(op), before := Some(now))
      else
        match op
        case WriteScalar(_, long) => if long && which == MapKeyFormat then this.(before := None) else Over()
        case WriteAlias(_, _) => Over()
        case BeginGroup(_) => this.(before := None, outer := outer + [before])
        case EndGroup(_) => if outer == [] then this.(before := None) else Closed()
        case _ => this
    }
  }

  function ScopeOf(ops: seq<Op>, which: Setting): Scope
    decreases |ops|
  {
    if ops == [] then Scope(Settings(Block, Block, false, 2), None, [], None)
    else ScopeOf(ops[..|ops| - 1], which).After(ops[|ops| - 1], which)
  }

  // ---- the lists of changes

  predicate Has(which: Setting, changes: seq<Change>) { EmitterKeys.LastSaved(which, changes) != [] }

  function LastOf(which: Setting, changes: seq<Change>): Settings
    requires Has(which, changes)
  {
    EmitterKeys.LastSaved(which, changes)[0]
  }

  predicate Same(which: Setting, a: Settings, b: Settings) { EmitterKeys.SameSetting(which, a, b) }

  /** A list of changes holds what a scope says. */
  ghost predicate Saved(which: Setting, changes: seq<Change>, o: Option<Settings>)
  {
    && (Has(which, changes) <==> o.Some?)
    && (o.Some? && Has(which, changes) ==> Same(which, LastOf(which, changes), o.value))
  }

  ghost predicate AllSaved(which: Setting, groups: seq<Group>, outer: seq<Option<Settings>>)
  {
    |outer| == |groups| && forall i | 0 <= i < |groups| :: Saved(which, groups[i].modified, outer[i])
  }

  /** The state of the emitter is as a scope says. */
  ghost predicate Agrees(s: State, z: Scope, which: Setting)
  {
    && Same(which, s.settings, z.now)
    && Saved(which, s.modified, z.before)
    && AllSaved(which, s.groups, z.outer)
    && Saved(which, s.globalModified, z.global)
  }

  /** The groups with their saved changes are as before. */
  ghost predicate SameLists(a: seq<Group>, b: seq<Group>)
  {
    |b| == |a| && forall i | 0 <= i < |a| :: b[i].modified == a[i].modified
  }

  ghost predicate SettingsKept(s: State, u: State)
  {
    && u.settings == s.settings && u.modified == s.modified && u.globalModified == s.globalModified
    && SameLists(s.groups, u.groups)
  }

  lemma KeptAgrees(s: State, u: State, z: Scope, which: Setting)
    requires SettingsKept(s, u) && Agrees(s, z, which)
    ensures Agrees(u, z, which)
  {
    hide Saved, Same;
  }

  // ---- what each call does to the lists

  lemma {:induction false} LastSavedAppended(which: Setting, changes: seq<Change>, c: Change)
    ensures EmitterKeys.LastSaved(which, changes + [c]) ==
            if c.which == which then [c.saved] else EmitterKeys.LastSaved(which, changes)
    decreases |changes|
  {
    if changes == [] {
      assert changes + [c] == [c] && [c][1..] == [];
    } else {
      assert (changes + [c])[1..] == changes[1..] + [c];
      LastSavedAppended(which, changes[1..], c);
    }
  }

  /** Taking changes back. */
  lemma RestoredSame(which: Setting, st: Settings, changes: seq<Change>, now: Settings, o: Option<Settings>)
    requires Same(which, st, now) && Saved(which, changes, o)
    ensures Same(which, Restore(st, changes), Either(o, now))
  {
    EmitterKeys.RestoreGivesLastSaved(st, which, changes);
    hide Restore, EmitterKeys.LastSaved;
  }

  lemma ClearedAgrees(n: State, z: Scope, which: Setting)
    requires Agrees(n, z, which)
    ensures Agrees(n.ClearModifiedSettings(), z.Over(), which)
  {
    RestoredSame(which, n.settings, n.modified, z.now, z.before);
    NoneSaved(which);
    hide Restore, Saved, AllSaved, Same;
  }

  lemma NoneSaved(which: Setting)
    ensures Saved(which, [], None)
  {
  }

  lemma SavedAppended(which: Setting, changes: seq<Change>, c: Change, o: Option<Settings>, v: Settings)
    requires Saved(which, changes, o) && (c.which == which ==> Same(which, c.saved, v))
    ensures Saved(which, changes + [c], if c.which == which then Some(v) else o)
  {
    LastSavedAppended(which, changes, c);
    hide EmitterKeys.LastSaved, EmitterKeys.SameSetting;
  }

  lemma WithSame(which: Setting, other: Setting, st: Settings, value: Settings, now: Settings)
    requires Same(which, st, now)
    ensures Same(which, st.With(other, value), if other == which then value else now)
  {
  }

  lemma SameThen(which: Setting, a: Settings, b: Settings, c: Settings)
    requires Same(which, a, b) && Same(which, b, c)
    ensures Same(which, a, c)
  {
  }

  /** A local change puts the value in force on the list. */
  lemma LocalAgrees(s: State, z: Scope, which: Setting, other: Setting, value: Settings, v: Settings)
    requires Agrees(s, z, which) && (other == which ==> Same(which, value, v))
    ensures Agrees(s.SetLocal(other, value), if other == which then z.(now := v, before := Some(z.now)) else z, which)
  {
    SavedAppended(which, s.modified, Change(other, s.settings), z.before, z.now);
    WithSame(which, other, s.settings, value, z.now);
    if other == which { SameThen(which, s.settings.With(other, value), value, v); }
    hide Saved, AllSaved, Same, Settings.With;
  }

  /** A global change puts its own value on the list. */
  lemma GlobalAgrees(s: State, z: Scope, which: Setting, other: Setting, value: Settings, v: Settings)
    requires Agrees(s, z, which) && (other == which ==> Same(which, value, v))
    ensures Agrees(s.SetGlobal(other, value), if other == which then z.(now := v, global := Some(v)) else z, which)
  {
    var st := s.settings.With(other, value);
    WithSame(which, other, s.settings, value, z.now);
    if other == which { SameThen(which, st, value, v); }
    SavedAppended(which, s.globalModified, Change(other, st), z.global, v);
    hide Saved, AllSaved, Same, Settings.With;
  }

  /** A new group takes the pending changes over. */
  lemma PushedAgrees(n: State, u: State, g: Group, z: Scope, which: Setting)
    requires Agrees(n, z, which)
    requires u.groups == n.groups + [g] && g.modified == n.modified && u.modified == []
    requires u.settings == n.settings && u.globalModified == n.globalModified
    ensures Agrees(u, z.(before := None, outer := z.outer + [z.before]), which)
  {
    NoneSaved(which);
    hide Saved, Same;
  }

  /** The end of a group takes its changes back, then what was set globally, then what waits. */
  lemma PoppedAgrees(x: State, u: State, z: Scope, which: Setting)
    requires Agrees(x, z, which) && x.groups != []
    requires u.groups == S.Below(x.groups) && u.modified == [] && u.globalModified == x.globalModified
    requires u.settings == Restore(Restore(Restore(x.settings, x.Top().modified), x.globalModified), x.modified)
    ensures z.outer != [] && Agrees(u, z.Closed(), which)
  {
    hide Saved, Restore, Same, Either;
    NoneSaved(which);
    var last := z.outer[|z.outer| - 1];
    assert Saved(which, x.Top().modified, last);
    var a := Restore(x.settings, x.Top().modified);
    RestoredSame(which, x.settings, x.Top().modified, z.now, last);
    RestoredSame(which, a, x.globalModified, Either(last, z.now), z.global);
    RestoredSame(which, Restore(a, x.globalModified), x.modified, Either(z.global, Either(last, z.now)), z.before);
  }

  // ---- what each call does to the settings

  lemma TopLists(p: State, g: Group)
    requires p.groups != [] && g.modified == p.Top().modified
    ensures SameLists(p.groups, p.WithTop(g).groups)
  {
  }

  lemma DecidedLists(s: State, child: Child)
    requires s.groups != []
    ensures SameLists(s.groups, Decided(s, child).groups)
  {
    TopLists(s, s.Top().(longKey := LaidOutLong(s, child)));
    hide State.WithTop, LaidOutLong;
  }

  lemma PreparedKept(s: State, child: Child)
    requires s.good && (s.InFlow() ==> child != BlockSeq && child != BlockMap)
    ensures SettingsKept(s, s.PrepareNode(child))
  {
    hide *;
    if s.groups != [] {
      PrepareWrites(s, child);
      DecidedTop(s, child);
      DecidedLists(s, child);
      WroteParts(Decided(s, child), s.PrepareNode(child), Lead(s, child));
      KeptBy(s, Decided(s, child), s.PrepareNode(child));
    } else {
      RootKept(s, child);
    }
  }

  lemma KeptBy(s: State, d: State, p: State)
    requires d == s.(groups := d.groups) && SameLists(s.groups, d.groups) && p == S.WithOutput(d, p)
    ensures SettingsKept(s, p)
  {
    hide SameLists;
  }

  lemma WroteKept(s: State, t: State)
    requires Wrote(s, t, [])
    ensures SettingsKept(s, t)
  {
    WroteParts(s, t, []);
    hide Structural, Wrote;
  }

  lemma KeptThen(s: State, t: State, u: State)
    requires SettingsKept(s, t) && SettingsKept(t, u)
    ensures SettingsKept(s, u)
  {
  }

  lemma DocKept(s: State)
    ensures SettingsKept(s, s.EmitBeginDoc()) && SettingsKept(s, s.EmitEndDoc()) && SettingsKept(s, s)
  {
    BreakIsQuiet(s, s.col > 0);
    WroteParts(s, s.BreakIf(s.col > 0), []);
    hide State.BreakIf, Structural;
  }

  lemma RootKept(s: State, child: Child)
    requires s.groups == []
    ensures SettingsKept(s, s.PrepareNode(child))
  {
    hide *;
    DocKept(s);
    if child == NoNode {
      NoChildAtRoot(s);
    } else {
      var t := if s.docCount > 0 && s.col > 0 then s.EmitBeginDoc() else s;
      EmitterKeys.TopNodeForm(s, child);
      BreakIsQuiet(t, t.HasBegunNode());
      WroteKept(t, t.BreakIf(t.HasBegunNode()));
      SpaceIsQuiet(t, t.HasBegunContent(), 0);
      WroteKept(t, t.SpaceOrIndentTo(t.HasBegunContent(), 0));
      KeptThen(s, t, s.PrepareNode(child));
    }
  }

  lemma NoChildAtRoot(s: State)
    requires s.groups == []
    ensures s.PrepareNode(NoNode) == s
  {
  }

  lemma StartedKept(p: State)
    ensures SettingsKept(p, p.StartedNode())
  {
    if p.groups != [] {
      var n := p.Top().childCount + 1;
      var g := p.Top().(childCount := n, longKey := p.Top().longKey && n % 2 != 0);
      WithTopHas(p, g);
      TopLists(p, g);
    }
    hide State.WithTop;
  }

  lemma PutKept(p: State, x: Token)
    ensures SettingsKept(p, p.Put(x))
  {
    hide TokenColumn, TokenComment;
  }

  lemma BesideKept(s: State, op: Op)
    requires s.good && (op.LineBreak? || op.WriteComment? || op.WriteAnchor? || op.WriteTag?)
    ensures SettingsKept(s, s.Step(op))
  {
    var p := s.PrepareNode(if op.WriteAnchor? || op.WriteTag? then Property else NoNode);
    BesideForm(s, op);
    hide *;
    NotNested(s);
    PreparedKept(s, Property);
    PreparedKept(s, NoNode);
    DocKept(s);
    KeptThen(s, p, s.Step(op));
  }

  lemma NotNested(s: State)
    ensures s.InFlow() ==> Property != BlockSeq && Property != BlockMap && NoNode != BlockSeq && NoNode != BlockMap
    ensures s.InFlow() ==> Scalar != BlockSeq && Scalar != BlockMap
  {
  }

  lemma BesideForm(s: State, op: Op)
    requires s.good && (op.LineBreak? || op.WriteComment? || op.WriteAnchor? || op.WriteTag?)
    ensures var p := s.PrepareNode(if op.WriteAnchor? || op.WriteTag? then Property else NoNode);
            SettingsKept(p, s.Step(op)) || SettingsKept(s, s.Step(op))
  {
    hide *;
    StepOf(s, op);
    match op {
      case LineBreak => BreakForm(s);
      case WriteComment(text) => CommentForm(s, text);
      case WriteAnchor(text, valid) => LabelForm(s, text, valid);
      case WriteTag(text, valid) => LabelForm(s, text, valid);
    }
  }

  lemma StepOf(s: State, op: Op)
    ensures op.LineBreak? ==> s.Step(op) == s.EmitNewline()
    ensures op.WriteComment? ==> s.Step(op) == s.EmitComment(op.text)
    ensures op.WriteAnchor? ==> s.Step(op) == s.EmitAnchor(op.text, op.valid)
    ensures op.WriteTag? ==> s.Step(op) == s.EmitTag(op.text, op.valid)
  {
    hide State.EmitNewline, State.EmitComment, State.EmitAnchor, State.EmitTag;
  }

  lemma BreakForm(s: State)
    requires s.good
    ensures SettingsKept(s.PrepareNode(NoNode), s.EmitNewline())
  {
    PutKept(s.PrepareNode(NoNode), Newline);
    hide State.PrepareNode, State.Put, SameLists;
  }

  lemma CommentForm(s: State, text: string)
    requires s.good
    ensures SettingsKept(s.PrepareNode(NoNode), s.EmitComment(text))
  {
    var p := s.PrepareNode(NoNode);
    PutKept(p, Pad(2));
    PutKept(p, Remark(text));
    PutKept(p.Put(Pad(2)), Remark(text));
    KeptThen(p, p.Put(Pad(2)), p.Put(Pad(2)).Put(Remark(text)));
    hide State.PrepareNode, State.Put, SameLists;
  }

  lemma LabelForm(s: State, text: string, valid: bool)
    requires s.good
    ensures var p, a, t := s.PrepareNode(Property), s.EmitAnchor(text, valid), s.EmitTag(text, valid);
            (SettingsKept(p, a) || SettingsKept(s, a)) && (SettingsKept(p, t) || SettingsKept(s, t))
  {
    PutKept(s.PrepareNode(Property), Content(text));
    DocKept(s);
    hide State.PrepareNode, State.Put, SameLists, State.EmitBeginDoc, State.EmitEndDoc;
  }

  lemma ContentKept(a: State, text: string)
    requires a.good
    ensures var n := a.PrepareNode(Scalar).Put(Content(text)).StartedNode();
            && SettingsKept(a, n)
            && a.PrepareNode(Scalar).Put(Content(text)).StartedScalar() == n.ClearModifiedSettings()
  {
    var p := a.PrepareNode(Scalar);
    var t := p.Put(Content(text));
    var n := t.StartedNode();
    assert t.StartedScalar() == n.ClearModifiedSettings() by { hide State.StartedNode, State.ClearModifiedSettings; }
    hide *;
    NotNested(a);
    PreparedKept(a, Scalar);
    PutKept(p, Content(text));
    StartedKept(t);
    KeptThen(a, p, t);
    KeptThen(a, t, n);
  }

  lemma GroupKept(s: State, kind: GroupType)
    requires s.good
    ensures SettingsKept(s, s.PrepareNode(s.NextGroupType(kind)).StartedNode())
  {
    var p := s.PrepareNode(s.NextGroupType(kind));
    hide *;
    NextKind(s, kind);
    PreparedKept(s, s.NextGroupType(kind));
    StartedKept(p);
    KeptThen(s, p, p.StartedNode());
  }

  lemma GroupStarts(s: State, kind: GroupType)
    requires s.good
    ensures var n, u := s.PrepareNode(s.NextGroupType(kind)).StartedNode(), s.Step(BeginGroup(kind));
            && u.settings == n.settings && u.modified == [] && u.globalModified == n.globalModified
            && exists g: Group :: u.groups == n.groups + [g] && g.modified == n.modified
  {
    var n := s.PrepareNode(s.NextGroupType(kind)).StartedNode();
    assert s.Step(BeginGroup(kind)).groups ==
           n.groups + [Group(kind, n.FlowOf(kind), n.settings.indent, 0, false, n.modified)];
    hide State.PrepareNode, State.StartedNode, State.FlowOf, State.CurGroupIndent, State.NextGroupType;
  }

  lemma ForcedKept(s: State, kind: GroupType)
    requires s.good && s.groups != [] && (s.Top().flow == Flow || s.Top().childCount == 0)
    ensures var x := S.Forced(s).CloseFlow(kind, s.Top().flow == Block);
            SettingsKept(s, x) && s.EmitEndGroup(kind) == x.EndedGroup(kind) && x.groups != []
  {
    var f := S.Forced(s);
    var x := f.CloseFlow(kind, s.Top().flow == Block);
    ForcedLists(s);
    hide *;
    S.FlowEndForm(s, kind);
    S.ForcedIs(s);
    S.CloseFlowWrites(f, kind, s.Top().flow == Block);
    WroteParts(f, x, S.Closing(f, kind, s.Top().flow == Block));
    KeptBy(s, f, x);
    SameFlags(s, f, x);
  }

  lemma ForcedLists(s: State)
    requires s.groups != []
    ensures SameLists(s.groups, S.Forced(s).groups)
  {
    TopLists(s, s.Top().(flow := Flow));
    hide State.WithTop;
  }

  lemma EndedSettings(x: State, kind: GroupType)
    requires x.groups != [] && x.EndedGroup(kind).good
    ensures var u := x.EndedGroup(kind);
            && u.groups == S.Below(x.groups) && u.modified == [] && u.globalModified == x.globalModified
            && u.settings == Restore(Restore(Restore(x.settings, x.Top().modified), x.globalModified), x.modified)
  {
    assert x.Top().kind == kind by { hide Restore, State.BackBelow; }
    assert x.EndedGroup(kind) == x.Popped().BackBelow() by { hide State.Popped, State.BackBelow; }
    hide Restore, State.EndedGroup, State.CurGroupIndent;
  }

  /** What stands in front of the end of a group: the closing bracket, if there is one. */
  function BehindBracket(s: State, kind: GroupType): State
    requires s.groups != []
  {
    if s.Top().flow == Flow || s.Top().childCount == 0 then S.Forced(s).CloseFlow(kind, s.Top().flow == Block) else s
  }

  lemma EndKept(s: State, kind: GroupType)
    requires s.good && s.Step(EndGroup(kind)).good
    ensures s.groups != [] && BehindBracket(s, kind).groups != [] && SettingsKept(s, BehindBracket(s, kind))
    ensures s.Step(EndGroup(kind)) == BehindBracket(s, kind).EndedGroup(kind)
  {
    EndAllowed(s, kind);
    assert s.Step(EndGroup(kind)) == s.EmitEndGroup(kind) by { hide State.EmitEndGroup; }
    ClosedIs(s, kind);
    hide *;
    if s.Top().flow == Flow || s.Top().childCount == 0 {
      ForcedKept(s, kind);
    } else {
      BlockEnds(s, kind);
      DocKept(s);
    }
  }

  lemma ClosedIs(s: State, kind: GroupType)
    requires s.groups != []
    ensures BehindBracket(s, kind) ==
            if s.Top().flow == Flow || s.Top().childCount == 0 then S.Forced(s).CloseFlow(kind, s.Top().flow == Block)
            else s
  {
    hide S.Forced, State.CloseFlow;
  }

  lemma DocForm(s: State, op: Op)
    requires op == BeginDoc || op == EndDoc
    ensures SettingsKept(s, s.Step(op))
  {
    DocKept(s);
    hide State.EmitBeginDoc, State.EmitEndDoc, SettingsKept;
  }

  lemma ScalarForm(s: State, text: string, long: bool)
    requires s.good
    ensures var a := if long then s.SetLocal(MapKeyFormat, s.settings.(longKeys := true)) else s;
            && s.Step(WriteScalar(text, long)) == a.PrepareNode(Scalar).Put(Content(text)).StartedScalar()
            && a.good
  {
    hide State.PrepareNode, State.StartedScalar, State.Put, Settings.With;
  }

  lemma AliasForm(s: State, text: string, valid: bool)
    requires s.good && s.Step(WriteAlias(text, valid)).good
    ensures s.Step(WriteAlias(text, valid)) ==
            s.PrepareNode(Scalar).Put(Content(text)).StartedScalar().(hasAlias := true)
  {
    hide State.PrepareNode, State.StartedScalar, State.Put;
  }

  // ---- every call follows the scope

  /** The scope after a call is that of the state after it. */
  ghost predicate Follows(s: State, op: Op, z: Scope, which: Setting) { Agrees(s.Step(op), z.After(op, which), which) }

  lemma BesideFollows(s: State, op: Op, z: Scope, which: Setting)
    requires Agrees(s, z, which) && SettingsKept(s, s.Step(op)) && z.After(op, which) == z
    ensures Follows(s, op, z, which)
  {
    hide Agrees, State.Step, SettingsKept, Scope.After;
    KeptAgrees(s, s.Step(op), z, which);
  }

  /** A scalar or an alias, behind what it asks for itself. */
  lemma ContentAgrees(a: State, u: State, text: string, z: Scope, which: Setting)
    requires a.good && Agrees(a, z, which)
    requires var c := a.PrepareNode(Scalar).Put(Content(text)).StartedScalar();
             u == c.(hasAlias := u.hasAlias, good := u.good)
    ensures Agrees(u, z.Over(), which)
  {
    var n := a.PrepareNode(Scalar).Put(Content(text)).StartedNode();
    hide *;
    ContentKept(a, text);
    KeptAgrees(a, n, z, which);
    ClearedAgrees(n, z, which);
    FlagsAgree(n.ClearModifiedSettings(), u, z.Over(), which);
  }

  lemma FlagsAgree(c: State, u: State, z: Scope, which: Setting)
    requires u == c.(hasAlias := u.hasAlias, good := u.good) && Agrees(c, z, which)
    ensures Agrees(u, z, which)
  {
    hide Saved, AllSaved, Same;
  }

  lemma ScalarFollows(s: State, text: string, long: bool, z: Scope, which: Setting)
    requires s.good && Agrees(s, z, which)
    ensures Follows(s, WriteScalar(text, long), z, which)
  {
    var value := s.settings.(longKeys := true);
    var a := if long then s.SetLocal(MapKeyFormat, value) else s;
    var y := if long && which == MapKeyFormat then z.(now := value, before := Some(z.now)) else z;
    hide *;
    ScalarForm(s, text, long);
    LongIsOver(z, text, long, which, value);
    SelfSame(which, value);
    if long { LocalAgrees(s, z, which, MapKeyFormat, value, value); }
    ContentAgrees(a, s.Step(WriteScalar(text, long)), text, y, which);
    FollowsIf(s, WriteScalar(text, long), z, which);
  }

  lemma LongIsOver(z: Scope, text: string, long: bool, which: Setting, value: Settings)
    ensures var y := if long && which == MapKeyFormat then z.(now := value, before := Some(z.now)) else z;
            y.Over() == z.After(WriteScalar(text, long), which)
  {
  }

  lemma SelfSame(which: Setting, value: Settings)
    ensures Same(which, value, value)
  {
  }

  lemma AliasFollows(s: State, text: string, valid: bool, z: Scope, which: Setting)
    requires s.good && s.Step(WriteAlias(text, valid)).good && Agrees(s, z, which)
    ensures Follows(s, WriteAlias(text, valid), z, which)
  {
    hide *;
    AliasForm(s, text, valid);
    AliasIsOver(z, text, valid, which);
    ContentAgrees(s, s.Step(WriteAlias(text, valid)), text, z, which);
    FollowsIf(s, WriteAlias(text, valid), z, which);
  }

  lemma AliasIsOver(z: Scope, text: string, valid: bool, which: Setting)
    ensures z.After(WriteAlias(text, valid), which) == z.Over()
  {
  }

  lemma GroupFollows(s: State, kind: GroupType, z: Scope, which: Setting)
    requires s.good && Agrees(s, z, which)
    ensures Follows(s, BeginGroup(kind), z, which)
  {
    var u := s.Step(BeginGroup(kind));
    var n := s.PrepareNode(s.NextGroupType(kind)).StartedNode();
    GroupStarts(s, kind);
    assert z.After(BeginGroup(kind), which) == z.(before := None, outer := z.outer + [z.before]);
    hide *;
    GroupKept(s, kind);
    KeptAgrees(s, n, z, which);
    var g: Group :| u.groups == n.groups + [g] && g.modified == n.modified;
    PushedAgrees(n, u, g, z, which);
    FollowsIf(s, BeginGroup(kind), z, which);
  }

  lemma FollowsIf(s: State, op: Op, z: Scope, which: Setting)
    ensures Follows(s, op, z, which) <==> Agrees(s.Step(op), z.After(op, which), which)
  {
  }

  lemma EndFollows(s: State, kind: GroupType, z: Scope, which: Setting)
    requires s.good && s.Step(EndGroup(kind)).good && Agrees(s, z, which)
    ensures Follows(s, EndGroup(kind), z, which)
  {
    assert z.outer != [] ==> z.After(EndGroup(kind), which) == z.Closed();
    hide *;
    EndKept(s, kind);
    var x := BehindBracket(s, kind);
    KeptAgrees(s, x, z, which);
    EndedSettings(x, kind);
    PoppedAgrees(x, s.Step(EndGroup(kind)), z, which);
    FollowsIf(s, EndGroup(kind), z, which);
  }

  lemma FlowCallFollows(s: State, f: FlowType, z: Scope, which: Setting)
    requires s.good && Agrees(s, z, which)
    ensures Follows(s, LocalFlow(f), z, which)
  {
    var v := Asked(LocalFlow(f));
    var b := s.SetLocal(SeqFormat, s.settings.(seqFormat := f));
    assert s.Step(LocalFlow(f)) == b.SetLocal(MapFormat, s.settings.(mapFormat := f)) by { hide State.SetLocal; }
    hide State.Step, State.SetLocal, Agrees;
    var y := if which == SeqFormat then z.(now := v, before := Some(z.now)) else z;
    LocalAgrees(s, z, which, SeqFormat, s.settings.(seqFormat := f), v);
    LocalAgrees(b, y, which, MapFormat, s.settings.(mapFormat := f), v);
  }

  lemma LocalFollows(s: State, op: Op, z: Scope, which: Setting)
    requires s.good && Agrees(s, z, which) && IsLocal(op)
    ensures Follows(s, op, z, which)
  {
    match op
    case LocalFlow(f) => FlowCallFollows(s, f, z, which);
    case LocalKeys(long) =>
      hide State.SetLocal, Agrees;
      LocalAgrees(s, z, which, MapKeyFormat, s.settings.(longKeys := long), Asked(op));
    case LocalIndent(n) =>
      hide State.SetLocal, Agrees;
      if n > 1 { LocalAgrees(s, z, which, IndentWidth, s.settings.(indent := n), Asked(op)); }
  }

  /** The setting a global call is about, and the settings with its value. */
  function About(op: Op): Setting
    requires SetsGlobally(op)
  {
    match op
    case GlobalSeqFlow(_) => SeqFormat
    case GlobalMapFlow(_) => MapFormat
    case GlobalKeys(_) => MapKeyFormat
    case GlobalIndent(_) => IndentWidth
  }

  predicate Heeded(op: Op) { op.GlobalIndent? ==> op.n > 1 }

  lemma GlobalForm(s: State, op: Op)
    requires SetsGlobally(op)
    ensures s.Step(op) == if Heeded(op) then s.SetGlobal(About(op), s.settings.With(About(op), Asked(op))) else s
  {
    hide State.EmitBeginDoc, State.EmitEndDoc, State.EmitBeginGroup, State.EmitEndGroup, State.EmitNewline,
      State.EmitScalar, State.EmitAlias, State.EmitAnchor, State.EmitTag, State.EmitComment, State.SetGlobal;
  }

  lemma AboutSets(st: Settings, op: Op, which: Setting)
    requires SetsGlobally(op)
    ensures Same(About(op), st.With(About(op), Asked(op)), Asked(op))
    ensures Sets(op, which) <==> About(op) == which && Heeded(op)
  {
  }

  lemma GlobalFollows(s: State, op: Op, z: Scope, which: Setting)
    requires Agrees(s, z, which) && SetsGlobally(op)
    ensures Follows(s, op, z, which)
  {
    var value := s.settings.With(About(op), Asked(op));
    GlobalForm(s, op);
    AboutSets(s.settings, op, which);
    assert !SetsLocally(op, which);
    hide Agrees, State.Step, State.SetGlobal, Sets, Settings.With, About, Asked, Same;
    if Heeded(op) { GlobalAgrees(s, z, which, About(op), value, Asked(op)); }
  }

  lemma StepFollows(s: State, op: Op, z: Scope, which: Setting)
    requires s.good && s.Step(op).good && Agrees(s, z, which)
    ensures Follows(s, op, z, which)
  {
    hide Agrees, State.Step, Follows;
    match op {
      case BeginDoc => DocForm(s, op); BesideFollows(s, op, z, which);
      case EndDoc => DocForm(s, op); BesideFollows(s, op, z, which);
      case BeginGroup(kind) => GroupFollows(s, kind, z, which);
      case EndGroup(kind) => EndFollows(s, kind, z, which);
      case WriteScalar(text, long) => ScalarFollows(s, text, long, z, which);
      case WriteAlias(text, valid) => AliasFollows(s, text, valid, z, which);
      case LocalFlow(_) => LocalFollows(s, op, z, which);
      case LocalKeys(_) => LocalFollows(s, op, z, which);
      case LocalIndent(_) => LocalFollows(s, op, z, which);
      case GlobalSeqFlow(_) => GlobalFollows(s, op, z, which);
      case GlobalMapFlow(_) => GlobalFollows(s, op, z, which);
      case GlobalKeys(_) => GlobalFollows(s, op, z, which);
      case GlobalIndent(_) => GlobalFollows(s, op, z, which);
      case _ => BesideKept(s, op); BesideFollows(s, op, z, which);
    }
  }

  lemma GoodFront(s: State, ops: seq<Op>)
    requires ops != [] && s.Run(ops).good
    ensures s.Run(ops[..|ops| - 1]).good
  {
    hide *;
    RunLast(s, ops);
    var t := s.Run(ops[..|ops| - 1]);
    if !t.good {
      RunOne(t, ops[|ops| - 1]);
      S.RunStopped(t, [ops[|ops| - 1]]);
    }
  }

  lemma {:induction false} RunAgrees(ops: seq<Op>, which: Setting)
    requires INITIAL.Run(ops).good
    ensures Agrees(INITIAL.Run(ops), ScopeOf(ops, which), which)
    decreases |ops|
  {
    if ops == [] {
    } else {
      var front, last := ops[..|ops| - 1], ops[|ops| - 1];
      assert ScopeOf(ops, which) == ScopeOf(front, which).After(last, which);
      hide *;
      GoodFront(INITIAL, ops);
      RunLast(INITIAL, ops);
      RunAgrees(front, which);
      StepFollows(INITIAL.Run(front), last, ScopeOf(front, which), which);
      FollowsIf(INITIAL.Run(front), last, ScopeOf(front, which), which);
    }
  }

  /** Behind every good run each setting is what the calls say. */
  lemma InForceExactly(ops: seq<Op>, which: Setting)
    requires INITIAL.Run(ops).good
    ensures Same(which, INITIAL.Run(ops).settings, ScopeOf(ops, which).now)
  {
    RunAgrees(ops, which);
    hide State.Run, ScopeOf, Same, Saved, AllSaved;
  }

  // ---- local calls are taken back, global ones are not

  /** A local call for the setting that no node has followed yet. */
  predicate Waiting(ops: seq<Op>, which: Setting)
    decreases |ops|
  {
    ops != [] &&
    var last := ops[|ops| - 1];
    SetsLocally(last, which) || (!IsNode(last) && Waiting(ops[..|ops| - 1], which))
  }

  predicate Crosses(op: Op, which: Setting)
  {
    || Sets(op, which) || SetsLocally(op, which) || op.EndGroup?
    || (op.WriteScalar? && op.longKey && which == MapKeyFormat)
  }

  /** No call comes in the way of a local one. */
  predicate Orderly(ops: seq<Op>, which: Setting)
  {
    forall i | 0 <= i < |ops| && Crosses(ops[i], which) :: !Waiting(ops[..i], which)
  }

  /** What the last global call for a setting asks for, or what a new emitter has. */
  function Chosen(ops: seq<Op>, which: Setting): Settings
    decreases |ops|
  {
    if ops == [] then Settings(Block, Block, false, 2)
    else
      var last := ops[|ops| - 1];
      if Sets(last, which) then Asked(last) else Chosen(ops[..|ops| - 1], which)
  }

  lemma OrderlyFront(ops: seq<Op>, which: Setting)
    requires ops != [] && Orderly(ops, which)
    ensures Orderly(ops[..|ops| - 1], which)
    ensures Crosses(ops[|ops| - 1], which) ==> !Waiting(ops[..|ops| - 1], which)
  {
    hide Crosses, Waiting;
    var front := ops[..|ops| - 1];
    forall i | 0 <= i < |front| && Crosses(front[i], which) ensures !Waiting(front[..i], which) {
      assert front[..i] == ops[..i] && front[i] == ops[i];
    }
  }

  lemma ChosenLast(ops: seq<Op>, which: Setting)
    requires ops != []
    ensures var front, last := ops[..|ops| - 1], ops[|ops| - 1];
            && Chosen(ops, which) == (if Sets(last, which) then Asked(last) else Chosen(front, which))
            && Waiting(ops, which) == (SetsLocally(last, which) || (!IsNode(last) && Waiting(front, which)))
  {
    hide Sets, Asked, SetsLocally, IsNode;
  }

  /** The value outside the outermost open group that was begun behind a local call. */
  function Outermost(outer: seq<Option<Settings>>): Option<Settings>
    decreases |outer|
  {
    if outer == [] then None
    else
      var rest := Outermost(outer[..|outer| - 1]);
      if rest.Some? then rest else outer[|outer| - 1]
  }

  /** Undoing all local calls leads to the chosen value. */
  predicate Unwinds(z: Scope, chosen: Settings)
  {
    && (z.global.Some? ==> z.global.value == chosen)
    && (Outermost(z.outer).None? ==> Either(z.before, z.now) == chosen)
    && (Outermost(z.outer).Some? && z.global.None? ==> Outermost(z.outer).value == chosen)
  }

  lemma OutermostAppended(outer: seq<Option<Settings>>, o: Option<Settings>)
    ensures Outermost(outer + [o]) == if Outermost(outer).Some? then Outermost(outer) else o
  {
    assert (outer + [o])[..|outer|] == outer;
  }

  lemma AfterUnwinds(z: Scope, op: Op, which: Setting, chosen: Settings)
    requires Unwinds(z, chosen) && (Crosses(op, which) ==> z.before.None?)
    ensures Unwinds(z.After(op, which), if Sets(op, which) then Asked(op) else chosen)
  {
    hide Asked;
    OutermostAppended(z.outer, z.before);
  }

  /** A local call waits, and a global one was made, just when the scope says so. */
  lemma {:induction false} ScopeIs(ops: seq<Op>, which: Setting)
    ensures ScopeOf(ops, which).before.Some? <==> Waiting(ops, which)
    ensures ScopeOf(ops, which).global == if EverSet(ops, which) then Some(Chosen(ops, which)) else None
    decreases |ops|
  {
    hide Asked;
    if ops == [] {
    } else {
      ScopeIs(ops[..|ops| - 1], which);
      EverSetLast(ops, which);
    }
  }

  predicate EverSet(ops: seq<Op>, which: Setting) { exists i :: 0 <= i < |ops| && Sets(ops[i], which) }

  lemma EverSetLast(ops: seq<Op>, which: Setting)
    requires ops != []
    ensures EverSet(ops, which) <==> EverSet(ops[..|ops| - 1], which) || Sets(ops[|ops| - 1], which)
  {
    hide Sets;
    var front := ops[..|ops| - 1];
    if EverSet(ops, which) {
      var i :| 0 <= i < |ops| && Sets(ops[i], which);
      if i < |front| { assert Sets(front[i], which); }
    }
    if EverSet(front, which) {
      var i :| 0 <= i < |front| && Sets(front[i], which);
      assert Sets(ops[i], which);
    }
  }

  lemma {:induction false} ScopeUnwinds(ops: seq<Op>, which: Setting)
    requires Orderly(ops, which)
    ensures Unwinds(ScopeOf(ops, which), Chosen(ops, which))
    decreases |ops|
  {
    if ops == [] {
    } else {
      var front, last := ops[..|ops| - 1], ops[|ops| - 1];
      assert ScopeOf(ops, which) == ScopeOf(front, which).After(last, which);
      hide *;
      OrderlyFront(ops, which);
      ScopeUnwinds(front, which);
      ScopeIs(front, which);
      ChosenLast(ops, which);
      AfterUnwinds(ScopeOf(front, which), last, which, Chosen(front, which));
    }
  }

  /** Between documents a setting is what the last global call for it asked for, wherever that call
      stood: every local change is taken back by then, and no global one is. */
  lemma SettingsReturn(ops: seq<Op>, which: Setting)
    requires INITIAL.Run(ops).good && INITIAL.Run(ops).groups == []
    requires Orderly(ops, which) && !Waiting(ops, which)
    ensures Same(which, INITIAL.Run(ops).settings, Chosen(ops, which))
  {
    hide *;
    RunAgrees(ops, which);
    NoGroups(INITIAL.Run(ops), ScopeOf(ops, which), which);
    ScopeUnwinds(ops, which);
    ScopeIs(ops, which);
    NowIs(ScopeOf(ops, which), Chosen(ops, which));
  }

  lemma NoGroups(s: State, z: Scope, which: Setting)
    requires Agrees(s, z, which) && s.groups == []
    ensures Same(which, s.settings, z.now) && z.outer == []
  {
    hide Same, Saved;
  }

  lemma NowIs(z: Scope, chosen: Settings)
    requires Unwinds(z, chosen) && z.outer == [] && z.before.None?
    ensures z.now == chosen
  {
  }

  /** Once a setting was set globally, the end of any group gives it the last such value, even where a group around
      was begun behind a local call that asked for another. */
  lemma EndGivesGlobal(ops: seq<Op>, kind: GroupType, which: Setting)
    requires INITIAL.Run(ops + [EndGroup(kind)]).good && EverSet(ops, which) && !Waiting(ops, which)
    ensures Same(which, INITIAL.Run(ops + [EndGroup(kind)]).settings, Chosen(ops, which))
  {
    hide *;
    EndScope(ops, kind, which);
    ScopeIs(ops, which);
    InForceExactly(ops + [EndGroup(kind)], which);
    ClosedNow(ScopeOf(ops, which));
  }

  lemma ClosedNow(z: Scope)
    requires z.outer != []
    ensures z.before.Some? ==> z.Closed().now == z.before.value
    ensures z.before.None? && z.global.Some? ==> z.Closed().now == z.global.value
  {
  }

  lemma EndScope(ops: seq<Op>, kind: GroupType, which: Setting)
    requires INITIAL.Run(ops + [EndGroup(kind)]).good
    ensures INITIAL.Run(ops).good && ScopeOf(ops, which).outer != []
    ensures ScopeOf(ops + [EndGroup(kind)], which) == ScopeOf(ops, which).Closed()
  {
    var all := ops + [EndGroup(kind)];
    assert all[..|all| - 1] == ops && all[|all| - 1] == EndGroup(kind);
    assert ScopeOf(all, which) == ScopeOf(ops, which).After(EndGroup(kind), which) by { hide Scope.After; }
    assert ScopeOf(ops, which).outer != [] ==>
        ScopeOf(ops, which).After(EndGroup(kind), which) == ScopeOf(ops, which).Closed()
      by { hide ScopeOf, Scope.Closed; }
    hide *;
    GoodFront(INITIAL, all);
    RunLast(INITIAL, all);
    RunAgrees(ops, which);
    EndKept(INITIAL.Run(ops), kind);
    SomeGroup(INITIAL.Run(ops), ScopeOf(ops, which), which);
  }

  lemma SomeGroup(s: State, z: Scope, which: Setting)
    requires Agrees(s, z, which) && s.groups != []
    ensures z.outer != []
  {
    hide Same, Saved;
  }

  /** A local call at the end of a group carries the value from inside the group out of it. */
  lemma LocalLeaks(ops: seq<Op>, op: Op, kind: GroupType, which: Setting)
    requires SetsLocally(op, which) && INITIAL.Run(ops + [op] + [EndGroup(kind)]).good
    ensures Same(which, INITIAL.Run(ops + [op] + [EndGroup(kind)]).settings, INITIAL.Run(ops).settings)
  {
    hide *;
    LocalScope(ops, op, which);
    EndScope(ops + [op], kind, which);
    InForceExactly(ops + [op] + [EndGroup(kind)], which);
    ClosedNow(ScopeOf(ops + [op], which));
    assert (ops + [op])[..|ops|] == ops;
    GoodFront(INITIAL, ops + [op]);
    InForceExactly(ops, which);
    SameBoth(which, INITIAL.Run(ops + [op] + [EndGroup(kind)]).settings, INITIAL.Run(ops).settings,
             ScopeOf(ops, which).now);
  }

  lemma SameBoth(which: Setting, a: Settings, b: Settings, c: Settings)
    requires Same(which, a, c) && Same(which, b, c)
    ensures Same(which, a, b)
  {
  }

  lemma LocalScope(ops: seq<Op>, op: Op, which: Setting)
    requires SetsLocally(op, which)
    ensures ScopeOf(ops + [op], which).before == Some(ScopeOf(ops, which).now)
  {
    assert (ops + [op])[..|ops|] == ops;
    hide Asked;
  }
}
