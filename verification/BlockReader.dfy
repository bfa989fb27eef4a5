/** Reading block layout back: a reader that goes by the columns of the marks, and the documents
    that come back from what the emitter wrote. */
module BlockReader {
  import opened EmitterModel
  import opened EmitterLayout
  import opened EmitterTree
  import opened EmitterText
  import opened Wrappers

  // ---- marks with their columns

  /** A mark, the column it stands in, and whether a line break stands between it and the mark
      before. */
  datatype Placed = Placed(token: Token, col: nat, anew: bool)

  predicate Kept(t: Token) { Mark(t) || t.DocStart? }

  /** The marks of an output. */
  function Places(ts: seq<Token>, col: nat, anew: bool): seq<Placed>
    decreases |ts|
  {
    if ts == [] then []
    else
      var more := Places(ts[1..], TokenColumn(col, ts[0]), AnewAfter(anew, ts[0]));
      if Kept(ts[0]) then [Placed(ts[0], col, anew)] + more else more
  }

  function AnewAfter(anew: bool, t: Token): bool { if Kept(t) then false else anew || t.Newline? }

  function Anew(anew: bool, ts: seq<Token>): bool
    decreases |ts|
  {
    if ts == [] then anew else Anew(AnewAfter(anew, ts[0]), ts[1..])
  }

  lemma {:induction false} PlacesConcat(a: seq<Token>, b: seq<Token>, col: nat, anew: bool)
    ensures Places(a + b, col, anew) == Places(a, col, anew) + Places(b, After(col, a), Anew(anew, a))
    ensures Anew(anew, a + b) == Anew(Anew(anew, a), b)
    decreases |a|
  {
    hide Kept, AnewAfter, TokenColumn;
    if a == [] {
      assert a + b == b;
    } else {
      assert (a + b)[1..] == a[1..] + b;
      PlacesConcat(a[1..], b, TokenColumn(col, a[0]), AnewAfter(anew, a[0]));
    }
  }

  // ---- the reader

  function Tokens(ms: seq<Placed>): (ts: seq<Token>)
    ensures |ts| == |ms|
  {
    if ms == [] then [] else [ms[0].token] + Tokens(ms[1..])
  }

  /** A scalar or a group in flow layout. */
  function ReadFlat(ms: seq<Placed>): (r: Option<(Tree, seq<Placed>)>)
    ensures r.Some? ==> |r.value.1| < |ms|
  {
    var r := ReadNode(Tokens(ms));
    if r.None? then None else Some((r.value.0, ms[|ms| - |r.value.1|..]))
  }

  /** The colon behind a simple key: on the line of the key. */
  predicate Behind(ms: seq<Placed>) { ms != [] && ms[0].token == Colon && !ms[0].anew }

  /** The colon behind a long key, in the column of its question mark. */
  predicate Below(ms: seq<Placed>, c: nat) { ms != [] && ms[0] == Placed(Colon, c, true) }

  predicate StartsFlat(ms: seq<Placed>) { ms != [] && (ms[0].token.Content? || ms[0].token.Open?) }

  predicate StartsWith(ms: seq<Placed>, t: Token, c: nat) { ms != [] && ms[0].token == t && ms[0].col == c }

  /** One node, and what follows it. */
  function Read(ms: seq<Placed>): (r: Option<(Tree, seq<Placed>)>)
    ensures r.Some? ==> |r.value.1| < |ms|
    decreases |ms|, 1
  {
    if ms == [] then None
    else if ms[0].token == Dash then
      var r := ReadSeq(ms[0].col, ms);
      if r.None? then None else Some((Node(Seq, r.value.0), r.value.1))
    else if ms[0].token == Question then
      var r := ReadMap(ms[0].col, ms);
      if r.None? then None else Some((Node(Map, r.value.0), r.value.1))
    else if StartsFlat(ms) then
      var flat := ReadFlat(ms);
      if flat.Some? && Behind(flat.value.1) then
        var r := ReadMap(ms[0].col, ms);
        if r.None? then None else Some((Node(Map, r.value.0), r.value.1))
      else flat
    else None
  }

  /** The entries of a block sequence whose dashes stand in column `c`. */
  function ReadSeq(c: nat, ms: seq<Placed>): (r: Option<(seq<Tree>, seq<Placed>)>)
    ensures r.Some? ==> |r.value.1| <= |ms| && (StartsWith(ms, Dash, c) ==> |r.value.1| < |ms|)
    decreases |ms|, 0
  {
    if !StartsWith(ms, Dash, c) then Some(([], ms))
    else
      var first := Read(ms[1..]);
      if first.None? then None
      else
        var more := ReadSeq(c, first.value.1);
        if more.None? then None else Some(([first.value.0] + more.value.0, more.value.1))
  }

  /** The entries of a block map whose keys stand in column `c`. */
  function ReadMap(c: nat, ms: seq<Placed>): (r: Option<(seq<Tree>, seq<Placed>)>)
    ensures r.Some? ==> |r.value.1| <= |ms|
    ensures r.Some? && ms != [] && ms[0].col == c && (ms[0].token == Question || StartsFlat(ms)) ==>
              |r.value.1| < |ms|
    decreases |ms|, 0
  {
    if StartsWith(ms, Question, c) then
      var key := Read(ms[1..]);
      if key.None? || !Below(key.value.1, c) then None else ReadValue(c, key.value.0, key.value.1)
    else if StartsFlat(ms) && ms[0].col == c then
      var key := ReadFlat(ms);
      if key.None? || !Behind(key.value.1) then None else ReadValue(c, key.value.0, key.value.1)
    else Some(([], ms))
  }

  /** The value of an entry, from its colon on, and the entries behind it. */
  function ReadValue(c: nat, key: Tree, ms: seq<Placed>): (r: Option<(seq<Tree>, seq<Placed>)>)
    requires ms != []
    ensures r.Some? ==> |r.value.1| < |ms|
    decreases |ms|, 1
  {
    var value := Read(ms[1..]);
    if value.None? then None
    else
      var more := ReadMap(c, value.value.1);
      if more.None? then None else Some(([key, value.value.0] + more.value.0, more.value.1))
  }

  /** Documents with markers in between. */
  function ReadDocuments(ms: seq<Placed>): Option<seq<Tree>>
    decreases |ms|
  {
    if ms == [] then Some([])
    else
      var first := Read(ms);
      if first.None? then None
      else if first.value.1 == [] then Some([first.value.0])
      else if !first.value.1[0].token.DocStart? || first.value.1[1..] == [] then None
      else
        var more := ReadDocuments(first.value.1[1..]);
        if more.None? then None else Some([first.value.0] + more.value)
  }

  // ---- what can be read back

  /** An empty flow group is written one indent too far in when it is a simple key. */
  predicate KeyInColumn(key: Tree, st: Settings)
  {
    LongKey(key, false, st) || key.Leaf? || key.children != []
  }

  /** Every key in block layout has a value, and stands in its column. */
  predicate Readable(t: Tree, st: Settings)
    decreases t, 0
  {
    match t
    case Leaf(_, _) => true
    case Node(kind, ts) =>
      AsFlow(kind, false, st) || (if kind == Seq then AllReadable(ts, st) else EntriesReadable(ts, st))
  }

  predicate AllReadable(ts: seq<Tree>, st: Settings)
    decreases ts, 1
  {
    ts == [] || (Readable(ts[0], st) && AllReadable(ts[1..], st))
  }

  predicate EntriesReadable(ts: seq<Tree>, st: Settings)
    decreases ts, 1
  {
    ts == [] ||
    (|ts| > 1 && KeyInColumn(ts[0], st) && Readable(ts[0], st) && Readable(ts[1], st) && EntriesReadable(ts[2..], st))
  }

  // ---- the structure of the text is the print

  /** The marks without their columns. */
  function KeptOnly(ts: seq<Token>): seq<Token>
    decreases |ts|
  {
    if ts == [] then [] else (if Kept(ts[0]) then [ts[0]] else []) + KeptOnly(ts[1..])
  }

  lemma {:induction false} KeptConcat(a: seq<Token>, b: seq<Token>)
    ensures KeptOnly(a + b) == KeptOnly(a) + KeptOnly(b)
    decreases |a|
  {
    hide Kept;
    if a == [] {
      assert a + b == b;
    } else {
      assert (a + b)[1..] == a[1..] + b;
      KeptConcat(a[1..], b);
      var first := if Kept(a[0]) then [a[0]] else [];
      Associate(first, KeptOnly(a[1..]), KeptOnly(b));
    }
  }

  lemma Associate<T>(a: seq<T>, b: seq<T>, c: seq<T>)
    ensures a + b + c == a + (b + c)
  {
  }

  lemma {:induction false} TokensConcat(a: seq<Placed>, b: seq<Placed>)
    ensures Tokens(a + b) == Tokens(a) + Tokens(b)
  {
    if a == [] {
      assert a + b == b;
    } else {
      assert (a + b)[1..] == a[1..] + b;
      TokensConcat(a[1..], b);
    }
  }

  lemma {:induction false} TokensOfPlaces(ts: seq<Token>, col: nat, anew: bool)
    ensures Tokens(Places(ts, col, anew)) == KeptOnly(ts)
    decreases |ts|
  {
    hide Kept, TokenColumn, AnewAfter;
    if ts != [] {
      var more := Places(ts[1..], TokenColumn(col, ts[0]), AnewAfter(anew, ts[0]));
      TokensOfPlaces(ts[1..], TokenColumn(col, ts[0]), AnewAfter(anew, ts[0]));
      assert ([Placed(ts[0], col, anew)] + more)[1..] == more;
    }
  }

  predicate Layout(t: Token) { t.Pad? || t == Space || t == Newline }

  lemma {:induction false} KeptLayout(ts: seq<Token>)
    requires forall i | 0 <= i < |ts| :: Layout(ts[i])
    ensures KeptOnly(ts) == []
    decreases |ts|
  {
    if ts != [] {
      assert Layout(ts[0]);
      KeptLayout(ts[1..]);
    }
  }

  lemma LayoutKept(col: nat, n: int, space: bool, condition: bool)
    ensures KeptOnly(Gap(col, n)) == [] && KeptOnly(Room(col, space, n)) == [] && KeptOnly(Break(condition)) == []
  {
    KeptLayout(Gap(col, n));
    KeptLayout(Room(col, space, n));
    KeptLayout(Break(condition));
  }

  lemma OneKept(t: Token)
    requires Mark(t)
    ensures KeptOnly([t]) == [t]
  {
    assert [t][1..] == [];
  }

  lemma LineKept(col: nat, anew: bool, n: int, mark: Token)
    requires Mark(mark)
    ensures KeptOnly(Line(col, anew, n, mark)) == [mark]
  {
    hide KeptOnly, Gap, Break;
    var c := if anew then 0 else col;
    LayoutKept(c, n, false, anew);
    OneKept(mark);
    KeptConcat(Break(anew), Gap(c, n));
    KeptConcat(Break(anew) + Gap(c, n), [mark]);
  }

  lemma FlowMarksKept(kind: GroupType, n: nat, long: bool)
    ensures KeptOnly(FlowMarks(kind, n, long)) == Before(kind, true, n, long)
  {
    var first := if n == 0 then Open(kind) else Comma;
    OneKept(first);
    OneKept(Colon);
    OneKept(Question);
    KeptLayout([Space]);
    KeptConcat([first], [Space]);
    KeptConcat([first] + [Space], [Question]);
    assert [first] + [Space] + [Question] == [first, Space, Question];
    hide KeptOnly;
  }

  /** Layout behind the marks. */
  lemma RoomKept(ts: seq<Token>, col: nat, n: int, space: bool)
    ensures KeptOnly(ts + Room(col, space, n)) == KeptOnly(ts)
    ensures KeptOnly(ts + [Newline]) == KeptOnly(ts)
  {
    LayoutKept(col, n, space, true);
    KeptConcat(ts, Room(col, space, n));
    KeptConcat(ts, [Newline]);
    assert Break(true) == [Newline];
    hide KeptOnly, Room;
  }

  lemma LeadKept(f: Frame, n: nat, long: bool, child: Child, col: nat)
    ensures KeptOnly(LeadText(f, n, long, child, col)) == Before(f.kind, f.flow, n, long)
  {
    hide KeptOnly, Room, Gap, Line, After, FlowMarks;
    if f.flow {
      var marks := Gap(col, f.outer) + FlowMarks(f.kind, n, long);
      LayoutKept(col, f.outer, false, false);
      FlowMarksKept(f.kind, n, long);
      KeptConcat(Gap(col, f.outer), FlowMarks(f.kind, n, long));
      RoomKept(marks, After(col, marks), f.outer, n > 0);
    } else {
      BlockLeadKept(f, n, long, child, col);
    }
  }

  lemma BlockLeadKept(f: Frame, n: nat, long: bool, child: Child, col: nat)
    requires !f.flow
    ensures KeptOnly(LeadText(f, n, long, child, col)) == Before(f.kind, false, n, long)
  {
    hide KeptOnly, Room, Gap, Line, After, FlowLead, Break;
    if f.kind == Map && n % 2 == 0 && !long {
      LayoutKept(if n > 0 then 0 else col, f.indent, false, n > 0);
      KeptConcat(Break(n > 0), Gap(if n > 0 then 0 else col, f.indent));
    } else if f.kind == Map && !long {
      OneKept(Colon);
      RoomKept([Colon], col + 1, f.indent + f.width, true);
    } else {
      var mark := if f.kind == Seq then Dash else if n % 2 == 0 then Question else Colon;
      var anew := n > 0;
      var line := Line(col, anew, f.indent, mark);
      LineKept(col, anew, f.indent, mark);
      assert line + [] == line;
      RoomKept(line, After(col, line), f.indent + f.width, false);
      RoomKept(line, After(col, line), f.indent + 1, true);
    }
  }

  lemma LongOnlyForKeys(kind: GroupType, flow: bool, n: nat, a: bool, b: bool)
    requires kind == Seq || n % 2 == 1 || a == b
    ensures Before(kind, flow, n, a) == Before(kind, flow, n, b)
  {
  }

  /** The structure of the text is what the printer of the structure prints. */
  lemma {:induction false} TextKept(t: Tree, inFlow: bool, outer: int, indent: int, st: Settings, col: nat)
    ensures KeptOnly(Text(t, inFlow, outer, indent, st, col)) == Print(t, inFlow, st)
    decreases t, 0
  {
    hide KeptOnly, Gap, After, LeadText, LongKey;
    match t
    case Leaf(text, _) => OneKept(Content(text));
    case Node(kind, ts) =>
      OneKept(Open(kind));
      OneKept(Close(kind));
      LayoutKept(col, indent, false, false);
      if ts == [] {
        KeptConcat(Gap(col, indent), [Open(kind)]);
        KeptConcat(Gap(col, indent) + [Open(kind)], [Close(kind)]);
        assert [] + [Open(kind)] + [Close(kind)] == [Open(kind), Close(kind)];
      } else {
        var f := Frame(kind, AsFlow(kind, inFlow, st), outer, indent, st.indent);
        var body := Items(f, ts, 0, false, st, col);
        ItemsKept(f, ts, 0, false, st, col);
        LayoutKept(After(col, body), indent, false, false);
        KeptConcat(Gap(After(col, body), indent), [Close(kind)]);
        KeptConcat(body, Gap(After(col, body), indent) + [Close(kind)]);
        assert body + [] == body;
      }
  }

  lemma {:induction false} ItemsKept(f: Frame, ts: seq<Tree>, n: nat, long: bool, st: Settings, col: nat)
    ensures KeptOnly(Items(f, ts, n, long, st, col)) == PrintFrom(f.kind, f.flow, ts, n, st)
    decreases ts, 1
  {
    hide KeptOnly, After, LeadText, LongKey, Text, Print, Before, ChildOf;
    if ts == [] {
      KeptLayout([]);
    } else {
      var entry := EntryLong(f, ts[0], n, long, st);
      var lead := LeadText(f, n, entry, ChildOf(ts[0], f.flow, st), col);
      var text := Text(ts[0], f.flow, f.indent, f.indent + f.width, st, After(col, lead));
      LeadKept(f, n, entry, ChildOf(ts[0], f.flow, st), col);
      LongOnlyForKeys(f.kind, f.flow, n, entry, LongKey(ts[0], f.flow, st));
      TextKept(ts[0], f.flow, f.indent, f.indent + f.width, st, After(col, lead));
      ItemsKept(f, ts[1..], n + 1, entry, st, After(col, lead + text));
      KeptConcat(lead, text);
      KeptConcat(lead + text, Items(f, ts[1..], n + 1, entry, st, After(col, lead + text)));
    }
  }

  // ---- flat nodes

  predicate Flat(t: Tree, st: Settings) { t.Leaf? || t.children == [] || AsFlow(t.kind, false, st) }

  lemma FlatPrint(t: Tree, st: Settings)
    requires Flat(t, st)
    ensures Print(t, false, st) == Print(t, true, st)
  {
  }

  lemma {:induction false} FlatReads(ms: seq<Placed>, t: Tree, st: Settings, rest: seq<Placed>)
    requires Tokens(ms) == Print(t, true, st)
    ensures ReadFlat(ms + rest) == Some((Plain(t), rest))
    ensures StartsFlat(ms)
  {
    TokensConcat(ms, rest);
    ReadOfPrint(t, st, Tokens(rest));
    PrintStarts(t, st);
    FirstToken(ms);
    hide Tokens, ReadNode, Print, Plain;
    assert (ms + rest)[|ms|..] == rest;
  }

  lemma FirstToken(ms: seq<Placed>)
    requires Tokens(ms) != []
    ensures ms != [] && Tokens(ms)[0] == ms[0].token
  {
  }

  lemma FlatTokens(t: Tree, outer: int, indent: int, st: Settings, col: nat, anew: bool)
    requires Flat(t, st)
    ensures Tokens(Places(Text(t, false, outer, indent, st, col), col, anew)) == Print(t, true, st)
  {
    hide *;
    TextKept(t, false, outer, indent, st, col);
    TokensOfPlaces(Text(t, false, outer, indent, st, col), col, anew);
    FlatPrint(t, st);
  }

  // ---- where the marks stand

  lemma {:induction false} LayoutPlaces(ts: seq<Token>, col: nat, anew: bool)
    requires forall i | 0 <= i < |ts| :: Layout(ts[i])
    ensures Places(ts, col, anew) == []
    decreases |ts|
  {
    if ts != [] {
      assert Layout(ts[0]);
      LayoutPlaces(ts[1..], TokenColumn(col, ts[0]), AnewAfter(anew, ts[0]));
    }
  }

  lemma GapPlaces(col: nat, n: int, anew: bool)
    ensures Places(Gap(col, n), col, anew) == [] && Anew(anew, Gap(col, n)) == anew
    ensures After(col, Gap(col, n)) == if col < n then n else col
  {
    LayoutPlaces(Gap(col, n), col, anew);
    if col < n {
      AfterOne(col, Pad(n - col));
      assert [Pad(n - col)][1..] == [];
    }
  }

  lemma BreakPlaces(condition: bool, col: nat, anew: bool)
    ensures Places(Break(condition), col, anew) == [] && Anew(anew, Break(condition)) == (anew || condition)
    ensures After(col, Break(condition)) == if condition then 0 else col
  {
    LayoutPlaces(Break(condition), col, anew);
    AfterOne(col, Newline);
    assert [Newline][1..] == [];
  }

  /** A break and a gap reach the indent of the group. */
  lemma LineStartPlaces(condition: bool, n: int, col: nat, anew: bool)
    requires n >= 0 && (condition || col <= n)
    ensures var ts := Break(condition) + Gap(if condition then 0 else col, n);
            Places(ts, col, anew) == [] && Anew(anew, ts) == (anew || condition) && After(col, ts) == n
  {
    hide Places, Anew, After, Break, Gap;
    var c := if condition then 0 else col;
    BreakPlaces(condition, col, anew);
    GapPlaces(c, n, anew || condition);
    PlacesConcat(Break(condition), Gap(c, n), col, anew);
    AfterConcat(col, Break(condition), Gap(c, n));
  }

  predicate Narrow(t: Token) { t == Dash || t == Question || t == Colon }

  lemma MarkPlaces(t: Token, col: nat, anew: bool)
    requires Narrow(t)
    ensures Places([t], col, anew) == [Placed(t, col, anew)] && After(col, [t]) == col + 1
    ensures Anew(anew, [t]) == false
  {
    AfterOne(col, t);
    assert [t][1..] == [];
  }

  lemma LinePlaces(condition: bool, n: int, mark: Token, col: nat, anew: bool)
    requires n >= 0 && (condition || col <= n) && Narrow(mark)
    ensures var ts := Line(col, condition, n, mark);
            && Places(ts, col, anew) == [Placed(mark, n, anew || condition)] && After(col, ts) == n + 1
  {
    hide Places, Anew, After, Break, Gap;
    var start := Break(condition) + Gap(if condition then 0 else col, n);
    LineStartPlaces(condition, n, col, anew);
    MarkPlaces(mark, n, anew || condition);
    PlacesConcat(start, [mark], col, anew);
    AfterConcat(col, start, [mark]);
  }

  lemma RoomPlaces(ts: seq<Token>, c: nat, space: bool, n: int, col: nat, anew: bool)
    ensures Places(ts + Room(c, space, n), col, anew) == Places(ts, col, anew)
    ensures Places(ts + [Newline], col, anew) == Places(ts, col, anew)
    ensures After(col, ts + [Newline]) == 0
    ensures c == After(col, ts) && c > 0 && n <= c ==> After(col, ts + Room(c, true, n)) == c + 1
  {
    LayoutPlaces(Room(c, space, n), After(col, ts), Anew(anew, ts));
    LayoutPlaces([Newline], After(col, ts), Anew(anew, ts));
    PlacesConcat(ts, Room(c, space, n), col, anew);
    PlacesConcat(ts, [Newline], col, anew);
    AfterConcat(col, ts, [Newline]);
    AfterOne(After(col, ts), Newline);
    if c == After(col, ts) && c > 0 && n <= c {
      assert Room(c, true, n) == [Space];
      AfterConcat(col, ts, [Space]);
      AfterOne(c, Space);
    }
    hide Places, Anew, After;
  }

  /** The marks in front of child number `n` of a block group. */
  function LeadMarks(f: Frame, n: nat, long: bool, col: nat, anew: bool): seq<Placed>
    requires f.indent >= 0
  {
    if f.kind == Seq then [Placed(Dash, f.indent, anew || n > 0)]
    else if n % 2 == 0 then if long then [Placed(Question, f.indent, anew || n > 0)] else []
    else [if long then Placed(Colon, f.indent, true) else Placed(Colon, col, anew)]
  }

  /** A block group with indents that its entries can go by. */
  predicate Wide(f: Frame) { !f.flow && f.indent >= 0 && f.width >= 2 }

  /** Where a node starts behind its lead: a simple key in the column of the group, a nested
      block group not past its own. */
  predicate StartsRight(f: Frame, n: nat, long: bool, child: Child, col: nat)
  {
    if f.kind == Map && n % 2 == 0 && !long then col == f.indent else Nested(child) ==> col <= f.indent + f.width
  }

  lemma LineLeadPlaces(f: Frame, n: nat, long: bool, child: Child, col: nat, anew: bool)
    requires Wide(f) && (n > 0 || col <= f.indent) && (f.kind == Seq || long)
    ensures var lead := LeadText(f, n, long, child, col);
            && Places(lead, col, anew) == LeadMarks(f, n, long, col, anew)
            && StartsRight(f, n, long, child, After(col, lead))
  {
    hide Places, After, Room, Line;
    var mark := if f.kind == Seq then Dash else if n % 2 == 0 then Question else Colon;
    var line := Line(col, n > 0, f.indent, mark);
    LinePlaces(n > 0, f.indent, mark, col, anew);
    assert line + [] == line;
    RoomPlaces(line, f.indent + 1, false, f.indent + f.width, col, anew);
    RoomPlaces(line, f.indent + 1, true, f.indent + 1, col, anew);
  }

  lemma ShortLeadPlaces(f: Frame, n: nat, child: Child, col: nat, anew: bool)
    requires Wide(f) && (n > 0 || col <= f.indent) && f.kind == Map
    ensures var lead := LeadText(f, n, false, child, col);
            && Places(lead, col, anew) == LeadMarks(f, n, false, col, anew)
            && StartsRight(f, n, false, child, After(col, lead))
  {
    hide Places, After, Room, Break, Gap;
    if n % 2 == 0 {
      LineStartPlaces(n > 0, f.indent, col, anew);
    } else {
      MarkPlaces(Colon, col, anew);
      RoomPlaces([Colon], col + 1, true, f.indent + f.width, col, anew);
    }
  }

  lemma LeadPlaces(f: Frame, n: nat, long: bool, child: Child, col: nat, anew: bool)
    requires Wide(f) && (n > 0 || col <= f.indent)
    ensures var lead := LeadText(f, n, long, child, col);
            && Places(lead, col, anew) == LeadMarks(f, n, long, col, anew)
            && StartsRight(f, n, long, child, After(col, lead))
  {
    hide LeadText, LeadMarks, Wide, StartsRight, Places, After;
    if f.kind == Seq || long {
      LineLeadPlaces(f, n, long, child, col, anew);
    } else {
      ShortLeadPlaces(f, n, child, col, anew);
    }
  }

  lemma ItemsSplit(f: Frame, ts: seq<Tree>, n: nat, long: bool, st: Settings, col: nat, anew: bool)
    returns (c: nat, a: bool, d: nat, b: bool)
    requires ts != [] && Wide(f) && (n > 0 || col <= f.indent)
    ensures var entry := EntryLong(f, ts[0], n, long, st);
            var text := Text(ts[0], false, f.indent, f.indent + f.width, st, c);
            && StartsRight(f, n, entry, ChildOf(ts[0], false, st), c) && b == Anew(a, text)
            && Places(Items(f, ts, n, long, st, col), col, anew) ==
                 LeadMarks(f, n, entry, col, anew) + Places(text, c, a) +
                 Places(Items(f, ts[1..], n + 1, entry, st, d), d, b)
  {
    hide EntryLong, ChildOf, LeadText, LeadMarks, StartsRight, Text, Places, Anew, After;
    var entry := EntryLong(f, ts[0], n, long, st);
    var lead := LeadText(f, n, entry, ChildOf(ts[0], false, st), col);
    LeadPlaces(f, n, entry, ChildOf(ts[0], false, st), col, anew);
    c, a := After(col, lead), Anew(anew, lead);
    var text := Text(ts[0], false, f.indent, f.indent + f.width, st, c);
    d, b := After(col, lead + text), Anew(a, text);
    PlacesConcat(lead, text, col, anew);
    PlacesConcat(lead + text, Items(f, ts[1..], n + 1, entry, st, d), col, anew);
  }

  lemma PlacesFirst(ts: seq<Token>, col: nat, anew: bool)
    requires ts != [] && Kept(ts[0])
    ensures Places(ts, col, anew) != [] && Places(ts, col, anew)[0] == Placed(ts[0], col, anew)
  {
  }

  /** A simple key starts where its lead ends. */
  lemma KeyFirst(t: Tree, outer: int, indent: int, st: Settings, col: nat, anew: bool)
    requires t.Leaf? || (t.children != [] && AsFlow(t.kind, false, st) && outer <= col)
    ensures var ms := Places(Text(t, false, outer, indent, st, col), col, anew);
            ms != [] && ms[0].col == col
  {
    hide Places;
    var text := Text(t, false, outer, indent, st, col);
    if t.Node? { OpensFirst(Frame(t.kind, true, outer, indent, st.indent), t.children, st, col); }
    PlacesFirst(text, col, anew);
  }

  lemma OpensFirst(f: Frame, ts: seq<Tree>, st: Settings, col: nat)
    requires f.flow && ts != [] && f.outer <= col
    ensures Items(f, ts, 0, false, st, col) != [] && Items(f, ts, 0, false, st, col)[0] == Open(f.kind)
  {
    hide Room, After, Text;
    var lead := LeadText(f, 0, EntryLong(f, ts[0], 0, false, st), ChildOf(ts[0], true, st), col);
    assert lead != [] && lead[0] == Open(f.kind);
  }

  lemma {:induction false} MarkLast(a: bool, ts: seq<Token>, t: Token)
    requires Kept(t)
    ensures !Anew(a, ts + [t])
  {
    PlacesConcat(ts, [t], 0, a);
    assert [t][1..] == [];
  }

  /** Behind a flat node the line goes on. */
  lemma FlatAnew(t: Tree, outer: int, indent: int, st: Settings, col: nat, anew: bool)
    requires Flat(t, st)
    ensures !Anew(anew, Text(t, false, outer, indent, st, col))
  {
    hide Anew, Items, Gap;
    match t
    case Leaf(text, _) =>
      MarkLast(anew, [], Content(text));
      assert [] + [Content(text)] == [Content(text)];
    case Node(kind, ts) =>
      var f := Frame(kind, AsFlow(kind, false, st), outer, indent, st.indent);
      if ts == [] {
        MarkLast(anew, Gap(col, indent) + [Open(kind)], Close(kind));
      } else {
        var body := Items(f, ts, 0, false, st, col);
        MarkLast(anew, body + Gap(After(col, body), indent), Close(kind));
        Associate(body, Gap(After(col, body), indent), [Close(kind)]);
      }
  }

  // ---- reading

  /** What may follow a node whose group, if it is one, has its marks in column `n`. */
  predicate Ends(rest: seq<Placed>, n: int)
  {
    rest != [] && !rest[0].token.DocStart? ==> rest[0].col < n && !Behind(rest)
  }

  lemma FlatIsNotNested(t: Tree, st: Settings)
    ensures Flat(t, st) || Nested(ChildOf(t, false, st))
  {
  }

  lemma EntryFlat(f: Frame, t: Tree, n: nat, long: bool, st: Settings)
    requires f.kind == Map && !f.flow && n % 2 == 0 && !EntryLong(f, t, n, long, st) && KeyInColumn(t, st)
    ensures Flat(t, st) && (t.Leaf? || (t.children != [] && AsFlow(t.kind, false, st)))
  {
  }

  /** The first mark of the entries of a block group stands in its column. */
  lemma FirstMark(f: Frame, ts: seq<Tree>, n: nat, long: bool, st: Settings, col: nat, anew: bool)
    requires ts != [] && Wide(f) && (n > 0 || col <= f.indent)
    requires f.kind == Map ==> n % 2 == 0 && KeyInColumn(ts[0], st)
    ensures var ms := Places(Items(f, ts, n, long, st, col), col, anew);
            && ms != [] && ms[0].col == f.indent && (f.kind == Seq ==> ms[0].token == Dash)
            && (f.kind == Map && EntryLong(f, ts[0], n, long, st) ==> ms[0].token == Question)
            && (f.kind == Map && !EntryLong(f, ts[0], n, long, st) ==> StartsFlat(ms))
  {
    hide Places, Text, Items, EntryLong, LeadMarks, Wide, After, Anew;
    var c, a, d, b := ItemsSplit(f, ts, n, long, st, col, anew);
    var entry := EntryLong(f, ts[0], n, long, st);
    LeadFirst(f, n, entry, col, anew);
    if f.kind == Map && !entry {
      WideIsBlock(f);
      EntryFlat(f, ts[0], n, long, st);
      StartsInColumn(f, n, ChildOf(ts[0], false, st), c);
      KeyFirst(ts[0], f.indent, f.indent + f.width, st, c, a);
      FlatTokens(ts[0], f.indent, f.indent + f.width, st, c, a);
      FlatReads(Places(Text(ts[0], false, f.indent, f.indent + f.width, st, c), c, a), ts[0], st, []);
    }
  }

  lemma WideIsBlock(f: Frame)
    requires Wide(f)
    ensures !f.flow && f.indent >= 0 && f.width >= 2
  {
  }

  lemma StartsInColumn(f: Frame, n: nat, child: Child, col: nat)
    requires StartsRight(f, n, false, child, col) && f.kind == Map && n % 2 == 0
    ensures col == f.indent
  {
  }

  lemma LeadFirst(f: Frame, n: nat, long: bool, col: nat, anew: bool)
    requires Wide(f)
    ensures var ms := LeadMarks(f, n, long, col, anew);
            && (f.kind == Seq ==> ms == [Placed(Dash, f.indent, anew || n > 0)])
            && (f.kind == Map && n % 2 == 0 && long ==> ms == [Placed(Question, f.indent, anew || n > 0)])
            && (f.kind == Map && n % 2 == 0 && !long ==> ms == [])
            && (f.kind == Map && n % 2 == 1 && long ==> ms == [Placed(Colon, f.indent, true)])
            && (f.kind == Map && n % 2 == 1 && !long ==> ms == [Placed(Colon, col, anew)])
  {
  }

  lemma {:induction false} FlatNodeReads(ms: seq<Placed>, t: Tree, st: Settings, rest: seq<Placed>)
    requires Tokens(ms) == Print(t, true, st) && !Behind(rest)
    ensures Read(ms + rest) == Some((Plain(t), rest))
  {
    FlatReads(ms, t, st, rest);
    hide Tokens, ReadFlat, Print, Plain, Behind;
    assert (ms + rest)[0] == ms[0];
  }

  lemma EndsIsNotBehind(rest: seq<Placed>, n: int)
    requires Ends(rest, n)
    ensures !Behind(rest)
  {
  }

  /** Reading the text of a node gives the tree and leaves what follows. */
  lemma {:induction false} TextReads(t: Tree, outer: int, indent: int, st: Settings, col: nat, anew: bool,
                                     rest: seq<Placed>)
    requires Readable(t, st) && indent >= 0 && st.indent >= 2 && Ends(rest, indent)
    requires Flat(t, st) || col <= indent
    ensures Read(Places(Text(t, false, outer, indent, st, col), col, anew) + rest) == Some((Plain(t), rest))
    decreases t, 0
  {
    if Flat(t, st) {
      hide *;
      FlatTokens(t, outer, indent, st, col, anew);
      EndsIsNotBehind(rest, indent);
      FlatNodeReads(Places(Text(t, false, outer, indent, st, col), col, anew), t, st, rest);
    } else {
      var f := Frame(t.kind, false, outer, indent, st.indent);
      var text := Items(f, t.children, 0, false, st, col);
      BlockText(t, outer, indent, st, col);
      ReadableParts(t, st);
      assert Wide(f);
      hide *;
      var ms := Places(text, col, anew);
      GroupStarts(t, st);
      FirstMark(f, t.children, 0, false, st, col, anew);
      if t.kind == Seq {
        SeqReads(f, t.children, 0, false, st, col, anew, rest);
        DashReads(ms, indent, rest, AllPlain(t.children));
      } else {
        MapReads(f, t.children, 0, false, st, col, anew, rest);
        KeyReads(f, t.children, st, col, anew, rest);
      }
      PlainNode(t);
    }
  }

  lemma PlainNode(t: Tree)
    requires t.Node?
    ensures Plain(t) == Node(t.kind, AllPlain(t.children))
  {
  }

  lemma BlockText(t: Tree, outer: int, indent: int, st: Settings, col: nat)
    requires !Flat(t, st)
    ensures t.Node? && Text(t, false, outer, indent, st, col) ==
                       Items(Frame(t.kind, false, outer, indent, st.indent), t.children, 0, false, st, col)
  {
    hide Items, Gap, After;
    var body := Items(Frame(t.kind, false, outer, indent, st.indent), t.children, 0, false, st, col);
    assert body + [] == body;
  }

  lemma ReadableParts(t: Tree, st: Settings)
    requires Readable(t, st) && !Flat(t, st)
    ensures t.Node? && t.children != []
    ensures t.kind == Seq ==> AllReadable(t.children, st)
    ensures t.kind == Map ==> EntriesReadable(t.children, st)
  {
  }

  lemma GroupStarts(t: Tree, st: Settings)
    requires t.Node? && t.children != [] && (t.kind == Map ==> EntriesReadable(t.children, st))
    ensures t.kind == Map ==> KeyInColumn(t.children[0], st)
  {
  }

  lemma {:induction false} DashReads(ms: seq<Placed>, indent: nat, rest: seq<Placed>, ts: seq<Tree>)
    requires ms != [] && ms[0].token == Dash && ms[0].col == indent
    requires ReadSeq(indent, ms + rest) == Some((ts, rest))
    ensures Read(ms + rest) == Some((Node(Seq, ts), rest))
  {
    hide ReadSeq;
    assert (ms + rest)[0] == ms[0];
  }

  /** A map is known by the question mark or the colon of its first key. */
  lemma {:induction false} KeyReads(f: Frame, ts: seq<Tree>, st: Settings, col: nat, anew: bool, rest: seq<Placed>)
    requires Wide(f) && f.kind == Map && ts != [] && EntriesReadable(ts, st) && col <= f.indent
    requires ReadMap(f.indent, Places(Items(f, ts, 0, false, st, col), col, anew) + rest) == Some((AllPlain(ts), rest))
    ensures Read(Places(Items(f, ts, 0, false, st, col), col, anew) + rest) == Some((Node(Map, AllPlain(ts)), rest))
  {
    hide *;
    var ms := Places(Items(f, ts, 0, false, st, col), col, anew);
    EntriesFirst(ts, st);
    WideIsBlock(f);
    FirstMark(f, ts, 0, false, st, col, anew);
    if EntryLong(f, ts[0], 0, false, st) {
      QuestionReads(ms, f.indent, rest, AllPlain(ts));
    } else {
      var tail := SimpleKeyReads(f, ts, 0, false, st, col, anew, rest);
      SimpleMapReads(ms, f.indent, rest, AllPlain(ts), Plain(ts[0]), tail);
    }
  }

  lemma {:induction false} QuestionReads(ms: seq<Placed>, indent: nat, rest: seq<Placed>, ts: seq<Tree>)
    requires ms != [] && ms[0].token == Question && ms[0].col == indent
    requires ReadMap(indent, ms + rest) == Some((ts, rest))
    ensures Read(ms + rest) == Some((Node(Map, ts), rest))
  {
    hide ReadMap;
    assert (ms + rest)[0] == ms[0];
  }

  lemma {:induction false} SimpleMapReads(ms: seq<Placed>, indent: nat, rest: seq<Placed>, ts: seq<Tree>, key: Tree,
                                          tail: seq<Placed>)
    requires StartsFlat(ms) && ms[0].col == indent && ReadFlat(ms + rest) == Some((key, tail)) && Behind(tail)
    requires ReadMap(indent, ms + rest) == Some((ts, rest))
    ensures Read(ms + rest) == Some((Node(Map, ts), rest))
  {
    hide ReadMap, ReadFlat, Behind;
    assert (ms + rest)[0] == ms[0];
  }

  lemma Joined<T>(a: seq<T>, b: seq<T>, c: seq<T>)
    ensures [] + a + b + c == a + (b + c)
  {
  }

  /** A simple key is read up to its colon. */
  lemma {:induction false} SimpleKeyReads(f: Frame, ts: seq<Tree>, n: nat, long: bool, st: Settings, col: nat,
                                          anew: bool, rest: seq<Placed>)
    returns (tail: seq<Placed>)
    requires Wide(f) && f.kind == Map && n % 2 == 0 && ts != [] && EntriesReadable(ts, st) && (n > 0 || col <= f.indent)
    requires !EntryLong(f, ts[0], n, long, st)
    ensures ReadFlat(Places(Items(f, ts, n, long, st, col), col, anew) + rest) == Some((Plain(ts[0]), tail))
    ensures Behind(tail)
  {
    hide *;
    EntriesFirst(ts, st);
    WideIsBlock(f);
    EntryFlat(f, ts[0], n, long, st);
    var c, a, d, b := ItemsSplit(f, ts, n, long, st, col, anew);
    LeadFirst(f, n, false, col, anew);
    var key := Places(Text(ts[0], false, f.indent, f.indent + f.width, st, c), c, a);
    var more := Places(Items(f, ts[1..], n + 1, false, st, d), d, b);
    tail := more + rest;
    FlatTokens(ts[0], f.indent, f.indent + f.width, st, c, a);
    FlatReads(key, ts[0], st, tail);
    FlatAnew(ts[0], f.indent, f.indent + f.width, st, c, a);
    ColonBehind(f, ts[1..], n + 1, st, d, rest);
    Joined(key, more, rest);
  }

  /** The colon of a simple key. */
  lemma {:induction false} ColonBehind(f: Frame, ts: seq<Tree>, n: nat, st: Settings, col: nat, rest: seq<Placed>)
    requires Wide(f) && f.kind == Map && n % 2 == 1 && ts != []
    ensures Behind(Places(Items(f, ts, n, false, st, col), col, false) + rest)
  {
    var entry := EntryLong(f, ts[0], n, false, st);
    assert !entry;
    hide Places, Items, Text, EntryLong, LeadMarks, Wide, StartsRight, Anew;
    var c, a, d, b := ItemsSplit(f, ts, n, false, st, col, false);
    LeadFirst(f, n, false, col, false);
  }

  /** What follows a child of a block group: the next entry, or what follows the group. */
  lemma ChildEnds(f: Frame, ts: seq<Tree>, n: nat, long: bool, st: Settings, col: nat, anew: bool, rest: seq<Placed>)
    requires Wide(f) && n > 0 && Ends(rest, f.indent)
    requires ts != [] && f.kind == Map ==> n % 2 == 0 && KeyInColumn(ts[0], st)
    ensures Ends(Places(Items(f, ts, n, long, st, col), col, anew) + rest, f.indent + f.width)
  {
    var ms := Places(Items(f, ts, n, long, st, col), col, anew);
    if ts == [] {
      assert ms + rest == rest;
    } else {
      hide Places, Items, EntryLong, KeyInColumn;
      FirstMark(f, ts, n, long, st, col, anew);
      assert (ms + rest)[0] == ms[0];
    }
  }

  lemma {:induction false} NotAtIndent(rest: seq<Placed>, c: nat)
    requires Ends(rest, c)
    ensures ReadSeq(c, rest) == Some(([], rest)) && ReadMap(c, rest) == Some(([], rest))
  {
  }

  lemma {:induction false} SeqUnfolds(c: nat, mark: Placed, text: seq<Placed>, tail: seq<Placed>, t: Tree,
                                      more: seq<Tree>, rest: seq<Placed>)
    requires mark.token == Dash && mark.col == c
    requires Read(text + tail) == Some((t, tail)) && ReadSeq(c, tail) == Some((more, rest))
    ensures ReadSeq(c, [mark] + (text + tail)) == Some(([t] + more, rest))
  {
    hide Read;
    assert ([mark] + (text + tail))[1..] == text + tail;
  }

  lemma NoItems(f: Frame, n: nat, long: bool, st: Settings, col: nat, anew: bool, rest: seq<Placed>)
    ensures Places(Items(f, [], n, long, st, col), col, anew) + rest == rest
  {
    assert Places([], col, anew) + rest == rest;
  }

  /** A block group nested in an entry starts where the lead has left room. */
  lemma RoomEnough(f: Frame, n: nat, long: bool, t: Tree, st: Settings, col: nat)
    requires StartsRight(f, n, long, ChildOf(t, false, st), col) && f.width >= 0
    ensures Flat(t, st) || col <= f.indent + f.width
  {
    FlatIsNotNested(t, st);
    hide Flat, ChildOf;
  }

  lemma AllReadableFirst(ts: seq<Tree>, st: Settings)
    requires ts != [] && AllReadable(ts, st)
    ensures Readable(ts[0], st) && AllReadable(ts[1..], st)
  {
  }

  lemma PlainFirst(ts: seq<Tree>)
    requires ts != []
    ensures AllPlain(ts) == [Plain(ts[0])] + AllPlain(ts[1..])
  {
  }

  lemma {:induction false} SeqReads(f: Frame, ts: seq<Tree>, n: nat, long: bool, st: Settings, col: nat, anew: bool,
                                    rest: seq<Placed>)
    requires Wide(f) && f.kind == Seq && f.width == st.indent && (n > 0 || col <= f.indent)
    requires AllReadable(ts, st) && f.indent >= 0 && Ends(rest, f.indent)
    ensures ReadSeq(f.indent, Places(Items(f, ts, n, long, st, col), col, anew) + rest) == Some((AllPlain(ts), rest))
    decreases ts, 0
  {
    hide *;
    WideIsBlock(f);
    if ts == [] {
      NoItems(f, n, long, st, col, anew, rest);
      NotAtIndent(rest, f.indent);
      NothingPlain();
    } else {
      AllReadableFirst(ts, st);
      var entry := EntryLong(f, ts[0], n, long, st);
      var c, a, d, b := ItemsSplit(f, ts, n, long, st, col, anew);
      var text := Places(Text(ts[0], false, f.indent, f.indent + f.width, st, c), c, a);
      var tail := Places(Items(f, ts[1..], n + 1, entry, st, d), d, b) + rest;
      LeadFirst(f, n, entry, col, anew);
      ChildEnds(f, ts[1..], n + 1, entry, st, d, b, rest);
      RoomEnough(f, n, entry, ts[0], st, c);
      TextReads(ts[0], f.indent, f.indent + f.width, st, c, a, tail);
      SeqReads(f, ts[1..], n + 1, entry, st, d, b, rest);
      var mark := Placed(Dash, f.indent, anew || n > 0);
      SeqUnfolds(f.indent, mark, text, tail, Plain(ts[0]), AllPlain(ts[1..]), rest);
      PlainFirst(ts);
      assert [mark] + text + Places(Items(f, ts[1..], n + 1, entry, st, d), d, b) + rest == [mark] + (text + tail);
    }
  }

  lemma NothingPlain()
    ensures AllPlain([]) == []
  {
  }

  lemma EntriesFirst(ts: seq<Tree>, st: Settings)
    requires ts != [] && EntriesReadable(ts, st)
    ensures |ts| > 1 && KeyInColumn(ts[0], st) && Readable(ts[0], st) && Readable(ts[1], st)
    ensures EntriesReadable(ts[2..], st) && (ts[2..] != [] ==> KeyInColumn(ts[2..][0], st))
    ensures ts[1..][0] == ts[1] && ts[1..][1..] == ts[2..]
    ensures AllPlain(ts) == [Plain(ts[0]), Plain(ts[1])] + AllPlain(ts[2..])
  {
    assert ts[1..][1..] == ts[2..];
    PlainFirst(ts);
    PlainFirst(ts[1..]);
    hide Readable, KeyInColumn;
  }

  lemma {:induction false} ValueUnfolds(c: nat, key: Tree, mark: Placed, text: seq<Placed>, tail: seq<Placed>, t: Tree,
                                        more: seq<Tree>, rest: seq<Placed>)
    requires Read(text + tail) == Some((t, tail)) && ReadMap(c, tail) == Some((more, rest))
    ensures ReadValue(c, key, [mark] + (text + tail)) == Some(([key, t] + more, rest))
  {
    hide Read, ReadMap;
    assert ([mark] + (text + tail))[1..] == text + tail;
  }

  lemma {:induction false} LongUnfolds(c: nat, mark: Placed, text: seq<Placed>, tail: seq<Placed>, key: Tree)
    requires mark.token == Question && mark.col == c && Read(text + tail) == Some((key, tail)) && Below(tail, c)
    ensures ReadMap(c, [mark] + (text + tail)) == ReadValue(c, key, tail)
  {
    hide Read, ReadValue;
    assert ([mark] + (text + tail))[1..] == text + tail;
  }

  lemma {:induction false} SimpleUnfolds(c: nat, ms: seq<Placed>, tail: seq<Placed>, key: Tree)
    requires StartsFlat(ms) && ms[0].col == c && ReadFlat(ms) == Some((key, tail)) && Behind(tail)
    ensures ReadMap(c, ms) == ReadValue(c, key, tail)
  {
    hide ReadFlat, ReadValue;
  }

  lemma EntryOfValue(f: Frame, t: Tree, n: nat, long: bool, st: Settings)
    requires f.kind == Map && n % 2 == 1
    ensures EntryLong(f, t, n, long, st) == long
  {
  }

  /** The value of an entry, from its colon on. */
  lemma {:induction false} ValueReads(f: Frame, ts: seq<Tree>, n: nat, long: bool, st: Settings, col: nat, anew: bool,
                                      key: Tree, rest: seq<Placed>)
    requires Wide(f) && f.kind == Map && f.width == st.indent && n % 2 == 1 && f.indent >= 0 && Ends(rest, f.indent)
    requires ts != [] && Readable(ts[0], st) && EntriesReadable(ts[1..], st)
    requires ts[1..] != [] ==> KeyInColumn(ts[1..][0], st)
    ensures var ms := Places(Items(f, ts, n, long, st, col), col, anew) + rest;
            && ms != [] && ms[0] == (if long then Placed(Colon, f.indent, true) else Placed(Colon, col, anew))
            && ReadValue(f.indent, key, ms) == Some(([key, Plain(ts[0])] + AllPlain(ts[1..]), rest))
    decreases ts, 0
  {
    hide *;
    WideIsBlock(f);
    EntryOfValue(f, ts[0], n, long, st);
    var c, a, d, b := ItemsSplit(f, ts, n, long, st, col, anew);
    var text := Places(Text(ts[0], false, f.indent, f.indent + f.width, st, c), c, a);
    var items := Places(Items(f, ts[1..], n + 1, long, st, d), d, b);
    var colon := if long then Placed(Colon, f.indent, true) else Placed(Colon, col, anew);
    LeadFirst(f, n, long, col, anew);
    ChildEnds(f, ts[1..], n + 1, long, st, d, b, rest);
    RoomEnough(f, n, long, ts[0], st, c);
    TextReads(ts[0], f.indent, f.indent + f.width, st, c, a, items + rest);
    MapReads(f, ts[1..], n + 1, long, st, d, b, rest);
    ValueUnfolds(f.indent, key, colon, text, items + rest, Plain(ts[0]), AllPlain(ts[1..]), rest);
    assert [colon] + text + items + rest == [colon] + (text + (items + rest));
  }

  lemma EndsAtColon(ms: seq<Placed>, c: nat, n: int)
    requires ms != [] && ms[0] == Placed(Colon, c, true) && c < n
    ensures Ends(ms, n) && Below(ms, c)
  {
  }

  /** A simple key in the column of its map. */
  lemma {:induction false} SimpleKeyUnfolds(f: Frame, t: Tree, st: Settings, col: nat, anew: bool, tail: seq<Placed>)
    requires Flat(t, st) && (t.Leaf? || (t.children != [] && AsFlow(t.kind, false, st))) && col == f.indent
    requires tail != [] && Behind(tail)
    ensures ReadMap(col, Places(Text(t, false, f.indent, f.indent + f.width, st, col), col, anew) + tail) ==
            ReadValue(col, Plain(t), tail)
  {
    hide *;
    var key := Places(Text(t, false, f.indent, f.indent + f.width, st, col), col, anew);
    KeyFirst(t, f.indent, f.indent + f.width, st, col, anew);
    FlatTokens(t, f.indent, f.indent + f.width, st, col, anew);
    FlatReads(key, t, st, tail);
    StartsFlatThen(key, tail);
    SimpleUnfolds(col, key + tail, tail, Plain(t));
  }

  lemma {:induction false} MapReads(f: Frame, ts: seq<Tree>, n: nat, long: bool, st: Settings, col: nat, anew: bool,
                                    rest: seq<Placed>)
    requires Wide(f) && f.kind == Map && f.width == st.indent && n % 2 == 0 && (n > 0 || col <= f.indent)
    requires EntriesReadable(ts, st) && f.indent >= 0 && Ends(rest, f.indent)
    ensures ReadMap(f.indent, Places(Items(f, ts, n, long, st, col), col, anew) + rest) == Some((AllPlain(ts), rest))
    decreases ts, 1
  {
    hide *;
    WideIsBlock(f);
    if ts == [] {
      NoItems(f, n, long, st, col, anew, rest);
      NotAtIndent(rest, f.indent);
      NothingPlain();
    } else {
      EntriesFirst(ts, st);
      var entry := EntryLong(f, ts[0], n, long, st);
      var c, a, d, b := ItemsSplit(f, ts, n, long, st, col, anew);
      var key := Places(Text(ts[0], false, f.indent, f.indent + f.width, st, c), c, a);
      var tail := Places(Items(f, ts[1..], n + 1, entry, st, d), d, b) + rest;
      LeadFirst(f, n, entry, col, anew);
      ValueReads(f, ts[1..], n + 1, entry, st, d, b, Plain(ts[0]), rest);
      if entry {
        EndsAtColon(tail, f.indent, f.indent + f.width);
        RoomEnough(f, n, entry, ts[0], st, c);
        TextReads(ts[0], f.indent, f.indent + f.width, st, c, a, tail);
        var mark := Placed(Question, f.indent, anew || n > 0);
        LongUnfolds(f.indent, mark, key, tail, Plain(ts[0]));
        assert [mark] + key + Places(Items(f, ts[1..], n + 1, entry, st, d), d, b) + rest == [mark] + (key + tail);
      } else {
        EntryFlat(f, ts[0], n, long, st);
        StartsInColumn(f, n, ChildOf(ts[0], false, st), c);
        FlatAnew(ts[0], f.indent, f.indent + f.width, st, c, a);
        BehindIs(tail);
        SimpleKeyUnfolds(f, ts[0], st, c, a, tail);
        Joined(key, Places(Items(f, ts[1..], n + 1, entry, st, d), d, b), rest);
      }
    }
  }

  lemma BehindIs(ms: seq<Placed>)
    requires ms != [] && ms[0].token == Colon && !ms[0].anew
    ensures Behind(ms)
  {
  }

  lemma StartsFlatThen(ms: seq<Placed>, rest: seq<Placed>)
    requires StartsFlat(ms)
    ensures StartsFlat(ms + rest) && (ms + rest)[0] == ms[0]
  {
  }

  // ---- documents

  /** The text of a document. All of them start at the start of a line. */
  function Document(t: Tree, st: Settings): seq<Token> { Text(t, false, 0, 0, st, 0) }

  /** Every document but the last ends behind the start of a line. */
  predicate Separated(ts: seq<Tree>, st: Settings)
    decreases |ts|
  {
    |ts| <= 1 || (After(0, Document(ts[0], st)) > 0 && Separated(ts[1..], st))
  }

  lemma LeadEnds(n: nat, col: nat)
    ensures n > 0 ==> After(col, DocLead(n, col)) == 0
    ensures col > 0 && n > 0 ==> DocLead(n, col) == [Newline] + [DocStart]
  {
    assert [Newline, DocStart][1..][1..] == [];
  }

  /** Documents from one on that is not the first. */
  lemma NextDocuments(ts: seq<Tree>, n: nat, st: Settings, col: nat)
    requires ts != [] && n > 0
    ensures TextAll(ts, n, st, col) == DocLead(n, col) + (Document(ts[0], st) +
                                       TextAll(ts[1..], n + 1, st, After(0, Document(ts[0], st))))
  {
    hide Text, After;
    LeadEnds(n, col);
    AfterConcat(col, DocLead(n, col), Document(ts[0], st));
    Associate(DocLead(n, col), Document(ts[0], st), TextAll(ts[1..], n + 1, st, After(0, Document(ts[0], st))));
  }

  lemma MarkerPlaces(col: nat, anew: bool, rest: seq<Token>)
    ensures Places([Newline] + [DocStart] + rest, col, anew) == [Placed(DocStart, 0, true)] + Places(rest, 0, false)
  {
    var ts := [Newline] + [DocStart] + rest;
    assert ts[1..] == [DocStart] + rest;
    assert ts[1..][1..] == rest;
  }

  /** The marks of documents, and what is still to come behind the first. */
  function Following(ts: seq<Tree>, n: nat, st: Settings, anew: bool): seq<Placed>
    requires ts != []
  {
    var one := Document(ts[0], st);
    Places(TextAll(ts[1..], n + 1, st, After(0, one)), After(0, one), Anew(anew, one))
  }

  lemma FollowingIs(ts: seq<Tree>, n: nat, st: Settings, anew: bool)
    requires |ts| > 1
    ensures var one, more := Document(ts[0], st), Document(ts[1], st);
            Following(ts, n, st, anew) ==
            if After(0, one) > 0
            then [Placed(DocStart, 0, true)] + (Places(more, 0, false) + Following(ts[1..], n + 1, st, false))
            else Places(more, 0, Anew(anew, one)) + Following(ts[1..], n + 1, st, Anew(anew, one))
  {
    hide Places, After, Anew, TextAll, Text;
    var one, more := Document(ts[0], st), Document(ts[1], st);
    var c, a := After(0, one), Anew(anew, one);
    var rest := TextAll(ts[1..][1..], n + 2, st, After(0, more));
    NextDocuments(ts[1..], n + 1, st, c);
    LeadEnds(n + 1, c);
    if c > 0 {
      MarkerPlaces(c, a, more + rest);
      PlacesConcat(more, rest, 0, false);
    } else {
      assert [] + (more + rest) == more + rest;
      PlacesConcat(more, rest, 0, a);
    }
  }

  lemma LastFollowing(ts: seq<Tree>, n: nat, st: Settings, anew: bool)
    requires |ts| == 1
    ensures Following(ts, n, st, anew) == []
  {
  }

  lemma EndsAtMarker(ms: seq<Placed>)
    requires ms == [] || ms[0].token.DocStart?
    ensures Ends(ms, 0)
  {
  }

  lemma {:induction false} LastUnfolds(ms: seq<Placed>, t: Tree)
    requires Read(ms) == Some((t, []))
    ensures ReadDocuments(ms) == Some([t])
  {
    hide Read;
  }

  lemma {:induction false} DocumentUnfolds(ms: seq<Placed>, t: Tree, next: seq<Placed>, more: seq<Tree>)
    requires Read(ms) == Some((t, [Placed(DocStart, 0, true)] + next))
    requires ReadDocuments(next) == Some(more) && more != []
    ensures ReadDocuments(ms) == Some([t] + more)
  {
    hide Read;
    assert ([Placed(DocStart, 0, true)] + next)[1..] == next;
  }

  lemma {:induction false} DocumentsRead(ts: seq<Tree>, n: nat, st: Settings, anew: bool)
    requires ts != [] && st.indent >= 2 && AllReadable(ts, st) && Separated(ts, st)
    ensures ReadDocuments(Places(Document(ts[0], st), 0, anew) + Following(ts, n, st, anew)) == Some(AllPlain(ts))
    decreases |ts|
  {
    AllReadableFirst(ts, st);
    PlainFirst(ts);
    NothingPlain();
    hide Places, After, Anew, TextAll, Text, Read, Readable, Following, Ends, ReadDocuments, AllPlain, AllReadable,
      Plain;
    var ms, rest := Places(Document(ts[0], st), 0, anew), Following(ts, n, st, anew);
    if |ts| == 1 {
      LastFollowing(ts, n, st, anew);
      EndsAtMarker(rest);
      TextReads(ts[0], 0, 0, st, 0, anew, rest);
      LastUnfolds(ms + rest, Plain(ts[0]));
      assert ts[1..] == [] && [Plain(ts[0])] + [] == [Plain(ts[0])];
    } else {
      var next := Places(Document(ts[1], st), 0, false) + Following(ts[1..], n + 1, st, false);
      FollowingIs(ts, n, st, anew);
      EndsAtMarker(rest);
      TextReads(ts[0], 0, 0, st, 0, anew, rest);
      DocumentsRead(ts[1..], n + 1, st, false);
      PlainFirst(ts[1..]);
      DocumentUnfolds(ms + rest, Plain(ts[0]), next, AllPlain(ts[1..]));
    }
  }

  // ---- documents that are not told apart

  /** The document markers among the marks. */
  function Markers(ms: seq<Placed>): nat
  {
    if ms == [] then 0 else (if ms[0].token.DocStart? then 1 else 0) + Markers(ms[1..])
  }

  lemma {:induction false} MarkersConcat(a: seq<Placed>, b: seq<Placed>)
    ensures Markers(a + b) == Markers(a) + Markers(b)
  {
    if a == [] {
      assert a + b == b;
    } else {
      assert (a + b)[1..] == a[1..] + b;
      MarkersConcat(a[1..], b);
    }
  }

  /** What is left of the marks. */
  predicate Rest(rest: seq<Placed>, ms: seq<Placed>) { |rest| <= |ms| && rest == ms[|ms| - |rest|..] }

  lemma RestThen(a: seq<Placed>, b: seq<Placed>, c: seq<Placed>)
    requires Rest(a, b) && Rest(b, c)
    ensures Rest(a, c)
  {
  }

  lemma RestMarkers(rest: seq<Placed>, ms: seq<Placed>)
    requires Rest(rest, ms)
    ensures Markers(rest) <= Markers(ms)
  {
    MarkersConcat(ms[..|ms| - |rest|], rest);
    assert ms == ms[..|ms| - |rest|] + rest;
  }

  lemma RestOfTail(rest: seq<Placed>, ms: seq<Placed>)
    requires ms != [] && Rest(rest, ms[1..])
    ensures Rest(rest, ms)
  {
  }

  lemma {:induction false} ReadLeaves(ms: seq<Placed>)
    ensures Read(ms).Some? ==> Rest(Read(ms).value.1, ms)
    decreases |ms|, 1
  {
    hide Rest, ReadSeq, ReadMap, ReadNode, Tokens;
    if ms != [] {
      SeqLeaves(ms[0].col, ms);
      MapLeaves(ms[0].col, ms);
      FlatLeaves(ms);
    }
  }

  lemma FlatLeaves(ms: seq<Placed>)
    ensures ReadFlat(ms).Some? ==> Rest(ReadFlat(ms).value.1, ms)
  {
    hide ReadNode, Tokens;
  }

  lemma {:induction false} SeqLeaves(c: nat, ms: seq<Placed>)
    ensures ReadSeq(c, ms).Some? ==> Rest(ReadSeq(c, ms).value.1, ms)
    decreases |ms|, 0
  {
    hide Read, Rest;
    if StartsWith(ms, Dash, c) {
      ReadLeaves(ms[1..]);
      if Read(ms[1..]).Some? {
        var rest := Read(ms[1..]).value.1;
        RestOfTail(rest, ms);
        SeqLeaves(c, rest);
        if ReadSeq(c, rest).Some? { RestThen(ReadSeq(c, rest).value.1, rest, ms); }
      }
    } else {
      RestItself(ms);
    }
  }

  lemma RestItself(ms: seq<Placed>)
    ensures Rest(ms, ms)
  {
  }

  lemma {:induction false} MapLeaves(c: nat, ms: seq<Placed>)
    ensures ReadMap(c, ms).Some? ==> Rest(ReadMap(c, ms).value.1, ms)
    decreases |ms|, 0
  {
    hide Read, ReadFlat, ReadValue, Rest;
    RestItself(ms);
    if StartsWith(ms, Question, c) {
      ReadLeaves(ms[1..]);
      var key := Read(ms[1..]);
      if key.Some? && Below(key.value.1, c) {
        RestOfTail(key.value.1, ms);
        ValueLeaves(c, key.value.0, key.value.1);
        if ReadValue(c, key.value.0, key.value.1).Some? {
          RestThen(ReadValue(c, key.value.0, key.value.1).value.1, key.value.1, ms);
        }
      }
    } else if StartsFlat(ms) && ms[0].col == c {
      FlatLeaves(ms);
      var key := ReadFlat(ms);
      if key.Some? && Behind(key.value.1) {
        ValueLeaves(c, key.value.0, key.value.1);
        if ReadValue(c, key.value.0, key.value.1).Some? {
          RestThen(ReadValue(c, key.value.0, key.value.1).value.1, key.value.1, ms);
        }
      }
    }
  }

  lemma {:induction false} ValueLeaves(c: nat, key: Tree, ms: seq<Placed>)
    requires ms != []
    ensures ReadValue(c, key, ms).Some? ==> Rest(ReadValue(c, key, ms).value.1, ms)
    decreases |ms|, 1
  {
    hide Read, ReadMap, Rest;
    ReadLeaves(ms[1..]);
    if Read(ms[1..]).Some? {
      var rest := Read(ms[1..]).value.1;
      RestOfTail(rest, ms);
      MapLeaves(c, rest);
      if ReadMap(c, rest).Some? { RestThen(ReadMap(c, rest).value.1, rest, ms); }
    }
  }

  /** No more documents are read than there are markers, and one. */
  lemma {:induction false} DocumentsCounted(ms: seq<Placed>)
    ensures ReadDocuments(ms).Some? ==> |ReadDocuments(ms).value| <= 1 + Markers(ms)
    decreases |ms|
  {
    hide Read;
    if ms != [] && Read(ms).Some? && Read(ms).value.1 != [] {
      var rest := Read(ms).value.1;
      ReadLeaves(ms);
      RestMarkers(rest, ms);
      DocumentsCounted(rest[1..]);
    }
  }

  /** Trees have no document markers. */
  lemma {:induction false} PrintHasNone(t: Tree, inFlow: bool, st: Settings)
    ensures DocStart !in Print(t, inFlow, st)
    decreases t, 0
  {
    if t.Node? { PrintFromHasNone(t.kind, AsFlow(t.kind, inFlow, st), t.children, 0, st); }
  }

  lemma {:induction false} PrintFromHasNone(kind: GroupType, flow: bool, ts: seq<Tree>, n: nat, st: Settings)
    ensures DocStart !in PrintFrom(kind, flow, ts, n, st)
    decreases ts, 1
  {
    hide LongKey, Print;
    if ts != [] {
      PrintHasNone(ts[0], flow, st);
      PrintFromHasNone(kind, flow, ts[1..], n + 1, st);
      assert DocStart !in Before(kind, flow, n, LongKey(ts[0], flow, st));
    }
  }

  lemma {:induction false} NoMarkers(ms: seq<Placed>)
    requires DocStart !in Tokens(ms)
    ensures Markers(ms) == 0
  {
    if ms != [] {
      assert Tokens(ms) == [ms[0].token] + Tokens(ms[1..]);
      NoMarkers(ms[1..]);
    }
  }

  lemma DocumentHasNone(t: Tree, st: Settings, anew: bool)
    ensures Markers(Places(Document(t, st), 0, anew)) == 0
  {
    TextKept(t, false, 0, 0, st, 0);
    TokensOfPlaces(Document(t, st), 0, anew);
    PrintHasNone(t, false, st);
    hide Places, Text, Tokens, KeptOnly, Print;
    NoMarkers(Places(Document(t, st), 0, anew));
  }

  /** Where documents are not separated, markers are missing. */
  lemma {:induction false} MarkersMissing(ts: seq<Tree>, n: nat, st: Settings, anew: bool)
    requires ts != []
    ensures Markers(Following(ts, n, st, anew)) <= |ts| - 1
    ensures !Separated(ts, st) ==> Markers(Following(ts, n, st, anew)) < |ts| - 1
    decreases |ts|
  {
    hide Places, Text, After, Anew, TextAll, Following;
    if |ts| == 1 {
      LastFollowing(ts, n, st, anew);
    } else {
      var a := if After(0, Document(ts[0], st)) > 0 then false else Anew(anew, Document(ts[0], st));
      FollowingIs(ts, n, st, anew);
      DocumentHasNone(ts[1], st, a);
      MarkersMissing(ts[1..], n + 1, st, a);
      var more := Places(Document(ts[1], st), 0, a) + Following(ts[1..], n + 1, st, a);
      MarkersConcat(Places(Document(ts[1], st), 0, a), Following(ts[1..], n + 1, st, a));
      MarkersConcat([Placed(DocStart, 0, true)], more);
      assert Markers([Placed(DocStart, 0, true)]) == 1;
    }
  }

  lemma {:induction false} PlainCount(ts: seq<Tree>)
    ensures |AllPlain(ts)| == |ts|
  {
    if ts != [] {
      PlainFirst(ts);
      PlainCount(ts[1..]);
    }
  }

  lemma FirstDocuments(ts: seq<Tree>, st: Settings)
    requires ts != []
    ensures Places(TextAll(ts, 0, st, 0), 0, true) == Places(Document(ts[0], st), 0, true) + Following(ts, 0, st, true)
  {
    hide Places, Text, After, Anew;
    var one := Document(ts[0], st);
    PlacesConcat(one, TextAll(ts[1..], 1, st, After(0, one)), 0, true);
    assert DocLead(0, 0) == [];
    assert After(0, []) == 0 by { AfterNothing(0); }
    assert [] + one == one;
  }

  /** The text of documents that can be read comes back exactly when each of them but the last
      ends behind the start of a line: where one ends at it, as a literal text with a final
      line break does, the emitter writes no marker before the next. */
  lemma DocumentsComeBackExactly(ts: seq<Tree>, st: Settings)
    requires st.indent >= 2 && AllReadable(ts, st)
    ensures ReadDocuments(Places(TextAll(ts, 0, st, 0), 0, true)) == Some(AllPlain(ts)) <==> Separated(ts, st)
  {
    hide Places, Text, After, Anew, Following, AllReadable, AllPlain, Markers;
    if ts == [] {
      NothingPlain();
      assert Places([], 0, true) == [] by { LayoutPlaces([], 0, true); }
    } else {
      var ms := Places(TextAll(ts, 0, st, 0), 0, true);
      FirstDocuments(ts, st);
      PlainCount(ts);
      if Separated(ts, st) {
        DocumentsRead(ts, 0, st, true);
      } else {
        hide Separated, TextAll;
        MarkersMissing(ts, 0, st, true);
        DocumentHasNone(ts[0], st, true);
        MarkersConcat(Places(Document(ts[0], st), 0, true), Following(ts, 0, st, true));
        DocumentsCounted(ms);
      }
    }
  }

  lemma SetIndent(s: State, which: Setting, value: Settings)
    requires s.settings.indent >= 2 && value.indent >= 2
    ensures s.SetGlobal(which, value).settings.indent >= 2
  {
  }

  lemma StepIndent(s: State, op: Op)
    requires SetsGlobally(op) && s.settings.indent >= 2
    ensures s.Step(op).settings.indent >= 2
  {
    hide State.SetGlobal;
    var st := s.settings;
    match op
    case GlobalSeqFlow(f) => SetIndent(s, SeqFormat, st.(seqFormat := f));
    case GlobalMapFlow(f) => SetIndent(s, MapFormat, st.(mapFormat := f));
    case GlobalKeys(long) => SetIndent(s, MapKeyFormat, st.(longKeys := long));
    case GlobalIndent(n) => if n > 1 { SetIndent(s, IndentWidth, st.(indent := n)); }
  }

  lemma {:induction false} IndentStays(s: State, ops: seq<Op>)
    requires s.settings.indent >= 2 && forall i | 0 <= i < |ops| :: SetsGlobally(ops[i])
    ensures s.Run(ops).settings.indent >= 2
    decreases |ops|
  {
    hide State.Step;
    if ops != [] {
      assert SetsGlobally(ops[0]);
      StepIndent(s, ops[0]);
      IndentStays(s.Step(ops[0]), ops[1..]);
    }
  }

  /** What the emitter wrote comes back, in whatever layout: under all global settings, for all
      trees whose keys in block layout have values and are not empty flow groups as simple
      keys, reading the output gives the trees it was called with exactly when the documents
      are separated. */
  lemma OutputReadsBackExactly(globals: seq<Op>, ts: seq<Tree>)
    requires forall i | 0 <= i < |globals| :: SetsGlobally(globals[i])
    requires AllReadable(ts, INITIAL.Run(globals).settings)
    ensures ReadDocuments(Places(INITIAL.Run(globals + AllCalls(ts)).out, 0, true)) == Some(AllPlain(ts))
       <==> Separated(ts, INITIAL.Run(globals).settings)
  {
    IndentStays(INITIAL, globals);
    hide *;
    OutputIsText(globals, ts);
    DocumentsComeBackExactly(ts, INITIAL.Run(globals).settings);
  }

  // ---- what does not come back

  lemma GroupDocument(kind: GroupType, ts: seq<Tree>, st: Settings)
    requires ts != [] && !AsFlow(kind, false, st)
    ensures Document(Node(kind, ts), st) == Items(Frame(kind, false, 0, 0, st.indent), ts, 0, false, st, 0)
  {
    BlockText(Node(kind, ts), 0, 0, st, 0);
  }

  lemma SimpleEntry(f: Frame, t: Tree, n: nat, long: bool, st: Settings)
    requires !f.flow && f.kind == Map && n % 2 == 0 && !LongKey(t, false, st)
    ensures !EntryLong(f, t, n, long, st) && Flat(t, st)
  {
  }

  /** The marks of a simple key alone. */
  lemma {:induction false} AlonePlaces(f: Frame, key: Tree, ts: seq<Tree>, st: Settings) returns (ms: seq<Placed>)
    requires Wide(f) && f == Frame(Map, false, 0, 0, st.indent) && ts == [key] && !LongKey(key, false, st)
    ensures ms == Places(Items(f, ts, 0, false, st, 0), 0, true) && Tokens(ms) == Print(key, true, st)
  {
    hide *;
    SimpleEntry(f, key, 0, false, st);
    var c, a, d, b := ItemsSplit(f, ts, 0, false, st, 0, true);
    LeadFirst(f, 0, false, 0, true);
    assert ts[1..] == [];
    NoItems(f, 1, false, st, d, b, []);
    ms := Places(Text(key, false, 0, st.indent, st, c), c, a);
    FlatTokens(key, 0, st.indent, st, c, a);
    NothingMore(ms, Places(Items(f, [], 1, false, st, d), d, b));
  }

  lemma NothingMore<T>(a: seq<T>, b: seq<T>)
    requires b + [] == []
    ensures [] + a + b == a
  {
    assert b + [] == b;
  }

  /** A key without a value reads as a scalar or group by itself. */
  lemma KeyAloneIsLost(key: Tree, st: Settings)
    requires st.mapFormat == Block && st.indent >= 2 && !LongKey(key, false, st)
    ensures ReadDocuments(Places(Document(Node(Map, [key]), st), 0, true)) == Some([Plain(key)])
  {
    var f := Frame(Map, false, 0, 0, st.indent);
    assert !AsFlow(Map, false, st) && Wide(f);
    hide *;
    GroupDocument(Map, [key], st);
    var ms := AlonePlaces(f, key, [key], st);
    NothingBehind();
    FlatNodeReads(ms, key, st, []);
    assert ms + [] == ms;
    LastUnfolds(ms, Plain(key));
  }

  lemma NothingBehind()
    ensures !Behind([]) && Ends([], 0)
  {
  }

  /** The brackets of an empty group that is a simple key. */
  lemma EmptyKeyPlaces(kind: GroupType, st: Settings, anew: bool)
    requires st.indent >= 2
    ensures var ms := Places(Text(Node(kind, []), false, 0, st.indent, st, 0), 0, anew);
            StartsFlat(ms) && ms[0].col == st.indent
  {
    var width := st.indent;
    var ts := Text(Node(kind, []), false, 0, width, st, 0);
    assert ts[0] == Pad(width) && ts[1..] == [Open(kind), Close(kind)];
    hide Text;
    assert [Open(kind), Close(kind)][1..] == [Close(kind)];
  }

  /** The entries of a map read by the column of such a key end with the first. */
  lemma {:induction false} EndsEarly(c: nat, key: seq<Placed>, first: Tree, colon: Placed, text: seq<Placed>,
                                     value: Tree, rest: seq<Placed>)
    requires StartsFlat(key) && key[0].col == c && Behind([colon] + (text + rest)) && rest != [] && rest[0].col != c
    requires ReadFlat(key + ([colon] + (text + rest))) == Some((first, [colon] + (text + rest)))
    requires Read(text + rest) == Some((value, rest))
    ensures Read(key + ([colon] + (text + rest))) == Some((Node(Map, [first, value]), rest))
  {
    var tail := [colon] + (text + rest);
    var ms := key + tail;
    hide Read, ReadFlat, ReadMap;
    assert ms[0] == key[0];
    assert ReadMap(c, rest) == Some(([], rest)) by { NoEntry(c, rest); }
    ValueUnfolds(c, first, colon, text, rest, value, [], rest);
    assert [first, value] + [] == [first, value];
    SimpleUnfolds(c, ms, tail, first);
    SimpleMapReadsAll(ms, c, [first, value], first, tail, rest);
  }

  lemma NoEntry(c: nat, rest: seq<Placed>)
    requires rest != [] && rest[0].col != c
    ensures ReadMap(c, rest) == Some(([], rest))
  {
  }

  lemma {:induction false} SimpleMapReadsAll(ms: seq<Placed>, c: nat, ts: seq<Tree>, key: Tree, tail: seq<Placed>,
                                             rest: seq<Placed>)
    requires StartsFlat(ms) && ms[0].col == c && ReadFlat(ms) == Some((key, tail)) && Behind(tail)
    requires ReadMap(c, ms) == Some((ts, rest))
    ensures Read(ms) == Some((Node(Map, ts), rest))
  {
    hide ReadMap, ReadFlat, Behind;
  }

  lemma {:induction false} NotADocument(ms: seq<Placed>, t: Tree, rest: seq<Placed>)
    requires Read(ms) == Some((t, rest)) && rest != [] && !rest[0].token.DocStart?
    ensures ReadDocuments(ms) == None
  {
    hide Read;
  }

  /** Reading such a key and its value. */
  lemma {:induction false} EmptyKeyRead(f: Frame, kind: GroupType, value: Tree, ts: seq<Tree>, st: Settings)
    returns (t: Tree, rest: seq<Placed>)
    requires Wide(f) && f == Frame(Map, false, 0, 0, st.indent) && st.indent >= 2
    requires |ts| > 2 && ts[0] == Node(kind, []) && ts[1..][0] == value && !LongKey(Node(kind, []), false, st)
    requires Readable(value, st) && EntriesReadable(ts[1..][1..], st) && ts[1..][1..] != []
    ensures Read(Places(Items(f, ts, 0, false, st, 0), 0, true)) == Some((t, rest))
    ensures rest != [] && !rest[0].token.DocStart?
  {
    hide *;
    var key, more := Node(kind, []), ts[1..][1..];
    SimpleEntry(f, key, 0, false, st);
    EntriesFirst(more, st);
    EntryOfValue(f, value, 1, false, st);
    var c, a, d, b := ItemsSplit(f, ts, 0, false, st, 0, true);
    LeadFirst(f, 0, false, 0, true);
    StartsInColumn(f, 0, ChildOf(key, false, st), c);
    FlatAnew(key, 0, st.indent, st, c, a);
    var tail := Places(Items(f, ts[1..], 1, false, st, d), d, b);
    var text;
    text, rest := EmptyKeyValue(f, value, ts[1..], st, d, b);
    var ms := Places(Text(key, false, 0, st.indent, st, c), c, a);
    EmptyKeyPlaces(kind, st, a);
    FlatTokens(key, 0, st.indent, st, c, a);
    FlatReads(ms, key, st, tail);
    BehindIs(tail);
    EndsEarly(st.indent, ms, Plain(key), Placed(Colon, d, b), text, Plain(value), rest);
    t := Node(Map, [Plain(key), Plain(value)]);
    assert [] + ms + tail == ms + tail;
  }

  lemma {:induction false} EmptyKeyValue(f: Frame, value: Tree, ts: seq<Tree>, st: Settings, col: nat, anew: bool)
    returns (text: seq<Placed>, rest: seq<Placed>)
    requires Wide(f) && f == Frame(Map, false, 0, 0, st.indent) && st.indent >= 2
    requires ts != [] && ts[0] == value && Readable(value, st) && ts[1..] != [] && EntriesReadable(ts[1..], st)
    ensures Places(Items(f, ts, 1, false, st, col), col, anew) == [Placed(Colon, col, anew)] + (text + rest)
    ensures Read(text + rest) == Some((Plain(value), rest))
    ensures rest != [] && rest[0].col == 0 && !rest[0].token.DocStart?
  {
    hide *;
    EntriesFirst(ts[1..], st);
    EntryOfValue(f, value, 1, false, st);
    var c, a, d, b := ItemsSplit(f, ts, 1, false, st, col, anew);
    LeadFirst(f, 1, false, col, anew);
    text := Places(Text(value, false, 0, st.indent, st, c), c, a);
    rest := Places(Items(f, ts[1..], 2, false, st, d), d, b);
    FirstMark(f, ts[1..], 2, false, st, d, b);
    NotAMarker(rest);
    NothingBehind();
    ChildEnds(f, ts[1..], 2, false, st, d, b, []);
    assert rest + [] == rest;
    RoomEnough(f, 1, false, value, st, c);
    TextReads(value, 0, st.indent, st, c, a, rest);
    Associate([Placed(Colon, col, anew)], text, rest);
  }

  lemma NotAMarker(ms: seq<Placed>)
    requires ms != [] && (ms[0].token == Question || StartsFlat(ms))
    ensures !ms[0].token.DocStart?
  {
  }

  /** A map whose first key is an empty flow group, laid out as a simple key, cannot be read
      back when it has more entries: they stand further out than the key. */
  lemma EmptyKeyIsMisread(kind: GroupType, value: Tree, more: seq<Tree>, st: Settings)
    requires st.mapFormat == Block && st.indent >= 2 && !LongKey(Node(kind, []), false, st)
    requires Readable(value, st) && more != [] && EntriesReadable(more, st)
    ensures ReadDocuments(Places(Document(Node(Map, [Node(kind, []), value] + more), st), 0, true)) == None
  {
    var f, ts := Frame(Map, false, 0, 0, st.indent), [Node(kind, []), value] + more;
    GroupDocument(Map, ts, st);
    assert ts[1..] == [value] + more && ts[1..][1..] == more && Wide(f);
    hide *;
    var t, rest := EmptyKeyRead(f, kind, value, ts, st);
    NotADocument(Places(Items(f, ts, 0, false, st, 0), 0, true), t, rest);
  }
}
