/** Base64 as the emitter writes it and the library reads it (section 4 of RFC 4648):
    both loops over their preallocated buffers, and what reading back yields. */
module Base64 {
  import opened Wrappers

  const PAD: bv8 := 0x3D
  const INVALID: bv8 := 255

  /** Entry `d` of the encoding alphabet. */
  function Symbol(d: bv8): (c: bv8)
    requires d < 64
  {
    if d < 26 then 0x41 + d
    else if d < 52 then 0x61 + (d - 26)
    else if d < 62 then 0x30 + (d - 52)
    else if d == 62 then 0x2B
    else 0x2F
  }

  /** The decoding table; the padding character stands for zero bits. */
  function Decoding(c: bv8): bv8
  {
    if 0x41 <= c <= 0x5A then c - 0x41
    else if 0x61 <= c <= 0x7A then c - 0x61 + 26
    else if 0x30 <= c <= 0x39 then c - 0x30 + 52
    else if c == 0x2B then 62
    else if c == 0x2F then 63
    else if c == PAD then 0
    else INVALID
  }

  predicate IsSpace(c: bv8) { c == 0x20 || 0x09 <= c <= 0x0D }

  // ---- specification

  /** The four groups of six bits that three bytes consist of. */
  function First(a: bv8): (d: bv8) ensures d < 64 { a >> 2 }
  function Second(a: bv8, b: bv8): (d: bv8) ensures d < 64 { ((a & 0x3) << 4) | (b >> 4) }
  function Third(b: bv8, c: bv8): (d: bv8) ensures d < 64 { ((b & 0xF) << 2) | (c >> 6) }
  function Fourth(c: bv8): (d: bv8) ensures d < 64 { c & 0x3F }

  function Group(a: bv8, b: bv8, c: bv8): (g: seq<bv8>)
    ensures |g| == 4
  {
    [Symbol(First(a)), Symbol(Second(a, b)), Symbol(Third(b, c)), Symbol(Fourth(c))]
  }

  /** The text of a byte string. */
  function Encode(data: seq<bv8>): (t: seq<bv8>)
  {
    if |data| == 0 then []
    else if |data| == 1 then [Symbol(First(data[0])), Symbol((data[0] & 0x3) << 4), PAD, PAD]
    else if |data| == 2 then
      [Symbol(First(data[0])), Symbol(Second(data[0], data[1])), Symbol((data[1] & 0xF) << 2), PAD]
    else Group(data[0], data[1], data[2]) + Encode(data[3..])
  }

  /** The three low bytes of the accumulated bits, cut down to a character each. */
  function High(value: bv32): bv8 { ((value >> 16) & 0xFF) as bv8 }
  function Middle(value: bv32): bv8 { ((value >> 8) & 0xFF) as bv8 }
  function Low(value: bv32): bv8 { (value & 0xFF) as bv8 }

  /** The bytes that the last symbol of a group releases from the accumulated bits. */
  function Release(value: bv32, prev: bv8, c: bv8): (r: seq<bv8>)
    ensures 1 <= |r| <= 3
  {
    [High(value)] + (if prev != PAD then [Middle(value)] else []) + (if c != PAD then [Low(value)] else [])
  }

  function Prepend(front: seq<bv8>, r: Option<seq<bv8>>): Option<seq<bv8>>
  {
    match r case None => None case Some(bytes) => Some(front + bytes)
  }

  /** Shifts the six bits of a symbol into the bits gathered so far. */
  function Push(value: bv32, c: bv8): bv32 { (value << 6) | Decoding(c) as bv32 }

  /** Decodes `text`, given the character in front of it, the number of symbols already
      read in the current group, and the bits gathered so far. */
  function DecodeFrom(text: seq<bv8>, prev: bv8, cnt: nat, value: bv32): Option<seq<bv8>>
    requires cnt < 4
    decreases |text|
  {
    if text == [] then Some([])
    else
      var c := text[0];
      if IsSpace(c) then DecodeFrom(text[1..], c, cnt, value)
      else if Decoding(c) == INVALID then None
      else
        var v := Push(value, c);
        if cnt == 3 then Prepend(Release(v, prev, c), DecodeFrom(text[1..], c, 0, v))
        else DecodeFrom(text[1..], c, cnt + 1, v)
  }

  /** The decoder answers an invalid character with an empty result. */
  function Decode(text: seq<bv8>): seq<bv8>
  {
    match DecodeFrom(text, 0, 0, 0) case None => [] case Some(bytes) => bytes
  }

  // ---- reading back what was written

  lemma {:induction false} EncodeLength(data: seq<bv8>)
    ensures |Encode(data)| == (|data| + 2) / 3 * 4
  {
    if |data| > 2 {
      EncodeLength(data[3..]);
    }
  }

  lemma SymbolDecodes(d: bv8)
    requires d < 64
    ensures Decoding(Symbol(d)) == d && !IsSpace(Symbol(d)) && Symbol(d) != PAD
  {
  }

  predicate IsSymbol(c: bv8) { !IsSpace(c) && Decoding(c) != INVALID }

  lemma StepSymbol(c: bv8, rest: seq<bv8>, prev: bv8, cnt: nat, value: bv32)
    requires cnt < 4 && IsSymbol(c)
    ensures cnt < 3 ==> DecodeFrom([c] + rest, prev, cnt, value) == DecodeFrom(rest, c, cnt + 1, Push(value, c))
    ensures cnt == 3 ==> DecodeFrom([c] + rest, prev, cnt, value)
                         == Prepend(Release(Push(value, c), prev, c), DecodeFrom(rest, c, 0, Push(value, c)))
  {
    hide Release, Push, Decoding, IsSpace;
    assert ([c] + rest)[1..] == rest;
  }

  /** Four symbols at the start of a group release the low 24 bits they carry. */
  lemma DecodeGroup(w: bv8, x: bv8, y: bv8, z: bv8, rest: seq<bv8>, prev: bv8, value: bv32)
    requires IsSymbol(w) && IsSymbol(x) && IsSymbol(y) && IsSymbol(z)
    ensures var v := Push(Push(Push(Push(value, w), x), y), z);
            DecodeFrom([w, x, y, z] + rest, prev, 0, value) == Prepend(Release(v, y, z), DecodeFrom(rest, z, 0, v))
  {
    hide DecodeFrom, IsSymbol, Release, Push;
    var v1 := Push(value, w);
    var v2 := Push(v1, x);
    StepSymbol(w, [x, y, z] + rest, prev, 0, value);
    StepSymbol(x, [y, z] + rest, w, 1, v1);
    StepSymbol(y, [z] + rest, x, 2, v2);
    StepSymbol(z, rest, y, 3, Push(v2, y));
    assert [w, x, y, z] + rest == [w] + ([x, y, z] + rest);
    assert [x, y, z] + rest == [x] + ([y, z] + rest);
    assert [y, z] + rest == [y] + ([z] + rest);
  }

  /** The bits of one group, whatever was accumulated before. */
  function Gathered(value: bv32, p: bv8, q: bv8, r: bv8, s: bv8): bv32
  {
    (((((((value << 6) | p as bv32) << 6) | q as bv32) << 6) | r as bv32) << 6) | s as bv32
  }

  lemma GroupBits(value: bv32, a: bv8, b: bv8, c: bv8)
    ensures var v := Gathered(value, First(a), Second(a, b), Third(b, c), Fourth(c));
            High(v) == a && Middle(v) == b && Low(v) == c
  {
  }

  lemma ZeroBits(a: bv8)
    ensures (a & 0x3) << 4 == Second(a, 0) && (a & 0xF) << 2 == Third(a, 0)
    ensures Third(0, 0) == Fourth(0) == 0
  {
  }

  /** `p` is a symbol for the six bits `d`, or padding in place of zero bits. */
  predicate Carries(p: bv8, d: bv8)
    requires d < 64
  {
    p == Symbol(d) || (p == PAD && d == 0)
  }

  /** What the symbols of one group of bytes release again, its padding cut off. */
  lemma GroupReleases(a: bv8, b: bv8, c: bv8, value: bv32, y: bv8, z: bv8)
    requires Carries(y, Third(b, c)) && Carries(z, Fourth(c))
    ensures var w, x := Symbol(First(a)), Symbol(Second(a, b));
            var v := Push(Push(Push(Push(value, w), x), y), z);
            IsSymbol(w) && IsSymbol(x) && IsSymbol(y) && IsSymbol(z)
            && Release(v, y, z) == [a] + (if y != PAD then [b] else []) + (if z != PAD then [c] else [])
  {
    hide Symbol, First, Second, Third, Fourth, Decoding, IsSpace, Carries, Push, Gathered, IsSymbol,
         High, Middle, Low;
    var w, x := Symbol(First(a)), Symbol(Second(a, b));
    SymbolCarries(First(a));
    SymbolCarries(Second(a, b));
    CarriesDecodes(w, First(a));
    CarriesDecodes(x, Second(a, b));
    CarriesDecodes(y, Third(b, c));
    CarriesDecodes(z, Fourth(c));
    GroupBits(value, a, b, c);
    PushesGather(value, w, x, y, z);
  }

  lemma SymbolCarries(d: bv8)
    requires d < 64
    ensures Carries(Symbol(d), d)
  {
  }

  lemma CarriesDecodes(p: bv8, d: bv8)
    requires d < 64 && Carries(p, d)
    ensures IsSymbol(p) && Decoding(p) == d
  {
    SymbolDecodes(d);
  }

  lemma PushesGather(value: bv32, w: bv8, x: bv8, y: bv8, z: bv8)
    ensures Push(Push(Push(Push(value, w), x), y), z)
            == Gathered(value, Decoding(w), Decoding(x), Decoding(y), Decoding(z))
  {
    hide Decoding;
  }

  /** One group, followed by anything: its bytes come back, and decoding goes on. */
  lemma GroupRoundTrip(a: bv8, b: bv8, c: bv8, y: bv8, z: bv8, rest: seq<bv8>, prev: bv8, value: bv32)
    returns (v: bv32)
    requires Carries(y, Third(b, c)) && Carries(z, Fourth(c))
    ensures DecodeFrom([Symbol(First(a)), Symbol(Second(a, b)), y, z] + rest, prev, 0, value)
            == Prepend([a] + (if y != PAD then [b] else []) + (if z != PAD then [c] else []),
                       DecodeFrom(rest, z, 0, v))
  {
    hide Symbol, IsSymbol, Release, Push, First, Second, DecodeFrom;
    var w, x := Symbol(First(a)), Symbol(Second(a, b));
    GroupReleases(a, b, c, value, y, z);
    DecodeGroup(w, x, y, z, rest, prev, value);
    v := Push(Push(Push(Push(value, w), x), y), z);
  }

  lemma OneByteRoundTrip(a: bv8, prev: bv8, value: bv32)
    ensures DecodeFrom(Encode([a]), prev, 0, value) == Some([a])
  {
    ZeroBits(a);
    hide Symbol, First, Second, Third, Fourth, DecodeFrom;
    var v := GroupRoundTrip(a, 0, 0, PAD, PAD, [], prev, value);
    assert Encode([a]) == [Symbol(First(a)), Symbol(Second(a, 0)), PAD, PAD] + [];
    DecodeNothing(PAD, v);
    assert [a] + [] + [] + [] == [a];
  }

  lemma TwoBytesRoundTrip(a: bv8, b: bv8, prev: bv8, value: bv32)
    ensures DecodeFrom(Encode([a, b]), prev, 0, value) == Some([a, b])
  {
    ZeroBits(b);
    SymbolDecodes(Third(b, 0));
    hide Symbol, First, Second, Third, Fourth, DecodeFrom;
    var y := Symbol(Third(b, 0));
    var v := GroupRoundTrip(a, b, 0, y, PAD, [], prev, value);
    assert Encode([a, b]) == [Symbol(First(a)), Symbol(Second(a, b)), y, PAD] + [];
    DecodeNothing(PAD, v);
    assert [a] + [b] + [] + [] == [a, b];
  }

  lemma GroupOfThree(data: seq<bv8>, prev: bv8, value: bv32) returns (v: bv32)
    requires |data| >= 3
    ensures DecodeFrom(Encode(data[3..]), Symbol(Fourth(data[2])), 0, v) == Some(data[3..])
            ==> DecodeFrom(Encode(data), prev, 0, value) == Some(data)
  {
    var a, b, c := data[0], data[1], data[2];
    SymbolDecodes(Third(b, c));
    SymbolDecodes(Fourth(c));
    hide DecodeFrom, Symbol, First, Second, Third, Fourth;
    var y, z := Symbol(Third(b, c)), Symbol(Fourth(c));
    v := GroupRoundTrip(a, b, c, y, z, Encode(data[3..]), prev, value);
    assert data == [a] + [b] + [c] + data[3..];
  }

  /** Decoding what was encoded gives the bytes back, from any state between two groups. */
  lemma {:induction false} DecodeOfEncodeFrom(data: seq<bv8>, prev: bv8, value: bv32)
    ensures DecodeFrom(Encode(data), prev, 0, value) == Some(data)
  {
    hide DecodeFrom, Symbol, Fourth;
    if |data| == 0 {
      DecodeNothing(prev, value);
    } else if |data| == 1 {
      OneByteRoundTrip(data[0], prev, value);
      assert data == [data[0]];
    } else if |data| == 2 {
      TwoBytesRoundTrip(data[0], data[1], prev, value);
      assert data == [data[0], data[1]];
    } else {
      var v := GroupOfThree(data, prev, value);
      DecodeOfEncodeFrom(data[3..], Symbol(Fourth(data[2])), v);
    }
  }

  lemma DecodeNothing(prev: bv8, value: bv32)
    ensures DecodeFrom([], prev, 0, value) == Some([])
  {
  }

  // ---- whitespace

  function Strip(text: seq<bv8>): seq<bv8>
  {
    if text == [] then []
    else if IsSpace(text[0]) then Strip(text[1..])
    else [text[0]] + Strip(text[1..])
  }

  /** How many groups have a padding third symbol that whitespace separates from the fourth,
      given the character `prev` and the symbol `last` in front of `text`. */
  function SplitPads(text: seq<bv8>, prev: bv8, last: bv8, cnt: nat): nat
    requires cnt < 4
  {
    if text == [] then 0
    else
      var c := text[0];
      if IsSpace(c) then SplitPads(text[1..], c, last, cnt)
      else if cnt == 3 then (if IsSpace(prev) && last == PAD then 1 else 0) + SplitPads(text[1..], c, c, 0)
      else SplitPads(text[1..], c, c, cnt + 1)
  }

  lemma {:induction false} SplitPadsLengthen(text: seq<bv8>, prev: bv8, last: bv8, cnt: nat, value: bv32)
    requires cnt < 4 && (prev == last || IsSpace(prev))
    ensures var whole, stripped := DecodeFrom(text, prev, cnt, value), DecodeFrom(Strip(text), last, cnt, value);
            && whole.Some? == stripped.Some?
            && (whole.Some? ==> |whole.value| == |stripped.value| + SplitPads(text, prev, last, cnt))
            && (SplitPads(text, prev, last, cnt) == 0 ==> whole == stripped)
    decreases |text|
  {
    assert !IsSpace(PAD);
    hide Release, Decoding, Push, IsSpace;
    if text != [] {
      var c := text[0];
      if IsSpace(c) {
        SplitPadsLengthen(text[1..], c, last, cnt, value);
      } else if Decoding(c) != INVALID {
        var v := Push(value, c);
        assert text == [c] + text[1..];
        StepSymbol(c, text[1..], prev, cnt, value);
        StepSymbol(c, Strip(text[1..]), last, cnt, value);
        hide DecodeFrom;
        SplitPadsLengthen(text[1..], c, c, if cnt == 3 then 0 else cnt + 1, v);
        ReleaseLength(v, prev, c);
        ReleaseLength(v, last, c);
      }
    }
  }

  lemma ReleaseLength(v: bv32, prev: bv8, c: bv8)
    ensures |Release(v, prev, c)| == 1 + (if prev != PAD then 1 else 0) + if c != PAD then 1 else 0
    ensures prev != PAD ==> forall p :: p != PAD ==> Release(v, prev, c) == Release(v, p, c)
  {
  }

  /** A character that is neither whitespace nor in the decoding table. */
  predicate Foreign(c: bv8) { !IsSpace(c) && Decoding(c) == INVALID }

  /** The decoder gives up exactly on texts with such a character, wherever it stands. */
  lemma {:induction false} InvalidExactly(text: seq<bv8>, prev: bv8, cnt: nat, value: bv32)
    requires cnt < 4
    ensures DecodeFrom(text, prev, cnt, value).None? <==> exists c :: c in text && Foreign(c)
    decreases |text|
  {
    hide Release, Decoding, Push, IsSpace;
    if text != [] {
      var c, rest := text[0], text[1..];
      assert text == [c] + rest;
      if IsSpace(c) {
        InvalidExactly(rest, c, cnt, value);
      } else if Decoding(c) == INVALID {
        assert c in text && Foreign(c);
      } else {
        InvalidExactly(rest, c, if cnt == 3 then 0 else cnt + 1, Push(value, c));
      }
    }
  }

  /** Whitespace leaves the result alone exactly when the text has a foreign character, and no
      result anyway, or when no padded group has whitespace right in front of its last symbol. */
  lemma WhitespaceIsIgnoredExactly(text: seq<bv8>)
    ensures Decode(text) == Decode(Strip(text))
            <==> (exists c :: c in text && Foreign(c)) || SplitPads(text, 0, 0, 0) == 0
  {
    SplitPadsLengthen(text, 0, 0, 0, 0);
    InvalidExactly(text, 0, 0, 0);
  }

  lemma OneByteEncoding(a: bv8)
    ensures var x, y := Symbol(First(a)), Symbol(Second(a, 0));
            && Encode([a]) == [x, y, PAD, PAD]
            && !IsSpace(x) && !Foreign(x) && !IsSpace(y) && !Foreign(y) && !IsSpace(PAD) && !Foreign(PAD)
  {
    SymbolDecodes(First(a));
    SymbolDecodes(Second(a, 0));
  }

  lemma SplitOfOneByte(x: bv8, y: bv8, space: bv8)
    requires !IsSpace(x) && !IsSpace(y) && IsSpace(space)
    ensures SplitPads([x, y, PAD, space, PAD], 0, 0, 0) == 1
    ensures Strip([x, y, PAD, space, PAD]) == [x, y, PAD, PAD]
  {
    var t := [x, y, PAD, space, PAD];
    assert !IsSpace(PAD);
    hide IsSpace;
    assert t[1..] == [y, PAD, space, PAD] && t[1..][1..] == [PAD, space, PAD];
    assert [PAD, space, PAD][1..] == [space, PAD] && [space, PAD][1..] == [PAD] && [PAD][1..] == [];
    assert Strip([space, PAD]) == Strip([PAD]) == [PAD];
    assert Strip([PAD, space, PAD]) == [PAD] + [PAD];
    assert Strip([y, PAD, space, PAD]) == [y] + [PAD, PAD];
    assert SplitPads([space, PAD], PAD, PAD, 3) == SplitPads([PAD], space, PAD, 3) == 1;
    assert SplitPads([PAD, space, PAD], y, y, 2) == SplitPads([space, PAD], PAD, PAD, 3);
    assert SplitPads([y, PAD, space, PAD], x, x, 1) == SplitPads([PAD, space, PAD], y, y, 2);
  }

  /** The encoding of a single byte with any whitespace between its two padding characters is
      not decoded to that byte: "QQ= =" is not read like "QQ==". */
  lemma SplitPaddingChangesTheResult(a: bv8, space: bv8)
    requires IsSpace(space)
    ensures var x, y := Symbol(First(a)), Symbol(Second(a, 0));
            Encode([a]) == [x, y, PAD, PAD] && Decode([x, y, PAD, space, PAD]) != Decode([x, y, PAD, PAD]) == [a]
  {
    var x, y := Symbol(First(a)), Symbol(Second(a, 0));
    OneByteEncoding(a);
    DecodeOfEncodeFrom([a], 0, 0);
    assert !Foreign(space);
    hide Symbol, First, Second, IsSpace, Foreign, DecodeFrom, Encode;
    SplitOfOneByte(x, y, space);
    WhitespaceIsIgnoredExactly([x, y, PAD, space, PAD]);
  }

  lemma SplitPaddingOfA()
    ensures Decode([0x51, 0x51, PAD, 0x20, PAD]) != Decode([0x51, 0x51, PAD, PAD]) == [0x41]
  {
    SplitPaddingChangesTheResult(0x41, 0x20);
    assert Symbol(First(0x41)) == 0x51 && Symbol(Second(0x41, 0)) == 0x51;
  }

  /** Whitespace occurs only between groups of four symbols. */
  predicate BetweenGroups(text: seq<bv8>, cnt: nat)
    requires cnt < 4
  {
    text == [] || if IsSpace(text[0]) then cnt == 0 && BetweenGroups(text[1..], 0)
                  else BetweenGroups(text[1..], (cnt + 1) % 4)
  }

  lemma {:induction false} NoSplitBetweenGroups(text: seq<bv8>, prev: bv8, last: bv8, cnt: nat)
    requires cnt < 4 && BetweenGroups(text, cnt) && (cnt > 0 ==> !IsSpace(prev))
    ensures SplitPads(text, prev, last, cnt) == 0
  {
    if text != [] {
      var c := text[0];
      if IsSpace(c) {
        NoSplitBetweenGroups(text[1..], c, last, cnt);
      } else {
        NoSplitBetweenGroups(text[1..], c, c, (cnt + 1) % 4);
      }
    }
  }

  /** The round trip, with any whitespace inserted between the groups on the way. */
  lemma RoundTrip(data: seq<bv8>, text: seq<bv8>)
    requires Strip(text) == Encode(data) && BetweenGroups(text, 0)
    ensures Decode(text) == data
  {
    NoSplitBetweenGroups(text, 0, 0, 0);
    WhitespaceIsIgnoredExactly(text);
    DecodeOfEncodeFrom(data, 0, 0);
  }

  // ---- which texts are encodings

  predicate IsData(c: bv8) { !IsSpace(c) && Decoding(c) != INVALID && c != PAD }

  /** Groups of four symbols, with padding only in the last one and no spare bits set there. */
  predicate Canonical(text: seq<bv8>)
  {
    text == [] ||
    (&& |text| >= 4 && IsData(text[0]) && IsData(text[1])
     && (|| (IsData(text[2]) && IsData(text[3]) && Canonical(text[4..]))
         || (|text| == 4 && IsData(text[2]) && text[3] == PAD && Decoding(text[2]) & 0x3 == 0)
         || (|text| == 4 && text[2] == text[3] == PAD && Decoding(text[1]) & 0xF == 0)))
  }

  lemma SymbolIsData(d: bv8)
    requires d < 64
    ensures IsData(Symbol(d)) && Decoding(Symbol(d)) == d
  {
  }

  lemma DataIsSymbol(c: bv8)
    requires IsData(c)
    ensures Decoding(c) < 64 && Symbol(Decoding(c)) == c
  {
  }

  lemma {:induction false} EncodeIsCanonical(data: seq<bv8>)
    ensures Canonical(Encode(data))
  {
    if data != [] {
      SymbolIsData(First(data[0]));
      SpareBits(data[0]);
      if |data| == 1 {
        SymbolIsData((data[0] & 0x3) << 4);
      } else {
        SymbolIsData(Second(data[0], data[1]));
        SpareBits(data[1]);
        if |data| == 2 {
          SymbolIsData((data[1] & 0xF) << 2);
        } else {
          SymbolIsData(Third(data[1], data[2]));
          SymbolIsData(Fourth(data[2]));
          EncodeIsCanonical(data[3..]);
          assert Encode(data)[4..] == Encode(data[3..]);
        }
      }
    }
  }

  lemma SpareBits(a: bv8)
    ensures ((a & 0x3) << 4) & 0xF == 0 && ((a & 0xF) << 2) & 0x3 == 0
    ensures (a & 0x3) << 4 < 64 && (a & 0xF) << 2 < 64
  {
  }

  /** The three bytes that four groups of six bits make up. */
  function Join(p: bv8, q: bv8, r: bv8, s: bv8): (bv8, bv8, bv8)
    requires p < 64 && q < 64 && r < 64 && s < 64
  {
    ((p << 2) | (q >> 4), ((q & 0xF) << 4) | (r >> 2), ((r & 0x3) << 6) | s)
  }

  lemma JoinSplits(p: bv8, q: bv8, r: bv8, s: bv8)
    requires p < 64 && q < 64 && r < 64 && s < 64
    ensures var (a, b, c) := Join(p, q, r, s);
            First(a) == p && Second(a, b) == q && Third(b, c) == r && Fourth(c) == s
    ensures var (a, b, c) := Join(p, q, r, s);
            (r & 0x3 == 0 ==> (b & 0xF) << 2 == r) && (q & 0xF == 0 ==> (a & 0x3) << 4 == q)
  {
    var (a, b, c) := Join(p, q, r, s);
    assert Second(a, b) == q;
    assert Third(b, c) == r;
    assert Fourth(c) == s;
  }

  lemma EncodeMore(a: bv8, b: bv8, c: bv8, more: seq<bv8>)
    ensures Encode([a, b, c] + more) ==
            [Symbol(First(a)), Symbol(Second(a, b)), Symbol(Third(b, c)), Symbol(Fourth(c))] + Encode(more)
  {
    hide Symbol, First, Second, Third, Fourth;
    assert ([a, b, c] + more)[3..] == more;
  }

  /** Four symbols are the encoding of three bytes. */
  lemma WholeGroup(w: bv8, x: bv8, y: bv8, z: bv8) returns (a: bv8, b: bv8, c: bv8)
    requires IsData(w) && IsData(x) && IsData(y) && IsData(z)
    ensures [Symbol(First(a)), Symbol(Second(a, b)), Symbol(Third(b, c)), Symbol(Fourth(c))] == [w, x, y, z]
  {
    DataIsSymbol(w);
    DataIsSymbol(x);
    DataIsSymbol(y);
    DataIsSymbol(z);
    hide Symbol, Decoding, IsData, First, Second, Third, Fourth, Join;
    JoinSplits(Decoding(w), Decoding(x), Decoding(y), Decoding(z));
    var (p, q, r) := Join(Decoding(w), Decoding(x), Decoding(y), Decoding(z));
    a, b, c := p, q, r;
  }

  lemma LastGroup(text: seq<bv8>) returns (data: seq<bv8>)
    requires |text| == 4 && IsData(text[0]) && IsData(text[1]) && text[3] == PAD
    requires (IsData(text[2]) && Decoding(text[2]) & 0x3 == 0) || (text[2] == PAD && Decoding(text[1]) & 0xF == 0)
    ensures Encode(data) == text
  {
    PadIsNoData();
    DataIsSymbol(text[0]);
    DataIsSymbol(text[1]);
    if IsData(text[2]) {
      DataIsSymbol(text[2]);
    }
    hide Symbol, Decoding, IsData, First, Second, Third, Fourth, Join;
    var third := if IsData(text[2]) then Decoding(text[2]) else 0;
    JoinSplits(Decoding(text[0]), Decoding(text[1]), third, 0);
    var (a, b, _) := Join(Decoding(text[0]), Decoding(text[1]), third, 0);
    data := if IsData(text[2]) then [a, b] else [a];
  }

  lemma {:induction false} CanonicalIsEncoding(text: seq<bv8>) returns (data: seq<bv8>)
    requires Canonical(text)
    ensures Encode(data) == text
    decreases |text|
  {
    hide Symbol, Decoding, IsData, First, Second, Third, Fourth, Encode;
    if text == [] {
      data := [];
      EncodeNothing();
    } else if IsData(text[2]) && IsData(text[3]) && Canonical(text[4..]) {
      var a, b, c := WholeGroup(text[0], text[1], text[2], text[3]);
      var more := CanonicalIsEncoding(text[4..]);
      data := [a, b, c] + more;
      EncodeMore(a, b, c, more);
      assert text == [text[0], text[1], text[2], text[3]] + text[4..];
    } else {
      data := LastGroup(text);
    }
  }

  lemma PadIsNoData()
    ensures !IsData(PAD)
  {
  }

  /** Encoding what a text decodes to gives the text back exactly when it is canonical. */
  lemma EncodeOfDecodeExactly(text: seq<bv8>)
    ensures Encode(Decode(text)) == text <==> Canonical(text)
  {
    EncodeIsCanonical(Decode(text));
    if Canonical(text) {
      var data := CanonicalIsEncoding(text);
      DecodeOfEncodeFrom(data, 0, 0);
    }
  }

  // ---- the loops themselves

  lemma {:induction false} EncodeAppend(front: seq<bv8>, back: seq<bv8>)
    requires |front| % 3 == 0
    ensures Encode(front + back) == Encode(front) + Encode(back)
  {
    hide Group;
    if front == [] {
      assert front + back == back;
    } else {
      assert (front + back)[3..] == front[3..] + back;
      EncodeAppend(front[3..], back);
    }
  }

  /** Writes four characters through the output position. */
  method Put(buffer: array<bv8>, out: nat, w: bv8, x: bv8, y: bv8, z: bv8)
    requires out + 4 <= buffer.Length
    modifies buffer
    ensures buffer[..out + 4] == old(buffer[..out]) + [w, x, y, z]
  {
    buffer[out] := w;
    buffer[out + 1] := x;
    buffer[out + 2] := y;
    buffer[out + 3] := z;
  }

  method EncodeBase64(data: seq<bv8>) returns (ret: seq<bv8>)
    ensures ret == Encode(data)
  {
    hide Symbol, First, Second, Third, Fourth, Encode, Group;
    var buffer := new bv8[4 * |data| / 3 + 3];
    var out, at := 0, 0;
    EncodeNothing();
    var chunks, remainder := |data| / 3, |data| % 3;
    for i := 0 to chunks
      invariant at == 3 * i && out == 4 * i
      invariant buffer[..out] == Encode(data[..at])
    {
      var a, b, c := data[at], data[at + 1], data[at + 2];
      assert data[..at + 3] == data[..at] + [a, b, c];
      EncodeAppend(data[..at], [a, b, c]);
      EncodeThreeBytes(a, b, c);
      Put(buffer, out, Symbol(First(a)), Symbol(Second(a, b)), Symbol(Third(b, c)), Symbol(Fourth(c)));
      out, at := out + 4, at + 3;
    }
    ghost var tail := data[at..];
    assert data == data[..at] + tail;
    EncodeAppend(data[..at], tail);
    out := PutRemainder(buffer, out, data, at, remainder);
    ret := buffer[..out];
  }

  /** Writes the last group, filled up with padding, when there are bytes left over. */
  method PutRemainder(buffer: array<bv8>, out: nat, data: seq<bv8>, at: nat, remainder: nat) returns (next: nat)
    requires at + remainder == |data| && remainder < 3
    requires remainder > 0 ==> out + 4 <= buffer.Length
    requires out <= buffer.Length
    modifies buffer
    ensures out <= next <= buffer.Length && buffer[..next] == old(buffer[..out]) + Encode(data[at..])
  {
    hide Symbol, First, Second;
    next := out;
    if remainder == 1 {
      BitsFit(data[at]);
      Put(buffer, out, Symbol(First(data[at])), Symbol((data[at] & 0x3) << 4), PAD, PAD);
      next := out + 4;
    } else if remainder == 2 {
      BitsFit(data[at + 1]);
      Put(buffer, out, Symbol(First(data[at])), Symbol(Second(data[at], data[at + 1])),
          Symbol((data[at + 1] & 0xF) << 2), PAD);
      next := out + 4;
    }
  }

  lemma EncodeNothing()
    ensures Encode([]) == []
  {
  }

  lemma EncodeThreeBytes(a: bv8, b: bv8, c: bv8)
    ensures Encode([a, b, c]) == [Symbol(First(a)), Symbol(Second(a, b)), Symbol(Third(b, c)), Symbol(Fourth(c))]
  {
    hide Symbol, First, Second, Third, Fourth;
    assert [a, b, c][3..] == [];
  }

  lemma BitsFit(a: bv8)
    ensures (a & 0x3) << 4 < 64 && (a & 0xF) << 2 < 64
  {
  }

  /** Characters that end the decoding or change nothing but the character in front. */
  lemma StepOther(c: bv8, rest: seq<bv8>, prev: bv8, cnt: nat, value: bv32)
    requires cnt < 4
    ensures IsSpace(c) ==> DecodeFrom([c] + rest, prev, cnt, value) == DecodeFrom(rest, c, cnt, value)
    ensures !IsSpace(c) && Decoding(c) == INVALID ==> DecodeFrom([c] + rest, prev, cnt, value) == None
    ensures DecodeFrom([], prev, cnt, value) == Some([])
  {
    hide Release, Push, Decoding, IsSpace;
    assert ([c] + rest)[1..] == rest;
  }

  method DecodeBase64(input: seq<bv8>) returns (ret: seq<bv8>)
    ensures ret == Decode(input)
  {
    hide Release, Decoding, IsSpace, Push, DecodeFrom, Prepend;
    StepOther(0, [], 0, 0, 0);
    if input == [] {
      return [];
    }
    var buffer := new bv8[3 * |input| / 4 + 1];
    var out, cnt := 0, 0;
    var value: bv32 := 0;
    ghost var prev: bv8 := 0;
    assert input[0..] == input;
    PrependNothing(DecodeFrom(input, 0, 0, 0));
    for i := 0 to |input|
      invariant 0 <= cnt <= i && 0 <= out <= 3 * (cnt / 4) <= buffer.Length
      invariant i > 0 ==> prev == input[i - 1]
      invariant DecodeFrom(input, 0, 0, 0) == Prepend(buffer[..out], DecodeFrom(input[i..], prev, cnt % 4, value))
    {
      var c := input[i];
      ghost var before, rest := buffer[..out], input[i + 1..];
      assert input[i..] == [c] + rest;
      StepOther(c, rest, prev, cnt % 4, value);
      if IsSpace(c) {
        prev := c;
        continue;
      }
      var d := Decoding(c);
      if d == INVALID {
        PrependIs(before, []);
        return [];
      }
      StepSymbol(c, rest, prev, cnt % 4, value);
      value := Shift(value, c, d);
      if cnt % 4 == 3 {
        out := PutRelease(buffer, out, value, input[i - 1], c);
        PrependTwice(before, Release(value, prev, c), DecodeFrom(rest, c, 0, value));
      }
      cnt := cnt + 1;
      prev := c;
    }
    ret := buffer[..out];
    assert input[|input|..] == [] && ret + [] == ret;
    StepOther(0, [], prev, cnt % 4, value);
    PrependIs(ret, []);
  }

  method Shift(value: bv32, c: bv8, d: bv8) returns (v: bv32)
    requires d == Decoding(c)
    ensures v == Push(value, c)
  {
    v := (value << 6) | d as bv32;
  }

  /** Writes the bytes of a finished group through the output position. */
  method PutRelease(buffer: array<bv8>, out: nat, value: bv32, prev: bv8, c: bv8) returns (next: nat)
    requires out + 3 <= buffer.Length
    modifies buffer
    ensures next <= out + 3 && buffer[..next] == old(buffer[..out]) + Release(value, prev, c)
  {
    hide High, Middle, Low;
    next := out;
    buffer[next], next := High(value), next + 1;
    if prev != PAD {
      buffer[next], next := Middle(value), next + 1;
    }
    if c != PAD {
      buffer[next], next := Low(value), next + 1;
    }
  }

  lemma PrependNothing(r: Option<seq<bv8>>)
    ensures Prepend([], r) == r
  {
    if r.Some? {
      assert [] + r.value == r.value;
    }
  }

  lemma PrependIs(front: seq<bv8>, back: seq<bv8>)
    ensures Prepend(front, Some(back)) == Some(front + back) && Prepend(front, None) == None
  {
  }

  lemma PrependTwice(a: seq<bv8>, b: seq<bv8>, r: Option<seq<bv8>>)
    ensures Prepend(a, Prepend(b, r)) == Prepend(a + b, r)
  {
    if r.Some? {
      assert a + (b + r.value) == (a + b) + r.value;
    }
  }

  // ---- the alphabet and the bits

  /** The characters A to Z, a to z, 0 to 9, plus and slash, in this order. */
  const ALPHABET: seq<bv8> := [
    0x41, 0x42, 0x43, 0x44, 0x45, 0x46, 0x47, 0x48, 0x49, 0x4A, 0x4B, 0x4C, 0x4D, 0x4E, 0x4F, 0x50,
    0x51, 0x52, 0x53, 0x54, 0x55, 0x56, 0x57, 0x58, 0x59, 0x5A, 0x61, 0x62, 0x63, 0x64, 0x65, 0x66,
    0x67, 0x68, 0x69, 0x6A, 0x6B, 0x6C, 0x6D, 0x6E, 0x6F, 0x70, 0x71, 0x72, 0x73, 0x74, 0x75, 0x76,
    0x77, 0x78, 0x79, 0x7A, 0x30, 0x31, 0x32, 0x33, 0x34, 0x35, 0x36, 0x37, 0x38, 0x39, 0x2B, 0x2F]

  /** The number whose bits three bytes are, and the number whose digits to the base 64 four digits are. */
  function Bytes(a: bv8, b: bv8, c: bv8): bv32 { (a as bv32 << 16) + (b as bv32 << 8) + c as bv32 }

  function Digits(w: bv8, x: bv8, y: bv8, z: bv8): bv32
  {
    (w as bv32 << 18) + (x as bv32 << 12) + (y as bv32 << 6) + z as bv32
  }

  /** The four digits of three bytes are those of their number. */
  lemma GroupIsNumber(a: bv8, b: bv8, c: bv8)
    ensures Digits(First(a), Second(a, b), Third(b, c), Fourth(c)) == Bytes(a, b, c)
  {
  }

  /** The symbols of all digits, in the order of the digits. */
  function Symbols(): seq<bv8>
  {
    [Symbol(0), Symbol(1), Symbol(2), Symbol(3), Symbol(4), Symbol(5), Symbol(6), Symbol(7),
     Symbol(8), Symbol(9), Symbol(10), Symbol(11), Symbol(12), Symbol(13), Symbol(14), Symbol(15),
     Symbol(16), Symbol(17), Symbol(18), Symbol(19), Symbol(20), Symbol(21), Symbol(22), Symbol(23),
     Symbol(24), Symbol(25), Symbol(26), Symbol(27), Symbol(28), Symbol(29), Symbol(30), Symbol(31),
     Symbol(32), Symbol(33), Symbol(34), Symbol(35), Symbol(36), Symbol(37), Symbol(38), Symbol(39),
     Symbol(40), Symbol(41), Symbol(42), Symbol(43), Symbol(44), Symbol(45), Symbol(46), Symbol(47),
     Symbol(48), Symbol(49), Symbol(50), Symbol(51), Symbol(52), Symbol(53), Symbol(54), Symbol(55),
     Symbol(56), Symbol(57), Symbol(58), Symbol(59), Symbol(60), Symbol(61), Symbol(62), Symbol(63)]
  }

  /** They are the alphabet of section 4 of RFC 4648. */
  lemma SymbolsAreTheAlphabet()
    ensures Symbols() == ALPHABET
  {
  }

  /** Group number `k` of the text stands for bytes number 3k to 3k + 2. */
  lemma {:induction false} GroupsInOrder(data: seq<bv8>, k: nat)
    requires 3 * k + 3 <= |data|
    ensures 4 * k + 4 <= |Encode(data)|
    ensures Encode(data)[4 * k..4 * k + 4] == Group(data[3 * k], data[3 * k + 1], data[3 * k + 2])
  {
    hide Group;
    EncodeLength(data);
    if k == 0 {
      assert Encode(data) == Group(data[0], data[1], data[2]) + Encode(data[3..]);
    } else {
      var rest := data[3..];
      GroupsInOrder(rest, k - 1);
      assert Encode(data)[4 * k..4 * k + 4] == Encode(rest)[4 * k - 4..4 * k];
      assert rest[3 * k - 3] == data[3 * k] && rest[3 * k - 2] == data[3 * k + 1] && rest[3 * k - 1] == data[3 * k + 2];
    }
  }

  /** One or two bytes left over are padded with zero bits, and the missing digits with the sign for it. */
  lemma RemainderIsPadded(a: bv8, b: bv8)
    ensures Encode([a]) == Group(a, 0, 0)[..2] + [PAD, PAD] && Encode([a, b]) == Group(a, b, 0)[..3] + [PAD]
  {
    ZeroBits(a);
    ZeroBits(b);
    hide First, Second, Third, Fourth, Symbol;
  }

  /** The examples of section 10 of RFC 4648. */
  lemma Examples()
    ensures Encode([0x66]) == [0x5A, 0x67, PAD, PAD] && Encode([0x66, 0x6F]) == [0x5A, 0x6D, 0x38, PAD]
    ensures Encode([0x66, 0x6F, 0x6F]) == [0x5A, 0x6D, 0x39, 0x76]
  {
    assert Encode([]) == [];
    assert [0x66, 0x6F, 0x6F][3..] == [];
  }
}
