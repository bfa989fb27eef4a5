/** UTF-8 as the emitter reads and writes it: the decoder that steps over a byte
    string one code point at a time, the encoder for one code point, and what the
    two guarantee together (RFC 3629, sections 3 and 4). */
module Utf8 {
  import opened OutputStream

  const REPLACEMENT_CHARACTER: bv32 := 0xFFFD

  /** The length announced by a lead byte, or -1 for a byte that cannot lead. */
  function Utf8BytesIndicated(ch: bv8): int
  {
    var high := ch >> 4;
    if high <= 7 then 1
    else if high == 12 || high == 13 then 2
    else if high == 14 then 3
    else if high == 15 then 4
    else -1
  }

  predicate IsTrailingByte(ch: bv8) { ch & 0xC0 == 0x80 }

  /** The payload bits of a lead byte. */
  function LeadBits(ch: bv8, nBytes: int): bv32
    requires 2 <= nBytes <= 4
  {
    ch as bv32 & !(0xFF << (7 - nBytes))
  }

  /** Shifts one trailing byte into an unfinished code point. */
  function Push(acc: bv32, b: bv8): bv32 { (acc << 6) | (b as bv32 & 0x3F) }

  /** Shifts `k` trailing bytes into `acc`, starting at index `i` of `s`; a missing or
      malformed one yields the replacement character and stops in front of it. */
  function Gather(s: seq<bv8>, i: nat, acc: bv32, k: nat): (bv32, nat)
    requires i <= |s|
    decreases k
  {
    if k == 0 then (acc, i)
    else if i == |s| || !IsTrailingByte(s[i]) then (REPLACEMENT_CHARACTER, i)
    else Gather(s, i + 1, Push(acc, s[i]), k - 1)
  }

  predicate IsSurrogate(cp: bv32) { 0xD800 <= cp <= 0xDFFF }

  predicate IsNonCharacter(cp: bv32) { cp & 0xFFFE == 0xFFFE || 0xFDD0 <= cp <= 0xFDEF }

  /** The code points the decoder may yield. */
  predicate IsText(cp: bv32) { cp <= 0x10FFFF && !IsSurrogate(cp) && !IsNonCharacter(cp) }

  function Sanitize(cp: bv32): bv32
  {
    if IsText(cp) then cp else REPLACEMENT_CHARACTER
  }

  /** The first code point of `s` and the number of bytes it takes up. */
  function DecodeHead(s: seq<bv8>): (r: (bv32, nat))
    requires s != []
  {
    var n := Utf8BytesIndicated(s[0]);
    if n < 1 then (REPLACEMENT_CHARACTER, 1)
    else if n == 1 then (s[0] as bv32, 1)
    else
      var (cp, next) := Gather(s, 1, LeadBits(s[0], n), n - 1);
      (Sanitize(cp), next)
  }

  lemma {:induction false} GatherBounds(s: seq<bv8>, i: nat, acc: bv32, k: nat)
    requires i <= |s|
    ensures i <= Gather(s, i, acc, k).1 <= |s|
    ensures Gather(s, i, acc, k).1 <= i + k
    decreases k
  {
    if k > 0 && i < |s| && IsTrailingByte(s[i]) {
      GatherBounds(s, i + 1, Push(acc, s[i]), k - 1);
    }
  }

  /** The decoder makes progress, stays inside the string, and yields only text. */
  lemma DecodeHeadSafe(s: seq<bv8>)
    requires s != []
    ensures 1 <= DecodeHead(s).1 <= |s| && DecodeHead(s).1 <= 4
    ensures IsText(DecodeHead(s).0)
  {
    var n := Utf8BytesIndicated(s[0]);
    if n > 1 {
      GatherBounds(s, 1, LeadBits(s[0], n), n - 1);
    }
  }

  /** The bytes written for one code point. */
  function Encode(cp: bv32): (r: seq<bv8>)
    ensures 1 <= |r| <= 4
  {
    var c := if cp > 0x10FFFF then REPLACEMENT_CHARACTER else cp;
    if c <= 0x7F then [c as bv8]
    else if c <= 0x7FF then EncodeTwo(c)
    else if c <= 0xFFFF then EncodeThree(c)
    else EncodeFour(c)
  }

  function EncodeTwo(c: bv32): (r: seq<bv8>)
    requires 0x80 <= c <= 0x7FF
  {
    [(0xC0 | (c >> 6)) as bv8, (0x80 | (c & 0x3F)) as bv8]
  }

  function EncodeThree(c: bv32): (r: seq<bv8>)
    requires 0x800 <= c <= 0xFFFF
  {
    [(0xE0 | (c >> 12)) as bv8, (0x80 | ((c >> 6) & 0x3F)) as bv8, (0x80 | (c & 0x3F)) as bv8]
  }

  function EncodeFour(c: bv32): (r: seq<bv8>)
    requires 0x10000 <= c <= 0x10FFFF
  {
    [(0xF0 | (c >> 18)) as bv8, (0x80 | ((c >> 12) & 0x3F)) as bv8,
     (0x80 | ((c >> 6) & 0x3F)) as bv8, (0x80 | (c & 0x3F)) as bv8]
  }

  lemma TwoByteBits(c: bv32)
    requires 0x80 <= c <= 0x7FF
    ensures var b0 := (0xC0 | (c >> 6)) as bv8; var b1 := (0x80 | (c & 0x3F)) as bv8;
            && Utf8BytesIndicated(b0) == 2 && IsTrailingByte(b1)
            && Push(LeadBits(b0, 2), b1) == c
  {
  }

  lemma ThreeByteBits(c: bv32)
    requires 0x800 <= c <= 0xFFFF
    ensures var b0 := (0xE0 | (c >> 12)) as bv8;
            var b1 := (0x80 | ((c >> 6) & 0x3F)) as bv8; var b2 := (0x80 | (c & 0x3F)) as bv8;
            && Utf8BytesIndicated(b0) == 3 && IsTrailingByte(b1) && IsTrailingByte(b2)
            && Push(Push(LeadBits(b0, 3), b1), b2) == c
  {
  }

  lemma FourByteBits(c: bv32)
    requires 0x10000 <= c <= 0x10FFFF
    ensures var b0 := (0xF0 | (c >> 18)) as bv8; var b1 := (0x80 | ((c >> 12) & 0x3F)) as bv8;
            var b2 := (0x80 | ((c >> 6) & 0x3F)) as bv8; var b3 := (0x80 | (c & 0x3F)) as bv8;
            && Utf8BytesIndicated(b0) == 4
            && IsTrailingByte(b1) && IsTrailingByte(b2) && IsTrailingByte(b3)
            && Push(Push(Push(LeadBits(b0, 4), b1), b2), b3) == c
  {
  }

  /** The value that `k` trailing bytes shift into `acc`. */
  function Bits(acc: bv32, tail: seq<bv8>): bv32
    decreases |tail|
  {
    if tail == [] then acc else Bits(Push(acc, tail[0]), tail[1..])
  }

  lemma {:induction false} GatherAll(s: seq<bv8>, i: nat, acc: bv32, tail: seq<bv8>)
    requires i + |tail| <= |s| && s[i..i + |tail|] == tail
    requires forall b :: b in tail ==> IsTrailingByte(b)
    ensures Gather(s, i, acc, |tail|) == (Bits(acc, tail), i + |tail|)
    decreases |tail|
  {
    if tail != [] {
      assert s[i] == s[i..i + |tail|][0] == tail[0];
      assert s[i + 1..i + |tail|] == tail[1..];
      GatherAll(s, i + 1, Push(acc, s[i]), tail[1..]);
    }
  }

  lemma BitsUnrolled(acc: bv32, t: seq<bv8>)
    requires 1 <= |t| <= 3
    ensures |t| == 1 ==> Bits(acc, t) == Push(acc, t[0])
    ensures |t| == 2 ==> Bits(acc, t) == Push(Push(acc, t[0]), t[1])
    ensures |t| == 3 ==> Bits(acc, t) == Push(Push(Push(acc, t[0]), t[1]), t[2])
  {
    var a1 := Push(acc, t[0]);
    assert Bits(acc, t) == Bits(a1, t[1..]);
    if |t| > 1 {
      assert t[1..][1..] == t[2..];
      assert Bits(a1, t[1..]) == Bits(Push(a1, t[1]), t[2..]);
      if |t| > 2 {
        assert t[2..][1..] == [];
      }
    }
  }

  /** `e` is a lead byte with all its trailing bytes, carrying the code point `cp`. */
  predicate Carries(e: seq<bv8>, cp: bv32)
  {
    && 2 <= |e| <= 4 && Utf8BytesIndicated(e[0]) == |e|
    && (forall i :: 1 <= i < |e| ==> IsTrailingByte(e[i]))
    && Bits(LeadBits(e[0], |e|), e[1..]) == cp
  }

  lemma EncodeCarries(cp: bv32)
    requires 0x7F < cp <= 0x10FFFF
    ensures Carries(Encode(cp), cp)
  {
    if cp <= 0x7FF {
      EncodeTwoCarries(cp);
    } else if cp <= 0xFFFF {
      EncodeThreeCarries(cp);
    } else {
      EncodeFourCarries(cp);
    }
  }

  lemma EncodeTwoCarries(c: bv32)
    requires 0x80 <= c <= 0x7FF
    ensures Carries(EncodeTwo(c), c)
  {
    TwoByteBits(c);
    var e := EncodeTwo(c);
    CarriesTwo(e[0], e[1]);
  }

  lemma EncodeThreeCarries(c: bv32)
    requires 0x800 <= c <= 0xFFFF
    ensures Carries(EncodeThree(c), c)
  {
    ThreeByteBits(c);
    var e := EncodeThree(c);
    CarriesThree(e[0], e[1], e[2]);
  }

  lemma EncodeFourCarries(c: bv32)
    requires 0x10000 <= c <= 0x10FFFF
    ensures Carries(EncodeFour(c), c)
  {
    FourByteBits(c);
    var e := EncodeFour(c);
    CarriesFour(e[0], e[1], e[2], e[3]);
  }

  lemma CarriesTwo(b0: bv8, b1: bv8)
    requires Utf8BytesIndicated(b0) == 2 && IsTrailingByte(b1)
    ensures Carries([b0, b1], Push(LeadBits(b0, 2), b1))
  {
    BitsUnrolled(LeadBits(b0, 2), [b0, b1][1..]);
  }

  lemma CarriesThree(b0: bv8, b1: bv8, b2: bv8)
    requires Utf8BytesIndicated(b0) == 3 && IsTrailingByte(b1) && IsTrailingByte(b2)
    ensures Carries([b0, b1, b2], Push(Push(LeadBits(b0, 3), b1), b2))
  {
    BitsUnrolled(LeadBits(b0, 3), [b0, b1, b2][1..]);
  }

  lemma CarriesFour(b0: bv8, b1: bv8, b2: bv8, b3: bv8)
    requires Utf8BytesIndicated(b0) == 4 && IsTrailingByte(b1) && IsTrailingByte(b2) && IsTrailingByte(b3)
    ensures Carries([b0, b1, b2, b3], Push(Push(Push(LeadBits(b0, 4), b1), b2), b3))
  {
    BitsUnrolled(LeadBits(b0, 4), [b0, b1, b2, b3][1..]);
  }

  /** Decoding the bytes of a code point gives it back and consumes exactly those bytes. */
  lemma DecodeOfEncode(cp: bv32, rest: seq<bv8>)
    requires IsText(cp)
    ensures DecodeHead(Encode(cp) + rest) == (cp, |Encode(cp)|)
  {
    if 0x7F < cp {
      EncodeCarries(cp);
      DecodeComplete(Encode(cp), cp, rest);
    }
  }

  lemma DecodeComplete(e: seq<bv8>, cp: bv32, rest: seq<bv8>)
    requires Carries(e, cp)
    ensures DecodeHead(e + rest) == (Sanitize(cp), |e|)
  {
    var s := e + rest;
    assert s[1..1 + |e[1..]|] == e[1..];
    GatherAll(s, 1, LeadBits(e[0], |e|), e[1..]);
  }

  // ---- what the decoder makes of any bytes

  /** The length that a first byte announces: one below 0x80, none for the bytes up to 0xBF. */
  function Announced(b: bv8): nat
  {
    if b < 0x80 then 1 else if b < 0xC0 then 0 else if b < 0xE0 then 2 else if b < 0xF0 then 3 else 4
  }

  predicate Continues(b: bv8) { 0x80 <= b < 0xC0 }

  lemma AnnouncedIs(b: bv8)
    ensures Utf8BytesIndicated(b) == if Announced(b) == 0 then -1 else Announced(b)
    ensures IsTrailingByte(b) <==> Continues(b)
  {
  }

  /** A byte that cannot come first is replaced, and one byte is passed. */
  lemma StrayByte(s: seq<bv8>)
    requires s != [] && Continues(s[0])
    ensures DecodeHead(s) == (0xFFFD, 1)
  {
    AnnouncedIs(s[0]);
  }

  lemma {:induction false} GatherCutShort(s: seq<bv8>, i: nat, acc: bv32, k: nat, j: nat)
    requires i <= j < i + k && j <= |s|
    requires forall l | i <= l < j :: IsTrailingByte(s[l])
    requires j == |s| || !IsTrailingByte(s[j])
    ensures Gather(s, i, acc, k) == (REPLACEMENT_CHARACTER, j)
    decreases k
  {
    hide Push, IsTrailingByte;
    if i < j { GatherCutShort(s, i + 1, Push(acc, s[i]), k - 1, j); }
  }

  /** A sequence that breaks off after `k` bytes is replaced as a whole, and the byte that broke it off is
      decoded anew. */
  lemma CutShort(s: seq<bv8>, k: nat)
    requires 1 <= k <= |s| && k < Announced(s[0])
    requires forall i | 1 <= i < k :: Continues(s[i])
    requires k == |s| || !Continues(s[k])
    ensures DecodeHead(s) == (0xFFFD, k)
  {
    AnnouncedIs(s[0]);
    forall i | 1 <= i < k ensures IsTrailingByte(s[i]) { AnnouncedIs(s[i]); }
    if k < |s| { AnnouncedIs(s[k]); }
    var n := Utf8BytesIndicated(s[0]);
    GatherCutShort(s, 1, LeadBits(s[0], n), n - 1, k);
    assert Sanitize(REPLACEMENT_CHARACTER) == REPLACEMENT_CHARACTER;
    hide Utf8BytesIndicated, LeadBits, IsText, IsTrailingByte, Gather;
  }

  /** The number that a complete sequence of two to four bytes stands for. */
  function Number(s: seq<bv8>): bv32
    requires 2 <= |s| <= 4
  {
    if |s| == 2 then ((s[0] as bv32 & 0x1F) << 6) | (s[1] as bv32 & 0x3F)
    else if |s| == 3 then
      ((s[0] as bv32 & 0xF) << 12) | ((s[1] as bv32 & 0x3F) << 6) | (s[2] as bv32 & 0x3F)
    else
      ((s[0] as bv32 & 0x7) << 18) | ((s[1] as bv32 & 0x3F) << 12) | ((s[2] as bv32 & 0x3F) << 6)
      | (s[3] as bv32 & 0x3F)
  }

  /** The code points that are replaced: above the last one, halves of surrogate pairs, noncharacters. */
  predicate Replaced(cp: bv32)
  {
    || cp > 0x10FFFF || 0xD800 <= cp <= 0xDFFF || 0xFDD0 <= cp <= 0xFDEF
    || cp & 0xFFFF == 0xFFFE || cp & 0xFFFF == 0xFFFF
  }

  lemma ReplacedIs(cp: bv32)
    ensures IsText(cp) <==> !Replaced(cp)
  {
    assert cp & 0xFFFE == 0xFFFE <==> cp & 0xFFFF == 0xFFFE || cp & 0xFFFF == 0xFFFF;
  }

  lemma NumberOfTwo(b0: bv8, b1: bv8)
    ensures Push(LeadBits(b0, 2), b1) == Number([b0, b1])
  {
  }

  lemma NumberOfThree(b0: bv8, b1: bv8, b2: bv8)
    ensures Push(Push(LeadBits(b0, 3), b1), b2) == Number([b0, b1, b2])
  {
  }

  lemma NumberOfFour(b0: bv8, b1: bv8, b2: bv8, b3: bv8)
    requires b0 >= 0xF0
    ensures Push(Push(Push(LeadBits(b0, 4), b1), b2), b3) == Number([b0, b1, b2, b3])
  {
  }

  lemma NumberIsBits(e: seq<bv8>)
    requires 2 <= |e| <= 4 && Announced(e[0]) == |e|
    ensures Bits(LeadBits(e[0], |e|), e[1..]) == Number(e)
  {
    BitsUnrolled(LeadBits(e[0], |e|), e[1..]);
    hide Push, LeadBits, Number, Bits;
    if |e| == 2 {
      assert e == [e[0], e[1]];
      NumberOfTwo(e[0], e[1]);
    } else if |e| == 3 {
      assert e == [e[0], e[1], e[2]];
      NumberOfThree(e[0], e[1], e[2]);
    } else {
      assert e == [e[0], e[1], e[2], e[3]];
      NumberOfFour(e[0], e[1], e[2], e[3]);
    }
  }

  /** A complete sequence is decoded to its number, overlong forms included, unless the number is replaced. */
  lemma CompleteSequence(s: seq<bv8>)
    requires s != [] && 2 <= Announced(s[0]) <= |s|
    requires forall i | 1 <= i < Announced(s[0]) :: Continues(s[i])
    ensures var n := Announced(s[0]);
            var cp := Number(s[..n]);
            DecodeHead(s) == (if Replaced(cp) then 0xFFFD else cp, n)
  {
    var n := Announced(s[0]);
    var e := s[..n];
    AnnouncedIs(s[0]);
    assert Utf8BytesIndicated(s[0]) == n;
    hide Utf8BytesIndicated, LeadBits, Number, Bits, IsTrailingByte, Continues, Gather, Replaced, IsText;
    forall b | b in e[1..] ensures IsTrailingByte(b) {
      var i :| 0 <= i < n - 1 && e[1..][i] == b;
      assert s[i + 1] == b;
      AnnouncedIs(b);
    }
    assert s[1..1 + |e[1..]|] == e[1..];
    GatherAll(s, 1, LeadBits(s[0], n), e[1..]);
    NumberIsBits(e);
    ReplacedIs(Number(e));
  }

  // ---- whole strings

  function DecodeAll(s: seq<bv8>): seq<bv32>
    decreases |s|
  {
    if s == [] then []
    else
      DecodeHeadSafe(s);
      var (cp, n) := DecodeHead(s);
      [cp] + DecodeAll(s[n..])
  }

  function EncodeAll(cps: seq<bv32>): seq<bv8>
  {
    if cps == [] then [] else Encode(cps[0]) + EncodeAll(cps[1..])
  }

  predicate AllText(cps: seq<bv32>) { forall c :: c in cps ==> IsText(c) }

  lemma {:induction false} DecodeAllIsText(s: seq<bv8>)
    ensures AllText(DecodeAll(s))
    decreases |s|
  {
    if s != [] {
      DecodeHeadSafe(s);
      DecodeAllIsText(s[DecodeHead(s).1..]);
    }
  }

  lemma DecodeAllStep(e: seq<bv8>, rest: seq<bv8>, cp: bv32)
    requires e != [] && DecodeHead(e + rest) == (cp, |e|)
    ensures DecodeAll(e + rest) == [cp] + DecodeAll(rest)
  {
    hide DecodeHead;
    assert (e + rest)[|e|..] == rest;
  }

  /** Writing code points and reading them back is the identity. */
  lemma {:induction false} DecodeAllOfEncodeAll(cps: seq<bv32>)
    requires AllText(cps)
    ensures DecodeAll(EncodeAll(cps)) == cps
  {
    hide Encode, DecodeHead;
    if cps != [] {
      var rest := EncodeAll(cps[1..]);
      DecodeOfEncode(cps[0], rest);
      DecodeAllStep(Encode(cps[0]), rest, cps[0]);
      DecodeAllOfEncodeAll(cps[1..]);
    }
  }

  /** What a string becomes when it is decoded and written out again. */
  function Normalize(s: seq<bv8>): seq<bv8> { EncodeAll(DecodeAll(s)) }

  lemma NormalizeIdempotent(s: seq<bv8>)
    ensures Normalize(Normalize(s)) == Normalize(s)
  {
    DecodeAllIsText(s);
    DecodeAllOfEncodeAll(DecodeAll(s));
  }

  // ---- the grammar of section 4 of RFC 3629

  predicate IsTail(b: bv8) { 0x80 <= b <= 0xBF }

  predicate IsPairStart(b0: bv8) { 0xC2 <= b0 <= 0xDF }

  predicate IsTripleStart(b0: bv8, b1: bv8)
  {
    || (b0 == 0xE0 && 0xA0 <= b1 <= 0xBF)
    || (0xE1 <= b0 <= 0xEC && IsTail(b1))
    || (b0 == 0xED && 0x80 <= b1 <= 0x9F)
    || (0xEE <= b0 <= 0xEF && IsTail(b1))
  }

  predicate IsQuadrupleStart(b0: bv8, b1: bv8)
  {
    || (b0 == 0xF0 && 0x90 <= b1 <= 0xBF)
    || (0xF1 <= b0 <= 0xF3 && IsTail(b1))
    || (b0 == 0xF4 && 0x80 <= b1 <= 0x8F)
  }

  /** The length of the UTF-8 character that `s` starts with, or 0 when there is none. */
  function CharLength(s: seq<bv8>): (n: nat)
    ensures n <= |s| && n <= 4
  {
    if s == [] then 0
    else if s[0] <= 0x7F then 1
    else if |s| >= 2 && IsPairStart(s[0]) && IsTail(s[1]) then 2
    else if |s| >= 3 && IsTripleStart(s[0], s[1]) && IsTail(s[2]) then 3
    else if |s| >= 4 && IsQuadrupleStart(s[0], s[1]) && IsTail(s[2]) && IsTail(s[3]) then 4
    else 0
  }

  /** The scalar value of a complete character. */
  function ScalarValue(c: seq<bv8>): bv32
    requires 1 <= |c| <= 4
  {
    if |c| == 1 then c[0] as bv32 else Bits(LeadBits(c[0], |c|), c[1..])
  }

  /** Well-formed UTF-8 that contains no noncharacter. */
  predicate WellFormed(s: seq<bv8>)
    decreases |s|
  {
    s == [] ||
    var n := CharLength(s);
    n > 0 && !IsNonCharacter(ScalarValue(s[..n])) && WellFormed(s[n..])
  }

  lemma TwoByteBack(b0: bv8, b1: bv8)
    requires IsPairStart(b0) && IsTail(b1)
    ensures Utf8BytesIndicated(b0) == 2 && IsTrailingByte(b1)
    ensures var c := Push(LeadBits(b0, 2), b1); 0x80 <= c <= 0x7FF && EncodeTwo(c) == [b0, b1]
  {
  }

  lemma ThreeByteBack(b0: bv8, b1: bv8, b2: bv8)
    requires IsTripleStart(b0, b1) && IsTail(b2)
    ensures Utf8BytesIndicated(b0) == 3 && IsTrailingByte(b1) && IsTrailingByte(b2)
    ensures var c := Push(Push(LeadBits(b0, 3), b1), b2);
            0x800 <= c <= 0xFFFF && !IsSurrogate(c) && EncodeThree(c) == [b0, b1, b2]
  {
  }

  lemma FourByteRange(b0: bv8, b1: bv8, b2: bv8, b3: bv8)
    requires IsQuadrupleStart(b0, b1) && IsTail(b2) && IsTail(b3)
    ensures Utf8BytesIndicated(b0) == 4 && IsTrailingByte(b1) && IsTrailingByte(b2) && IsTrailingByte(b3)
    ensures 0x10000 <= Push(Push(Push(LeadBits(b0, 4), b1), b2), b3) <= 0x10FFFF
  {
  }

  lemma FourByteBack(b0: bv8, b1: bv8, b2: bv8, b3: bv8)
    requires IsQuadrupleStart(b0, b1) && IsTail(b2) && IsTail(b3)
    ensures var c := Push(Push(Push(LeadBits(b0, 4), b1), b2), b3);
            0x10000 <= c <= 0x10FFFF && EncodeFour(c) == [b0, b1, b2, b3]
  {
    FourByteRange(b0, b1, b2, b3);
    var e := EncodeFour(Push(Push(Push(LeadBits(b0, 4), b1), b2), b3));
    assert e[0] == b0;
    assert e[1] == b1;
    assert e[2] == b2;
    assert e[3] == b3;
  }

  lemma CharacterRoundTrip(c: seq<bv8>)
    requires 1 <= |c| == CharLength(c) && !IsNonCharacter(ScalarValue(c))
    ensures IsText(ScalarValue(c)) && Encode(ScalarValue(c)) == c
    ensures |c| > 1 ==> Carries(c, ScalarValue(c))
  {
    hide IsPairStart, IsTripleStart, IsQuadrupleStart, Push, LeadBits, Utf8BytesIndicated, IsTrailingByte, IsNonCharacter,
         EncodeTwo, EncodeThree, EncodeFour, IsTail, Bits;
    if |c| == 2 {
      TwoByteBack(c[0], c[1]);
      BitsUnrolled(LeadBits(c[0], 2), c[1..]);
    } else if |c| == 3 {
      ThreeByteBack(c[0], c[1], c[2]);
      BitsUnrolled(LeadBits(c[0], 3), c[1..]);
    } else if |c| == 4 {
      FourByteRange(c[0], c[1], c[2], c[3]);
      FourByteBack(c[0], c[1], c[2], c[3]);
      BitsUnrolled(LeadBits(c[0], 4), c[1..]);
    }
  }

  lemma EncodeIsCharacter(cp: bv32, rest: seq<bv8>)
    requires IsText(cp)
    ensures CharLength(Encode(cp) + rest) == |Encode(cp)| && ScalarValue(Encode(cp)) == cp
  {
    if 0x7F < cp {
      EncodeCarries(cp);
      EncodeIsGrammatical(cp);
      GrammaticalLength(Encode(cp), rest);
    }
    hide Grammatical, Carries, IsNonCharacter, LeadBits, Bits, EncodeTwo, EncodeThree, EncodeFour;
    assert 0x7F < cp ==> ScalarValue(Encode(cp)) == cp by { CarriedValue(Encode(cp), cp); }
  }

  lemma CarriedValue(c: seq<bv8>, cp: bv32)
    ensures Carries(c, cp) ==> 2 <= |c| <= 4 && ScalarValue(c) == cp
  {
    hide LeadBits, Bits, Utf8BytesIndicated, IsTrailingByte;
  }

  /** Two to four bytes as the grammar has them. */
  predicate Grammatical(c: seq<bv8>)
  {
    || (|c| == 2 && IsPairStart(c[0]) && IsTail(c[1]))
    || (|c| == 3 && IsTripleStart(c[0], c[1]) && IsTail(c[2]))
    || (|c| == 4 && IsQuadrupleStart(c[0], c[1]) && IsTail(c[2]) && IsTail(c[3]))
  }

  /** The first bytes of the forms are different. */
  lemma StartsDiffer(a: bv8, b: bv8)
    ensures IsPairStart(a) ==> a > 0x7F
    ensures IsTripleStart(a, b) ==> a > 0x7F && !IsPairStart(a)
    ensures IsQuadrupleStart(a, b) ==> a > 0x7F && !IsPairStart(a) && !IsTripleStart(a, b)
  {
  }

  lemma GrammaticalLength(c: seq<bv8>, rest: seq<bv8>)
    requires Grammatical(c)
    ensures CharLength(c + rest) == |c|
  {
    StartsDiffer(c[0], c[1]);
    hide IsPairStart, IsTripleStart, IsQuadrupleStart, IsTail;
    var s := c + rest;
    assert s[0] == c[0] && s[1] == c[1] && (|c| > 2 ==> s[2] == c[2]) && (|c| > 3 ==> s[3] == c[3]);
  }

  lemma TwoBytesGrammatical(c: bv32)
    requires 0x80 <= c <= 0x7FF
    ensures Grammatical(EncodeTwo(c))
  {
    hide IsTripleStart, IsQuadrupleStart;
  }

  lemma ThreeBytesGrammatical(c: bv32)
    requires 0x800 <= c <= 0xFFFF && !IsSurrogate(c)
    ensures Grammatical(EncodeThree(c))
  {
    hide IsPairStart, IsQuadrupleStart;
  }

  lemma FourBytesGrammatical(c: bv32)
    requires 0x10000 <= c <= 0x10FFFF
    ensures Grammatical(EncodeFour(c))
  {
    hide IsPairStart, IsTripleStart;
  }

  lemma EncodeIsGrammatical(cp: bv32)
    requires 0x7F < cp <= 0x10FFFF && !IsSurrogate(cp)
    ensures Grammatical(Encode(cp))
  {
    hide Grammatical, EncodeTwo, EncodeThree, EncodeFour;
    if cp <= 0x7FF {
      TwoBytesGrammatical(cp);
    } else if cp <= 0xFFFF {
      ThreeBytesGrammatical(cp);
    } else {
      FourBytesGrammatical(cp);
    }
  }

  lemma WellFormedHead(s: seq<bv8>)
    requires s != [] && WellFormed(s)
    ensures var c := s[..CharLength(s)];
            && DecodeHead(s) == (ScalarValue(c), |c|) && IsText(ScalarValue(c)) && Encode(ScalarValue(c)) == c
  {
    hide Encode, DecodeHead, LeadBits, IsNonCharacter, Bits;
    var n := CharLength(s);
    var c := s[..n];
    assert s == c + s[n..];
    CharacterRoundTrip(c);
    if n > 1 {
      DecodeComplete(c, ScalarValue(c), s[n..]);
    } else {
      DecodeOfEncode(ScalarValue(c), s[n..]);
    }
  }

  lemma {:induction false} WellFormedIsFixpoint(s: seq<bv8>)
    requires WellFormed(s)
    ensures Normalize(s) == s
    decreases |s|
  {
    hide Encode, DecodeHead, CharLength, ScalarValue;
    if s != [] {
      var n := CharLength(s);
      WellFormedHead(s);
      WellFormedIsFixpoint(s[n..]);
      assert DecodeAll(s) == [ScalarValue(s[..n])] + DecodeAll(s[n..]);
      assert s == s[..n] + s[n..];
    }
  }

  lemma {:induction false} EncodeAllIsWellFormed(cps: seq<bv32>)
    requires AllText(cps)
    ensures WellFormed(EncodeAll(cps))
  {
    hide Encode, CharLength, ScalarValue;
    if cps != [] {
      var e, rest := Encode(cps[0]), EncodeAll(cps[1..]);
      EncodeIsCharacter(cps[0], rest);
      EncodeAllIsWellFormed(cps[1..]);
      assert (e + rest)[..|e|] == e && (e + rest)[|e|..] == rest;
    }
  }

  /** Decoding and writing out again changes nothing exactly on well-formed text. */
  lemma NormalizeFixpoint(s: seq<bv8>)
    ensures Normalize(s) == s <==> WellFormed(s)
  {
    DecodeAllIsText(s);
    EncodeAllIsWellFormed(DecodeAll(s));
    if WellFormed(s) {
      WellFormedIsFixpoint(s);
    }
  }

  // ---- the loops themselves

  /** Reads the code point at `first`; `next` is the advanced position. */
  /** The bits of one more trailing byte. */
  method ShiftIn(codePoint: bv32, b: bv8) returns (r: bv32)
    ensures r == Push(codePoint, b)
  {
    r := codePoint << 6;
    r := r | (b as bv32 & 0x3F);
  }

  method GetNextCodePointAndAdvance(str: seq<bv8>, first: nat) returns (ok: bool, codePoint: bv32, next: nat)
    requires first <= |str|
    ensures ok == (first < |str|)
    ensures !ok ==> next == first
    ensures ok ==> (codePoint, next - first) == DecodeHead(str[first..]) && first < next <= |str|
  {
    if first == |str| {
      return false, 0, first;
    }
    hide LeadBits, Sanitize, Utf8BytesIndicated, IsTrailingByte, Push;
    ghost var s := str[first..];
    DecodeHeadSafe(s);
    var nBytes := Utf8BytesIndicated(str[first]);
    if nBytes < 1 {
      return true, REPLACEMENT_CHARACTER, first + 1;
    }
    if nBytes == 1 {
      return true, str[first] as bv32, first + 1;
    }
    codePoint, next := LeadBits(str[first], nBytes), first + 1;
    nBytes := nBytes - 1;
    ghost var gathered := Gather(s, 1, codePoint, nBytes);
    while nBytes > 0
      invariant 0 <= nBytes && first < next <= |str|
      invariant gathered == Gather(s, next - first, codePoint, nBytes)
    {
      if next == |str| || !IsTrailingByte(str[next]) {
        codePoint := REPLACEMENT_CHARACTER;
        break;
      }
      codePoint := ShiftIn(codePoint, str[next]);
      next, nBytes := next + 1, nBytes - 1;
    }
    assert gathered == (codePoint, next - first);
    codePoint := ReplaceIllegal(codePoint);
    ok := true;
  }

  method ReplaceIllegal(codePoint: bv32) returns (r: bv32)
    ensures r == Sanitize(codePoint)
  {
    r := codePoint;
    if codePoint > 0x10FFFF {
      r := REPLACEMENT_CHARACTER;
    } else if 0xD800 <= codePoint <= 0xDFFF {
      r := REPLACEMENT_CHARACTER;
    } else if codePoint & 0xFFFE == 0xFFFE {
      r := REPLACEMENT_CHARACTER;
    } else if 0xFDD0 <= codePoint <= 0xFDEF {
      r := REPLACEMENT_CHARACTER;
    }
  }

  method WriteCodePoint(out: OStream, codePoint: bv32)
    requires out.Valid()
    modifies out
    ensures out.Valid() && out.bytes == old(out.bytes) + Encode(codePoint)
  {
    hide EncodeTwo, EncodeThree, EncodeFour, OStream.Valid;
    if codePoint > 0x10FFFF {
      WriteInRange(out, REPLACEMENT_CHARACTER);
    } else {
      WriteInRange(out, codePoint);
    }
  }

  method WriteInRange(out: OStream, codePoint: bv32)
    requires out.Valid() && codePoint <= 0x10FFFF
    modifies out
    ensures out.Valid() && out.bytes == old(out.bytes) + Encode(codePoint)
  {
    hide EncodeTwo, EncodeThree, EncodeFour, OStream.Valid;
    if codePoint <= 0x7F {
      out.Write([codePoint as bv8]);
    } else if codePoint <= 0x7FF {
      WriteTwo(out, codePoint);
    } else if codePoint <= 0xFFFF {
      WriteThree(out, codePoint);
    } else {
      WriteFour(out, codePoint);
    }
  }

  method WriteTwo(out: OStream, c: bv32)
    requires out.Valid() && 0x80 <= c <= 0x7FF
    modifies out
    ensures out.Valid() && out.bytes == old(out.bytes) + EncodeTwo(c)
  {
    WriteChars(out, [(0xC0 | (c >> 6)) as bv8, (0x80 | (c & 0x3F)) as bv8]);
  }

  method WriteThree(out: OStream, c: bv32)
    requires out.Valid() && 0x800 <= c <= 0xFFFF
    modifies out
    ensures out.Valid() && out.bytes == old(out.bytes) + EncodeThree(c)
  {
    WriteChars(out, [(0xE0 | (c >> 12)) as bv8, (0x80 | ((c >> 6) & 0x3F)) as bv8, (0x80 | (c & 0x3F)) as bv8]);
  }

  method WriteFour(out: OStream, c: bv32)
    requires out.Valid() && 0x10000 <= c <= 0x10FFFF
    modifies out
    ensures out.Valid() && out.bytes == old(out.bytes) + EncodeFour(c)
  {
    WriteChars(out, [(0xF0 | (c >> 18)) as bv8, (0x80 | ((c >> 12) & 0x3F)) as bv8,
                     (0x80 | ((c >> 6) & 0x3F)) as bv8, (0x80 | (c & 0x3F)) as bv8]);
  }

  /** Writes the bytes one after the other, as a chain of stream insertions does. */
  method WriteChars(out: OStream, chars: seq<bv8>)
    requires out.Valid()
    modifies out
    ensures out.Valid() && out.bytes == old(out.bytes) + chars
  {
    for i := 0 to |chars|
      invariant out.Valid() && out.bytes == old(out.bytes) + chars[..i]
    {
      out.Write([chars[i]]);
      assert chars[..i + 1] == chars[..i] + [chars[i]];
    }
    assert chars[..|chars|] == chars;
  }
}
