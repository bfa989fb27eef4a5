/** Double-quoted scalars: the writer with its three escaping styles, the reader of
    escape sequences (section 5.7 of YAML 1.2), and the proof that they undo each other. */
module DoubleQuoted {
  import opened OutputStream
  import opened Utf8
  import opened Wrappers

  datatype Escaping = Plain | NonAscii | Json

  const QUOTE: bv8 := 0x22
  const APOSTROPHE: bv8 := 0x27
  const BACKSLASH: bv8 := 0x5C
  const CARRIAGE_RETURN: bv8 := 0x0D
  const END_OF_FILE: bv8 := 0x04

  // ---- writing

  /** A digit of "0123456789abcdef". */
  function HexDigit(d: bv32): bv8
    requires d < 16
  {
    if d < 10 then 0x30 + d as bv8 else 0x61 + (d as bv8 - 10)
  }

  function WithoutDigit(x: bv32): bv32 { x >> 4 }

  /** `cp` shifted right by `4 * k`: without its `k` lowest hexadecimal digits. */
  function Above(cp: bv32, k: nat): bv32
  {
    if k == 0 then cp else WithoutDigit(Above(cp, k - 1))
  }

  /** Digit number `k` of `cp`, counted from the lowest. */
  function Nibble(cp: bv32, k: nat): (d: bv32)
    ensures d < 16
  {
    Above(cp, k) & 0xF
  }

  /** The low `digits` hexadecimal digits of `cp`, most significant first. */
  function Hex(cp: bv32, digits: nat): (r: seq<bv8>)
    requires digits <= 8
    ensures |r| == digits
  {
    if digits == 0 then []
    else [HexDigit(Nibble(cp, digits - 1))] + Hex(cp, digits - 1)
  }

  function SurrogatePair(cp: bv32): (bv32, bv32)
  {
    ((0xD7C0 | (cp >> 10)) & 0xFFFF, (0xDC00 | (cp & 0x3FF)) & 0xFFFF)
  }

  lemma SurrogatesAreSmaller(cp: bv32)
    ensures SurrogatePair(cp).0 <= 0xFFFF && SurrogatePair(cp).1 <= 0xFFFF
    ensures cp == 0xFFFF ==> SurrogatePair(cp).0 < 0xFFFF && SurrogatePair(cp).1 < 0xFFFF
  {
  }

  /** The letter and the number of digits of an escape; no letter means a surrogate pair. */
  function EscapeForm(cp: bv32, style: Escaping): Option<(bv8, nat)>
  {
    if cp < 0xFF && style != Json then Some((0x78, 2))
    else if cp < 0xFFFF then Some((0x75, 4))
    else if style != Json then Some((0x55, 8))
    else None
  }

  function EscapeSequence(cp: bv32, style: Escaping): seq<bv8>
    decreases if cp < 0xFFFF then 0 else if cp == 0xFFFF then 1 else 2
  {
    match EscapeForm(cp, style)
    case Some((letter, digits)) => [BACKSLASH, letter] + Hex(cp, digits)
    case None =>
      SurrogatesAreSmaller(cp);
      var (first, second) := SurrogatePair(cp);
      [BACKSLASH] + EscapeSequence(first, style) + EscapeSequence(second, style)
  }

  /** The letter of the two-character escapes that every style uses. */
  function ShortEscape(cp: bv32): (r: Option<bv8>)
  {
    if cp == 0x22 then Some(QUOTE)
    else if cp == 0x5C then Some(BACKSLASH)
    else if cp == 0x0A then Some(0x6E)
    else if cp == 0x09 then Some(0x74)
    else if cp == 0x0D then Some(0x72)
    else if cp == 0x08 then Some(0x62)
    else if cp == 0x0C then Some(0x66)
    else None
  }

  predicate NeedsEscape(cp: bv32, style: Escaping)
  {
    || cp < 0x20 || 0x80 <= cp <= 0xA0
    || cp == 0xFEFF
    || (style == NonAscii && cp > 0x7E)
  }

  /** What is written for one code point. */
  function Piece(cp: bv32, style: Escaping): seq<bv8>
  {
    match ShortEscape(cp)
    case Some(letter) => [BACKSLASH, letter]
    case None => if NeedsEscape(cp, style) then EscapeSequence(cp, style) else Encode(cp)
  }

  function Body(cps: seq<bv32>, style: Escaping): seq<bv8>
  {
    if cps == [] then [] else Piece(cps[0], style) + Body(cps[1..], style)
  }

  /** The whole scalar, quotes included. */
  function Written(str: seq<bv8>, style: Escaping): seq<bv8>
  {
    [QUOTE] + Body(DecodeAll(str), style) + [QUOTE]
  }

  // ---- reading

  /** The next character of the input; the stream signals its end with a character of its own. */
  function Peek(text: seq<bv8>): bv8 { if text == [] then END_OF_FILE else text[0] }

  function Advance(text: seq<bv8>): seq<bv8> { if text == [] then [] else text[1..] }

  function HexValue(ch: bv8): Option<bv32>
  {
    if 0x61 <= ch <= 0x66 then Some((ch - 0x61) as bv32 + 10)
    else if 0x41 <= ch <= 0x46 then Some((ch - 0x41) as bv32 + 10)
    else if 0x30 <= ch <= 0x39 then Some((ch - 0x30) as bv32)
    else None
  }

  /** Continues a hexadecimal number in 32 bits; nothing when a character is no digit. */
  function ParseHex(str: seq<bv8>, value: bv32): Option<bv32>
    decreases |str|
  {
    if str == [] then Some(value)
    else match HexValue(str[0])
      case None => None
      case Some(d) => ParseHex(str[1..], (value << 4) + d)
  }

  function Take(text: seq<bv8>, n: nat): seq<bv8>
  {
    if n == 0 then [] else [Peek(text)] + Take(Advance(text), n - 1)
  }

  function Drop(text: seq<bv8>, n: nat): (r: seq<bv8>)
    ensures |r| <= |text|
  {
    if n == 0 then text else Drop(Advance(text), n - 1)
  }

  /** The UTF-8 bytes the reader makes of a code point. */
  function CodePointBytes(value: bv32): seq<bv8>
    requires value <= 0x10FFFF
  {
    if value <= 0x7F then [value as bv8]
    else if value <= 0x7FF then [(0xC0 + (value >> 6)) as bv8, (0x80 + (value & 0x3F)) as bv8]
    else if value <= 0xFFFF then
      [(0xE0 + (value >> 12)) as bv8, (0x80 + ((value >> 6) & 0x3F)) as bv8, (0x80 + (value & 0x3F)) as bv8]
    else
      [(0xF0 + (value >> 18)) as bv8, (0x80 + ((value >> 12) & 0x3F)) as bv8,
       (0x80 + ((value >> 6) & 0x3F)) as bv8, (0x80 + (value & 0x3F)) as bv8]
  }

  /** A numeric escape of `codeLength` digits: its bytes and the rest of the input. */
  function EscapeNumber(text: seq<bv8>, codeLength: nat): Option<(seq<bv8>, seq<bv8>)>
  {
    match ParseHex(Take(text, codeLength), 0)
    case None => None
    case Some(value) =>
      if 0xD800 <= value <= 0xDFFF || value > 0x10FFFF then None
      else Some((CodePointBytes(value), Drop(text, codeLength)))
  }

  /** The meaning of the one-letter escapes. */
  function LetterEscape(ch: bv8): Option<seq<bv8>>
  {
    if ch == 0x30 then Some([0x00])
    else if ch == 0x61 then Some([0x07])
    else if ch == 0x62 then Some([0x08])
    else if ch == 0x74 || ch == 0x09 then Some([0x09])
    else if ch == 0x6E then Some([0x0A])
    else if ch == 0x76 then Some([0x0B])
    else if ch == 0x66 then Some([0x0C])
    else if ch == 0x72 then Some([0x0D])
    else if ch == 0x65 then Some([0x1B])
    else if ch == 0x20 then Some([0x20])
    else if ch == QUOTE then Some([QUOTE])
    else if ch == APOSTROPHE then Some([APOSTROPHE])
    else if ch == BACKSLASH then Some([BACKSLASH])
    else if ch == 0x2F then Some([0x2F])
    else if ch == 0x4E then Some([0x85])
    else if ch == 0x5F then Some([0xA0])
    else if ch == 0x4C then Some([0xE2, 0x80, 0xA8])
    else if ch == 0x50 then Some([0xE2, 0x80, 0xA9])
    else None
  }

  /** Translates the escape that `text` starts with; nothing stands for an exception. */
  function Escape(text: seq<bv8>): Option<(seq<bv8>, seq<bv8>)>
  {
    var escape, ch := Peek(text), Peek(Advance(text));
    var rest := Advance(Advance(text));
    if escape == APOSTROPHE && ch == APOSTROPHE then Some(([APOSTROPHE], rest))
    else match LetterEscape(ch)
      case Some(bytes) => Some((bytes, rest))
      case None =>
        if ch == 0x78 then EscapeNumber(rest, 2)
        else if ch == 0x75 then EscapeNumber(rest, 4)
        else if ch == 0x55 then EscapeNumber(rest, 8)
        else None
  }

  predicate IsBreak(ch: bv8) { ch == NEWLINE || ch == CARRIAGE_RETURN }

  /** Reads one line of a double-quoted scalar up to its closing quote: the text and what
      follows the quote. Nothing when an escape throws, when the input ends, or at a line
      break, where the scanner starts to fold lines. */
  function Scan(text: seq<bv8>): (r: Option<(seq<bv8>, seq<bv8>)>)
    decreases |text|
  {
    if text == [] || text[0] == END_OF_FILE || IsBreak(text[0]) then None
    else if text[0] == QUOTE then Some(([], text[1..]))
    else if text[0] == BACKSLASH then
      if IsBreak(Peek(text[1..])) then None
      else
        EscapeConsumes(text);
        match Escape(text)
        case None => None
        case Some((bytes, rest)) => Prepend(bytes, Scan(rest))
    else Prepend([text[0]], Scan(text[1..]))
  }

  function Prepend(bytes: seq<bv8>, r: Option<(seq<bv8>, seq<bv8>)>): Option<(seq<bv8>, seq<bv8>)>
  {
    match r
    case None => None
    case Some((more, rest)) => Some((bytes + more, rest))
  }

  lemma EscapeConsumes(text: seq<bv8>)
    requires text != []
    ensures Escape(text).Some? ==> |Escape(text).value.1| < |text|
  {
  }

  // ---- the two undo each other

  /** The reader's own encoder agrees with the writer's. */
  lemma CodePointBytesIsEncode(value: bv32)
    requires value <= 0x10FFFF
    ensures CodePointBytes(value) == Encode(value)
  {
    if value <= 0x7F {
    } else if value <= 0x7FF {
      TwoBytesAgree(value);
    } else if value <= 0xFFFF {
      ThreeBytesAgree(value);
    } else {
      FourBytesAgree(value);
    }
  }

  lemma TwoBytesAgree(v: bv32)
    requires 0x80 <= v <= 0x7FF
    ensures CodePointBytes(v) == EncodeTwo(v)
  {
  }

  lemma ThreeBytesAgree(v: bv32)
    requires 0x800 <= v <= 0xFFFF
    ensures CodePointBytes(v) == EncodeThree(v)
  {
  }

  lemma FourBytesAgree(v: bv32)
    requires 0x10000 <= v <= 0x10FFFF
    ensures CodePointBytes(v) == EncodeFour(v)
  {
  }

  lemma HexDigitValue(d: bv32)
    requires d < 16
    ensures HexValue(HexDigit(d)) == Some(d)
  {
  }

  /** One more digit moves one nibble of `cp` into the accumulated value. */
  lemma NibbleStep(cp: bv32, d: nat)
    requires 1 <= d
    ensures (Above(cp, d) << 4) + Nibble(cp, d - 1) == Above(cp, d - 1)
  {
    SplitNibble(Above(cp, d - 1));
  }

  lemma SplitNibble(x: bv32)
    ensures ((x >> 4) << 4) + (x & 0xF) == x
  {
  }

  lemma {:induction false} ParseHexOfHex(cp: bv32, d: nat)
    requires d <= 8
    ensures ParseHex(Hex(cp, d), Above(cp, d)) == Some(cp)
  {
    hide HexDigit, HexValue, Nibble;
    if d > 0 {
      HexDigitValue(Nibble(cp, d - 1));
      NibbleStep(cp, d);
      assert Hex(cp, d)[1..] == Hex(cp, d - 1);
      ParseHexOfHex(cp, d - 1);
    }
  }

  lemma {:induction false} TakeDrop(front: seq<bv8>, rest: seq<bv8>)
    ensures Take(front + rest, |front|) == front && Drop(front + rest, |front|) == rest
  {
    if front != [] {
      assert (front + rest)[1..] == front[1..] + rest;
      TakeDrop(front[1..], rest);
    } else {
      assert front + rest == rest;
    }
  }

  lemma EscapeNumberOfHex(cp: bv32, digits: nat, rest: seq<bv8>)
    requires IsText(cp) && digits <= 8 && Above(cp, digits) == 0
    ensures EscapeNumber(Hex(cp, digits) + rest, digits) == Some((Encode(cp), rest))
  {
    hide Hex, Encode, CodePointBytes, IsNonCharacter, Above;
    TakeDrop(Hex(cp, digits), rest);
    ParseHexOfHex(cp, digits);
    CodePointBytesIsEncode(cp);
  }

  function WithoutTwo(x: bv32): bv32 { WithoutDigit(WithoutDigit(x)) }

  /** Two, four and eight hexadecimal digits hold the numbers the writer uses them for. */
  lemma ShiftedOut(x: bv32)
    ensures x < 0xFF ==> WithoutTwo(x) == 0
    ensures x < 0xFFFF ==> WithoutTwo(WithoutTwo(x)) == 0
    ensures WithoutTwo(WithoutTwo(WithoutTwo(WithoutTwo(x)))) == 0
  {
  }

  lemma AboveTwo(cp: bv32, k: nat)
    ensures Above(cp, k + 2) == WithoutTwo(Above(cp, k))
  {
    hide WithoutDigit;
    assert Above(cp, k + 1) == WithoutDigit(Above(cp, k));
    assert Above(cp, k + 2) == WithoutDigit(Above(cp, k + 1));
  }

  lemma AboveForms(cp: bv32)
    ensures cp < 0xFF ==> Above(cp, 2) == 0
    ensures cp < 0xFFFF ==> Above(cp, 4) == 0
    ensures Above(cp, 8) == 0
  {
    assert Above(cp, 0) == cp;
    hide Above, WithoutTwo, WithoutDigit;
    AboveTwo(cp, 0);
    AboveTwo(cp, 2);
    AboveTwo(cp, 4);
    AboveTwo(cp, 6);
    ShiftedOut(cp);
  }

  /** The writer never has to fall back on a surrogate pair, and the digits it chooses suffice. */
  lemma FormFits(cp: bv32, style: Escaping)
    requires IsText(cp) && NeedsEscape(cp, style)
    ensures EscapeForm(cp, style).Some?
    ensures Above(cp, EscapeForm(cp, style).value.1) == 0
  {
    hide Above, IsNonCharacter, IsSurrogate;
    AboveForms(cp);
  }

  lemma EscapeOfSequence(cp: bv32, style: Escaping, rest: seq<bv8>)
    requires IsText(cp) && NeedsEscape(cp, style)
    ensures var e := EscapeSequence(cp, style);
            && |e| >= 2 && e[0] == BACKSLASH && !IsBreak(e[1])
            && Escape(e + rest) == Some((Encode(cp), rest))
  {
    hide Encode, Hex, EscapeNumber, IsNonCharacter, Above, NeedsEscape;
    FormFits(cp, style);
    var Some((letter, digits)) := EscapeForm(cp, style);
    var e := EscapeSequence(cp, style);
    var text := e + rest;
    assert text[1..][1..] == Hex(cp, digits) + rest;
    EscapeNumberOfHex(cp, digits, rest);
  }

  lemma EscapeOfShort(cp: bv32, rest: seq<bv8>)
    requires ShortEscape(cp).Some?
    ensures var letter := ShortEscape(cp).value;
            !IsBreak(letter) && Escape([BACKSLASH, letter] + rest) == Some((Encode(cp), rest))
  {
    var letter := ShortEscape(cp).value;
    var text := [BACKSLASH, letter] + rest;
    assert text[1..][1..] == rest;
    assert LetterEscape(letter) == Some([cp as bv8]);
  }

  /** A byte that the scanner copies. */
  predicate IsPlain(b: bv8) { b != END_OF_FILE && !IsBreak(b) && b != QUOTE && b != BACKSLASH }

  lemma PrependTwice(a: seq<bv8>, b: seq<bv8>, r: Option<(seq<bv8>, seq<bv8>)>)
    ensures Prepend(a, Prepend(b, r)) == Prepend(a + b, r)
    ensures Prepend([], r) == r
  {
    if r.Some? {
      assert a + (b + r.value.0) == (a + b) + r.value.0;
      assert [] + r.value.0 == r.value.0;
    }
  }

  lemma {:induction false} ScanPlain(front: seq<bv8>, rest: seq<bv8>)
    requires forall b :: b in front ==> IsPlain(b)
    ensures Scan(front + rest) == Prepend(front, Scan(rest))
  {
    if front == [] {
      assert front + rest == rest;
      PrependTwice([], [], Scan(rest));
    } else {
      var text := front + rest;
      assert text[1..] == front[1..] + rest && IsPlain(text[0]);
      assert Scan(text) == Prepend([text[0]], Scan(text[1..]));
      ScanPlain(front[1..], rest);
      PrependTwice([front[0]], front[1..], Scan(rest));
      assert [front[0]] + front[1..] == front;
    }
  }

  lemma PlainEncode(cp: bv32, style: Escaping)
    requires IsText(cp) && ShortEscape(cp).None? && !NeedsEscape(cp, style)
    ensures forall b :: b in Encode(cp) ==> IsPlain(b)
  {
    if cp > 0x7F {
      EncodeIsHigh(cp);
    }
  }

  lemma EncodeIsHigh(cp: bv32)
    requires 0x7F < cp <= 0x10FFFF
    ensures forall b :: b in Encode(cp) ==> 0x80 <= b
  {
    hide EncodeTwo, EncodeThree, EncodeFour;
    if cp <= 0x7FF {
      TwoAreHigh(cp);
    } else if cp <= 0xFFFF {
      ThreeAreHigh(cp);
    } else {
      FourAreHigh(cp);
    }
  }

  lemma TwoAreHigh(c: bv32)
    requires 0x80 <= c <= 0x7FF
    ensures forall b :: b in EncodeTwo(c) ==> 0x80 <= b
  {
  }

  lemma ThreeAreHigh(c: bv32)
    requires 0x800 <= c <= 0xFFFF
    ensures forall b :: b in EncodeThree(c) ==> 0x80 <= b
  {
  }

  lemma FourAreHigh(c: bv32)
    requires 0x10000 <= c <= 0x10FFFF
    ensures forall b :: b in EncodeFour(c) ==> 0x80 <= b
  {
  }

  lemma ScanPiece(cp: bv32, style: Escaping, rest: seq<bv8>)
    requires IsText(cp)
    ensures Scan(Piece(cp, style) + rest) == Prepend(Encode(cp), Scan(rest))
  {
    hide Encode, EscapeSequence, Escape, IsNonCharacter, ShortEscape, NeedsEscape;
    var text := Piece(cp, style) + rest;
    if ShortEscape(cp).Some? {
      EscapeOfShort(cp, rest);
      assert text[1..][0] == text[1];
    } else if NeedsEscape(cp, style) {
      EscapeOfSequence(cp, style, rest);
      assert text[1..][0] == text[1];
    } else {
      PlainEncode(cp, style);
      ScanPlain(Encode(cp), rest);
    }
  }

  lemma {:induction false} ScanBody(cps: seq<bv32>, style: Escaping, rest: seq<bv8>)
    requires AllText(cps)
    ensures Scan(Body(cps, style) + rest) == Prepend(EncodeAll(cps), Scan(rest))
  {
    hide Scan, Piece, Encode, IsText;
    if cps == [] {
      assert Body(cps, style) + rest == rest;
      PrependTwice([], [], Scan(rest));
    } else {
      var more := Body(cps[1..], style) + rest;
      assert Body(cps, style) + rest == Piece(cps[0], style) + more;
      ScanPiece(cps[0], style, more);
      ScanBody(cps[1..], style, rest);
      PrependTwice(Encode(cps[0]), EncodeAll(cps[1..]), Scan(rest));
    }
  }

  /** For every byte string and every style, reading back what was written stops right after
      the closing quote and yields the string as its decoder sees it. */
  lemma ReadOfWritten(str: seq<bv8>, style: Escaping, rest: seq<bv8>)
    ensures var text := Written(str, style) + rest;
            text[0] == QUOTE && Scan(text[1..]) == Some((Normalize(str), rest))
  {
    hide Body, EncodeAll, DecodeAll;
    var cps := DecodeAll(str);
    DecodeAllIsText(str);
    ScanBody(cps, style, [QUOTE] + rest);
    assert ([QUOTE] + rest)[1..] == rest;
    assert (Written(str, style) + rest)[1..] == Body(cps, style) + ([QUOTE] + rest);
    assert Scan([QUOTE] + rest) == Some(([], rest));
    assert EncodeAll(cps) + [] == EncodeAll(cps);
  }

  /** The round trip is exact precisely on well-formed text without noncharacters. */
  lemma RoundTripExactlyOnText(str: seq<bv8>, style: Escaping, rest: seq<bv8>)
    ensures Scan((Written(str, style) + rest)[1..]) == Some((str, rest)) <==> WellFormed(str)
  {
    ReadOfWritten(str, style, rest);
    NormalizeFixpoint(str);
  }

  // ---- the loops themselves

  /** The input of the scanner, with the characters still to come. */
  class Stream {
    var text: seq<bv8>

    constructor (text: seq<bv8>)
      ensures this.text == text
    {
      this.text := text;
    }

    method Get() returns (ch: bv8)
      modifies this
      ensures ch == Peek(old(text)) && text == Advance(old(text))
    {
      if text == [] {
        ch := END_OF_FILE;
      } else {
        ch, text := text[0], text[1..];
      }
    }
  }

  method ParseHexDigits(str: seq<bv8>) returns (r: Option<bv32>)
    ensures r == ParseHex(str, 0)
  {
    var value: bv32 := 0;
    for i := 0 to |str|
      invariant ParseHex(str, 0) == ParseHex(str[i..], value)
    {
      var digit: bv32 := 0;
      var ch := str[i];
      if 0x61 <= ch <= 0x66 {
        digit := (ch - 0x61) as bv32 + 10;
      } else if 0x41 <= ch <= 0x46 {
        digit := (ch - 0x41) as bv32 + 10;
      } else if 0x30 <= ch <= 0x39 {
        digit := (ch - 0x30) as bv32;
      } else {
        return None;
      }
      assert str[i..][1..] == str[i + 1..];
      value := (value << 4) + digit;
    }
    r := Some(value);
  }

  method EscapeCode(input: Stream, codeLength: nat) returns (r: Option<seq<bv8>>)
    modifies input
    ensures input.text == Drop(old(input.text), codeLength)
    ensures r == match EscapeNumber(old(input.text), codeLength) case None => None case Some((bytes, _)) => Some(bytes)
  {
    var str := [];
    for i := 0 to codeLength
      invariant str + Take(input.text, codeLength - i) == Take(old(input.text), codeLength)
      invariant Drop(input.text, codeLength - i) == Drop(old(input.text), codeLength)
    {
      var ch := input.Get();
      str := str + [ch];
    }
    assert str == Take(old(input.text), codeLength);
    var value := ParseHexDigits(str);
    if value.None? || 0xD800 <= value.value <= 0xDFFF || value.value > 0x10FFFF {
      return None;
    }
    r := Some(CodePointBytes(value.value));
  }

  method EscapeAt(input: Stream) returns (r: Option<seq<bv8>>)
    modifies input
    ensures match Escape(old(input.text))
            case None => r.None?
            case Some((bytes, rest)) => r == Some(bytes) && input.text == rest
  {
    hide CodePointBytes, ParseHex, LetterEscape, EscapeNumber;
    var escape := input.Get();
    var ch := input.Get();
    if escape == APOSTROPHE && ch == APOSTROPHE {
      return Some([APOSTROPHE]);
    }
    r := LetterEscape(ch);
    if r.None? {
      if ch == 0x78 {
        r := EscapeCodeAt(input, 2);
      } else if ch == 0x75 {
        r := EscapeCodeAt(input, 4);
      } else if ch == 0x55 {
        r := EscapeCodeAt(input, 8);
      }
    }
  }

  method EscapeCodeAt(input: Stream, codeLength: nat) returns (r: Option<seq<bv8>>)
    modifies input
    ensures match EscapeNumber(old(input.text), codeLength)
            case None => r.None?
            case Some((bytes, rest)) => r == Some(bytes) && input.text == rest
  {
    r := EscapeCode(input, codeLength);
  }

  method WriteDoubleQuoteEscapeSequence(out: OStream, codePoint: bv32, style: Escaping)
    requires out.Valid()
    modifies out
    ensures out.Valid() && out.bytes == old(out.bytes) + EscapeSequence(codePoint, style)
    decreases if codePoint < 0xFFFF then 0 else if codePoint == 0xFFFF then 1 else 2
  {
    hide OStream.Valid, SurrogatePair, Hex, EscapeSequence;
    ghost var before := out.bytes;
    out.Write([BACKSLASH]);
    if codePoint < 0xFFFF || style != Json {
      var digits := WriteEscapeLetter(out, codePoint, style);
      ghost var letter := EscapeForm(codePoint, style).value.0;
      WriteHexDigits(out, codePoint, digits);
      SequenceWithLetter(codePoint, style);
      Appended(before, [BACKSLASH], [letter], Hex(codePoint, digits));
    } else {
      SurrogatesAreSmaller(codePoint);
      SequenceWithPair(codePoint, style);
      var (first, second) := SurrogatePair(codePoint);
      WriteDoubleQuoteEscapeSequence(out, first, style);
      WriteDoubleQuoteEscapeSequence(out, second, style);
      Appended(before, [BACKSLASH], EscapeSequence(first, style), EscapeSequence(second, style));
    }
  }

  /** Three writes in a row. */
  lemma Appended(before: seq<bv8>, x: seq<bv8>, y: seq<bv8>, z: seq<bv8>)
    ensures before + x + y + z == before + (x + (y + z))
  {
  }

  lemma SequenceWithPair(cp: bv32, style: Escaping)
    requires EscapeForm(cp, style).None?
    ensures var (first, second) := SurrogatePair(cp);
            EscapeSequence(cp, style) == [BACKSLASH] + (EscapeSequence(first, style) + EscapeSequence(second, style))
  {
    hide SurrogatePair, Hex;
    SurrogatesAreSmaller(cp);
    var (first, second) := SurrogatePair(cp);
    Associates([BACKSLASH], EscapeSequence(first, style), EscapeSequence(second, style));
  }

  lemma Associates(x: seq<bv8>, y: seq<bv8>, z: seq<bv8>)
    ensures x + y + z == x + (y + z)
  {
  }

  lemma SequenceWithLetter(cp: bv32, style: Escaping)
    requires EscapeForm(cp, style).Some?
    ensures var Some((letter, digits)) := EscapeForm(cp, style);
            EscapeSequence(cp, style) == [BACKSLASH] + ([letter] + Hex(cp, digits))
  {
  }

  method WriteEscapeLetter(out: OStream, codePoint: bv32, style: Escaping) returns (digits: nat)
    requires out.Valid() && EscapeForm(codePoint, style).Some?
    modifies out
    ensures var Some((letter, n)) := EscapeForm(codePoint, style);
            out.Valid() && out.bytes == old(out.bytes) + [letter] && digits == n
  {
    digits := 8;
    if codePoint < 0xFF && style != Json {
      out.Write([0x78]);
      digits := 2;
    } else if codePoint < 0xFFFF {
      out.Write([0x75]);
      digits := 4;
    } else {
      out.Write([0x55]);
      digits := 8;
    }
  }

  method WriteHexDigits(out: OStream, codePoint: bv32, digits: nat)
    requires out.Valid() && digits <= 8
    modifies out
    ensures out.Valid() && out.bytes == old(out.bytes) + Hex(codePoint, digits)
  {
    hide OStream.Valid, HexDigit, Nibble;
    var left := digits;
    while left > 0
      invariant 0 <= left <= digits && out.Valid()
      invariant out.bytes + Hex(codePoint, left) == old(out.bytes) + Hex(codePoint, digits)
    {
      out.Write([HexDigit(Nibble(codePoint, left - 1))]);
      left := left - 1;
    }
  }

  lemma BodyOfNothing(style: Escaping)
    ensures Body(DecodeAll([]), style) == []
  {
  }

  lemma BodyUnfold(str: seq<bv8>, style: Escaping)
    requires str != [] && DecodeHead(str).1 <= |str|
    ensures var (cp, n) := DecodeHead(str);
            Body(DecodeAll(str), style) == Piece(cp, style) + Body(DecodeAll(str[n..]), style)
  {
    hide DecodeHead, Piece;
  }

  method WriteDoubleQuotedString(out: OStream, str: seq<bv8>, style: Escaping)
    requires out.Valid()
    modifies out
    ensures out.Valid() && out.bytes == old(out.bytes) + Written(str, style)
  {
    hide OStream.Valid, Piece, DecodeHead, DecodeAll, Body;
    ghost var start := out.bytes;
    out.Write([QUOTE]);
    ghost var all := Body(DecodeAll(str), style);
    var i := 0;
    assert str[0..] == str;
    while true
      invariant 0 <= i <= |str| && out.Valid()
      invariant out.bytes + Body(DecodeAll(str[i..]), style) == old(out.bytes) + [QUOTE] + all
      decreases |str| - i
    {
      var ok, codePoint, next := GetNextCodePointAndAdvance(str, i);
      if !ok {
        break;
      }
      ghost var before, rest := out.bytes, Body(DecodeAll(str[next..]), style);
      assert str[i..][next - i..] == str[next..];
      BodyUnfold(str[i..], style);
      WritePiece(out, codePoint, style);
      Associates(before, Piece(codePoint, style), rest);
      i := next;
    }
    assert str[i..] == [] && Body(DecodeAll([]), style) == [] by {
      BodyOfNothing(style);
    }
    assert out.bytes + [] == out.bytes;
    out.Write([QUOTE]);
    Appended(start, [QUOTE], all, [QUOTE]);
    Associates([QUOTE], all, [QUOTE]);
  }

  method WritePiece(out: OStream, codePoint: bv32, style: Escaping)
    requires out.Valid()
    modifies out
    ensures out.Valid() && out.bytes == old(out.bytes) + Piece(codePoint, style)
  {
    hide OStream.Valid, Encode, EscapeSequence;
    if codePoint == 0x22 {
      out.Write([BACKSLASH, QUOTE]);
    } else if codePoint == 0x5C {
      out.Write([BACKSLASH, BACKSLASH]);
    } else if codePoint == 0x0A {
      out.Write([BACKSLASH, 0x6E]);
    } else if codePoint == 0x09 {
      out.Write([BACKSLASH, 0x74]);
    } else if codePoint == 0x0D {
      out.Write([BACKSLASH, 0x72]);
    } else if codePoint == 0x08 {
      out.Write([BACKSLASH, 0x62]);
    } else if codePoint == 0x0C {
      out.Write([BACKSLASH, 0x66]);
    } else if codePoint < 0x20 || 0x80 <= codePoint <= 0xA0 {
      WriteDoubleQuoteEscapeSequence(out, codePoint, style);
    } else if codePoint == 0xFEFF {
      WriteDoubleQuoteEscapeSequence(out, codePoint, style);
    } else if style == NonAscii && codePoint > 0x7E {
      WriteDoubleQuoteEscapeSequence(out, codePoint, style);
    } else {
      WriteCodePoint(out, codePoint);
    }
  }
}
