/** What the double-quoted writer writes raw and what it escapes, and what the reader makes of
    every escape, also of those the writer never uses (section 5.7 of YAML 1.2). */
module QuotedForms {
  import opened DoubleQuoted
  import opened Utf8
  import opened Wrappers

  // ---- hexadecimal digits

  const LOWER: seq<bv8> := [
    0x30, 0x31, 0x32, 0x33, 0x34, 0x35, 0x36, 0x37, 0x38, 0x39, 0x61, 0x62, 0x63, 0x64, 0x65, 0x66]
  const UPPER: seq<bv8> := [
    0x30, 0x31, 0x32, 0x33, 0x34, 0x35, 0x36, 0x37, 0x38, 0x39, 0x41, 0x42, 0x43, 0x44, 0x45, 0x46]

  predicate IsHex(ch: bv8) { ch in LOWER || ch in UPPER }

  /** The value of digit `d` is `d`, in either case. */
  lemma DigitValue(d: nat)
    requires d < 16
    ensures HexValue(LOWER[d]) == Some(d as bv32) && HexValue(UPPER[d]) == Some(d as bv32)
  {
    if d < 10 {
      assert UPPER[d] == LOWER[d];
      if d < 4 { DigitsBelowFour(); } else if d < 8 { DigitsBelowEight(); } else { DigitsBelowTen(); }
    } else if d < 13 {
      LowerDigits();
      UpperDigits();
    } else {
      LastLowerDigits();
      LastUpperDigits();
    }
    hide HexValue;
  }

  lemma DigitsBelowFour()
    ensures forall d: nat | d < 4 :: HexValue(LOWER[d]) == Some(d as bv32)
  {
    assert HexValue(0x30) == Some(0) && HexValue(0x31) == Some(1);
    assert HexValue(0x32) == Some(2) && HexValue(0x33) == Some(3);
    hide HexValue;
  }

  lemma DigitsBelowEight()
    ensures forall d: nat | 4 <= d < 8 :: HexValue(LOWER[d]) == Some(d as bv32)
  {
    assert HexValue(0x34) == Some(4) && HexValue(0x35) == Some(5);
    assert HexValue(0x36) == Some(6) && HexValue(0x37) == Some(7);
    hide HexValue;
  }

  lemma DigitsBelowTen()
    ensures forall d: nat | 8 <= d < 10 :: HexValue(LOWER[d]) == Some(d as bv32)
  {
    assert HexValue(0x38) == Some(8) && HexValue(0x39) == Some(9);
    hide HexValue;
  }

  lemma LowerDigits()
    ensures forall d: nat | 10 <= d < 13 :: HexValue(LOWER[d]) == Some(d as bv32)
  {
    assert HexValue(0x61) == Some(10) && HexValue(0x62) == Some(11);
    assert HexValue(0x63) == Some(12);
    hide HexValue;
  }

  lemma LastLowerDigits()
    ensures forall d: nat | 13 <= d < 16 :: HexValue(LOWER[d]) == Some(d as bv32)
  {
    assert HexValue(0x64) == Some(13) && HexValue(0x65) == Some(14);
    assert HexValue(0x66) == Some(15);
    hide HexValue;
  }

  lemma UpperDigits()
    ensures forall d: nat | 10 <= d < 13 :: HexValue(UPPER[d]) == Some(d as bv32)
  {
    assert HexValue(0x41) == Some(10) && HexValue(0x42) == Some(11);
    assert HexValue(0x43) == Some(12);
    hide HexValue;
  }

  lemma LastUpperDigits()
    ensures forall d: nat | 13 <= d < 16 :: HexValue(UPPER[d]) == Some(d as bv32)
  {
    assert HexValue(0x44) == Some(13) && HexValue(0x45) == Some(14);
    assert HexValue(0x46) == Some(15);
    hide HexValue;
  }

  /** Nothing else is a digit. */
  lemma DigitExactly(ch: bv8)
    ensures HexValue(ch).Some? <==> IsHex(ch)
  {
    LowerRange(ch);
    UpperRange(ch);
  }

  lemma LowerRange(ch: bv8)
    ensures ch in LOWER <==> 0x30 <= ch <= 0x39 || 0x61 <= ch <= 0x66
  {
  }

  lemma UpperRange(ch: bv8)
    ensures ch in UPPER <==> 0x30 <= ch <= 0x39 || 0x41 <= ch <= 0x46
  {
  }

  function Shifted(value: bv32, d: bv32): bv32 { (value << 4) + d }

  lemma ParseHexStep(str: seq<bv8>, value: bv32)
    requires str != []
    ensures HexValue(str[0]).None? ==> ParseHex(str, value).None?
    ensures HexValue(str[0]).Some? ==>
              ParseHex(str, value) == ParseHex(str[1..], Shifted(value, HexValue(str[0]).value))
  {
    hide HexValue;
  }

  /** A number is read exactly when all its characters are digits. */
  lemma {:induction false} NumberExactly(str: seq<bv8>, value: bv32)
    ensures ParseHex(str, value).Some? <==> forall ch | ch in str :: IsHex(ch)
    decreases |str|
  {
    hide HexValue, IsHex, Shifted;
    if str != [] {
      ParseHexStep(str, value);
      DigitExactly(str[0]);
      hide ParseHex;
      assert str == [str[0]] + str[1..];
      if HexValue(str[0]).Some? {
        NumberExactly(str[1..], Shifted(value, HexValue(str[0]).value));
      }
    }
  }

  function UpperDigit(ch: bv8): bv8 { if 0x61 <= ch <= 0x66 then ch - 0x20 else ch }

  function UpperCase(str: seq<bv8>): seq<bv8>
  {
    if str == [] then [] else [UpperDigit(str[0])] + UpperCase(str[1..])
  }

  lemma UpperDigitValue(ch: bv8)
    requires IsHex(ch)
    ensures HexValue(UpperDigit(ch)) == HexValue(ch)
  {
    DigitExactly(ch);
  }

  lemma UpperCaseStep(str: seq<bv8>)
    requires str != []
    ensures UpperCase(str) != [] && UpperCase(str)[0] == UpperDigit(str[0])
    ensures UpperCase(str)[1..] == UpperCase(str[1..])
  {
    hide UpperDigit;
  }

  /** Upper-case digits read like lower-case ones. */
  lemma {:induction false} CaseDoesNotMatter(str: seq<bv8>, value: bv32)
    requires forall ch | ch in str :: IsHex(ch)
    ensures ParseHex(UpperCase(str), value) == ParseHex(str, value)
    decreases |str|
  {
    hide HexValue, IsHex, UpperDigit, Shifted;
    if str != [] {
      UpperDigitValue(str[0]);
      DigitExactly(str[0]);
      UpperCaseStep(str);
      ParseHexStep(str, value);
      ParseHexStep(UpperCase(str), value);
      hide ParseHex, UpperCase;
      CaseDoesNotMatter(str[1..], Shifted(value, HexValue(str[0]).value));
    }
  }

  /** An escape by number is accepted exactly when its characters are digits and the number is
      no surrogate and not above the last code point; it gives the UTF-8 form of the number. */
  lemma NumberEscapeExactly(str: seq<bv8>, rest: seq<bv8>)
    ensures var n := ParseHex(str, 0);
            && (n.Some? <==> forall ch | ch in str :: IsHex(ch))
            && EscapeNumber(str + rest, |str|) ==
                 if n.Some? && !IsSurrogate(n.value) && n.value <= 0x10FFFF then Some((Utf8.Encode(n.value), rest))
                 else None
  {
    NumberExactly(str, 0);
    TakeDrop(str, rest);
    hide ParseHex, CodePointBytes, Utf8.Encode, IsHex;
    var n := ParseHex(str, 0);
    if n.Some? && n.value <= 0x10FFFF { CodePointBytesIsEncode(n.value); }
  }

  // ---- letters

  /** The escapes by a letter of YAML 1.2 and the code points they stand for. */
  const ESCAPES: seq<(bv8, bv32)> := [
    (0x30, 0x00), (0x61, 0x07), (0x62, 0x08), (0x74, 0x09), (0x09, 0x09), (0x6E, 0x0A), (0x76, 0x0B), (0x66, 0x0C),
    (0x72, 0x0D), (0x65, 0x1B), (0x20, 0x20), (0x22, 0x22), (0x2F, 0x2F), (0x5C, 0x5C), (0x4E, 0x85), (0x5F, 0xA0),
    (0x4C, 0x2028), (0x50, 0x2029)]

  /** The two of them that do not come out: the next line and the no-break space. */
  predicate IsLatin(letter: bv8) { letter == 0x4E || letter == 0x5F }

  lemma EscapeReads(letter: bv8, rest: seq<bv8>)
    requires LetterEscape(letter).Some?
    ensures Escape([BACKSLASH, letter] + rest) == Some((LetterEscape(letter).value, rest))
  {
    var text := [BACKSLASH, letter] + rest;
    assert text[1..][0] == letter && text[1..][1..] == rest;
    hide LetterEscape;
  }

  lemma AsciiEscapes(i: nat)
    requires i < 14
    ensures LetterEscape(ESCAPES[i].0) == Some(Utf8.Encode(ESCAPES[i].1)) && !IsLatin(ESCAPES[i].0)
  {
  }

  lemma SeparatorEscapes()
    ensures Utf8.Encode(0x2028) == [0xE2, 0x80, 0xA8] && Utf8.Encode(0x2029) == [0xE2, 0x80, 0xA9]
    ensures Utf8.Encode(0x85) == [0xC2, 0x85] && Utf8.Encode(0xA0) == [0xC2, 0xA0]
  {
  }

  lemma LetterIs(i: nat)
    requires i < |ESCAPES|
    ensures LetterEscape(ESCAPES[i].0).Some?
    ensures LetterEscape(ESCAPES[i].0) == Some(Utf8.Encode(ESCAPES[i].1)) <==> !IsLatin(ESCAPES[i].0)
  {
    if i < 14 {
      AsciiEscapes(i);
    } else {
      SeparatorEscapes();
      assert LetterEscape(0x4E) == Some([0x85]) && LetterEscape(0x5F) == Some([0xA0]);
      assert LetterEscape(0x4C) == Some([0xE2, 0x80, 0xA8]) && LetterEscape(0x50) == Some([0xE2, 0x80, 0xA9]);
      hide Utf8.Encode, LetterEscape;
    }
  }

  /** Each escape by a letter gives the UTF-8 form of its code point, exactly but for the next
      line and the no-break space. */
  lemma LetterEscapesExactly(i: nat, rest: seq<bv8>)
    requires i < |ESCAPES|
    ensures Escape([BACKSLASH, ESCAPES[i].0] + rest) == Some((Utf8.Encode(ESCAPES[i].1), rest))
       <==> !IsLatin(ESCAPES[i].0)
  {
    LetterIs(i);
    EscapeReads(ESCAPES[i].0, rest);
    hide Escape, LetterEscape, Utf8.Encode;
  }

  /** For those two the reader gives the single byte of Latin-1, which is not UTF-8. */
  lemma LatinEscapesAreNotText(letter: bv8, rest: seq<bv8>)
    requires IsLatin(letter)
    ensures exists b: bv8 :: Escape([BACKSLASH, letter] + rest) == Some(([b], rest)) && !WellFormed([b])
  {
    EscapeReads(letter, rest);
    var b: bv8 := if letter == 0x4E then 0x85 else 0xA0;
    assert LetterEscape(letter) == Some([b]);
    hide Escape, LetterEscape;
    LoneTrailing(b);
  }

  lemma LoneTrailing(b: bv8)
    requires b == 0x85 || b == 0xA0
    ensures !WellFormed([b])
  {
    NormalizeFixpoint([b]);
    assert DecodeHead([b]) == (REPLACEMENT_CHARACTER, 1);
    assert [b][1..] == [];
    assert DecodeAll([b]) == [REPLACEMENT_CHARACTER];
    assert EncodeAll([REPLACEMENT_CHARACTER]) == Utf8.Encode(REPLACEMENT_CHARACTER) + EncodeAll([]);
    assert |Utf8.Encode(REPLACEMENT_CHARACTER)| == 3;
  }

  /** Every other letter but those of the escapes by number, and the apostrophe that the reader
      takes for itself, is an error. */
  lemma UnknownEscapeExactly(letter: bv8, rest: seq<bv8>)
    requires letter !in [0x78, 0x75, 0x55]
    ensures Escape([BACKSLASH, letter] + rest).Some? <==>
            letter == APOSTROPHE || exists i: nat :: i < |ESCAPES| && ESCAPES[i].0 == letter
  {
    LetterKnown(letter);
    LetterInTable(letter);
    if LetterEscape(letter).Some? {
      EscapeReads(letter, rest);
    } else {
      EscapeFails(letter, rest);
    }
    hide Escape, LetterEscape;
  }

  const LETTERS: seq<bv8> := [0x30, 0x61, 0x62, 0x74, 0x09, 0x6E, 0x76, 0x66, 0x72, 0x65, 0x20, 0x22, 0x2F, 0x5C, 0x4E,
                              0x5F, 0x4C, 0x50]

  lemma LetterKnown(letter: bv8)
    ensures LetterEscape(letter).Some? <==> letter == APOSTROPHE || letter in LETTERS
  {
  }

  lemma LetterInTable(letter: bv8)
    ensures letter in LETTERS <==> exists i: nat :: i < |ESCAPES| && ESCAPES[i].0 == letter
  {
    assert |LETTERS| == |ESCAPES| && forall i: nat | i < |LETTERS| :: LETTERS[i] == ESCAPES[i].0;
  }

  lemma EscapeFails(letter: bv8, rest: seq<bv8>)
    requires LetterEscape(letter).None? && letter !in [0x78, 0x75, 0x55]
    ensures Escape([BACKSLASH, letter] + rest).None?
  {
    var text := [BACKSLASH, letter] + rest;
    assert text[1..][0] == letter;
    hide LetterEscape;
  }

  // ---- the writer

  /** A code point comes out as its own UTF-8 form exactly when it is no control character, no quote, no
      backslash, no byte order mark, and plain ASCII if the style asks for that. */
  lemma RawExactly(cp: bv32, style: Escaping)
    requires IsText(cp)
    ensures Piece(cp, style) == Utf8.Encode(cp) <==>
            && !(cp <= 0x1F || cp == 0x22 || cp == 0x5C || 0x80 <= cp <= 0xA0 || cp == 0xFEFF)
            && (style == NonAscii ==> cp <= 0x7E)
  {
    EncodeStarts(cp);
    PieceStarts(cp, style);
    hide Utf8.Encode, EscapeSequence, IsNonCharacter, IsSurrogate;
  }

  lemma EncodeStarts(cp: bv32)
    requires cp <= 0x10FFFF
    ensures cp <= 0x7F ==> Utf8.Encode(cp) == [cp as bv8]
    ensures cp > 0x7F ==> forall b | b in Utf8.Encode(cp) :: b >= 0x80
  {
    if 0x7F < cp { EncodeIsHigh(cp); }
  }

  lemma PieceStarts(cp: bv32, style: Escaping)
    requires IsText(cp)
    ensures ShortEscape(cp).Some? || NeedsEscape(cp, style) ==>
            |Piece(cp, style)| >= 2 && Piece(cp, style)[0] == BACKSLASH
  {
    if ShortEscape(cp).None? && NeedsEscape(cp, style) {
      SequenceForm(cp, style);
    }
    hide Hex, NeedsEscape, IsNonCharacter, IsSurrogate, EscapeSequence;
  }

  lemma SequenceForm(cp: bv32, style: Escaping)
    requires IsText(cp) && NeedsEscape(cp, style)
    ensures EscapeForm(cp, style).Some?
    ensures var form := EscapeForm(cp, style).value;
            EscapeSequence(cp, style) == [BACKSLASH, form.0] + Hex(cp, form.1)
  {
    FormFits(cp, style);
    hide Hex, NeedsEscape, IsNonCharacter, IsSurrogate, Above;
  }

  /** Outside JSON an escape by number takes two, four or eight digits, as few as its code point needs below
      255 and below 65535. */
  lemma EscapeLength(cp: bv32, style: Escaping)
    requires IsText(cp) && style != Json && ShortEscape(cp).None? && Piece(cp, style) != Utf8.Encode(cp)
    ensures |Piece(cp, style)| == if cp < 0xFF then 4 else if cp < 0xFFFF then 6 else 10
  {
    hide Utf8.Encode, Hex, NeedsEscape, IsNonCharacter, IsSurrogate, EscapeSequence;
    SequenceForm(cp, style);
  }

  predicate Printable(str: seq<bv8>) { forall b | b in str :: 0x20 <= b <= 0x7E }

  lemma {:induction false} HexIsLower(cp: bv32, digits: nat)
    requires digits <= 8
    ensures forall b | b in Hex(cp, digits) :: b in LOWER
  {
    hide HexDigit, Nibble;
    if digits != 0 {
      LowerDigit(Nibble(cp, digits - 1));
      HexIsLower(cp, digits - 1);
    }
  }

  lemma LowerDigit(d: bv32)
    requires d < 16
    ensures HexDigit(d) in LOWER
  {
    LowerRange(HexDigit(d));
  }

  lemma HexIsPrintable(cp: bv32, digits: nat)
    requires digits <= 8
    ensures Printable(Hex(cp, digits))
  {
    HexIsLower(cp, digits);
    forall b | b in LOWER ensures 0x20 <= b <= 0x7E { LowerRange(b); }
    hide Hex;
  }

  lemma SequenceIsPrintable(cp: bv32, style: Escaping)
    requires IsText(cp) && NeedsEscape(cp, style)
    ensures Printable(EscapeSequence(cp, style))
  {
    SequenceForm(cp, style);
    var form := EscapeForm(cp, style).value;
    HexIsPrintable(cp, form.1);
    hide Hex, NeedsEscape, IsNonCharacter, IsSurrogate, EscapeSequence;
  }

  /** Every piece but a raw code point beyond ASCII is printable. */
  lemma PieceIsPrintable(cp: bv32, style: Escaping)
    requires IsText(cp) && (style == NonAscii || cp <= 0x7E)
    ensures Printable(Piece(cp, style))
  {
    if ShortEscape(cp).None? {
      if NeedsEscape(cp, style) {
        SequenceIsPrintable(cp, style);
      } else {
        EncodeStarts(cp);
      }
    }
    hide Utf8.Encode, IsNonCharacter, IsSurrogate, EscapeSequence;
  }

  lemma {:induction false} BodyIsPrintable(cps: seq<bv32>)
    requires AllText(cps)
    ensures Printable(Body(cps, NonAscii))
  {
    if cps != [] {
      PieceIsPrintable(cps[0], NonAscii);
      BodyIsPrintable(cps[1..]);
    }
    hide Piece, IsText;
  }

  /** With the style for ASCII the whole scalar is printable ASCII, whatever the string holds. */
  lemma AsciiStyleIsPrintable(str: seq<bv8>)
    ensures Printable(Written(str, NonAscii))
  {
    DecodeAllIsText(str);
    BodyIsPrintable(DecodeAll(str));
    hide Body, DecodeAll, IsText;
  }

  /** The inside of a string of section 7 of RFC 8259. */
  predicate IsJson(text: seq<bv8>)
  {
    if text == [] then true
    else if text[0] != BACKSLASH then text[0] >= 0x20 && text[0] != QUOTE && IsJson(text[1..])
    else if |text| == 1 then false
    else if text[1] == 0x75 then |text| >= 6 && AllHex(text[2..6]) && IsJson(text[6..])
    else text[1] in [QUOTE, BACKSLASH, 0x2F, 0x62, 0x66, 0x6E, 0x72, 0x74] && IsJson(text[2..])
  }

  predicate AllHex(digits: seq<bv8>) { forall b | b in digits :: IsHex(b) }

  lemma {:induction false} RawIsJson(raw: seq<bv8>, rest: seq<bv8>)
    requires IsJson(rest) && forall b | b in raw :: b >= 0x20 && b != QUOTE && b != BACKSLASH
    ensures IsJson(raw + rest)
  {
    if raw == [] {
      assert raw + rest == rest;
    } else {
      var text := raw + rest;
      assert raw[0] in raw && text[0] == raw[0] && text[1..] == raw[1..] + rest;
      assert forall b | b in raw[1..] :: b in raw;
      RawIsJson(raw[1..], rest);
    }
  }

  lemma ShortIsJson(cp: bv32, rest: seq<bv8>)
    requires IsJson(rest) && ShortEscape(cp).Some?
    ensures IsJson(Piece(cp, Json) + rest)
  {
    var letter := ShortEscape(cp).value;
    var text := [BACKSLASH, letter] + rest;
    assert letter in [QUOTE, BACKSLASH, 0x2F, 0x62, 0x66, 0x6E, 0x72, 0x74] && text[2..] == rest;
    assert Piece(cp, Json) == [BACKSLASH, letter];
    hide ShortEscape, Piece;
  }

  lemma NumberIsJson(digits: seq<bv8>, rest: seq<bv8>)
    requires |digits| == 4 && AllHex(digits) && IsJson(rest)
    ensures IsJson([BACKSLASH, 0x75] + digits + rest)
  {
    var text := [BACKSLASH, 0x75] + digits + rest;
    assert text[2..6] == digits && text[6..] == rest;
    hide AllHex;
  }

  lemma PieceIsJson(cp: bv32, rest: seq<bv8>)
    requires IsText(cp) && IsJson(rest)
    ensures IsJson(Piece(cp, Json) + rest)
  {
    if ShortEscape(cp).Some? {
      ShortIsJson(cp, rest);
    } else if NeedsEscape(cp, Json) {
      SequenceForm(cp, Json);
      HexIsLower(cp, 4);
      NumberIsJson(Hex(cp, 4), rest);
      assert [BACKSLASH, 0x75] + Hex(cp, 4) == Piece(cp, Json);
    } else {
      EncodeStarts(cp);
      RawIsJson(Utf8.Encode(cp), rest);
    }
    hide IsJson, Hex, Utf8.Encode, EscapeSequence;
  }

  lemma {:induction false} BodyIsJson(cps: seq<bv32>)
    requires AllText(cps)
    ensures IsJson(Body(cps, Json))
  {
    hide Piece, IsText;
    if cps != [] {
      BodyIsJson(cps[1..]);
      PieceIsJson(cps[0], Body(cps[1..], Json));
    }
  }

  /** With the style for JSON the scalar is a string of JSON, whatever the string holds; no surrogate pair is
      ever written. */
  lemma JsonStyleIsJson(str: seq<bv8>)
    ensures exists inside: seq<bv8> :: Written(str, Json) == [QUOTE] + inside + [QUOTE] && IsJson(inside)
  {
    DecodeAllIsText(str);
    BodyIsJson(DecodeAll(str));
    hide Body, DecodeAll, IsText, IsJson;
  }
}
