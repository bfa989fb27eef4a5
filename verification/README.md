# Proofs about the Kolosal agent system

This project models the parts of the Kolosal agent system in which many calls, threads or
characters have to agree, and proves what holds for all of them: every byte string, every
sequence of calls, every interleaving. `dafny verify dfyconfig.toml` checks it.

## What is modelled

- **Codecs of the YAML library** (`Utf8`, `DoubleQuoted`, `QuotedForms`, `Base64`,
  `OutputStream`). The UTF-8 decoder and writer, the writer and reader of double-quoted
  text, and Base64, on bytes, with the bit arithmetic written out. RFC 3629 and RFC 4648 are
  the independent references. Found on the way: the surrogate-pair branch of the escape
  writer is never reached from a string; the escapes for the next line and the no-break
  space are read as single bytes that are not UTF-8; overlong UTF-8 is decoded; and the
  Base64 decoder looks at the character before the last symbol of a group, so whitespace
  just there changes the result of padded groups.
- **The YAML emitter** (`EmitterModel`, `EmitterLayout`, `EmitterSafety`, `EmitterTree`,
  `EmitterText`, `BlockReader`, `EmitterLabels`, `EmitterRuns`, `EmitterSeparators`,
  `EmitterKeys`, `EmitterMarks`, `EmitterColumns`, `EmitterSettings`, `EmitterScopes`,
  `EmitterClass`). A
  stack of groups, accumulated indents, flags and pending settings decide which structural
  token comes next. The state machine takes any sequence of calls; the class updates the
  same fields in place and is proved to follow it. The output of whole trees is, to the last
  blank, what a compositional printer gives (`EmitterText`; with anchors, tags, aliases and
  document markers `EmitterLabels`), and a reader that goes by columns gets the trees back
  (`BlockReader`); the marks of block groups stand in the columns of their indents. For
  every sequence of calls, comments and line breaks included, no text is lost or runs into
  another (`EmitterRuns`), every node has its separator once (`EmitterSeparators`), and the
  calls that are errors (`EmitterSettings`) and the settings in force (`EmitterScopes`) are
  told exactly. Found on the way: local settings are restored oldest first, so one that is
  set twice stays changed; a local call right in front of the end of a group carries the
  group's setting out of it; once a setting was set globally, the end of an inner group
  ends the local setting of the group around it too; a comment or property in front of a
  long key of a flow map can cost the entry its question mark; an alias as the key of a
  long entry in flow layout is written right in front of its colon, which counts as part
  of the name; an anchor or tag in front of any document but the first stops the emitter;
  an empty flow group as a simple key of a block map is written one indent too far in, so
  that the map cannot be read back; and no document marker is written behind a document
  that ends with a line break, which then runs into the next.
- **Two-store search** (`Retrieval`, `StoreInterleavings`). Each store cuts its own ranking;
  the manager merges. Additions and deletions go to one store after the other, and those of
  other threads may come in between. Found on the way: two additions under one id that
  overtake each other leave stores that disagree about it until it is written again.
- **Workflow orchestration.** The condition evaluator (`Conditions`), template expansion
  (`Templates`, `TemplatePass`), retries (`Retry`), the sequential and the conditional
  engine (`Sequential`, `Conditional`), the request manager (`Requests`, `RequestRuns`,
  `RequestManagers`), executions (`Executions`, `ExecutionRuns`), the async service
  (`AsyncService`, `AsyncRuns`) and the files of definitions (`Persistence`). Threads are
  atomic steps, one for each critical section or unlocked access; the modules named after
  runs tell the state from the actions that took effect. Found on the way: a template text
  that mentions its own field behind its first character expands for ever; a fast worker can
  leave a request in the active map for good; an execution cancelled before it is picked
  never leaves the active map; a waiting caller can overwrite the state of a completed
  execution; a cancellation answered with success can be overtaken, so that the task is run,
  or fails, all the same, and a task that was run and counted as completed can end up
  cancelled; a step that fails for good overwrites a cancellation of its execution; a
  definition that cannot be dumped takes the one saved before with it; a saved definition
  loses the default retry policy that the engine goes by.

Each imperative part is a class or a method with a loop, proved against a specification
function; the lemmas then speak about runs of that specification.

## Model

| member | source | states |
|---|---|---|
| `Utf8.DecodeHeadSafe` | external/yaml-cpp/src/emitterutils.cpp:101-143 | The decoder consumes at least one byte and at most four, never passes the end, and yields no surrogate, no noncharacter and nothing above U+10FFFF |
| `Utf8.GatherBounds` | external/yaml-cpp/src/emitterutils.cpp:122-134 | Gathering trailing bytes never goes back, past the end of the string, or past the number of bytes indicated |
| `Utf8.EncodeCarries` | external/yaml-cpp/src/emitterutils.cpp:145-164 | The bytes written for a code point carry exactly its bits behind a lead byte that announces their number |
| `Utf8.DecodeOfEncode` | external/yaml-cpp/src/emitterutils.cpp:101-164 | Decoding the bytes written for a code point, whatever follows them, returns it and consumes exactly those bytes |
| `Utf8.DecodeAllIsText` | external/yaml-cpp/src/emitterutils.cpp:101-143 | Decoding any byte string yields only code points that may be written |
| `Utf8.DecodeAllOfEncodeAll` | external/yaml-cpp/src/emitterutils.cpp:101-164 | Writing any list of such code points and decoding the result gives the list back |
| `Utf8.NormalizeIdempotent` | external/yaml-cpp/src/emitterutils.cpp:101-164 | Decode-then-encode of any byte string is idempotent |
| `Utf8.CharacterRoundTrip` | external/yaml-cpp/src/emitterutils.cpp:101-164 | Any character well formed by the grammar in section 4 of RFC 3629, unless it is a noncharacter, is exactly the bytes the writer gives for its scalar value |
| `Utf8.EncodeAllIsWellFormed` | external/yaml-cpp/src/emitterutils.cpp:145-164 | Everything the writer produces is well formed by that grammar |
| `Utf8.NormalizeFixpoint` | external/yaml-cpp/src/emitterutils.cpp:101-164 | Decode-then-encode leaves a byte string unchanged exactly when it is well-formed UTF-8 without noncharacters |
| `Utf8.GetNextCodePointAndAdvance` | external/yaml-cpp/src/emitterutils.cpp:101-143 | The loop over the trailing bytes computes the specified code point and advances the iterator by the specified number of bytes |
| `Utf8.ReplaceIllegal` | external/yaml-cpp/src/emitterutils.cpp:136-141 | Surrogates, noncharacters and values above U+10FFFF become U+FFFD |
| `Utf8.StrayByte` | external/yaml-cpp/src/emitterutils.cpp:101-115 | A byte from 80 to BF at the start of a character is replaced by U+FFFD, and one byte is passed |
| `Utf8.CutShort` | external/yaml-cpp/src/emitterutils.cpp:117-134 | A sequence that breaks off, at the end of the string or before a byte that is none of 80 to BF, is replaced as a whole, and the byte that broke it off is decoded anew |
| `Utf8.CompleteSequence` | external/yaml-cpp/src/emitterutils.cpp:117-143 | A complete sequence of two to four bytes is decoded to the number of its payload bits, overlong forms included, or to U+FFFD for surrogates, noncharacters and numbers above the last code point |
| `Utf8.WriteCodePoint` | external/yaml-cpp/src/emitterutils.cpp:145-164 | Appends the specified bytes of a code point, also for illegal ones |
| `DoubleQuoted.SurrogatesAreSmaller` | external/yaml-cpp/src/emitterutils.cpp:232-239 | The halves of a surrogate pair fit 16 bits and are smaller than the number where the pair would be written again, so the recursion of the escape writer ends |
| `DoubleQuoted.FormFits` | external/yaml-cpp/src/emitterutils.cpp:241-265 | For every code point the string writer escapes, in every style, a form is found without a surrogate pair, and its digits hold the whole number |
| `DoubleQuoted.CodePointBytesIsEncode` | external/yaml-cpp/src/exp.cpp:64-78 | The reader turns an escaped code point into the same bytes the writer uses for it |
| `DoubleQuoted.ParseHexOfHex` | external/yaml-cpp/src/exp.cpp:24-41 | Parsing the hexadecimal digits of a number gives the number, up to the width written |
| `DoubleQuoted.EscapeConsumes` | external/yaml-cpp/src/exp.cpp:85-146 | An escape that is accepted consumes part of the text, so reading ends |
| `DoubleQuoted.EscapeOfSequence` | external/yaml-cpp/src/emitterutils.cpp:241-265 | Reading an escape sequence the writer produced gives the bytes of its code point and leaves exactly what follows |
| `DoubleQuoted.EscapeOfShort` | external/yaml-cpp/src/emitterutils.cpp:337-358 | The same for the escapes of one letter |
| `DoubleQuoted.ScanPiece` | external/yaml-cpp/src/scanscalar.cpp:52-94 | The same for every piece of text between the quotes, escaped or not |
| `DoubleQuoted.ReadOfWritten` | external/yaml-cpp/src/emitterutils.cpp:330-375 | For every byte string and each of the three styles, reading the quoted text hands back its decode-then-encode form and stops right behind the closing quote |
| `DoubleQuoted.RoundTripExactlyOnText` | external/yaml-cpp/src/emitterutils.cpp:330-375 | Writing and reading undo each other exactly on well-formed UTF-8 without noncharacters |
| `DoubleQuoted.Stream.Get` | external/yaml-cpp/src/exp.cpp:53-54 | Takes the next character off the stream |
| `DoubleQuoted.ParseHexDigits` | external/yaml-cpp/src/exp.cpp:24-41 | The digit loop computes the specified value, or reports a character that is no digit |
| `DoubleQuoted.EscapeCode` | external/yaml-cpp/src/exp.cpp:49-78 | Reads the digits, refuses surrogates and numbers above U+10FFFF, and returns the bytes of the code point; consumes the digits |
| `DoubleQuoted.EscapeAt` | external/yaml-cpp/src/exp.cpp:85-146 | Reads one escape sequence off the stream as specified, with every letter of section 5.7 of YAML 1.2 that the program knows |
| `DoubleQuoted.WriteDoubleQuoteEscapeSequence` | external/yaml-cpp/src/emitterutils.cpp:241-265 | Appends exactly the specified escape sequence |
| `DoubleQuoted.WriteHexDigits` | external/yaml-cpp/src/emitterutils.cpp:263-264 | Appends the digits from the highest down |
| `DoubleQuoted.WriteDoubleQuotedString` | external/yaml-cpp/src/emitterutils.cpp:330-375 | Appends the quoted form of the string |
| `QuotedForms.DigitValue` | external/yaml-cpp/src/exp.cpp:24-41 | Each hexadecimal digit reads as its value, in lower and in upper case |
| `QuotedForms.NumberExactly` | external/yaml-cpp/src/exp.cpp:24-41 | A number is read exactly when all its characters are hexadecimal digits |
| `QuotedForms.CaseDoesNotMatter` | external/yaml-cpp/src/exp.cpp:24-41 | Digits in upper case read like those in lower case |
| `QuotedForms.NumberEscapeExactly` | external/yaml-cpp/src/exp.cpp:49-78 | An escape by number is accepted exactly when its characters are digits and the number is no surrogate and not above the last code point; it gives the UTF-8 form of the number |
| `QuotedForms.LetterEscapesExactly` | external/yaml-cpp/src/exp.cpp:98-135 | Of the eighteen escapes by a letter in section 5.7 of YAML 1.2 each reads as the UTF-8 form of its code point, exactly but for the next line and the no-break space |
| `QuotedForms.LatinEscapesAreNotText` | external/yaml-cpp/src/exp.cpp:128-131 | Those two read as single bytes of Latin-1, which are not UTF-8 |
| `QuotedForms.UnknownEscapeExactly` | external/yaml-cpp/src/exp.cpp:98-145 | Any other letter is an error, exactly but for the apostrophe and the three letters of escapes by number |
| `QuotedForms.RawExactly` | external/yaml-cpp/src/emitterutils.cpp:336-372 | A code point is written as its own UTF-8 form exactly when it is not below 20, not from 80 to A0, no quote, backslash or byte order mark, and below 7F where the style asks for ASCII |
| `QuotedForms.EscapeLength` | external/yaml-cpp/src/emitterutils.cpp:241-265 | Outside JSON an escape by number has two digits below 255, four below 65535, and eight otherwise |
| `QuotedForms.AsciiStyleIsPrintable` | external/yaml-cpp/src/emitterutils.cpp:330-375 | In the style for ASCII everything written is printable ASCII, whatever the string holds |
| `QuotedForms.JsonStyleIsJson` | external/yaml-cpp/src/emitterutils.cpp:330-375 | In the style for JSON everything written is a string by section 7 of RFC 8259, whatever the string holds; no surrogate pair is ever written |
| `OutputStream.OStream.UpdatePos` | external/yaml-cpp/src/ostream_wrapper.cpp:63-72 | Row, column and comment flag after one more byte |
| `OutputStream.OStream.Write` | external/yaml-cpp/src/ostream_wrapper.cpp:50-61 | Appends bytes; row and column stay those of the end of the whole output |
| `Base64.EncodeLength` | external/yaml-cpp/src/binary.cpp:20-56 | The encoded length is four times the number of started groups of three bytes |
| `Base64.DecodeOfEncodeFrom` | external/yaml-cpp/src/binary.cpp:20-110 | Decoding an encoding gives the bytes back, from any state between two groups |
| `Base64.InvalidExactly` | external/yaml-cpp/src/binary.cpp:79-110 | Decoding fails exactly when some character is neither whitespace nor in the table |
| `Base64.WhitespaceIsIgnoredExactly` | external/yaml-cpp/src/binary.cpp:88-107 | Whitespace changes nothing exactly when some character is neither whitespace nor in the table, or no padded group has whitespace right before its last symbol, where the program looks at the previous character |
| `Base64.SplitPaddingChangesTheResult` | external/yaml-cpp/src/binary.cpp:97-103 | For every byte and every whitespace character: whitespace between the two padding signs of its encoding makes the decoder return something else than the byte |
| `Base64.SplitPaddingOfA` | external/yaml-cpp/src/binary.cpp:97-103 | The text QQ= =, with a blank between the padding signs, decodes to other bytes than QQ== does |
| `Base64.RoundTrip` | external/yaml-cpp/src/binary.cpp:20-110 | Decoding an encoding with any whitespace inserted between its groups gives the bytes back |
| `Base64.EncodeOfDecodeExactly` | external/yaml-cpp/src/binary.cpp:79-110 | Encoding what a text decodes to gives the text back exactly when it is canonical: whole groups of symbols, padding only at the end, spare bits zero |
| `Base64.EncodeBase64` | external/yaml-cpp/src/binary.cpp:20-56 | The writes through the output position stay inside a buffer of 4n/3+3 bytes and leave the specified encoding |
| `Base64.PutRemainder` | external/yaml-cpp/src/binary.cpp:40-53 | The last group with its padding |
| `Base64.DecodeBase64` | external/yaml-cpp/src/binary.cpp:79-110 | The writes stay inside a buffer of 3m/4+1 bytes and leave the specified bytes, or nothing for invalid text |
| `Base64.PutRelease` | external/yaml-cpp/src/binary.cpp:97-103 | One, two or three bytes of a finished group, by its padding |
| `Base64.SymbolsAreTheAlphabet` | external/yaml-cpp/src/binary.cpp:17-18 | The symbols of the digits 0 to 63 are the alphabet of section 4 of RFC 4648 |
| `Base64.GroupIsNumber` | external/yaml-cpp/src/binary.cpp:31-36 | The four digits of three bytes are those of the number the bytes make up |
| `Base64.GroupsInOrder` | external/yaml-cpp/src/binary.cpp:31-36 | Group number k of the text stands for bytes number 3k to 3k + 2 |
| `Base64.RemainderIsPadded` | external/yaml-cpp/src/binary.cpp:38-53 | One or two bytes left over are padded with zero bits, and the missing digits with the sign for it |
| `EmitterLayout.FlowSeqWrites` | external/yaml-cpp/src/emitter.cpp:339-368 | In a flow sequence a node is preceded by an opening bracket or a comma, unless its node has begun |
| `EmitterLayout.BlockSeqWrites` | external/yaml-cpp/src/emitter.cpp:370-402 | In a block sequence a node is preceded by a dash, unless its content has begun |
| `EmitterLayout.FlowMapWrites` | external/yaml-cpp/src/emitter.cpp:404-540 | In a flow map a key is preceded by a brace or comma, and by a question mark when laid out long; a value by a colon |
| `EmitterLayout.BlockMapWrites` | external/yaml-cpp/src/emitter.cpp:542-681 | In a block map a key is preceded by a question mark exactly when laid out long, a value by a colon, in each case once |
| `EmitterLayout.PrepareWrites` | external/yaml-cpp/src/emitter.cpp:289-311 | Making room for a node only decides the layout of the map entry and writes its lead; no other state changes |
| `EmitterLayout.UnmatchedOfStructural` | external/yaml-cpp/src/emitter.cpp:685-691 | Blanks, line breaks, comments and document markers never open or close a bracket |
| `EmitterSafety.PrepareOpens` | external/yaml-cpp/src/emitter.cpp:339-368 | After a preparation inside a flow group its bracket has been written, by this node or an earlier one |
| `EmitterSafety.StartedGroupInv` | external/yaml-cpp/src/emitterstate.cpp:143-168 | Starting a group keeps the stack and bracket invariants |
| `EmitterSafety.EndedGroupSound` | external/yaml-cpp/src/emitterstate.cpp:170-207 | Taking the group on top off the stack keeps the invariants or stops the emitter |
| `EmitterSafety.FlowEndSound` | external/yaml-cpp/src/emitter.cpp:216-238 | Ending a flow or empty group closes its bracket, writing both brackets when none was written yet |
| `EmitterSafety.StepSound` | external/yaml-cpp/src/emitter.cpp:164-283 | No operation breaks the invariants, and the only one that trips an assertion is ending a group before anything was written |
| `EmitterSafety.BracketsOfEveryRun` | external/yaml-cpp/src/emitter.cpp:206-273 | In every run that is good the brackets written and not closed are those of the flow groups on the stack with a child or a begun node, innermost last |
| `EmitterSafety.CompleteRunIsNested` | external/yaml-cpp/src/emitter.cpp:206-273 | A run that ends good with no group open has written properly nested brackets |
| `EmitterSafety.StackOfEveryRun` | external/yaml-cpp/src/emitterstate.cpp:143-243 | In every run that is good the indent is the sum of the indents below the top, no indent subtraction underflows, and flow groups contain only flow groups |
| `EmitterSafety.TripsExactly` | external/yaml-cpp/src/emitterstate.cpp:84-91 | An assertion fails in a run exactly when some call ends a group on an empty stack before any document; the assertions on block children in flow groups are unreachable |
| `EmitterTree.TreeEmitted` | external/yaml-cpp/src/emitter.cpp:206-273 | Emitting a tree between two nodes counts exactly one node, leaves every other field as it was, and writes its lead and its print |
| `EmitterTree.GroupEnded` | external/yaml-cpp/src/emitterstate.cpp:170-207 | Ending a group returns indent, settings and flags to those before its start |
| `EmitterTree.GloballySet` | external/yaml-cpp/src/setting.h:68-72 | Global settings changed between nodes survive every restoration of local ones |
| `EmitterTree.EmitterPrints` | external/yaml-cpp/src/emitter.cpp:206-273 | For all trees and global settings the emitter stays good, closes every group, and its output, without blanks and line breaks, is exactly what a compositional printer gives |
| `EmitterTree.ReadOfPrint` | external/yaml-cpp/src/emitter.cpp:339-540 | A reader of the flow structure gets back any tree printed in flow layout, in every key format and whatever follows |
| `EmitterTree.FlowOutputReadsBack` | external/yaml-cpp/src/emitter.cpp:339-540 | With flow settings the structure of the output determines every document the emitter was called with |
| `EmitterText.PrepareText` | external/yaml-cpp/src/emitter.cpp:289-681 | Making room for a node, or for the first anchor or tag of one, writes exactly the blanks, line breaks and marks that its group, its place in it, the layout of the entry and the column ask for |
| `EmitterText.TreeText` | external/yaml-cpp/src/emitter.cpp:206-273 | Emitting a tree between two nodes adds to the output its lead and its text, token by token |
| `EmitterText.OutputIsText` | external/yaml-cpp/src/emitter.cpp:206-273 | For all trees and global settings the whole output, with every blank, line break and document marker, is what a compositional printer gives that knows only columns |
| `EmitterText.AfterIsColumn` | external/yaml-cpp/src/ostream_wrapper.cpp:63-72 | The columns the printer counts are those of the output |
| `EmitterLabels.OutputIsSpelled` | external/yaml-cpp/src/emitter.cpp:164-273 | For all nodes with anchors and tags in either order, all aliases, and all calls that begin and end documents, under all global settings: the whole output, with every blank, line break and marker, is what a compositional printer gives that knows only columns; the blank between an anchor or tag and its node, and between an alias that is a key and its colon, among them |
| `EmitterLabels.AllWrittenExactly` | external/yaml-cpp/src/emitter.cpp:313-318 | Such a run goes well exactly when no document but the first has an anchor or a tag at its root |
| `EmitterLabels.BranchText` | external/yaml-cpp/src/emitter.cpp:289-691 | Emitting a node with its anchor and tag between two others adds exactly its front and its text to the output, and counts one node |
| `EmitterLabels.LaterText` | external/yaml-cpp/src/emitter.cpp:289-691 | Behind an anchor or tag of the same node it writes no mark, and exactly the blank and the indent, or the line break for a block group, that the group and the layout of the entry ask for |
| `EmitterLabels.LabelsStandApart` | external/yaml-cpp/src/emitter.cpp:685-691 | Between an anchor or tag and what follows in its node there is a blank or a line break, unless the anchor or tag ended its line |
| `EmitterLabels.AliasesStandApartExactly` | external/yaml-cpp/src/emitter.cpp:452-540 | Between an alias that is a key and its colon there is a blank or a line break, exactly but for long entries in flow layout, where the colon follows at once |
| `EmitterRuns.TextsInOrder` | external/yaml-cpp/src/emitter.cpp:729-956 | Every run that is good has written each scalar, alias, anchor, tag and comment it was given, once and in the order of the calls, and no other text |
| `EmitterRuns.KeptApart` | external/yaml-cpp/src/emitter.cpp:289-691 | In every run that is good: no text and no bracket stands directly behind a text on its line, no mark and no text stands inside a comment, and a comment behind anything on its line has two blanks before it |
| `EmitterRuns.ColumnOfEveryRun` | external/yaml-cpp/src/ostream_wrapper.cpp:63-72 | In every run that is good the column the emitter goes by is the number of characters behind the last line break it has written |
| `EmitterRuns.StepSays` | external/yaml-cpp/src/emitter.cpp:164-283 | Every operation keeps what that needs |
| `EmitterSeparators.OneSeparatorEach` | external/yaml-cpp/src/emitter.cpp:339-681 | A run that is good and has ended every group has written exactly one dash for each item of a block sequence, one comma for each later item and entry in flow layout, one colon for each value, whatever comments, line breaks, anchors and tags come in between; and one more for each flow group that ends behind a comment or line break where it had begun a node |
| `EmitterSeparators.StepBalances` | external/yaml-cpp/src/emitter.cpp:339-681 | Each call adds to the separators written and still pending what it accounts for |
| `EmitterSettings.RunStopsExactly` | external/yaml-cpp/src/emitter.cpp:164-273 | A run goes wrong exactly at its first call that is not allowed: a document marker or the end of a group of another kind inside a group, either behind an anchor or tag without node, an alias behind them, a second anchor or tag, an invalid name, or a node or property behind a property of a later document |
| `EmitterSettings.LastGlobalDecides` | external/yaml-cpp/src/emitterstate.cpp:339-395 | Of the global calls for a setting the last one decides |
| `EmitterSettings.DefaultsStay` | external/yaml-cpp/src/emitterstate.cpp:18-48 | A setting without a call is that of a new emitter: block layout, short keys, two columns |
| `EmitterSettings.LocalFlowDecides` | external/yaml-cpp/src/emitterstate.cpp:365-385 | A local layout is that of the next group of either kind, unless it stands inside a flow group |
| `EmitterSettings.LocalIndentDecides` | external/yaml-cpp/src/emitterstate.cpp:339-345 | A local width is that of the next group |
| `EmitterSettings.LocalLastsOneScalar` | external/yaml-cpp/src/emitterstate.cpp:138-141 | A local setting lasts for one scalar: after it all settings are as before |
| `EmitterScopes.InForceExactly` | external/yaml-cpp/src/emitterstate.cpp:138-207 | Behind every good run every setting has exactly the value the calls give it by four rules: a global call chooses for good, a local one until its node is over, a group keeps what was waiting when it began, its end takes that back and then puts the last global value in force |
| `EmitterScopes.SettingsReturn` | external/yaml-cpp/src/emitterstate.cpp:195-203 | Between documents a setting is what the last global call for it asked for, wherever that call stood, and otherwise that of a new emitter; runs in which no local call is crossed before its node |
| `EmitterScopes.EndGivesGlobal` | external/yaml-cpp/src/emitterstate.cpp:199-201 | Once a setting was set globally the end of any group puts that value in force, even inside a group that was begun behind a local call asking for another |
| `EmitterScopes.LocalLeaks` | external/yaml-cpp/src/emitterstate.cpp:203-203 | A local call right in front of the end of a group carries the value from inside the group out of it, for every good run |
| `BlockReader.TextKept` | external/yaml-cpp/src/emitter.cpp:289-681 | The marks of that text are those of the printer of the structure |
| `BlockReader.TextReads` | external/yaml-cpp/src/emitter.cpp:370-402 | A reader that goes by the columns of dashes, question marks, colons and keys gets back any readable tree from its text, in every mix of block and flow layout, wherever it starts and whatever follows further out |
| `BlockReader.MapReads` | external/yaml-cpp/src/emitter.cpp:542-681 | The same for the entries of a block map: question marks and their colons in the column of the map, simple keys in that column with their colons on the line |
| `BlockReader.DocumentsComeBackExactly` | external/yaml-cpp/src/emitter.cpp:313-318 | The text of readable documents comes back exactly when each but the last ends behind the start of a line; after one that ends at it no marker is written |
| `BlockReader.OutputReadsBackExactly` | external/yaml-cpp/src/emitter.cpp:206-273 | Under all global settings, block layout being the default: reading the output gives back the readable trees the emitter was called with exactly when the documents are so separated |
| `BlockReader.EmptyKeyIsMisread` | external/yaml-cpp/src/emitter.cpp:216-273 | A map whose first key is an empty flow group as a simple key cannot be read back once it has further entries, which stand further out |
| `BlockReader.KeyAloneIsLost` | external/yaml-cpp/src/emitter.cpp:627-656 | A map with a simple key and no value reads as the key alone |
| `EmitterKeys.KeyDecides` | external/yaml-cpp/src/emitter.cpp:542-561 | Writing a key fixes the layout of the whole entry: the long form if asked for by the settings, by the text, or in block layout by a block group or a property |
| `EmitterKeys.StretchUndisturbed` | external/yaml-cpp/src/emitterstate.cpp:93-107 | While a map waits for a value, no stretch of calls, however nested, changes the layout of the entry |
| `EmitterKeys.ValueLaidOutLikeKey` | external/yaml-cpp/src/emitter.cpp:542-561 | A map value is laid out in the long form exactly when its key was |
| `EmitterKeys.RestoreGivesLastSaved` | external/yaml-cpp/src/setting.h:91-99 | Restoring pending changes oldest first leaves a setting at the value saved by its last change |
| `EmitterKeys.LocalSettingIsUndoneExactly` | external/yaml-cpp/src/setting.h:91-99 | A local setting is undone exactly when its first and last pending change saved the same value |
| `EmitterKeys.IndentSetTwiceStays` | external/yaml-cpp/src/emitterstate.cpp:339-345 | An indent set twice locally for one scalar stays changed after it |
| `EmitterKeys.FlowScalarKeyWrites` | external/yaml-cpp/src/emitter.cpp:404-450 | A scalar key of a flow map is laid out as asked for, and the call writes the question mark of the long form only when no anchor, tag, comment or line break of that key came before |
| `EmitterMarks.FlowMarkMissingExactly` | external/yaml-cpp/src/emitter.cpp:404-450 | For every stretch of comments, line breaks, properties and settings in front of a key of a flow map, and every key: the entry is laid out long with its question mark missing from the output exactly when the key finds or asks for the long form and something of it was written while the layout was not long |
| `EmitterMarks.FlowMarkMissingByCalls` | external/yaml-cpp/src/emitter.cpp:404-450 | The same over the calls alone, for an entry whose layout is open: the question mark is missing exactly when the first call of the entry that writes finds long keys not set, and the key asks for the long form or finds it set, or a writing call in between found it set |
| `EmitterMarks.BlockMarkNeverMissing` | external/yaml-cpp/src/emitter.cpp:542-596 | In a block map no entry laid out long misses its question mark |
| `EmitterMarks.CommentHidesTheMark` | external/yaml-cpp/src/emitter.cpp:404-450 | At any key of a flow map without long keys set, a comment in front of a long scalar hides the question mark |
| `EmitterMarks.MarkMissed` | external/yaml-cpp/src/emitter.cpp:404-450 | A run of four calls on a new emitter that misses it |
| `EmitterMarks.BesideStep` | external/yaml-cpp/src/emitter.cpp:890-956 | A comment, line break, anchor or tag in front of a key decides the layout of the entry, keeps the rest of its group, and writes the lead unless one was written |
| `EmitterColumns.BlockMarksStand` | external/yaml-cpp/src/emitter.cpp:370-402 | In every run that is good, whenever a block group is on top: every dash, question mark and colon of a long key written for its next node, property or comment stands in the column that is the sum of the indents around the group, counted in the output itself, and the room made for a simple key ends there |
| `EmitterColumns.FlowKeyStandsExactly` | external/yaml-cpp/src/emitter.cpp:216-273 | In every such run the bracket of a flow group as a simple key of a block map stands in that column exactly when the group gets something to hold; the brackets of an empty one stand one indent further in, where the marks of a group nested in the map stand |
| `EmitterColumns.BlockPrepared` | external/yaml-cpp/src/emitter.cpp:563-681 | The same for one preparation, in every state whose line has not passed that column; a block group started by it finds the column of its own marks not passed |
| `EmitterColumns.StepColumns` | external/yaml-cpp/src/emitter.cpp:164-283 | Every operation keeps what that needs: the column kept by the stream is that of the output, indents of open and restored settings are at least two, properties of block keys make them long, nothing passes the column of a block group before its first mark |
| `EmitterColumns.RestoreWide` | external/yaml-cpp/src/setting.h:91-99 | Restoring pending changes never leaves an indent below two |
| `EmitterKeys.PropertyOfLaterDocument` | external/yaml-cpp/src/emitter.cpp:313-318 | After an anchor or tag in front of a later document the node itself is an error exactly when something stands on its line |
| `EmitterClass.Emitter.StartedNode` | external/yaml-cpp/src/emitterstate.cpp:93-107 | Counts a node, clears the flags, ends a long entry after its value, as the state machine specifies it, from every state |
| `EmitterClass.Emitter.RestoreAll` | external/yaml-cpp/src/setting.h:96-99 | The loop that pops changes, oldest first, as the state machine specifies it, from every state |
| `EmitterClass.Emitter.StartedGroup` | external/yaml-cpp/src/emitterstate.cpp:143-168 | Pushes a group that takes over the pending local changes, as the state machine specifies it, from every state |
| `EmitterClass.Emitter.EndedGroup` | external/yaml-cpp/src/emitterstate.cpp:170-207 | Pops a group with all its error cases, as the state machine specifies it, from every state |
| `EmitterClass.Emitter.PrepareNode` | external/yaml-cpp/src/emitter.cpp:289-311 | Dispatch on the group on top, as the state machine specifies it, from every state |
| `EmitterClass.Emitter.EmitBeginDoc` | external/yaml-cpp/src/emitter.cpp:164-183 | Document start with its errors, as the state machine specifies it, from every state |
| `EmitterClass.Emitter.EmitEndDoc` | external/yaml-cpp/src/emitter.cpp:186-203 | Document end with its errors, as the state machine specifies it, from every state |
| `EmitterClass.Emitter.EmitBeginGroup` | external/yaml-cpp/src/emitter.cpp:206-248 | Start of a sequence or map, as the state machine specifies it, from every state |
| `EmitterClass.Emitter.EmitEndGroup` | external/yaml-cpp/src/emitter.cpp:216-273 | End of a sequence or map, as the state machine specifies it, from every state |
| `EmitterClass.Emitter.EmitNewline` | external/yaml-cpp/src/emitter.cpp:276-283 | A line break, as the state machine specifies it, from every state |
| `EmitterClass.Emitter.EmitScalar` | external/yaml-cpp/src/emitter.cpp:729-763 | A scalar, long ones with a local long-key format, as the state machine specifies it, from every state |
| `EmitterClass.Emitter.EmitAlias` | external/yaml-cpp/src/emitter.cpp:867-888 | An alias with its errors, as the state machine specifies it, from every state |
| `EmitterClass.Emitter.EmitAnchor` | external/yaml-cpp/src/emitter.cpp:890-909 | An anchor with its errors, as the state machine specifies it, from every state |
| `EmitterClass.Emitter.EmitTag` | external/yaml-cpp/src/emitter.cpp:911-938 | A tag with its errors, as the state machine specifies it, from every state |
| `EmitterClass.Emitter.EmitComment` | external/yaml-cpp/src/emitter.cpp:942-956 | A comment, as the state machine specifies it, from every state |
| `EmitterClass.EmitAll` | external/yaml-cpp/src/emitter.cpp:108-148 | Any sequence of calls on a new emitter ends in the state of the run the theorems speak about |
| `Retrieval.MergedTopK` | src/core/retrieval.cpp:456-502 | Merging the top-k of two sets and taking the top-k of that is a top-k of the union, for any sets and any limit |
| `Retrieval.SearchMerges` | src/core/retrieval.cpp:463-499 | For two stores that agree on common ids, merge, removal of duplicates, sort and cut give a top-k of both stores taken together |
| `Retrieval.EveryHistory` | src/core/retrieval.cpp:395-422 | After any additions of named documents and deletions each store in use holds exactly the documents that are left, under their ids, with their embeddings |
| `Retrieval.SearchAnswers` | src/core/retrieval.cpp:456-502 | In all those states a search gives min(limit, matches) documents with distinct ids, best first, and leaves out none that scores above one it gives |
| `Retrieval.StoredTwiceExactly` | src/core/retrieval.cpp:395-422 | After any history of named documents: a document added then is stored under two ids exactly when it has no id of its own and both stores are in use |
| `Retrieval.FoundTwiceExactly` | src/core/retrieval.cpp:456-502 | And a search that it matches and that has room for all matches finds it twice exactly then |
| `Retrieval.AgreeAfterAdd` | src/core/retrieval.cpp:395-422 | The stores still agree after such an addition, so that a search of the manager answers for both |
| `Retrieval.AddThenSearch` | src/core/retrieval.cpp:395-502 | An addition to a manager with named documents, and a search of the same manager that the document matches: a top-k of both stores, which holds the document twice exactly when it has no id of its own and both stores are in use, provided there is room for all matches |
| `StoreInterleavings.LastDecides` | src/core/retrieval.cpp:395-452 | Whatever the interleaving of additions and deletions, what a store holds under an id is what the last of them on that id has left at that store |
| `StoreInterleavings.AgreeExactly` | src/core/retrieval.cpp:395-452 | Stores that were equal agree after any interleaving, also of operations on their way from one store to the other, exactly when for no id the last operations at the two stores leave two different documents; they are equal exactly when the two leave the same for every id |
| `StoreInterleavings.EqualExactly` | src/core/retrieval.cpp:395-452 | When all operations have been at both stores, the stores are equal exactly when for every id the same operation came last at both |
| `StoreInterleavings.DifferentIdsDoNotClash` | src/core/retrieval.cpp:424-452 | Operations with different ids may run at the same time, as in a batch: the stores come out equal, and the same in every order |
| `StoreInterleavings.SerialIsHistory` | src/core/retrieval.cpp:395-422 | An operation that nobody overtakes does to both stores what one request of a history does |
| `StoreInterleavings.CrossedAdditions` | src/core/retrieval.cpp:395-422 | Two additions of different documents under one id, the second overtaking the first between the stores, leave stores that disagree |
| `Retrieval.EntriesAreEmbedded` | src/core/retrieval.cpp:401-413 | In every history, with or without names, every entry holds the embedding of its document |
| `Retrieval.RankAndCut` | src/core/retrieval.cpp:161-170 | Sorting and cutting off gives a top-k |
| `Retrieval.Collect` | src/core/retrieval.cpp:149-159 | The hits are all entries that reach the threshold, once each |
| `Retrieval.RemoveDuplicates` | src/core/retrieval.cpp:474-486 | Keeps exactly the first hit of each id: ids are distinct, every id stays represented, and nothing is lost where hits of one id agree |
| `Retrieval.QdrantVectorStore.AddDocument` | src/core/retrieval.cpp:116-138 | Stores the embedding under the id or a new identifier; nothing when not connected |
| `Retrieval.QdrantVectorStore.Search` | src/core/retrieval.cpp:140-173 | A top-k of the matches; nothing when not connected |
| `Retrieval.QdrantVectorStore.DeleteDocument` | src/core/retrieval.cpp:175-180 | Removes the entry and tells whether there was one |
| `Retrieval.FAISSVectorStore.AddDocument` | src/core/retrieval.cpp:262-277 | Stores document and embedding under the id or a new identifier |
| `Retrieval.FAISSVectorStore.Search` | src/core/retrieval.cpp:279-311 | A top-k of the matches; nothing when not initialised |
| `Retrieval.FAISSVectorStore.DeleteDocument` | src/core/retrieval.cpp:313-318 | Removes document and embedding together |
| `Retrieval.RetrievalManager.Initialize` | src/core/retrieval.cpp:364-393 | Starts with the stores its configuration names, both empty |
| `Retrieval.RetrievalManager.AddDocument` | src/core/retrieval.cpp:395-422 | Adds to the stores in use and the cache, and returns the id |
| `Retrieval.RetrievalManager.DeleteDocument` | src/core/retrieval.cpp:545-567 | Deletes from the stores in use and the cache; succeeds unless the first store is in use and lacks the id |
| `Retrieval.RetrievalManager.Search` | src/core/retrieval.cpp:456-502 | The search of the manager gives a top-k of the union of the stores whenever they agree, and of the remaining documents when all were named |
| `Conditions.AndMeans` | src/workflows/workflow_types.cpp:899-906 | A conjunction is true exactly when all parts are; otherwise it has the value, false or an error, of the first part that is not true |
| `Conditions.OrMeans` | src/workflows/workflow_types.cpp:909-916 | A disjunction is false exactly when all parts are; otherwise it has the value of the first part that is not false |
| `Conditions.EvaluateIsSatisfied` | src/workflows/workflow_types.cpp:839-924 | On every nested condition whose fields and operators are strings, evaluation agrees with a reading that knows neither the evaluator nor its helpers: for-all and exists for the connectives, keys whose join with dots is the path, order, equality and occurrence for the operators |
| `Conditions.SimpleMeans` | src/workflows/workflow_types.cpp:851-894 | A simple condition holds exactly when there are nested keys that the path names, up to a final dot, and the value under them meets the operator: equality, order of numbers, occurrence in a string |
| `Conditions.PartsAreNamed` | src/workflows/workflow_types.cpp:857-862 | A path is split into the keys that it names |
| `Conditions.NamedAreParts` | src/workflows/workflow_types.cpp:857-862 | No other keys are named by it |
| `Conditions.IllTypedIsError` | src/workflows/workflow_types.cpp:851-853 | A simple condition is an error exactly when its field or its operator is no string |
| `Conditions.Monotone` | src/workflows/workflow_types.cpp:839-924 | Adding fresh top-level keys never turns a true condition on non-empty paths into a false one; it may become an error behind an "or" |
| `Conditions.WellTypedMonotone` | src/workflows/workflow_types.cpp:839-924 | It stays true when fields and operators are strings |
| `Conditions.EmptyPathSteadyExactly` | src/workflows/workflow_types.cpp:856-875 | A condition on the whole context is monotone exactly when it does not compare it with an object by "equals", or with a non-empty one by "not_equals" |
| `Conditions.LookupStays` | src/workflows/workflow_types.cpp:862-871 | A non-empty path found in a context leads to the same value in every extension |
| `Templates.ResolveString` | src/workflows/workflow_types.cpp:946-962 | The loop on a string, cut off after a number of rounds, computes the specified text; with harmless texts that is the one-pass substitution |
| `Templates.RoundsArePass` | src/workflows/workflow_types.cpp:949-961 | From any scan position the loop does one pass over the rest, in at most one round per double open brace there |
| `Templates.ResolveIsPass` | src/workflows/workflow_types.cpp:945-962 | For every template: when every bound text is harmless the loop ends and equals the one-pass substitution |
| `Templates.OnePassExactly` | src/workflows/workflow_types.cpp:945-962 | For contexts with brace-free names: the loop gives the one-pass text of every template within one round per double open brace exactly when all bound texts are harmless; for some other texts only that number of rounds fails |
| `TemplatePass.ComesOutExactly` | src/workflows/workflow_types.cpp:945-962 | In the same contexts, with as many rounds as it takes: the loop turns every string into what one pass makes of it exactly when no bound text is empty and, behind its first character, none begins, whatever may follow it, a template that is bound to something else than itself |
| `TemplatePass.QuietComesOut` | src/workflows/workflow_types.cpp:949-961 | Under that condition, from any point of the scan on, the loop ends with what one pass makes of the rest |
| `TemplatePass.HarmlessIsQuiet` | src/workflows/workflow_types.cpp:945-962 | The condition for one round per double open brace implies the one for any number of rounds |
| `TemplatePass.PassMeans` | src/workflows/workflow_types.cpp:945-962 | One pass fills in every bound field of a string, whatever text without open braces stands between the fields, and leaves all the rest, fields without a value included |
| `TemplatePass.ParameterFilled` | src/workflows/workflow_types.cpp:926-978 | From the context to the parameter: when every field shows as harmless text, a string comes out with exactly its bound fields filled in, strings as they are and other values by their dump |
| `TemplatePass.PassedEverywhere` | src/workflows/workflow_types.cpp:963-971 | Strings are filled in at the end of every path into the parameters, and nothing else is touched |
| `Templates.UnclosedBraceTakesTwoRounds` | src/workflows/workflow_types.cpp:945-962 | A text with one double open brace that is never closed is not harmless, takes two rounds for one template, and still comes out as one pass leaves it |
| `Templates.EmptyTextSkips` | src/workflows/workflow_types.cpp:957-960 | A template directly behind one whose text is empty is left as it is, whatever its field, for any number of rounds |
| `Templates.SelfMentionNeverEnds` | src/workflows/workflow_types.cpp:949-961 | A text that mentions its own field behind a first character, with no open brace before the mention, keeps the loop going from its template on, for any number of rounds and whatever stands around it |
| `Templates.SelfMentionIsNeverResolved` | src/workflows/workflow_types.cpp:946-962 | No string that comes to such a template first is ever resolved |
| `Templates.SelfMentionExactly` | src/workflows/workflow_types.cpp:946-962 | With one mention and no other open braces the loop goes on for ever exactly when the mention is not at the very start of the text |
| `Templates.ShapeStays` | src/workflows/workflow_types.cpp:942-975 | Whenever the loop over all strings finishes, keys, lengths and kinds of values at every depth are kept; values without double open braces come out unchanged |
| `Templates.ValueIsPassed` | src/workflows/workflow_types.cpp:942-975 | With harmless texts and enough rounds it finishes, with every template at every depth replaced as by one pass |
| `Templates.SelfMentionKeepsParameters` | src/workflows/workflow_types.cpp:942-975 | One string that comes to a field mentioning itself keeps the whole parameters from ever being resolved |
| `Templates.ParametersResolved` | src/workflows/workflow_types.cpp:926-978 | A list of names becomes an object with nothing under exactly those names; other parameters keep their shape whenever the loop finishes, and with harmless texts it finishes with every template replaced |
| `Retry.ExecuteStepWithRetry` | src/workflows/workflow_types.cpp:610-661 | The step is tried until its first success or max_retries + 1 times, with the specified waits in between; never for a negative number |
| `Retry.LaterDelaysAreCapped` | src/workflows/workflow_types.cpp:654-655 | Every wait after the first is at most the cap |
| `Retry.TotalSleep` | src/workflows/workflow_types.cpp:652-656 | All n waits together are at most the first one plus n - 1 times the cap |
| `Retry.DelaysDoNotShrink` | src/workflows/workflow_types.cpp:652-656 | With a multiplier of at least one and a first wait within the cap the waits never shrink |
| `Retry.DelayIsGeometric` | src/workflows/workflow_types.cpp:652-656 | Wait k is at most the first one times the multiplier to the k |
| `Retry.CapIsReachedForGood` | src/workflows/workflow_types.cpp:652-656 | Once a wait is the cap all later ones are |
| `Retry.DelayExactly` | src/workflows/workflow_types.cpp:652-656 | Every later wait is the one before it times the multiplier without its fraction, or the cap where that is less |
| `Retry.DelayIsCappedPower` | src/workflows/workflow_types.cpp:652-656 | With a whole multiplier the waits are the first one times its powers, each cut at the cap |
| `Sequential.DependenciesFirst` | src/workflows/workflow_types.cpp:397-441 | In every run, however disturbed, each dependency of a submitted step was submitted before by a strictly earlier step |
| `Sequential.CompletedExactly` | src/workflows/workflow_types.cpp:397-441 | An undisturbed run completes exactly when every non-optional step has its dependencies among the steps submitted before and, unless partial failure is allowed, succeeds; otherwise it fails |
| `Sequential.ForwardDependencyFails` | src/workflows/workflow_types.cpp:408-424 | A forward or cyclic dependency of a non-optional step fails an undisturbed run |
| `Sequential.PauseStopsSubmission` | src/workflows/workflow_types.cpp:402-404 | A pause or cancellation in place when the engine looks at a step keeps it and all later ones from being submitted |
| `Sequential.FinalStateExactly` | src/workflows/workflow_types.cpp:397-441 | For every world of interference: a run ends in a state exactly when some step, or the end behind the last, is reached over steps that pass and the run ends there in that state: it is what another thread wrote last if that is not running, failed at a step that may not fail, and completed at the end |
| `Sequential.CompletedOnlyThen` | src/workflows/workflow_types.cpp:438-441 | A run ends completed exactly when every step was looked at while running and passed and the state seen at the end is running, or when another thread wrote completed before a look |
| `Sequential.FailureOverwrites` | src/workflows/workflow_types.cpp:408-432 | A step that fails for good writes failed over whatever another thread wrote while it was at work, a cancellation too |
| `Sequential.SubmittedExactly` | src/workflows/workflow_types.cpp:397-441 | The steps submitted are exactly those with their dependencies met among the steps worked through |
| `Sequential.TriesAre` | src/workflows/workflow_types.cpp:613-657 | The tries of a step end with its first success, and never pass the number its policy allows |
| `Sequential.FailedTriesAre` | src/workflows/workflow_types.cpp:601-661 | A step that fails has used up the retries of its own policy, or of the default where it has none |
| `Sequential.LastRequestIs` | src/workflows/workflow_types.cpp:595-661 | The request recorded for a step is the one submitted last |
| `Sequential.WorkflowExecution.ExecuteStep` | src/workflows/workflow_types.cpp:595-661 | The tries of a step record the last request submitted, and tell whether one of them succeeded |
| `Sequential.WorkflowExecution.ExecuteSequential` | src/workflows/workflow_types.cpp:397-441 | The loop of the engine computes the specified run under any interference |
| `Sequential.WorkflowExecution.DependenciesHere` | src/workflows/workflow_types.cpp:408-415 | Whether every dependency has a result |
| `Conditional.RunsWhereConditionsHold` | src/workflows/workflow_types.cpp:483-513 | In every run of every workflow, however disturbed, the engine looks at one step after the other in list order, each in the initial context with the outputs of the steps run so far, and runs exactly those whose condition holds there |
| `Conditional.FinalStateExactly` | src/workflows/workflow_types.cpp:483-513 | For every world of interference: a run ends in a state exactly when some step, or the end, is reached over steps that pass and the run ends there in that state; what it looked at, what it ran and the context it leaves are then those of the steps worked through |
| `Conditional.FailureOverwrites` | src/workflows/workflow_types.cpp:494-505 | A step that fails for good, or whose condition is ill-typed, writes failed over whatever another thread wrote before |
| `Conditional.ContextsGrowExactly` | src/workflows/workflow_types.cpp:793-798 | Each context it looks in extends all earlier ones exactly when no step run before the last look puts another value in the place of one in the context |
| `Conditional.FreshOutputsGrow` | src/workflows/workflow_types.cpp:793-798 | That is so when steps have ids of their own and the initial context has none of their output keys |
| `Conditional.LaterStepsRunToo` | src/workflows/workflow_types.cpp:494-497 | A condition from "and" and "or" on non-empty paths that let a step run lets every later step with the same condition run, unless a step in between wrote over a value |
| `Conditional.LoadedWorkflowSkipsNothing` | src/workflows/workflow_types.cpp:1516-1526 | A workflow that was saved and loaded again from its file has lost its conditions: its runs skip no step |
| `Conditional.WorkflowExecution.ExecuteConditional` | src/workflows/workflow_types.cpp:483-513 | The loop of the engine computes the specified run under any interference |
| `Conditional.WorkflowExecution.KeepOutput` | src/workflows/workflow_types.cpp:793-798 | The output left by a try that completed is kept in the context under the key of the step, also when the step is given up for taking too long |
| `Requests.DropKeepsNewest` | src/workflows/workflow_manager.cpp:506-529 | Dropping the oldest leaves as many as it should, and no survivor is older than a dropped request |
| `Requests.TrimmedIsBounded` | src/workflows/workflow_manager.cpp:491-529 | After a move the history is within its limit; an eviction leaves exactly four fifths, rounded down, the newest ones |
| `Requests.StepValid` | src/workflows/workflow_manager.cpp:84-137 | Every critical section, of submitters, workers and clients, keeps all invariants |
| `Requests.TerminalIsAbsorbing` | src/workflows/workflow_manager.cpp:346-451 | Under every interleaving completed, failed, timed-out and cancelled are final |
| `Requests.ReachableStates` | src/workflows/workflow_manager.cpp:318-529 | In every reachable state no request was dequeued twice, the counters equal the numbers of requests in those states, the history is bounded, no returned submission is lost, and the queue is at most limit - 1 + submitters long |
| `Requests.QueueBoundIsReached` | src/workflows/workflow_manager.cpp:95-120 | That bound is tight for every limit of at least one and any number of submitters |
| `Requests.StuckForEver` | src/workflows/workflow_manager.cpp:115-126 | A request entered into the active map after its worker moved it never leaves it |
| `Requests.InsertedTooLateExactly` | src/workflows/workflow_manager.cpp:115-126 | A submission leaves its request stuck there exactly when the worker laid it down before |
| `Requests.StuckIsReached` | src/workflows/workflow_manager.cpp:115-126 | A run from the start that leaves a finished request stuck, for all limits that admit a request |
| `Requests.MoveLeavesActive` | src/workflows/workflow_manager.cpp:491-504 | The move of a worker takes a request out of the active map and into the history, or evicts it |
| `RequestRuns.QueueIsInOrder` | src/workflows/workflow_manager.cpp:115-120 | In every run the requests taken by workers, in order, and then those still in the queue are exactly the requests pushed, in the order in which they were pushed |
| `RequestRuns.TakenExactly` | src/workflows/workflow_manager.cpp:322-338 | The n-th request pushed has been taken exactly when workers took n requests or more |
| `RequestRuns.EarlierPushedEarlierTaken` | src/workflows/workflow_manager.cpp:322-338 | When a request has been taken, so have all that were pushed before it |
| `RequestRuns.RecordsAgree` | src/workflows/workflow_manager.cpp:318-504 | In every run the state of every request is what the actions say that took effect on it: pending, processing, cancelled, completed when its call returned, failed when it threw, timed out when the wait expired; in the active map, in the history, or neither |
| `RequestRuns.NewestAreKept` | src/workflows/workflow_manager.cpp:506-529 | Whenever the history loses requests, by a move or a cleanup, it keeps the stated number, and those kept were pushed later than those lost, by the times given to the pushes |
| `RequestManagers.RequestManager.CheckQueue` | src/workflows/workflow_manager.cpp:95-101 | Capacity check of a submission, changing the state as the specified step does and nothing else |
| `RequestManagers.RequestManager.PushRequest` | src/workflows/workflow_manager.cpp:115-120 | Creation and push, changing the state as the specified step does and nothing else |
| `RequestManagers.RequestManager.InsertActive` | src/workflows/workflow_manager.cpp:122-126 | Entry into the active map, changing the state as the specified step does and nothing else |
| `RequestManagers.RequestManager.TakeRequest` | src/workflows/workflow_manager.cpp:322-338 | A worker takes the front of the queue, changing the state as the specified step does and nothing else |
| `RequestManagers.RequestManager.StartProcessing` | src/workflows/workflow_manager.cpp:346-353 | Processing unless cancelled, changing the state as the specified step does and nothing else |
| `RequestManagers.RequestManager.RecordOutcome` | src/workflows/workflow_manager.cpp:416-450 | The outcome and its counter unless cancelled, changing the state as the specified step does and nothing else |
| `RequestManagers.RequestManager.MoveToCompleted` | src/workflows/workflow_manager.cpp:491-504 | Active to completed, with the trim, changing the state as the specified step does and nothing else |
| `RequestManagers.RequestManager.MarkCancelled` | src/workflows/workflow_manager.cpp:176-186 | Cancellation of a pending or processing request, changing the state as the specified step does and nothing else |
| `RequestManagers.SortByAge` | src/workflows/workflow_manager.cpp:515-522 | All ids of the history, oldest first, ties by id |
| `RequestManagers.RequestManager.CleanupOldRequests` | src/workflows/workflow_manager.cpp:506-529 | The removal loop leaves the specified newest requests |
| `RequestManagers.RequestManager.CancelRequest` | src/workflows/workflow_manager.cpp:173-195 | Both sections of a cancellation, and whether it took effect |
| `RequestManagers.RequestManager.SubmitRequest` | src/workflows/workflow_manager.cpp:95-126 | The three sections of a submission in a row, or the error for a full queue |
| `RequestManagers.RequestManager.ProcessNext` | src/workflows/workflow_manager.cpp:318-372 | The sections of a worker with one request in a row |
| `Executions.ExecutionsAreConserved` | src/workflows/workflow_types.cpp:207-357 | In every run the active and completed maps are disjoint and together hold every id issued, and each execution is picked at most once |
| `Executions.NeverPendingAgain` | src/workflows/workflow_types.cpp:232-263 | No step returns an execution to pending |
| `Executions.ClientsLeaveCompleted` | src/workflows/workflow_types.cpp:232-263 | Pausing, resuming and cancelling never change an execution in the completed map |
| `Executions.CompletedStays` | src/workflows/workflow_types.cpp:197-202 | An execution in the completed map stays there and keeps its state unless a waiting caller that saw it running times it out |
| `Executions.SettledForEver` | src/workflows/workflow_types.cpp:1318-1322 | In every run the state of a moved execution that is not running and was not seen running is final |
| `Executions.LateTimeout` | src/workflows/workflow_types.cpp:197-202 | A waiting caller can overwrite the state of an execution that completed between its read and its write |
| `Executions.WaitingLeavesExactly` | src/workflows/workflow_types.cpp:335-342 | An execution nobody has picked can leave the active map exactly when it is still pending; one cancelled before stays there |
| `Executions.AbandonedIsReached` | src/workflows/workflow_types.cpp:253-263 | Issuing and cancelling an execution leaves it in the active map in every continuation |
| `Executions.PausedIsNotResumed` | src/workflows/workflow_types.cpp:242-251 | A paused execution that was moved, and was not seen running by a caller whose time was up, stays paused in every run |
| `ExecutionRuns.ExecutionsAgree` | src/workflows/workflow_types.cpp:207-357 | In every run the state of each execution is the one written last by an action that took effect on it, the picked ones are in the order of the picks, and those in the completed map were moved |
| `ExecutionRuns.ClientsTakeExactly` | src/workflows/workflow_types.cpp:232-263 | A pause takes effect exactly on running executions, a resumption on paused ones, a cancellation on any, of those issued and not moved |
| `ExecutionRuns.ClientsWrite` | src/workflows/workflow_types.cpp:232-263 | Then the execution is paused, runs again, or is cancelled |
| `ExecutionRuns.PicksTheFirst` | src/workflows/workflow_types.cpp:335-342 | Whenever an execution is picked it is issued, not moved and pending, and has the least id of all that are |
| `ExecutionRuns.WritesFollowLooks` | src/workflows/workflow_types.cpp:197-202 | The engine writes that an execution completed exactly when it looked before, found it running and has not written since; a waiting caller times it out exactly when it did; both find it running exactly when that is the state written last |
| `Executions.WorkflowOrchestrator.ExecuteWorkflowAsync` | src/workflows/workflow_types.cpp:216-229 | A new pending execution; the whole state changes as the specified step says |
| `Executions.WorkflowOrchestrator.PauseExecution` | src/workflows/workflow_types.cpp:232-240 | Running to paused; the whole state changes as the specified step says |
| `Executions.WorkflowOrchestrator.ResumeExecution` | src/workflows/workflow_types.cpp:242-251 | Paused to running; the whole state changes as the specified step says |
| `Executions.WorkflowOrchestrator.CancelExecution` | src/workflows/workflow_types.cpp:253-263 | Any active one to cancelled; the whole state changes as the specified step says |
| `Executions.WorkflowOrchestrator.PickExecution` | src/workflows/workflow_types.cpp:335-342 | The first pending one in map order, to running; the whole state changes as the specified step says |
| `Executions.WorkflowOrchestrator.MoveToCompleted` | src/workflows/workflow_types.cpp:1318-1322 | Active to completed; the whole state changes as the specified step says |
| `AsyncService.StepValid` | src/api/service_async.cpp:190-242 | Every access of submitters, workers, clients and the cleaner, the look and the write of a cancellation among them, keeps the queue limit, the counters and the promises right |
| `AsyncService.TasksAreConserved` | include/service_async.hpp:298-329 | In every run the queue is within its limit, promises are set at most once, and submitted tasks are those registering, rejected, queued, in hand, finished (as counted) or dropped |
| `AsyncService.CancelHoldsExactly` | src/api/service_async.cpp:93-105 | The look and the write of a cancellation are two accesses, and workers and submitters write the status in between. A cancellation answered with success is final exactly when at its write the task is in the queue, was just popped, was turned away, or has been run to its end; before the push a full queue can overwrite it, past the look of the worker the run does |
| `AsyncService.CancelPreventsExactly` | src/api/service_async.cpp:93-105 | It is final and the task is never run exactly when the task is in the queue, was just popped, or was turned away at the write; in the first two cases its promise is never set |
| `AsyncService.NoLookIsSafe` | src/api/service_async.cpp:93-105 | Wherever the task is when it is found pending, there is a run in which the cancellation is answered with success and lost |
| `AsyncService.CompletedAndCancelled` | src/api/service_async.cpp:209-240 | A run from the start in which a task is run, delivers its result, is counted as completed, and has the status cancelled for ever |
| `AsyncService.TurnedAway` | include/service_async.hpp:315-325 | Other submissions can always fill the queue between the two sections of a submission, which then fails |
| `AsyncService.CancelledAndRun` | src/api/service_async.cpp:209-217 | A run from the start in which a cancellation is answered with success, and the task is run to its end and has the status completed |
| `AsyncService.CancelledAndTurnedAway` | include/service_async.hpp:315-325 | For every limit of the queue, a run from the start in which a cancelled operation fails |
| `AsyncService.CancelledRun` | src/api/service_async.cpp:209-215 | In every run: a task cancelled before the look of its worker is never run, one cancelled when all was over stays cancelled, and one past the look is never dropped |
| `AsyncRuns.PopsByPriority` | src/api/service_async.cpp:13-17 | Whenever a worker pops a task, it was submitted with a priority at least as high as that of every other task that was pushed while there was room and not popped yet |
| `AsyncRuns.TasksAgree` | include/service_async.hpp:298-325 | In every run each task has the priority it was submitted with, the status written last, and its promise set as often as it was turned away or run |
| `AsyncRuns.QueueIsWaiting` | include/service_async.hpp:315-325 | The queue holds exactly the tasks that were pushed while there was room and not popped since |
| `AsyncRuns.CountersAgree` | src/api/service_async.cpp:213-240 | The three counters are the numbers of tasks counted after a good end, of those counted after a bad one, and of cancellations answered with success |
| `AsyncRuns.CleanupForgetsExactly` | src/api/service_async.cpp:244-265 | A cleanup forgets exactly the operations that are old and whose status was last written as completed, failed or cancelled |
| `AsyncService.AsyncServiceLayer.RegisterOperation` | include/service_async.hpp:302-313 | A new pending task that can be looked up |
| `AsyncService.AsyncServiceLayer.EnqueueTask` | include/service_async.hpp:315-325 | Check and push under one lock, or rejection with the promise set |
| `AsyncService.AsyncServiceLayer.PopTask` | src/api/service_async.cpp:201-204 | A popped task has the highest priority among those queued |
| `AsyncService.AsyncServiceLayer.FindTop` | src/api/service_async.cpp:13-17 | No queued task has a higher priority than the top |
| `AsyncService.AsyncServiceLayer.ProcessTask` | src/api/service_async.cpp:209-240 | Drops a cancelled task, or runs it, sets its promise and counts it |
| `AsyncService.AsyncServiceLayer.CancelOperation` | src/api/service_async.cpp:93-105 | Cancels a pending operation that can be looked up, and nothing else, when nobody writes the status between look and write |
| `AsyncService.AsyncServiceLayer.CleanupCompletedOperations` | src/api/service_async.cpp:244-265 | Forgets exactly the operations that are over and old |
| `Persistence.StepComesBack` | src/workflows/workflow_types.cpp:1615-1639 | A saved step loads with its written fields, without conditions and context injection, and with its retry policy only if that asks for retries |
| `Persistence.WorkflowComesBack` | src/workflows/workflow_types.cpp:1482-1653 | Loading what was saved succeeds for every definition and gives this normal form |
| `Persistence.SavedAlikeExactly` | src/workflows/workflow_types.cpp:1486-1548 | Two definitions are written alike exactly when their persisted fields agree, with the override or else the default as retry policy |
| `Persistence.PersistedFieldsComeBackExactly` | src/workflows/workflow_types.cpp:1590-1650 | A loaded definition agrees with the original on all persisted fields, exactly when the original has a loop configuration or the object loaded into has none |
| `Persistence.SecondRoundChangesNothing` | src/workflows/workflow_types.cpp:1482-1653 | A second save writes the same file and a second load gives the same definition |
| `Persistence.WholeExactly` | src/workflows/workflow_types.cpp:1482-1653 | A definition comes back whole exactly when nothing is in the fields that are not written and its retry policies need no normalising |
| `Persistence.EnginePolicyComesBackExactly` | src/workflows/workflow_types.cpp:601-608 | The policy the engine retries a step with comes back exactly for steps that ask for retries, or when the default of the object loaded into is the one used before |
| `Persistence.WorkflowStore.SaveDefinition` | src/workflows/workflow_types.cpp:1550-1569 | Writes the file and keeps the definition in memory; a file that cannot be opened changes nothing, and a dump that throws empties the file and keeps the memory |
| `Persistence.WorkflowStore.LoadDefinition` | src/workflows/workflow_types.cpp:1570-1655 | The definition in memory before the one in the file, which is then kept |
| `Persistence.WorkflowStore.DeleteDefinition` | src/workflows/workflow_types.cpp:1662-1669 | Removes both and tells whether there was a file |
| `Persistence.SaveRestartLoad` | src/workflows/workflow_types.cpp:1482-1653 | Save and load give the definition; after a restart its normal form; after another save and restart the same again |
| `Persistence.FailedSaveLosesTheFile` | src/workflows/workflow_types.cpp:1550-1569 | A save that fails in the dump loses the definition saved before under that name, which shows after a restart |
| `Persistence.SparseRetry` | src/workflows/workflow_types.cpp:1602-1611 | A retry policy of which a file says nothing loads as three retries with waits that double from one second up to thirty |
| `Persistence.SparseStep` | src/workflows/workflow_types.cpp:1615-1639 | A step with no more than its identity loads as not optional, with half a minute and without retries |
| `Persistence.SparseWorkflow` | src/workflows/workflow_types.cpp:1590-1613 | A definition with no more than its identity loads with version 1.0, no steps and five minutes, and with the retry policy and the loop of the object loaded into |
| `Persistence.SparseLoop` | src/workflows/workflow_types.cpp:1643-1650 | A loop of which a file says nothing loads as ten iterations under the key iteration |
| `Persistence.FullStep` | src/workflows/workflow_types.cpp:1615-1628 | A step written by hand loads field by field from its keys |
| `Persistence.IdentityNeeded` | src/workflows/workflow_types.cpp:1590-1620 | A definition or a step without the keys of its identity is not loaded |

## Left out

- Scanner line folding, chomping and document markers inside quoted text: `Scan` stops at a raw line break, which the writer never writes.
- DoubleQuoted.EscapeAt: the position marks and messages of parser exceptions are one error value.
- Plain, single-quoted and literal scalars of the emitter, and the choice between them: a scalar is one piece of text with a mark for those that ask for a long key.
- Number, boolean, null, charset and comment-indent settings of the emitter; they do not take part in layout decisions modelled here. The two characters of blank before a comment are fixed.
- BlockReader.OutputReadsBackExactly: trees with a block map that has a key without value or an empty flow group as a simple key are left out; `KeyAloneIsLost` and `EmptyKeyIsMisread` say what becomes of them. The reader takes scalars as whole tokens: the scanner is not part of this model.
- EmitterTree.EmitterPrints: blanks, line breaks and columns are not part of the printed structure; `EmitterText` has them. Trees are without anchors, tags and aliases; `EmitterLabels` has them, and comments and line breaks are covered, for every sequence of calls, by `EmitterSafety`, `EmitterRuns`, `EmitterSeparators`, `EmitterKeys`, `EmitterMarks` and `EmitterColumns`.
- EmitterLabels.OutputIsSpelled: where comments and line breaks stand between nodes the whole text is not spelled out; that the texts are in order and apart, the brackets matched, the separators counted and the columns kept is proved for them too.
- EmitterSettings.LocalLastsOneScalar: for single local calls; `EmitterScopes.InForceExactly` says what becomes of any number.
- EmitterScopes.SettingsReturn: for runs in which a local call has its node before another call for its setting or the end of its group; `EmitterScopes.InForceExactly` has no such condition.
- EmitterMarks.FlowMarkMissingExactly: entries from in front of their key; an entry whose key has begun before is covered from its start.
- Widths of sizes and indents: natural numbers without wrap-around. Allocation failure and stream errors.
- Retrieval: floating-point rounding and NaN (scores are real numbers of an arbitrary similarity), metadata and creation time of documents, `batch_search`, `hybrid_search`, keyword boosts and the lookup of single documents. The two result records are one.
- StoreInterleavings: searches while additions are on their way, which read the two stores at different times; a search is one step. Each store call is one step, as its lock makes it; identifiers drawn by the stores are given.
- Retrieval.SortByScore: an insertion sort stands for the library sort; callers only use that the result is some sorted permutation.
- Json: numbers are real numbers, and dump and parse are taken as given.
- Conditions: conversion errors other than for fields and operators that are no strings.
- Parameter lists of `execute_step` with their built-in defaults; only the resolution of legacy parameters is modelled.
- Retry.ExecuteStepWithRetry: delays do not overflow; logs and statistics of tries are not kept.
- Sequential.WorkflowExecution.ExecuteStep: the waits between tries, which `Retry` covers, and the polling of a request are one outcome for each try.
- The parallel, loop and pipeline engines: they run steps through the same step function and check no dependencies.
- Fresh ids: the random ids of requests, executions and operations are taken to be new.
- Requests: validation of agents and parameters, results and error texts, `total_requests`, `active_requests` and `queue_size` statistics, and stopping the workers.
- Requests.TrimmedIsBounded: four fifths of the limit is computed in integers where the program multiplies by 0.8.
- Executions: progress, logs and contexts; the engines only appear through the states they write.
- AsyncService: a cleanup is one step, and may find any set of operations old; it holds the lock of the operations. Subscribers, statistics, changing the queue limit at run time, and the time that makes an operation old, which is a parameter.
- Persistence: pipeline configuration, which is neither saved nor loaded, the directory and the JSON text of files; a loop delay that loading leaves unset is a parameter.
- HTTP services, agents, models, research text, metrics, configuration checks and builders: input and output, or easy members.
