# goplist in Dafny

A model of goplist, a Go library for Apple's XML property lists
(`.plist` files). The library has three parts, and the model covers each.

- **Streaming decoder** (package `xml`). `PlistDecoder.NextValue` reads a
  property list one value at a time. It returns leaves (string, bool,
  integer, real, date, data), `DictEntry` pairs, and the markers
  `StartDecodingArray`, `StartDecodingDict` and `EndDecodingContainer`.
  It keeps a current container decoder and moves it up and down the
  nesting as containers open and close.
- **Streaming encoder** (package `xml`). `EncodeArrayPlist` and
  `EncodeDictPlist` write the property-list header and then hand an
  `ArrayEncoder` or `DictEncoder` to a caller's callback. Each encoder
  carries two flags, `encodingContainer` and `finished`. `assertReady`
  checks them before every write, so a parent cannot be written to while
  a child container is open.
- **Tree API** (package `plist`). `Dict` is an insertion-ordered map and
  `Array` a slice updated in place. `createPlistElement` converts Go
  values to elements. `Marshal` writes the same header as the encoder,
  then the root element.

## How the model is built

The XML tokenizer is not modelled. A document is a sequence of
`encoding/xml` tokens plus the error the reader reports once they are used
up (normally `io.EOF`). Every reading loop of the decoder is a method on a
`Cursor` class. Each method is proved equal to a specification function
of the token sequence and the starting position. Lemmas about those
functions state what each loop consumes and returns.

The decoder frames (`baseDecoder`, `arrayDecoder`, `dictDecoder`) are
objects that share one cursor. Each holds a parent link. `PlistDecoder`
is a class. Its `NextValue` is proved to take the step that the function
`DriverStep` describes.

The output writer is a log of writes (token, element, raw newline,
flush). A given set of attempt numbers decides which writes fail. A
failed write adds nothing to the log and returns `WriteFailed(k)`.

The encoder callbacks are first-order scripts. Each command names the
encoder it writes to, counted as how many levels up from its own, so a
callback can be made to misuse a parent. A write either passes its
error on, which ends the callback with that error, or is `Unchecked`:
its error is dropped and the callback goes on, as the package's own
tests do when they wrap each write in `assert.NoError` and return nil.
A panic ends the callback either way. The writer's failures are not
sticky by themselves; a writer that stays broken after its first
failure, as an `xml.Encoder` does, is a failing set holding every later
attempt. The encoder classes are proved
to run a script exactly as the specification functions of `EncoderSpec`
say. A run's result is nil, an error, or one of the panics of
`assertReady`.

In the tree API, a panic is an outcome `Panics(reason)` rather than a
precondition. The `Dict` and `Array` classes are proved against functions
on values (`Put`, `Replace`, `Create`, `MarshalElem`). An element stored
inside another one is kept as a value.

The integer parsing of Go's `strconv` (`ParseInt`, `ParseUint`) and
`big.Int.SetString` is written out digit by digit. That matters for two
facts the model establishes about the integer decoder:

- The last-resort error "Could not parse '...' as an integer" is
  reachable. Text that starts with more digits than a uint64 holds and
  then goes on with a non-digit, such as `18446744073709551616x`, reaches
  it, because `ParseUint` reports the overflow before it meets the bad
  character (`DecodedValues.NotAnIntegerReachable`,
  `DecodedValues.DecodeIntegerNotAnIntegerIff`).
- A signed literal outside the int64 range, such as
  `-9223372036854775809`, does not decode at all. `ParseUint` rejects the
  sign with a syntax error rather than a range error, so the big-integer
  fallback is never tried (`DecodedValues.DecodeIntegerSignedOutOfRange`).
  So the decimal text of a negative big integer, which the encoder's
  `writeBigInt` produces, does not read back
  (`DecodedValues.DecodeIntegerOfDecimalText`).

## Model

| member | source | states |
|---|---|---|
| Vocabulary.XmlElement | xml/plist.go:74-81 | the start element has an empty namespace, the given local name and no attributes |
| Vocabulary.XmlElementInjective | xml/plist.go:74-81 | two element starts are equal exactly when their names are |
| Vocabulary.LeafNames | xml/plist.go:64-70 | there are seven leaf names, all without a namespace |
| Vocabulary.ValueNamesDistinct | xml/plist.go:64-70 | the seven leaf names are pairwise distinct, and none of them is array, dict, key or plist, so the decoder's dispatch picks at most one case |
| Vocabulary.PlistStartShape | xml/plist.go:59-62 | the root element is `plist` with exactly one attribute, version="1.0" |
| XmlTokens.TrimSpaceEmptyIffBlank | xml/plist_decoder.go:160-163 | the test on trimmed char data holds exactly for text made only of white space |
| XmlTokens.TrimLeft | xml/plist_decoder.go:160 | strings.TrimSpace, left half: only white space is removed, and what is left does not start with it |
| XmlTokens.TrimRight | xml/plist_decoder.go:160 | strings.TrimSpace, right half: only white space is removed, and what is left does not end with it |
| Strconv.ParseUintMeetsSpec | xml/base_decoder.go:112 | the digit-by-digit ParseUint agrees on every input with a declarative reading: empty text is a syntax error, a digit prefix over the uint64 range is a range error, and otherwise a non-digit is a syntax error |
| Strconv.ParseUintSuccessIff | xml/base_decoder.go:112 | ParseUint succeeds exactly on non-empty all-digit text whose value fits a uint64, and returns that value |
| Strconv.ParseUintRangeIff | xml/base_decoder.go:112-117 | ParseUint reports a range error exactly when the leading digits exceed the uint64 range |
| Strconv.ParseIntSuccessIff | xml/base_decoder.go:105-110 | ParseInt succeeds exactly on a signed decimal whose value fits an int64, and returns that value |
| Strconv.ParseIntRangeIff | xml/base_decoder.go:105-110 | ParseInt reports a range error exactly when the digits after the sign already exceed the uint64 range, or the text is a signed decimal outside the int64 range |
| Strconv.BigSetStringIff | xml/base_decoder.go:119-122 | big.Int.SetString accepts exactly the signed decimals, with their value |
| Strconv.DecimalText | xml/base_encoder.go:142-152 | the printed integer is a signed decimal denoting the number, without a '+', and all digits when the number is not negative |
| Strconv.ParseIntReadsDecimalText | xml/base_decoder.go:105 | ParseInt reads back every int64 that writeInt prints |
| Strconv.ParseUintReadsDecimalText | xml/base_decoder.go:112 | ParseUint reads back every uint64 that writeUint prints |
| Strconv.BigSetStringReadsDecimalText | xml/base_decoder.go:119-122 | SetString reads back every integer that writeBigInt prints |
| TokenCursor.TokenAt | xml/base_decoder.go:89 | a read returns the next token and advances by one, or returns the reader's final error once the tokens are used up |
| TokenCursor.Cursor.constructor | xml/plist_decoder.go:38-42 | a new reader stands at the first token of the document |
| TokenCursor.Cursor.Token | xml/base_decoder.go:89 | the cursor's read does what TokenAt says |
| TokenCursor.NextInteresting | xml/plist_decoder.go:150-168 | returns the first token that is neither a comment nor blank char data, having skipped only such tokens, or the final error when only such tokens remain |
| TokenCursor.NextInterestingToken | xml/plist_decoder.go:150-168 | the loop consumes and returns what NextInteresting describes |
| TokenCursor.NextInterestingFinds | xml/plist_decoder.go:150-168 | with the first interesting token at q, the read returns it and stops right after it |
| TokenCursor.NextStartOrEnd | xml/base_decoder.go:59-71 | returns the first start or end tag, having passed over only other tokens, or the final error |
| TokenCursor.NextStartOrEndElement | xml/base_decoder.go:59-71 | the loop consumes and returns what NextStartOrEnd describes |
| TokenCursor.NextStartOrEndFinds | xml/base_decoder.go:59-71 | with the first start or end tag at q, the read returns it and stops right after it |
| TokenCursor.NextStart | xml/plist_decoder.go:135-146 | returns the first start tag, passing over end tags too, or the final error |
| TokenCursor.NextStartElement | xml/plist_decoder.go:135-146 | the loop consumes and returns what NextStart describes |
| TokenCursor.NextStartFinds | xml/plist_decoder.go:135-146 | with the first start tag at q, the read returns it and stops right after it |
| TokenCursor.ReadCharData | xml/base_decoder.go:185-204 | a successful read stops at the awaited end tag and returns all char data before it concatenated; a failed one stopped at another end tag, naming both, or ran out of tokens |
| TokenCursor.ReadCharDataUntilEnd | xml/base_decoder.go:185-204 | the loop consumes and returns what ReadCharData describes |
| TokenCursor.ReadCharDataFinds | xml/base_decoder.go:185-204 | with no end tag before the awaited one at j, the read appends exactly the char data in between to what it was given |
| TokenCursor.ReadTextFinds | xml/base_decoder.go:185-204 | with no end tag before the awaited one at j, the read returns exactly the char data in between |
| TokenCursor.ReadCharDataMismatch | xml/base_decoder.go:197-201 | a read that meets another end tag first fails there with UnexpectedEnd |
| TokenCursor.ReadBool | xml/base_decoder.go:83-94 | tokens are passed over up to the first matching end tag, and then the constant is returned whatever came in between |
| TokenCursor.FinishReadingBool | xml/base_decoder.go:83-94 | the loop consumes and returns what ReadBool describes |
| TokenCursor.ReadBoolFinds | xml/base_decoder.go:83-94 | with the first matching end tag at j, the read returns the constant and stops after j |
| DecodedValues.Shape | xml/plist_decoder.go:28-35 | forgetting the decoder handles keeps the kind of every answer, the leaf, the entry's key and the shape of its value |
| DecodedValues.DecodeIntegerInt64 | xml/base_decoder.go:105-108 | text that fits an int64, sign allowed, decodes to an int64 of its value |
| DecodedValues.DecodeIntegerUint64 | xml/base_decoder.go:112-115 | unsigned digits beyond int64 but within uint64 decode to a uint64 |
| DecodedValues.DecodeIntegerBig | xml/base_decoder.go:119-122 | unsigned digits beyond uint64 decode to a big integer |
| DecodedValues.DecodeIntegerSignedOutOfRange | xml/base_decoder.go:105-117 | a signed literal outside the int64 range fails with ParseUint's syntax error |
| DecodedValues.DecodeIntegerSuccessIff | xml/base_decoder.go:98-125 | decoding succeeds exactly for signed decimals within int64 and for unsigned decimals of any size |
| DecodedValues.DecodeIntegerRejectsNonDecimal | xml/base_decoder.go:98-125 | text that is not a signed decimal never decodes |
| DecodedValues.DecodeIntegerNotAnIntegerIff | xml/base_decoder.go:119-124 | the "Could not parse" error is returned exactly when more digits than a uint64 holds are followed by something else |
| DecodedValues.NotAnIntegerWhenOverflowThenJunk | xml/base_decoder.go:112-124 | too many digits for a uint64 followed by anything else reach the "Could not parse" error |
| DecodedValues.OverflowThenJunkWhenRangeAndNotBig | xml/base_decoder.go:112-122 | a ParseUint range error together with a rejected SetString means more digits than a uint64 holds, followed by something else |
| DecodedValues.NotAnIntegerFromCauses | xml/base_decoder.go:112-124 | two range errors and a rejected SetString lead to the "Could not parse" error |
| DecodedValues.NotAnIntegerCauses | xml/base_decoder.go:112-124 | the "Could not parse" error implies ParseUint reported a range error and SetString rejected the text |
| DecodedValues.NotAnIntegerReachable | xml/base_decoder.go:124 | the text 18446744073709551616x reaches the "Could not parse" error |
| DecodedValues.DecodeIntegerRejectsText | xml/base_decoder_test.go:82-89 | "foo" and the empty text fail with ParseInt's own syntax error |
| DecodedValues.DecodeIntegerOfDecimalText | xml/base_decoder.go:98-125 | the printed text of n decodes to an int64, a uint64 or a big integer by its size, and fails below the int64 minimum |
| DecoderFrames.DecoderFrame.constructor | xml/base_decoder.go:14-17 | a frame holds the given parent and the shared reader |
| DecoderFrames.NewArrayDecoder | xml/array_decoder.go:11-13 | a fresh array frame records exactly the given parent and shares the given reader, which it does not move |
| DecoderFrames.NewDictDecoder | xml/dict_decoder.go:20-22 | a fresh dict frame records exactly the given parent and shares the given reader |
| BaseDecoder.DecodeReal | xml/base_decoder.go:129-148 | a float64 on success; a syntax error is returned as it is; a big.Float only when the float64 parse reported a range error |
| BaseDecoder.DecodeDate | xml/base_decoder.go:157-168 | succeeds exactly when the RFC 3339 parse does, with its instant or its error |
| BaseDecoder.DecodeData | xml/base_decoder.go:170-183 | succeeds exactly when the base64 decoding does, with its bytes or its error |
| BaseDecoder.LeafNamesAreTheLeaves | xml/base_decoder.go:27-41 | the names the dispatch recognises as leaves are exactly the seven leaf names |
| BaseDecoder.FinishLeaf | xml/base_decoder.go:75-183 | a leaf read that succeeds ends just after its own end tag |
| BaseDecoder.BaseStep | xml/base_decoder.go:19-53 | a successful step consumes at least one token and never reads past the end |
| BaseDecoder.FinishReadingString | xml/base_decoder.go:75-81 | the method reads and returns what FinishLeaf says for a string |
| BaseDecoder.FinishReadingInteger | xml/base_decoder.go:98-125 | the method reads and returns what FinishLeaf says for an integer |
| BaseDecoder.FinishReadingReal | xml/base_decoder.go:129-148 | the method reads and returns what FinishLeaf says for a real |
| BaseDecoder.FinishReadingDate | xml/base_decoder.go:157-168 | the method reads and returns what FinishLeaf says for a date |
| BaseDecoder.FinishReadingData | xml/base_decoder.go:170-183 | the method reads and returns what FinishLeaf says for data |
| BaseDecoder.BaseNextValue | xml/base_decoder.go:19-53 | the method takes the step BaseStep describes; a container start gives a fresh frame whose parent is this decoder's base view and which shares its reader |
| BaseDecoder.BaseEndTag | xml/base_decoder.go:48-49 | any end tag, whatever its name, yields EndDecodingContainer and is consumed |
| BaseDecoder.BaseContainerStart | xml/base_decoder.go:42-45 | an array or dict start tag is consumed alone and yields a new decoder of that kind |
| BaseDecoder.BaseInvalidStart | xml/base_decoder.go:52 | a start tag naming no plist value is an "Invalid element" error |
| BaseDecoder.BaseEndOfInput | xml/base_decoder.go:20-23 | with no start or end tag left, the reader's own error (io.EOF) is returned |
| BaseDecoder.BaseTextLeaf | xml/base_decoder.go:75-81 | a text leaf decodes the concatenated char data up to its own end tag |
| BaseDecoder.FinishTextLeafFinds | xml/base_decoder.go:75-81 | a text leaf is decoded from the char data up to its own end tag, and reading stops just after that tag |
| BaseDecoder.BaseTextLeafMismatch | xml/base_decoder.go:197-201 | a text leaf closed by another element's end tag is an error naming both |
| BaseDecoder.BaseBoolLeaf | xml/base_decoder.go:30-33 | `<true>`/`<false>` yield their constant whatever lies before the matching end tag |
| DictDecoder.EntryStep | xml/dict_decoder.go:47-59 | a successful entry read yields a DictEntry |
| DictDecoder.WithKey | xml/dict_decoder.go:51-58 | a value read becomes the entry for the key, and an error reading it is passed on with no entry |
| DictDecoder.DictStep | xml/dict_decoder.go:24-45 | a dict step succeeds only with an entry or the end of the dict |
| DictDecoder.FinishReadingKey | xml/dict_decoder.go:61-67 | the method reads as ReadCharData says for `</key>`: the key is the char data before it |
| DictDecoder.FinishReadingEntry | xml/dict_decoder.go:47-59 | the method takes the step EntryStep describes; a container value is a fresh frame whose parent is the dict's base view |
| DictDecoder.DictNextValue | xml/dict_decoder.go:24-45 | the method takes the step DictStep describes |
| DictDecoder.DictEntryRead | xml/dict_decoder.go:32-35 | a `<key>` starts an entry: its text is the key and the value is what the base rules read after `</key>` |
| DictDecoder.DictStepAtKey | xml/dict_decoder.go:32-35 | when the first interesting token is `<key>`, the dict step is the entry read that follows it |
| DictDecoder.EntryStepFinds | xml/dict_decoder.go:47-67 | the key of an entry is the char data before `</key>` |
| DictDecoder.DictEnd | xml/dict_decoder.go:36-39 | `</dict>` yields EndDecodingContainer |
| DictDecoder.DictRejects | xml/dict_decoder.go:42-43 | any other interesting token, text included, is an "Expected key or dict" error naming it |
| DictDecoder.DictKeyWithoutValue | xml/dict_decoder.go:53 | a key right before `</dict>` yields an entry whose value is EndDecodingContainer |
| PlistDecoder.ContainerStep | xml/plist_decoder.go:71 | the current decoder's step never reads past the end |
| PlistDecoder.FirstContainer | xml/plist_decoder.go:119-133 | the search for the root container's start tag never reads past the end |
| PlistDecoder.OpenRoot | xml/plist_decoder.go:99-115 | the header scan never reads past the end |
| PlistDecoder.DriverStep | xml/plist_decoder.go:56-93 | an error leaves the decoder state unchanged; a success changes the depth by the answer (+1 for a start, -1 for an end); no handle is ever returned; a start makes a decoder of its kind current |
| PlistDecoder.OpenRootFinds | xml/plist_decoder.go:119-133 | after `<plist>`, the next start tag opens the root if its local name is array or dict, and is an error otherwise |
| PlistDecoder.OpenRootRejects | xml/plist_decoder.go:109-113 | a first start tag other than `<plist>` is an "Expected plist" error and no decoder becomes current |
| PlistDecoder.ClosedAtEnd | xml/plist_decoder.go:100-106 | after the root has closed the header scan starts again, and with no start tag left it returns the reader's error |
| PlistDecoder.Run | xml/plist_decoder.go:56-93 | n calls give n answers |
| PlistDecoder.RunDepth | xml/plist_decoder.go:79-89 | over any run, the open decoders number the starts returned minus the ends returned |
| PlistDecoder.RunNeverOverCloses | xml/plist_decoder.go:86-89 | from a fresh decoder, ends never outnumber starts |
| PlistDecoder.ContainerNextValue | xml/plist_decoder.go:71 | calling the current decoder takes the step of its rules (base or dict) |
| PlistDecoder.PlistDecoder.constructor | xml/plist_decoder.go:38-42 | a new decoder has read nothing and has no current decoder |
| PlistDecoder.PlistDecoder.StartFirstContainer | xml/plist_decoder.go:119-133 | the method does what FirstContainer says, and the root decoder has no parent and shares the reader |
| PlistDecoder.PlistDecoder.ConsumeHeader | xml/plist_decoder.go:99-115 | nothing is read when a decoder is current; otherwise the method does what OpenRoot says and returns a fresh root decoder |
| PlistDecoder.PlistDecoder.NextValue | xml/plist_decoder.go:56-93 | each call takes the step DriverStep describes, on the cursor and on the stack of frames |
| PlistDecoder.PlistDecoder.Push | xml/plist_decoder.go:79-85 | the returned handle becomes the current decoder, on top of the stack |
| PlistDecoder.PlistDecoder.Pop | xml/plist_decoder.go:86-89 | the top frame is dropped; after the root the decoder is closed, otherwise the parent is current through its base view and reads by the base rules |
| DecoderTraces.DecodeStringDocument | xml/base_decoder_test.go:25-36 | `<string>foo</string>` gives "foo", then io.EOF |
| DecoderTraces.DecodeBoolDocuments | xml/base_decoder_test.go:38-71 | `<true/>` gives true and then io.EOF; `<false/>` gives false |
| DecoderTraces.IntegerDocument | xml/base_decoder.go:98-125 | an integer element decodes its text by DecodeInteger |
| DecoderTraces.DecodeIntegerDocuments | xml/base_decoder_test.go:73-108 | 42 and -42 decode to int64, MaxInt64+1 to uint64, and "foo" fails with ParseInt's syntax error |
| DecoderTraces.DecodeArrayDocument | xml/base_decoder_test.go:159-175 | `<array></array>` gives an array decoder, whose next value ends it, then io.EOF |
| DecoderTraces.DecodeDictDocument | xml/base_decoder_test.go:177-193 | `<dict></dict>` gives a dict decoder, whose next value ends it, then io.EOF |
| DecoderTraces.DecodeDictEntriesDocument | xml/dict_decoder_test.go:11-30 | the dict gives the entry foo = bar, then its end |
| DecoderTraces.DictEntriesValue | xml/dict_decoder_test.go:11-30 | after `</key>` the value `<string>bar</string>` is read |
| DecoderTraces.DictEntriesEntry | xml/dict_decoder_test.go:11-30 | the first dict step gives the entry foo = bar |
| DecoderTraces.DictEntriesEnd | xml/dict_decoder_test.go:11-30 | the second dict step gives the end of the dict |
| DecoderTraces.DecodeEmptyArrayPlist | xml/plist_decoder_test.go:13-33 | StartDecodingArray, then EndDecodingContainer, then io.EOF |
| DecoderTraces.EmptyArrayPlistOpens | xml/plist_decoder_test.go:13-33 | the first call passes the header and opens the root array |
| DecoderTraces.EmptyArrayPlistCloses | xml/plist_decoder_test.go:13-33 | the second call ends the root array and closes the decoder |
| DecoderTraces.DecodeDictHoldingArray | xml/plist_decoder.go:78-92 | an entry holding an array handle does not move the current decoder, so the next call asks the dict for a key and fails on `</array>` |
| DecoderTraces.DictHoldingArrayEntry | xml/dict_decoder.go:47-59 | a key followed by `<array>` gives an entry holding a new array decoder |
| Sink.Attempt | xml/base_encoder.go:53-55 | a write adds one attempt; it succeeds exactly when that attempt is not failing, adding its op to the log, and a failure adds nothing and reports the attempt |
| Sink.AdvanceTwice | xml/base_encoder.go:123-124 | the model's own log: writing a and then b successfully is writing a + b |
| Sink.OpTokens | xml/base_encoder.go:123-124 | an element write produces its start tag first and its end tag last |
| Sink.LogTokensAppend | xml/base_encoder.go:123-124 | the model's own log: the tokens of two logs joined are their tokens joined |
| Sink.Writer.constructor | xml/base_encoder.go:32-40 | a new writer has an empty log |
| Sink.Writer.Put | xml/base_encoder.go:54 | one write on the writer does what Attempt says |
| EncoderSpec.AssertReady | xml/base_encoder.go:68-75 | fails exactly when the encoder is finished or has an open child, and checks finished first |
| EncoderSpec.ContainerStart | xml/array_encoder.go:9 | the container start tag is `<array>` or `<dict>` with no attributes |
| EncoderSpec.LeafElement | xml/base_encoder.go:123-169 | a leaf writer emits one element named by a leaf name; a bool's element is empty |
| EncoderSpec.SetOpen | xml/base_encoder.go:115-121 | startContainer/endContainer change only encodingContainer of that one encoder |
| EncoderSpec.BaseEndTag | xml/base_encoder.go:53-59 | finished is set only after the end tag was written; on an error the flags are unchanged |
| EncoderSpec.Run | xml/base_encoder.go:88 | a callback leaves the number of live encoders as it found it |
| EncoderSpec.Exec | xml/array_encoder.go:18-61 | one statement of a callback leaves the number of live encoders unchanged |
| EncoderSpec.EncoderWrite | xml/dict_encoder.go:19-89 | a Write leaves the number of live encoders unchanged |
| EncoderSpec.WriteItem | xml/base_encoder.go:80-152 | the value part of a Write leaves the number of live encoders unchanged |
| EncoderSpec.ContainerFunc | xml/base_encoder.go:80-113 | writeArrayFunc/writeDictFunc leave the parent unlocked on every path, errors included |
| EncoderSpec.CloseAfter | xml/base_encoder.go:88-93 | when the callback did not return nil, nothing more is written and its result is returned |
| EncoderSpec.ContainerFuncStartFails | xml/base_encoder.go:84-87 | when the child's start tag cannot be written, that error is returned, nothing else is written and the parent is unlocked |
| EncoderSpec.ContainerFuncAfterCallback | xml/base_encoder.go:88-93 | once the child's callback has run, only its end tag (on success) follows, and the parent is unlocked |
| EncoderSpec.OnlyInnermostReady | xml/base_encoder.go:68-75 | among nested encoders only the innermost passes assertReady; every outer one panics with "child container open" |
| EncoderSpec.NestedPush | xml/base_encoder.go:80-84 | locking the innermost encoder and pushing a fresh child keeps the nesting |
| EncoderSpec.RunKeepsStack | xml/base_encoder.go:80-121 | with the encoders properly nested, a callback leaves every live encoder's flags as it found them, whatever the writer does |
| EncoderSpec.ExecKeepsStack | xml/array_encoder.go:18-61 | one statement of a callback leaves every live encoder's flags as it found them |
| EncoderSpec.ItemKeepsStack | xml/base_encoder.go:80-169 | writing one value, a nested container included, leaves every live encoder's flags as it found them |
| EncoderSpec.ContainerKeepsStack | xml/base_encoder.go:80-113 | writeArrayFunc/writeDictFunc leave every live encoder's flags as they found them |
| EncoderSpec.WriteKeepsStack | xml/array_encoder.go:53-61 | a Write to an encoder with an open child panics at once and changes nothing |
| EncoderSpec.RunRenders | xml/array_encoder.go:18-61 | against a writer that never fails, a callback writing only to its own encoder returns nil and writes exactly its rendering, in call order, leaving the flags unchanged |
| EncoderSpec.ExecRenders | xml/dict_encoder.go:19-89 | against a writer that never fails, one statement writes exactly its rendering (for a dict, the key and then the value) |
| EncoderSpec.ItemRenders | xml/base_encoder.go:123-169 | against a writer that never fails, one value writes exactly its rendering |
| EncoderSpec.ContainerRenders | xml/base_encoder.go:80-113 | writeArrayFunc/writeDictFunc write start tag, the callback's rendering, end tag, and leave the parent unlocked |
| EncoderSpec.KeyFailureSkipsValue | xml/dict_encoder.go:19-25 | when the key cannot be written its error is returned and the value is never attempted |
| EncoderSpec.RunOnBrokenWriter | xml/base_encoder.go:88 | a callback run against a writer broken for every attempt it makes writes nothing, whether it passes its errors on or drops them |
| EncoderSpec.ExecOnBrokenWriter | xml/array_encoder.go:18-61 | one Write against such a writer writes nothing |
| EncoderSpec.RunAttemptsGrow | xml/base_encoder.go:88 | a callback never takes back a write attempt: the attempt count after it is at least the one before |
| EncoderSpec.WriteAttemptsGrow | xml/array_encoder.go:18-61 | a Write that passes assertReady makes at least one write attempt, and one that panics makes none |
| EncoderSpec.ContainerFirstAttempt | xml/base_encoder.go:80-87 | writeArrayFunc/writeDictFunc attempt the start tag first, and write nothing more when it fails |
| EncoderSpec.ItemFirstAttempt | xml/base_encoder.go:80-87 | a value write (leaf or nested container) makes its first attempt at once, and writes nothing when that attempt fails |
| EncoderSpec.IgnoredErrorsStillFail | xml/array_encoder_test.go:21-26 | a callback that drops its write errors, against a writer that fails from the write of "a" on: "b" fails too, the callback returns nil, the `</array>` write fails and writeArrayFunc returns that error, with only `<array>` written |
| EncoderSpec.IgnoredCallback | xml/array_encoder_test.go:21-26 | that callback inside the open array, against the same broken writer: both writes fail, neither error is passed on, the callback returns nil and nothing is written |
| EncoderSpec.CallbackErrorSkipsEndTag | xml/base_encoder.go:88-92 | a callback that writes "a" and then returns an error: that error is returned, only `<array>` and the string are written, no `</array>`, and the parent is unlocked |
| XmlEncoders.BaseEncoder.constructor | xml/base_encoder.go:32-40 | a new encoder holds the writer, with both flags false |
| XmlEncoders.BaseEncoder.Copy | xml/base_encoder.go:44-49 | a copy shares the writer and has both flags false |
| XmlEncoders.BaseEncoder.AssertReady | xml/base_encoder.go:68-75 | the method panics exactly as AssertReady says |
| XmlEncoders.BaseEncoder.WriteEndTag | xml/base_encoder.go:53-59 | the method writes and sets finished as BaseEndTag says |
| XmlEncoders.BaseEncoder.StartContainer | xml/base_encoder.go:115-117 | sets encodingContainer and keeps finished |
| XmlEncoders.BaseEncoder.EndContainer | xml/base_encoder.go:119-121 | clears encodingContainer and keeps finished |
| XmlEncoders.ArrayEncoder.constructor | xml/array_encoder.go:15 | the wrapper holds the given base encoder |
| XmlEncoders.ArrayEncoder.Write | xml/array_encoder.go:18-61 | every Write* does what EncoderWrite says: assertReady first, then one element or a nested container |
| XmlEncoders.ArrayEncoder.WriteEndTag | xml/array_encoder.go:63-66 | assertReady, then `</array>` as BaseEndTag says, after which the encoder is finished |
| XmlEncoders.DictEncoder.constructor | xml/dict_encoder.go:16 | the wrapper holds the given base encoder |
| XmlEncoders.DictEncoder.Write | xml/dict_encoder.go:19-89 | every Write* does what EncoderWrite says: assertReady, the key, then the value only if the key was written |
| XmlEncoders.DictEncoder.WriteKey | xml/dict_encoder.go:96-98 | one `<key>` element with the key as text |
| XmlEncoders.DictEncoder.WriteEndTag | xml/dict_encoder.go:91-94 | assertReady, then `</dict>` as BaseEndTag says, after which the encoder is finished |
| XmlEncoders.Frames | xml/base_encoder.go:19-30 | the abstract view holds one frame per live encoder, with its kind and flags |
| XmlEncoders.WriteLeaf | xml/base_encoder.go:123-169 | a leaf writer is one write of the element that LeafOp gives for the value |
| XmlEncoders.NewArrayEncoder | xml/array_encoder.go:11-16 | `<array>` is written first; on a write error no encoder is returned |
| XmlEncoders.NewDictEncoder | xml/dict_encoder.go:12-17 | `<dict>` is written first; on a write error no encoder is returned |
| XmlEncoders.RunScript | xml/base_encoder.go:88 | running a callback on the encoder objects does what Run says |
| XmlEncoders.ExecCmd | xml/array_encoder.go:18-61 | one statement on the encoder objects does what Exec says, an unchecked write's error included |
| XmlEncoders.WriteTo | xml/array_encoder.go:18-61 | a Write method of the array or dict encoder at that index, through its wrapper, does what EncoderWrite says |
| XmlEncoders.WriteValue | xml/base_encoder.go:123-169 | the value part of a Write on the objects does what WriteItem says |
| XmlEncoders.WriteContainerFunc | xml/base_encoder.go:80-113 | writeArrayFunc/writeDictFunc on the objects do what ContainerFunc says |
| XmlEncoders.LockAndOpenChild | xml/base_encoder.go:81-87 | the parent is locked and the child's start tag attempted |
| XmlEncoders.RunChild | xml/base_encoder.go:88-93 | the callback and the end tag on the child do what Run and CloseAfter say |
| XmlEncoders.RunCallback | xml/base_encoder.go:88 | the callback runs with the child as the innermost encoder |
| XmlEncoders.SetContainerFlag | xml/base_encoder.go:115-121 | only the encodingContainer flag of that one encoder changes |
| XmlEncoders.OpenChildOn | xml/base_encoder.go:84 | the child's start tag is attempted; on success a fresh child of that kind joins the live encoders |
| XmlEncoders.OpenChild | xml/base_encoder.go:84 | a copy of the parent is wrapped as an array or dict encoder after its start tag |
| XmlEncoders.CloseChild | xml/base_encoder.go:93 | the child's writeEndTag through its array or dict wrapper |
| PlistEncoder.AttemptAll | xml/plist_encoder.go:58-75 | writes in order: all written when none fails, otherwise stopped after the first failure |
| PlistEncoder.AttemptAllAppend | xml/plist_encoder.go:58-75 | writing a + b is writing a and then, if it succeeded, b |
| PlistEncoder.AttemptAllSucceeds | xml/plist_encoder.go:58-75 | when no write fails, all are written |
| PlistEncoder.AttemptAllStops | xml/plist_encoder.go:58-75 | when write k is the first failure, exactly the k writes before it are logged and its error is returned |
| PlistEncoder.Start | xml/plist_encoder.go:46-56 | on success the log gains the header and `<plist version="1.0">` |
| PlistEncoder.PlistEnd | xml/plist_encoder.go:77-83 | assertReady first; on success `</plist>` and a flush are written and the encoder is finished |
| PlistEncoder.WriteNewline | xml/plist_encoder.go:87-96 | a flush, then the raw newline |
| PlistEncoder.WritePlistHeader | xml/plist_encoder.go:58-75 | the declaration, a newline, the DOCTYPE, a newline, stopping at the first error |
| PlistEncoder.Line | xml/plist_encoder.go:59-66 | one header token and the newline after it |
| PlistEncoder.StartPlist | xml/plist_encoder.go:46-56 | the method does what Start says and returns a fresh encoder only on success |
| PlistEncoder.WritePlistEndTag | xml/plist_encoder.go:77-83 | the method does what PlistEnd says |
| PlistEncoder.EncodeArrayPlist | xml/plist_encoder.go:24-33 | header, one array container run through the callback, then the end tag, as Document says |
| PlistEncoder.EncodeDictPlist | xml/plist_encoder.go:35-44 | header, one dict container run through the callback, then the end tag, as Document says |
| PlistEncoder.EncodeContainerPlist | xml/plist_encoder.go:24-44 | the shared body of both: header, the root container run through the callback, end tag, as Document says |
| PlistEncoder.Encode | xml/plist_encoder.go:10-22 | the method does what EncodeValue says |
| PlistEncoder.KeyForField | xml/base_encoder.go:215-220 | the tag wins: a non-empty tag is the key, otherwise the field name is; the key is empty only when both are |
| PlistEncoder.StructWriter | xml/base_encoder.go:200-213 | one Write per field, in declaration order, into the struct's own dict encoder, under the field's key and with its value |
| PlistEncoder.StructWriterRenders | xml/base_encoder.go:200-220 | structWriter's callback is one Encode accepts, and against a writer that never fails it writes, for each field in order, a `<key>` holding the tag if the field has one and the name otherwise, then the value |
| PlistEncoder.DocumentRenders | xml/plist_encoder.go:24-44 | against a writer that never fails: header, `<plist version="1.0">`, exactly one container, `</plist>`, flush |
| PlistEncoder.HeaderFailureIsWrapped | xml/plist_encoder.go:48-50 | a header write failure is returned wrapped as "error writing plist header", nothing of the root is written |
| PlistEncoder.RootStartFailureIsNotWrapped | xml/plist_encoder.go:52-54 | a failure of `<plist version="1.0">` itself is returned unwrapped |
| PlistEncoder.CallbackFailureEndsDocument | xml/plist_encoder.go:29-31 | after a callback error nothing more is written: no end tag, no `</plist>`, no flush |
| PlistEncoder.EncodeRenders | xml/plist_encoder.go:10-22 | arrays and slices give an array plist, maps and structs a dict plist, any other kind writes nothing and is rejected |
| PlistEncoder.EmptyPlist | xml/plist_encoder_test.go:12-21 | the header followed at once by the end tag is the two header lines and `<plist version="1.0"></plist>` |
| PlistEncoder.HeaderAndRootTokens | xml/plist_encoder.go:58-83 | the header ops and the end ops produce declaration, newline, DOCTYPE, newline, root start, root end |
| PlistEncoder.EntryRenders | xml/dict_encoder.go:19-25 | a dict entry renders as `<key>` followed by its value element |
| PlistEncoder.ExampleEncoding | xml/plist_encoder_test.go:23-65 | the package example writes the documented dict of name, age and acquaintances |
| StringOrder.LessIrreflexive | dict.go:48 | no string sorts before itself |
| StringOrder.LessTransitive | dict.go:48 | the string order, by code point (the same as Go's byte order on valid UTF-8), is transitive |
| StringOrder.LessTotal | dict.go:48 | of two different strings one sorts before the other |
| StringOrder.SortedDistinct | dict.go:48 | a sorted list has no repeated strings |
| StringOrder.Insert | dict.go:48 | inserting into a sorted list keeps it sorted and adds exactly the one string |
| StringOrder.SortAll | dict.go:48 | sort.Strings: the result is sorted and holds the same strings |
| StringOrder.SortedKeys | dict.go:48 | the keys of a set in ascending order, each once |
| StringOrder.SortedUnique | dict.go:48 | two sorted lists of the same strings are equal, so the sorted key order does not depend on the map's iteration order |
| TreeValues.Put | dict.go:65-68 | the new map holds the element under key; a new key is appended to the ordering and an existing one keeps its place; each key once in the ordering is preserved |
| TreeValues.LookupAfterPut | dict.go:62-77 | after Set, Get of the key gives the new element's value and every other key is as before |
| TreeValues.Replace | array.go:31-33 | succeeds exactly for an index in the slice, keeping the length and storing the element there |
| TreeValues.ElementAtAfterAppend | array.go:23-29 | after Append, Get of the last index gives the new element's value and every other index is as before |
| TreeValues.ElementAtAfterReplace | array.go:23-33 | after Set at an index, Get there gives the new element's value and every other index is as before |
| TreeValues.Value | integer.go:12-17 | a plistInt reports its signed field exactly when that is non-zero, else its unsigned field; a dict value returns only when the dict is empty; only nil and dicts panic |
| TreeValues.DictFrom | dict.go:33-39 | a map (string keys or not) is converted as createPlistElement converts it; anything that returns is a dict |
| TreeValues.RootOf | plist.go:84-90 | an element passes as root exactly when it is a *Dict or *Array, and is then kept; any other panics with "root element must be a *Dict or *Array" |
| TreeValues.Root | plist.go:80-94 | whatever root is returned is nil, a *Dict or an *Array |
| TreeValues.FillDictShape | dict.go:51-55 | the loop of createDict gives a dict when it finishes |
| TreeValues.FillDictReturns | dict.go:51-55 | the loop finishes exactly when no remaining value's conversion panics |
| TreeValues.FillDictAppends | dict.go:51-55 | the loop appends the remaining sorted keys to the ordering, each with its converted value |
| TreeValues.CreateDictReturns | dict.go:51-54 | createDict panics exactly when the conversion of one of the map's values does |
| TreeValues.CreateDictSorted | dict.go:42-54 | the dict made from a map has its keys in ascending order, exactly the map's keys, each with its converted value |
| TreeValues.CreateDictConsistent | dict.go:42-54 | a dict made by createDict has each of its keys once in its ordering |
| TreeValues.FillArrayKeeps | array.go:16-19 | the loop of createArray keeps the items already converted and converts the rest in order |
| TreeValues.CreateArrayInOrder | array.go:14-21 | createArray returns exactly when every item converts; the array holds the conversions in order, and the first item that panics decides the panic |
| TreeValues.ValueOfConverted | plist.go:118-138 | a converted string, bool or float is itself; a signed integer reports itself, except that zero is reported as unsigned 0; an unsigned integer reports itself |
| TreeValues.CreateKeepsElements | plist.go:108-110 | a value that already is an element is kept as it is |
| TreeValues.RootRules | plist.go:80-94 | an element root is checked as is; a map or slice is converted first; a scalar root panics with "root element must be a *Dict or *Array"; dates and bytes panic as unsupported |
| TreeMarshal.AppendsTwice | dict.go:93-112 | two marshal steps in a row only append to the output |
| TreeMarshal.LeafOp | integer.go:19-24 | an integer is an `<integer>` holding the decimal of the value it reports; a bool is an empty `<true>`/`<false>` element; a string is its text in `<string>`; a real is a `<real>` element |
| TreeMarshal.WriteOne | bool.go:16-23 | one write attempt; its error is returned, never a panic, and on success the element is logged |
| TreeMarshal.MarshalElem | dict.go:93-112 | marshalling only appends to the output, and an error returned is the failing write's |
| TreeMarshal.MarshalEntries | dict.go:98-111 | the key-value loop only appends to the output |
| TreeMarshal.MarshalItems | array.go:43-53 | the element loop only appends to the output |
| TreeMarshal.MarshalRenders | dict.go:93-112 | against a writer that does not fail, marshal returns nil having written exactly the rendering (start tag, each key and value in ordering, end tag), and panics exactly when the tree holds a nil element |
| TreeMarshal.EntriesRender | dict.go:98-111 | the dict loop writes `<key>` and the value for each key in ordering, in that order |
| TreeMarshal.ItemsRender | array.go:43-53 | the array loop writes each element in order |
| TreeMarshal.LeafAsStreamed | integer.go:19-24 | a leaf of the tree is written exactly as the streaming encoder writes the same value; a plistInt uses writeInt exactly when its value is signed |
| TreeMarshal.MarshalValue | dict.go:93-112 | the method with loops does what MarshalElem says |
| TreeContainers.Dict.Element | dict.go:10-13 | the element of a dict is its map and its ordering |
| TreeContainers.Dict.constructor | dict.go:20-24 | NewEmptyDict: an empty map and an empty ordering |
| TreeContainers.Dict.Set | dict.go:62-70 | the value is converted first, so a value that cannot be converted panics with the dict unchanged; otherwise the dict becomes Put of the element and nil is returned |
| TreeContainers.Dict.Assign | dict.go:65-68 | the map and ordering become Put of the element, keeping each key once in the ordering |
| TreeContainers.Dict.Get | dict.go:72-77 | a missing key gives (nil, false); a present key gives its element's value |
| TreeContainers.Dict.Keys | dict.go:79-83 | a copy of the ordering: every key of the map exactly once, in the order first set |
| TreeContainers.Dict.Marshal | dict.go:93-112 | the method does what MarshalElem says for the dict |
| TreeContainers.Array.Element | array.go:8-10 | the element of an array is its slice |
| TreeContainers.Array.constructor | array.go:8-10 | the zero Array holds no elements |
| TreeContainers.Array.Sized | array.go:15 | the array createArray starts from holds length nil elements |
| TreeContainers.Array.Get | array.go:23-25 | the value of the element at index; an index outside the slice panics |
| TreeContainers.Array.Append | array.go:27-29 | the converted value becomes the new last element and the others stay; a value that cannot be converted panics with the array unchanged |
| TreeContainers.Array.Set | array.go:31-33 | conversion panics come first, then an index outside the slice panics; otherwise only that index changes |
| TreeContainers.Array.Value | array.go:35-41 | a slice of the same length as the array, equal to Value of its element |
| TreeContainers.Array.Marshal | array.go:43-53 | the method does what MarshalElem says for the array |
| TreeContainers.CreatePlistElement | plist.go:105-147 | the method does what Create says: nil, strings, bools, signed and unsigned integers, floats, maps and slices convert; dates, bytes and other types panic |
| TreeContainers.CreateDict | dict.go:33-56 | the map's keys are collected, sorted and Set in that order, giving the dict DictFrom describes |
| TreeContainers.MapKeys | dict.go:42-46 | every key of the map exactly once |
| TreeContainers.CreateArray | array.go:14-21 | each item is converted into its index, in order, giving the array Create describes |
| TreePlist.Header | plist.go:52-78 | seven writes; the errors of the two Fprintln newlines are dropped; any other failure stops the header and is returned |
| TreePlist.Document | plist.go:34-50 | a root panic happens before anything is written; otherwise Marshal only appends to the output |
| TreePlist.EncodeHeader | plist.go:52-78 | the method does what Header says |
| TreePlist.GetOrCreateRootElement | plist.go:80-94 | the method does what Root says |
| TreePlist.Marshal | plist.go:34-50 | the method does what Document says |
| TreePlist.HeaderAsStreamed | plist.go:52-78 | against a writer that does not fail, the header is the streaming encoder's header followed by `<plist version="1.0">` |
| TreePlist.DocumentRenders | plist.go:34-50 | against a writer that does not fail: header, the root's rendering (nothing for nil), `</plist>` and a flush; it panics when the root has no rendering |
| TreePlist.MarshalNil | plist_test.go:10-20 | Marshal(nil) gives the two header lines and `<plist version="1.0"></plist>` |
| TreePlist.NewlineFailureIgnored | plist.go:63 | a failing newline does not stop Marshal, which returns nil, while the streaming encoder fails on the same write |
| TreeTraces.ThreeKeysSorted | dict_test.go:10-33 | the keys c, a, b sort as a, b, c |
| TreeTraces.ThreeKeyMap | dict_test.go:10-33 | a dict made from a map with keys c, a, b has the ordering a, b, c |
| TreeTraces.KeysFromMapSorted | dict_test.go:10-33 | NewDictFromMap of such a map gives Keys a, b, c |
| TreeTraces.KeysAddedInOrder | dict_test.go:35-57 | Set of c, b, a gives Keys c, b, a and the map of the three integers |

## Left out

- The XML tokenizer, indentation and escaping of `encoding/xml` are not modelled. A document is a given token sequence, and the writer logs tokens and elements, not bytes.
- Floating-point parsing and printing, RFC 3339 dates and base64 are parameters, bundled as a `Library` value. Every statement about reals, dates and data holds for whatever those routines do.
- The writer's errors are an oracle: a set of failing attempt numbers. A failed write is taken to write nothing. The buffering inside `xml.Encoder` (bytes reaching the writer only on flush) is not modelled.
- Sink.Attempt: the oracle does not make a failure sticky. An `xml.Encoder` keeps the first error of its buffer and returns it from every later `EncodeToken`, `EncodeElement` and `Flush`, while the raw `fmt.Fprintln` newline bypasses it. The model covers such a writer only through the failing set: from its first failure on, every later attempt is in the set (EncoderSpec.Broken, used by RunOnBrokenWriter and IgnoredErrorsStillFail). Even then each failure is reported as `WriteFailed` of its own attempt number, where Go returns the first error again.
- The end-tag check of `xml.Encoder.EncodeToken` is not modelled. In Go an end tag that does not match the innermost open start tag is an error of its own; this can happen when a nested container's start tag failed and the callback went on.
- The reflection writers `arrayWriter` and `mapWriter` (xml/base_encoder.go:171-198) are not modelled as code. The callbacks they build are scripts given to `Encode`, so map iteration order and the non-string-key error of `mapWriter` are outside the model. `structWriter` is modelled as PlistEncoder.StructWriter, with each field's value given as an item rather than found by reflection.
- KeyForField: the parsing of the struct tag by `reflect.StructTag.Get` is not modelled. The tag value is a parameter.
- The names `e.e` and `writeArray`/`writeDict` in xml/array_encoder.go and xml/dict_encoder.go are read as the base encoder's `xmlEncoder` and `writeArrayFunc`/`writeDictFunc`.
- The encoders' panics are returned as a status. Nothing after a panic is modelled.
- Strings are sequences of Unicode code points. StringOrder.Less compares code points, which orders keys as Go's byte-wise comparison does only when they are valid UTF-8; map keys that are not valid UTF-8 are not modelled.
- Nested `*Dict`/`*Array` values are stored as values. Aliasing, where a container is changed after being stored in another, is not captured.
- TreeValues.Value: a non-empty dict's `value` always panics (assignment into its nil map). Go may first panic inside an element's own `value`, and which element comes first depends on map iteration order. The model reports the nil-map panic in every case.
- The type names printed in the "cannot create dict from" and "plist values not supported" panics are reduced to a type-name string. `NewDictFromMap(nil)` panicking inside `reflect` is not modelled.
- Only `NewEmptyDict` is modelled. The zero `Dict{}`, whose nil map panics on its first `Set`, is not.
- A typed nil `*Dict` or `*Array` passed to `Marshal` is not modelled.
- The full outputs of TestDictRoot and TestArrayRoot (plist_test.go:22-90) are not traced, because their reals are library parameters. Their header and key order are covered by TreePlist.DocumentRenders and TreeTraces.
