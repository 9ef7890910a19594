/**
  The decoder on the token streams of the package's own test documents,
  and on two documents that show how the stack of decoders behaves.
  Whitespace between elements is blank char data; a self-closing tag is
  a start tag followed by its end tag.
*/
module DecoderTraces {
  import opened Wrappers
  import opened XmlTokens
  import opened Strconv
  import opened Errors
  import opened Library
  import opened Vocabulary
  import opened TokenCursor
  import opened DecodedValues
  import opened BaseDecoder
  import opened DictDecoder
  import opened PlistDecoder

  function Doc(tokens: seq<Token>): Stream
  {
    Stream(tokens, EOF)
  }

  /** <string>foo</string>: the string, then io.EOF. */
  lemma DecodeStringDocument(lib: Library)
    ensures var s := Doc([XmlElement("string"), CharData("foo"), EndElement(StringName)]);
      BaseStep(lib, s, 0) == Step(Success(Scalar(String("foo"))), 3) &&
      BaseStep(lib, s, 3) == Step(Failure(EOF), 3)
  {
    var s := Doc([XmlElement("string"), CharData("foo"), EndElement(StringName)]);
    assert s.tokens[1..2] == [CharData("foo")];
    assert CharText(s.tokens[1..2]) == "foo";
    BaseTextLeaf(lib, s, 0, 0, 2);
  }

  /** <true/> and <true></true>: true, then io.EOF; <false/>: false. */
  lemma DecodeBoolDocuments(lib: Library)
    ensures var s := Doc([XmlElement("true"), EndElement(TrueName)]);
      BaseStep(lib, s, 0) == Step(Success(Scalar(Bool(true))), 2) &&
      BaseStep(lib, s, 2) == Step(Failure(EOF), 2)
    ensures var s := Doc([XmlElement("false"), EndElement(FalseName)]);
      BaseStep(lib, s, 0) == Step(Success(Scalar(Bool(false))), 2)
  {
    BaseBoolLeaf(lib, Doc([XmlElement("true"), EndElement(TrueName)]), 0, 0, 1);
    BaseBoolLeaf(lib, Doc([XmlElement("false"), EndElement(FalseName)]), 0, 0, 1);
  }

  function IntegerDoc(text: string): Stream
  {
    Doc([XmlElement("integer"), CharData(text), EndElement(IntegerName)])
  }

  lemma IntegerDocument(lib: Library, text: string)
    ensures BaseStep(lib, IntegerDoc(text), 0) == Step(LiftLeaf(DecodeInteger(text)), 3)
  {
    var s := IntegerDoc(text);
    assert s.tokens[1..2] == [CharData(text)];
    assert CharText(s.tokens[1..2]) == text;
    BaseTextLeaf(lib, s, 0, 0, 2);
  }

  /**
    <integer>42</integer>, <integer>-42</integer>, one past the int64
    maximum, and <integer>foo</integer>.
  */
  lemma DecodeIntegerDocuments(lib: Library)
    ensures BaseStep(lib, IntegerDoc(DecimalText(42)), 0) == Step(Success(Scalar(Int64(42))), 3)
    ensures BaseStep(lib, IntegerDoc(DecimalText(-42)), 0) == Step(Success(Scalar(Int64(-42))), 3)
    ensures BaseStep(lib, IntegerDoc(DecimalText(MaxInt64 + 1)), 0) ==
      Step(Success(Scalar(Uint64(MaxInt64 + 1))), 3)
    ensures BaseStep(lib, IntegerDoc("foo"), 0) ==
      Step(Failure(NumErr(NumError("ParseInt", "foo", ErrSyntax))), 3)
  {
    IntegerDocument(lib, DecimalText(42));
    DecodeIntegerOfDecimalText(42);
    IntegerDocument(lib, DecimalText(-42));
    DecodeIntegerOfDecimalText(-42);
    IntegerDocument(lib, DecimalText(MaxInt64 + 1));
    DecodeIntegerOfDecimalText(MaxInt64 + 1);
    IntegerDocument(lib, "foo");
    DecodeIntegerRejectsText();
  }

  /** <array></array>: a new array decoder, whose next value ends it, and then io.EOF. */
  lemma DecodeArrayDocument(lib: Library)
    ensures var s := Doc([XmlElement("array"), EndElement(ArrayName)]);
      BaseStep(lib, s, 0) == Step(Success(NewArray(())), 1) &&
      BaseStep(lib, s, 1) == Step(Success(EndDecodingContainer), 2) &&
      BaseStep(lib, s, 2) == Step(Failure(EOF), 2)
  {
    var s := Doc([XmlElement("array"), EndElement(ArrayName)]);
    BaseContainerStart(lib, s, 0, 0);
    BaseEndTag(lib, s, 1, 1);
  }

  /** <dict></dict>: a new dict decoder, whose next value ends it, and then io.EOF. */
  lemma DecodeDictDocument(lib: Library)
    ensures var s := Doc([XmlElement("dict"), EndElement(DictName)]);
      BaseStep(lib, s, 0) == Step(Success(NewDict(())), 1) &&
      DictStep(lib, s, 1) == Step(Success(EndDecodingContainer), 2) &&
      BaseStep(lib, s, 2) == Step(Failure(EOF), 2)
  {
    var s := Doc([XmlElement("dict"), EndElement(DictName)]);
    BaseContainerStart(lib, s, 0, 0);
    DictEnd(lib, s, 1, 1);
  }

  /** The dict with the one entry foo = bar, laid out over several lines. */
  const DictEntriesDoc := Doc([
    XmlElement("dict"), CharData("\n\t\t"),
    XmlElement("key"), CharData("foo"), EndElement(KeyName), CharData("\n\t\t"),
    XmlElement("string"), CharData("bar"), EndElement(StringName), CharData("\n\t"),
    EndElement(DictName)])

  lemma DictEntriesValue(lib: Library)
    ensures BaseStep(lib, DictEntriesDoc, 5) == Step(Success(Scalar(String("bar"))), 9)
  {
    var s := DictEntriesDoc;
    assert s.tokens[7..8] == [CharData("bar")];
    assert CharText(s.tokens[7..8]) == "bar";
    BaseTextLeaf(lib, s, 5, 6, 8);
  }

  /** The dict decoder answers the entry foo = bar, then the end of the dict. */
  lemma DecodeDictEntriesDocument(lib: Library)
    ensures BaseStep(lib, DictEntriesDoc, 0) == Step(Success(NewDict(())), 1)
    ensures DictStep(lib, DictEntriesDoc, 1) == Step(Success(Entry("foo", Scalar(String("bar")))), 9)
    ensures DictStep(lib, DictEntriesDoc, 9) == Step(Success(EndDecodingContainer), 11)
  {
    BaseContainerStart(lib, DictEntriesDoc, 0, 0);
    DictEntriesEntry(lib);
    DictEntriesEnd(lib);
  }

  lemma DictEntriesEntry(lib: Library)
    ensures DictStep(lib, DictEntriesDoc, 1) == Step(Success(Entry("foo", Scalar(String("bar")))), 9)
  {
    var s := DictEntriesDoc;
    assert s.tokens[3..4] == [CharData("foo")];
    assert CharText(s.tokens[3..4]) == "foo";
    assert FirstInterestingAt(s, 1, 2) by {
      assert IsBlank(s.tokens[1].text);
    }
    DictEntriesValue(lib);
    DictEntryRead(lib, s, 1, 2, 4);
  }

  lemma DictEntriesEnd(lib: Library)
    ensures DictStep(lib, DictEntriesDoc, 9) == Step(Success(EndDecodingContainer), 11)
  {
    var s := DictEntriesDoc;
    assert FirstInterestingAt(s, 9, 10) by {
      assert IsBlank(s.tokens[9].text);
    }
    DictEnd(lib, s, 9, 10);
  }

  /** The empty-array property list of the decoder's tests, header and all. */
  const EmptyArrayPlist := Doc([
    Declaration, CharData("\n"), Doctype, CharData("\n"),
    PlistStart, CharData("\n\t"),
    XmlElement("array"), CharData("\n\t"), EndElement(ArrayName), CharData("\n"),
    EndElement(PlistName)])

  /** StartDecodingArray, then EndDecodingContainer, then io.EOF. */
  lemma DecodeEmptyArrayPlist(lib: Library)
    ensures Run(lib, EmptyArrayPlist, 0, Closed, 3).results ==
      [Success(StartDecodingArray), Success(EndDecodingContainer), Failure(EOF)]
  {
    var s := EmptyArrayPlist;
    EmptyArrayPlistOpens(lib);
    EmptyArrayPlistCloses(lib);
    ClosedAtEnd(lib, s, 9);
    ThreeCalls(lib, s, Closed, DriverStep(lib, s, 0, Closed), DriverStep(lib, s, 7, Open(0, BaseRules)),
               DriverStep(lib, s, 9, Closed));
  }

  /** Three calls of NextValue in a row, given what each one does. */
  lemma ThreeCalls(lib: Library, s: Stream, st: DecoderState, a: Outcome, b: Outcome, c: Outcome)
    requires DriverStep(lib, s, 0, st) == a
    requires DriverStep(lib, s, a.pos, a.state) == b
    requires DriverStep(lib, s, b.pos, b.state) == c
    ensures Run(lib, s, 0, st, 3).results == [a.result, b.result, c.result]
  {
    assert Run(lib, s, b.pos, b.state, 1).results == [c.result];
  }

  lemma EmptyArrayPlistOpens(lib: Library)
    ensures DriverStep(lib, EmptyArrayPlist, 0, Closed) == Outcome(Success(StartDecodingArray), 7, Open(0, BaseRules))
  {
    OpenRootFinds(EmptyArrayPlist, 0, 4, 6);
  }

  lemma EmptyArrayPlistCloses(lib: Library)
    ensures DriverStep(lib, EmptyArrayPlist, 7, Open(0, BaseRules)) == Outcome(Success(EndDecodingContainer), 9, Closed)
  {
    var s := EmptyArrayPlist;
    assert FirstElementAt(s, 7, 8);
    BaseEndTag(lib, s, 7, 8);
  }

  /**
    A dict entry whose value is an array: the decoder hands the entry
    back with the array's decoder inside and does not make that decoder
    current, so its next call asks the dict for a key and fails on the
    array's end tag.
  */
  const DictHoldingArray := Doc([
    PlistStart, XmlElement("dict"),
    XmlElement("key"), CharData("k"), EndElement(KeyName),
    XmlElement("array"), EndElement(ArrayName),
    EndElement(DictName), EndElement(PlistName)])

  lemma DecodeDictHoldingArray(lib: Library)
    ensures Run(lib, DictHoldingArray, 0, Closed, 3).results ==
      [Success(StartDecodingDict), Success(Entry("k", NewArray(()))),
       Failure(ExpectedKeyOrDictEnd(EndElement(ArrayName)))]
  {
    var s := DictHoldingArray;
    OpenRootFinds(s, 0, 0, 1);
    var o1 := DriverStep(lib, s, 0, Closed);
    assert o1 == Outcome(Success(StartDecodingDict), 2, Open(0, DictRules));
    DictHoldingArrayEntry(lib);
    var o2 := DriverStep(lib, s, 2, o1.state);
    assert o2 == Outcome(Success(Entry("k", NewArray(()))), 6, Open(0, DictRules));
    assert FirstInterestingAt(s, 6, 6);
    DictRejects(lib, s, 6, 6);
    ThreeCalls(lib, s, Closed, o1, o2, DriverStep(lib, s, 6, o2.state));
  }

  lemma DictHoldingArrayEntry(lib: Library)
    ensures DictStep(lib, DictHoldingArray, 2) == Step(Success(Entry("k", NewArray(()))), 6)
  {
    var s := DictHoldingArray;
    assert s.tokens[3..4] == [CharData("k")];
    assert CharText(s.tokens[3..4]) == "k";
    BaseContainerStart(lib, s, 5, 5);
    DictEntryRead(lib, s, 2, 2, 4);
  }
}
