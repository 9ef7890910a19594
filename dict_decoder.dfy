/**
  dictDecoder: the rules for the inside of a <dict>. Each NextValue reads
  either a whole entry, <key> text and then one value by the base rules,
  or the closing </dict>; anything else that is neither a comment nor
  blank text is an error.
*/
module DictDecoder {
  import opened Wrappers
  import opened XmlTokens
  import opened Errors
  import opened Library
  import opened Vocabulary
  import opened TokenCursor
  import opened DecodedValues
  import opened DecoderFrames
  import opened BaseDecoder

  /** finishReadingEntry, right after a <key> start tag: the key text, then one value. */
  function EntryStep(lib: Library, s: Stream, pos: nat): (r: Step<Event>)
    requires pos <= |s.tokens|
    ensures pos <= r.pos <= |s.tokens|
    ensures r.result.Success? ==> r.result.value.Entry?
  {
    var k := ReadCharData(s, pos, KeyName, "");
    if k.result.Failure? then Step(Failure(k.result.error), k.pos)
    else WithKey(k.result.value, BaseStep(lib, s, k.pos))
  }

  /** The entry for key once its value has been read, or the error reading the value. */
  function WithKey(key: string, v: Step<Event>): (r: Step<Event>)
    ensures r.pos == v.pos && (r.result.Success? <==> v.result.Success?)
    ensures r.result.Success? ==> r.result.value == Entry(key, v.result.value)
    ensures r.result.Failure? ==> r.result.error == v.result.error
  {
    if v.result.Failure? then Step(Failure(v.result.error), v.pos)
    else Step(Success(Entry(key, v.result.value)), v.pos)
  }

  /** (*dictDecoder).NextValue, with the handles it returns forgotten. */
  function DictStep(lib: Library, s: Stream, pos: nat): (r: Step<Event>)
    requires pos <= |s.tokens|
    ensures pos <= r.pos <= |s.tokens|
    ensures r.result.Success? ==> r.result.value.Entry? || r.result.value.EndDecodingContainer?
  {
    var t := NextInteresting(s, pos);
    if t.result.Failure? then Step(Failure(t.result.error), t.pos)
    else
      var token := t.result.value;
      if token.StartElement? && token.name == KeyName then EntryStep(lib, s, t.pos)
      else if token.EndElement? && token.name == DictName then Step(Success(EndDecodingContainer), t.pos)
      else Step(Failure(ExpectedKeyOrDictEnd(token)), t.pos)
  }

  /** finishReadingKey: the char data up to </key>. */
  method FinishReadingKey(c: Cursor) returns (r: Result<string, Error>)
    requires c.Valid()
    modifies c
    ensures c.Valid()
    ensures Step(r, c.pos) == ReadCharData(c.stream, old(c.pos), KeyName, "")
  {
    r := ReadCharDataUntilEnd(c, KeyName);
  }

  /**
    (*dictDecoder).finishReadingEntry on frame f. The value is read by the
    frame's embedded base decoder, so a container value's decoder has f,
    seen as a *baseDecoder, for its parent.
  */
  method FinishReadingEntry(f: DecoderFrame, lib: Library) returns (r: Result<Value<ContainerDecoder>, Error>)
    requires f.cursor.Valid()
    modifies f.cursor
    ensures f.cursor.Valid()
    ensures Step(ShapeOf(r), f.cursor.pos) == EntryStep(lib, f.cursor.stream, old(f.cursor.pos))
    ensures r.Success? ==> r.value.Entry?
    ensures r.Success? && r.value.value.NewArray? ==>
      fresh(r.value.value.arrayDecoder.frame) && r.value.value.arrayDecoder.frame.parent == Some(Base(f))
    ensures r.Success? && r.value.value.NewDict? ==>
      fresh(r.value.value.dictDecoder.frame) && r.value.value.dictDecoder.frame.parent == Some(Base(f))
  {
    var key := FinishReadingKey(f.cursor);
    if key.Failure? {
      return Failure(key.error);
    }
    var value := BaseNextValue(f, lib);
    if value.Failure? {
      return Failure(value.error);
    }
    return Success(Entry(key.value, value.value));
  }

  /**
    (*dictDecoder).NextValue on frame f. Its for loop returns on every
    path of its first iteration, so it is written here without one.
  */
  method DictNextValue(f: DecoderFrame, lib: Library) returns (r: Result<Value<ContainerDecoder>, Error>)
    requires f.cursor.Valid()
    modifies f.cursor
    ensures f.cursor.Valid()
    ensures Step(ShapeOf(r), f.cursor.pos) == DictStep(lib, f.cursor.stream, old(f.cursor.pos))
    ensures r.Success? && r.value.Entry? && r.value.value.NewArray? ==>
      fresh(r.value.value.arrayDecoder.frame) && r.value.value.arrayDecoder.frame.parent == Some(Base(f))
    ensures r.Success? && r.value.Entry? && r.value.value.NewDict? ==>
      fresh(r.value.value.dictDecoder.frame) && r.value.value.dictDecoder.frame.parent == Some(Base(f))
  {
    var t := NextInterestingToken(f.cursor);
    if t.Failure? {
      return Failure(t.error);
    }
    var token := t.value;
    if token.StartElement? && token.name == KeyName {
      r := FinishReadingEntry(f, lib);
      return;
    }
    if token.EndElement? && token.name == DictName {
      return Success(EndDecodingContainer);
    }
    return Failure(ExpectedKeyOrDictEnd(token));
  }

  /**
    A <key> as the first token that is neither a comment nor blank starts
    an entry: its text is the key and the value is whatever the base rules
    read right after </key>.
  */
  lemma DictEntryRead(lib: Library, s: Stream, pos: nat, q: nat, j: nat)
    requires FirstInterestingAt(s, pos, q) && s.tokens[q].StartElement? && s.tokens[q].name == KeyName
    requires q < j < |s.tokens| && s.tokens[j] == EndElement(KeyName) && NoEndTagIn(s.tokens, q + 1, j)
    ensures DictStep(lib, s, pos) == WithKey(CharText(s.tokens[q + 1..j]), BaseStep(lib, s, j + 1))
  {
    DictStepAtKey(lib, s, pos, q);
    EntryStepFinds(lib, s, q + 1, j);
  }

  lemma DictStepAtKey(lib: Library, s: Stream, pos: nat, q: nat)
    requires FirstInterestingAt(s, pos, q) && s.tokens[q].StartElement? && s.tokens[q].name == KeyName
    ensures DictStep(lib, s, pos) == EntryStep(lib, s, q + 1)
  {
    NextInterestingFinds(s, pos, q);
  }

  /** finishReadingEntry with the key's end tag at j: the key is the char data before it. */
  lemma EntryStepFinds(lib: Library, s: Stream, pos: nat, j: nat)
    requires pos <= j < |s.tokens| && s.tokens[j] == EndElement(KeyName) && NoEndTagIn(s.tokens, pos, j)
    ensures EntryStep(lib, s, pos) == WithKey(CharText(s.tokens[pos..j]), BaseStep(lib, s, j + 1))
  {
    ReadTextFinds(s, pos, j, KeyName);
  }

  /** </dict> as the first token that is neither a comment nor blank ends the dict. */
  lemma DictEnd(lib: Library, s: Stream, pos: nat, q: nat)
    requires FirstInterestingAt(s, pos, q) && s.tokens[q] == EndElement(DictName)
    ensures DictStep(lib, s, pos) == Step(Success(EndDecodingContainer), q + 1)
  {
    NextInterestingFinds(s, pos, q);
  }

  /**
    Any other token that is neither a comment nor blank text, a value
    without its key, text, or another end tag, is an error naming it.
  */
  lemma DictRejects(lib: Library, s: Stream, pos: nat, q: nat)
    requires FirstInterestingAt(s, pos, q)
    requires !(s.tokens[q].StartElement? && s.tokens[q].name == KeyName)
    requires s.tokens[q] != EndElement(DictName)
    ensures DictStep(lib, s, pos) == Step(Failure(ExpectedKeyOrDictEnd(s.tokens[q])), q + 1)
  {
    NextInterestingFinds(s, pos, q);
  }

  /**
    A key right before </dict> takes the dict's end tag for its value:
    the entry comes back with EndDecodingContainer as its value and the
    </dict> is consumed.
  */
  lemma DictKeyWithoutValue(lib: Library, s: Stream, pos: nat, q: nat)
    requires pos <= q && q + 4 <= |s.tokens|
    requires forall i :: pos <= i < q ==> Skippable(s.tokens[i])
    requires s.tokens[q] == StartElement(KeyName, []) && s.tokens[q + 1].CharData?
    requires s.tokens[q + 2] == EndElement(KeyName) && s.tokens[q + 3] == EndElement(DictName)
    ensures DictStep(lib, s, pos) ==
      Step(Success(Entry(s.tokens[q + 1].text, EndDecodingContainer)), q + 4)
  {
    assert s.tokens[q + 1..q + 2] == [s.tokens[q + 1]];
    assert CharText(s.tokens[q + 1..q + 2]) == s.tokens[q + 1].text;
    assert FirstElementAt(s, q + 3, q + 3);
    BaseEndTag(lib, s, q + 3, q + 3);
    DictEntryRead(lib, s, pos, q, q + 2);
  }
}
