/**
  baseDecoder: the rules a decoder frame follows for the value after the
  current position of the shared token reader. The next start or end tag
  decides: a leaf start tag is read through to its end tag and decoded,
  an <array> or <dict> start tag yields a fresh child decoder, any end
  tag yields EndDecodingContainer, and any other start tag is an error.
*/
module BaseDecoder {
  import opened Wrappers
  import opened XmlTokens
  import opened Strconv
  import opened Errors
  import opened Library
  import opened Vocabulary
  import opened TokenCursor
  import opened DecodedValues
  import opened DecoderFrames

  /**
    finishReadingReal once the text is read: a float64, or a big.Float
    when and only when the float64 parse reports ErrRange.
  */
  function DecodeReal(lib: Library, raw: string): (r: Result<Leaf, Error>)
    ensures lib.parseFloat(raw).Success? ==> r == Success(Real(lib.parseFloat(raw).value))
    ensures lib.parseFloat(raw).Failure? && lib.parseFloat(raw).error.err == ErrSyntax ==>
      r == Failure(NumErr(lib.parseFloat(raw).error))
    ensures r.Success? && r.value.BigReal? ==>
      lib.parseFloat(raw).Failure? && lib.parseFloat(raw).error.err == ErrRange &&
      lib.parseBigFloat(raw) == Success(r.value.bigFloat)
  {
    match lib.parseFloat(raw)
    case Success(f) => Success(Real(f))
    case Failure(e) =>
      if !IsErrOutOfRange(NumErr(e)) then Failure(NumErr(e))
      else
        match lib.parseBigFloat(raw)
        case Success(b) => Success(BigReal(b))
        case Failure(e2) => Failure(e2)
  }

  /** finishReadingDate once the text is read: time.Parse with the RFC 3339 layout. */
  function DecodeDate(lib: Library, raw: string): (r: Result<Leaf, Error>)
    ensures r.Success? <==> lib.parseTime(raw).Success?
    ensures r.Success? ==> r.value == Date(lib.parseTime(raw).value)
    ensures r.Failure? ==> r.error == lib.parseTime(raw).error
  {
    match lib.parseTime(raw)
    case Success(t) => Success(Date(t))
    case Failure(e) => Failure(e)
  }

  /** finishReadingData once the text is read: the whole standard base64 decoding. */
  function DecodeData(lib: Library, raw: string): (r: Result<Leaf, Error>)
    ensures r.Success? <==> lib.decodeBase64(raw).Success?
    ensures r.Success? ==> r.value == Data(lib.decodeBase64(raw).value)
    ensures r.Failure? ==> r.error == lib.decodeBase64(raw).error
  {
    match lib.decodeBase64(raw)
    case Success(b) => Success(Data(b))
    case Failure(e) => Failure(e)
  }

  /** The leaves whose content is read as text: all but <true> and <false>. */
  predicate IsTextLeaf(name: Name)
  {
    name == StringName || name == IntegerName || name == RealName ||
    name == DateName || name == DataName
  }

  /** The seven leaf names the dispatch of NextValue recognises. */
  predicate IsLeafName(name: Name)
  {
    IsTextLeaf(name) || name == TrueName || name == FalseName
  }

  lemma LeafNamesAreTheLeaves(name: Name)
    ensures IsLeafName(name) <==> name in LeafNames()
  {
  }

  /** How the text of a text leaf becomes a value. */
  function DecodeText(lib: Library, name: Name, raw: string): Result<Leaf, Error>
    requires IsTextLeaf(name)
  {
    if name == StringName then Success(String(raw))
    else if name == IntegerName then DecodeInteger(raw)
    else if name == RealName then DecodeReal(lib, raw)
    else if name == DateName then DecodeDate(lib, raw)
    else DecodeData(lib, raw)
  }

  /**
    The finishReading function for the leaf named name, run right after
    its start tag: <true> and <false> pass over everything up to their
    own end tag; the others read the char data up to theirs and decode it.
  */
  function FinishLeaf(lib: Library, s: Stream, pos: nat, name: Name): (r: Step<Leaf>)
    requires pos <= |s.tokens| && IsLeafName(name)
    ensures pos <= r.pos <= |s.tokens|
    ensures r.result.Success? ==> pos < r.pos && s.tokens[r.pos - 1] == EndElement(name)
  {
    if name == TrueName || name == FalseName then
      var b := ReadBool(s, pos, name == TrueName, name);
      Step(if b.result.Success? then Success(Bool(b.result.value)) else Failure(b.result.error), b.pos)
    else
      var t := ReadCharData(s, pos, name, "");
      Step(if t.result.Success? then DecodeText(lib, name, t.result.value) else Failure(t.result.error), t.pos)
  }

  function LiftLeaf(r: Result<Leaf, Error>): Result<Event, Error>
  {
    if r.Success? then Success(Scalar(r.value)) else Failure(r.error)
  }

  /** (*baseDecoder).NextValue, with the handles it returns forgotten. */
  function BaseStep(lib: Library, s: Stream, pos: nat): (r: Step<Event>)
    requires pos <= |s.tokens|
    ensures pos <= r.pos <= |s.tokens|
    ensures r.result.Success? ==> pos < r.pos
  {
    var t := NextStartOrEnd(s, pos);
    if t.result.Failure? then Step(Failure(t.result.error), t.pos)
    else
      var token := t.result.value;
      if token.EndElement? then Step(Success(EndDecodingContainer), t.pos)
      else if token.StartElement? && IsLeafName(token.name) then
        var l := FinishLeaf(lib, s, t.pos, token.name);
        Step(LiftLeaf(l.result), l.pos)
      else if token.StartElement? && token.name == ArrayName then Step(Success(NewArray(())), t.pos)
      else if token.StartElement? && token.name == DictName then Step(Success(NewDict(())), t.pos)
      else Step(Failure(InvalidElement(token)), t.pos)
  }

  method FinishReadingString(c: Cursor, lib: Library) returns (r: Result<Leaf, Error>)
    requires c.Valid()
    modifies c
    ensures c.Valid()
    ensures Step(r, c.pos) == FinishLeaf(lib, c.stream, old(c.pos), StringName)
  {
    var raw := ReadCharDataUntilEnd(c, StringName);
    if raw.Failure? {
      return Failure(raw.error);
    }
    return Success(String(raw.value));
  }

  method FinishReadingInteger(c: Cursor, lib: Library) returns (r: Result<Leaf, Error>)
    requires c.Valid()
    modifies c
    ensures c.Valid()
    ensures Step(r, c.pos) == FinishLeaf(lib, c.stream, old(c.pos), IntegerName)
  {
    var raw := ReadCharDataUntilEnd(c, IntegerName);
    if raw.Failure? {
      return Failure(raw.error);
    }
    var signed := ParseInt(raw.value);
    if signed.Success? {
      return Success(Int64(signed.value));
    } else if !IsErrOutOfRange(NumErr(signed.error)) {
      return Failure(NumErr(signed.error));
    }
    var unsigned := ParseUint(raw.value);
    if unsigned.Success? {
      return Success(Uint64(unsigned.value));
    } else if !IsErrOutOfRange(NumErr(unsigned.error)) {
      return Failure(NumErr(unsigned.error));
    }
    var big := BigSetString(raw.value);
    if big.Some? {
      return Success(BigInt(big.value));
    }
    return Failure(NotAnInteger(raw.value));
  }

  method FinishReadingReal(c: Cursor, lib: Library) returns (r: Result<Leaf, Error>)
    requires c.Valid()
    modifies c
    ensures c.Valid()
    ensures Step(r, c.pos) == FinishLeaf(lib, c.stream, old(c.pos), RealName)
  {
    var raw := ReadCharDataUntilEnd(c, RealName);
    if raw.Failure? {
      return Failure(raw.error);
    }
    var float := lib.parseFloat(raw.value);
    if float.Success? {
      return Success(Real(float.value));
    } else if !IsErrOutOfRange(NumErr(float.error)) {
      return Failure(NumErr(float.error));
    }
    var big := lib.parseBigFloat(raw.value);
    if big.Failure? {
      return Failure(big.error);
    }
    return Success(BigReal(big.value));
  }

  method FinishReadingDate(c: Cursor, lib: Library) returns (r: Result<Leaf, Error>)
    requires c.Valid()
    modifies c
    ensures c.Valid()
    ensures Step(r, c.pos) == FinishLeaf(lib, c.stream, old(c.pos), DateName)
  {
    var raw := ReadCharDataUntilEnd(c, DateName);
    if raw.Failure? {
      return Failure(raw.error);
    }
    var date := lib.parseTime(raw.value);
    if date.Failure? {
      return Failure(date.error);
    }
    return Success(Date(date.value));
  }

  method FinishReadingData(c: Cursor, lib: Library) returns (r: Result<Leaf, Error>)
    requires c.Valid()
    modifies c
    ensures c.Valid()
    ensures Step(r, c.pos) == FinishLeaf(lib, c.stream, old(c.pos), DataName)
  {
    var raw := ReadCharDataUntilEnd(c, DataName);
    if raw.Failure? {
      return Failure(raw.error);
    }
    var data := lib.decodeBase64(raw.value);
    if data.Failure? {
      return Failure(data.error);
    }
    return Success(Data(data.value));
  }

  /**
    (*baseDecoder).NextValue on frame f. A container start tag yields a
    fresh decoder of that kind whose parent is f seen as a *baseDecoder
    and which shares f's token reader.
  */
  method BaseNextValue(f: DecoderFrame, lib: Library) returns (r: Result<Value<ContainerDecoder>, Error>)
    requires f.cursor.Valid()
    modifies f.cursor
    ensures f.cursor.Valid()
    ensures Step(ShapeOf(r), f.cursor.pos) == BaseStep(lib, f.cursor.stream, old(f.cursor.pos))
    ensures r.Success? && r.value.NewArray? ==>
      r.value.arrayDecoder.ArrayDecoder? && fresh(r.value.arrayDecoder.frame) &&
      r.value.arrayDecoder.frame.parent == Some(Base(f)) && r.value.arrayDecoder.frame.cursor == f.cursor
    ensures r.Success? && r.value.NewDict? ==>
      r.value.dictDecoder.DictDecoder? && fresh(r.value.dictDecoder.frame) &&
      r.value.dictDecoder.frame.parent == Some(Base(f)) && r.value.dictDecoder.frame.cursor == f.cursor
  {
    var c := f.cursor;
    var t := NextStartOrEndElement(c);
    if t.Failure? {
      return Failure(t.error);
    }
    var token := t.value;
    if token.EndElement? {
      return Success(EndDecodingContainer);
    }
    if token.StartElement? {
      var leaf: Result<Leaf, Error>;
      if token.name == StringName {
        leaf := FinishReadingString(c, lib);
      } else if token.name == TrueName {
        var b := FinishReadingBool(c, true, TrueName);
        leaf := if b.Success? then Success(Bool(b.value)) else Failure(b.error);
      } else if token.name == FalseName {
        var b := FinishReadingBool(c, false, FalseName);
        leaf := if b.Success? then Success(Bool(b.value)) else Failure(b.error);
      } else if token.name == IntegerName {
        leaf := FinishReadingInteger(c, lib);
      } else if token.name == RealName {
        leaf := FinishReadingReal(c, lib);
      } else if token.name == DateName {
        leaf := FinishReadingDate(c, lib);
      } else if token.name == DataName {
        leaf := FinishReadingData(c, lib);
      } else if token.name == ArrayName {
        var d := NewArrayDecoder(Some(Base(f)), c);
        return Success(NewArray(d));
      } else if token.name == DictName {
        var d := NewDictDecoder(Some(Base(f)), c);
        return Success(NewDict(d));
      } else {
        return Failure(InvalidElement(token));
      }
      return if leaf.Success? then Success(Scalar(leaf.value)) else Failure(leaf.error);
    }
    return Failure(InvalidElement(token));
  }

  /** Any end tag, whatever its name, ends the container and is consumed. */
  lemma BaseEndTag(lib: Library, s: Stream, pos: nat, q: nat)
    requires FirstElementAt(s, pos, q) && s.tokens[q].EndElement?
    ensures BaseStep(lib, s, pos) == Step(Success(EndDecodingContainer), q + 1)
  {
    NextStartOrEndFinds(s, pos, q);
  }

  /** An <array> or <dict> start tag is consumed alone and yields a new container decoder. */
  lemma BaseContainerStart(lib: Library, s: Stream, pos: nat, q: nat)
    requires FirstElementAt(s, pos, q) && s.tokens[q].StartElement?
    requires s.tokens[q].name == ArrayName || s.tokens[q].name == DictName
    ensures BaseStep(lib, s, pos) ==
      Step(Success(if s.tokens[q].name == ArrayName then NewArray(()) else NewDict(())), q + 1)
  {
    NextStartOrEndFinds(s, pos, q);
  }

  /** A start tag that names no plist value is an invalid element. */
  lemma BaseInvalidStart(lib: Library, s: Stream, pos: nat, q: nat)
    requires FirstElementAt(s, pos, q) && s.tokens[q].StartElement?
    requires !IsLeafName(s.tokens[q].name) && s.tokens[q].name != ArrayName && s.tokens[q].name != DictName
    ensures BaseStep(lib, s, pos) == Step(Failure(InvalidElement(s.tokens[q])), q + 1)
  {
    NextStartOrEndFinds(s, pos, q);
  }

  /** With no start or end tag left, the reader's own error (io.EOF) is returned. */
  lemma BaseEndOfInput(lib: Library, s: Stream, pos: nat)
    requires pos <= |s.tokens|
    requires forall i :: pos <= i < |s.tokens| ==> !IsElement(s.tokens[i])
    ensures BaseStep(lib, s, pos) == Step(Failure(s.end), |s.tokens|)
  {
  }

  /**
    A text leaf decodes the concatenated char data between its start tag
    and its own end tag, comments and any other tokens in between left
    out, and consumes both tags.
  */
  lemma BaseTextLeaf(lib: Library, s: Stream, pos: nat, q: nat, j: nat)
    requires FirstElementAt(s, pos, q) && s.tokens[q].StartElement? && IsTextLeaf(s.tokens[q].name)
    requires q < j < |s.tokens| && s.tokens[j] == EndElement(s.tokens[q].name)
    requires NoEndTagIn(s.tokens, q + 1, j)
    ensures BaseStep(lib, s, pos) ==
      Step(LiftLeaf(DecodeText(lib, s.tokens[q].name, CharText(s.tokens[q + 1..j]))), j + 1)
  {
    FinishTextLeafFinds(lib, s, q + 1, j, s.tokens[q].name);
    NextStartOrEndFinds(s, pos, q);
  }

  lemma FinishTextLeafFinds(lib: Library, s: Stream, pos: nat, j: nat, name: Name)
    requires IsTextLeaf(name) && pos <= j < |s.tokens| && s.tokens[j] == EndElement(name)
    requires NoEndTagIn(s.tokens, pos, j)
    ensures FinishLeaf(lib, s, pos, name) == Step(DecodeText(lib, name, CharText(s.tokens[pos..j])), j + 1)
  {
    ReadTextFinds(s, pos, j, name);
  }

  /** A text leaf closed by another element's end tag is an error naming both. */
  lemma BaseTextLeafMismatch(lib: Library, s: Stream, pos: nat, q: nat, j: nat)
    requires FirstElementAt(s, pos, q) && s.tokens[q].StartElement? && IsTextLeaf(s.tokens[q].name)
    requires q < j < |s.tokens| && s.tokens[j].EndElement? && s.tokens[j].name != s.tokens[q].name
    requires NoEndTagIn(s.tokens, q + 1, j)
    ensures BaseStep(lib, s, pos) ==
      Step(Failure(UnexpectedEnd(s.tokens[q].name, s.tokens[j].name)), j + 1)
  {
    NextStartOrEndFinds(s, pos, q);
    ReadCharDataMismatch(s, q + 1, j, s.tokens[q].name, "");
  }

  /**
    <true> and <false> decode to their own truth value whatever comes
    before their own end tag, other elements included.
  */
  lemma BaseBoolLeaf(lib: Library, s: Stream, pos: nat, q: nat, j: nat)
    requires FirstElementAt(s, pos, q) && s.tokens[q].StartElement?
    requires s.tokens[q].name == TrueName || s.tokens[q].name == FalseName
    requires q < j < |s.tokens| && s.tokens[j] == EndElement(s.tokens[q].name)
    requires forall i :: q < i < j ==> s.tokens[i] != EndElement(s.tokens[q].name)
    ensures BaseStep(lib, s, pos) == Step(Success(Scalar(Bool(s.tokens[q].name == TrueName))), j + 1)
  {
    NextStartOrEndFinds(s, pos, q);
    ReadBoolFinds(s, q + 1, j, s.tokens[q].name == TrueName, s.tokens[q].name);
  }
}
