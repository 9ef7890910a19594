/**
  The shared token reader of the streaming decoder. Every frame of one
  decoding holds the same *xml.Decoder and advances it; here that reader
  is a Cursor over a given token sequence. When the tokens run out, every
  further read returns the stream's final error (io.EOF for a document
  that ends cleanly, some other error for malformed input).

  Each reading loop of the decoder is a method on the cursor, proved
  equal to a function of the stream and the starting position; the
  functions' contracts say which tokens each loop consumes and what it
  returns.
*/
module TokenCursor {
  import opened Wrappers
  import opened XmlTokens
  import opened Errors

  /** The tokens the XML reader produces, then the error it reports after the last one. */
  datatype Stream = Stream(tokens: seq<Token>, end: Error)

  /** What a read returns, and the position it leaves the reader at. */
  datatype Step<T> = Step(result: Result<T, Error>, pos: nat)

  /** xml.Decoder.Token(): the next token, or the final error once the tokens are used up. */
  function TokenAt(s: Stream, pos: nat): (r: Step<Token>)
    requires pos <= |s.tokens|
    ensures pos < |s.tokens| ==> r == Step(Success(s.tokens[pos]), pos + 1)
    ensures pos == |s.tokens| ==> r == Step(Failure(s.end), pos)
  {
    if pos < |s.tokens| then Step(Success(s.tokens[pos]), pos + 1) else Step(Failure(s.end), pos)
  }

  /** Tokens the decoder never looks at: comments and char data that is only white space. */
  predicate Skippable(t: Token)
  {
    t.Comment? || (t.CharData? && IsBlank(t.text))
  }

  predicate IsElement(t: Token)
  {
    t.StartElement? || t.EndElement?
  }

  /** nextInterestingToken: the first token from pos on that is not skippable. */
  function NextInteresting(s: Stream, pos: nat): (r: Step<Token>)
    requires pos <= |s.tokens|
    ensures pos <= r.pos <= |s.tokens|
    ensures r.result.Success? ==>
      pos < r.pos && r.result.value == s.tokens[r.pos - 1] && !Skippable(r.result.value) &&
      forall i :: pos <= i < r.pos - 1 ==> Skippable(s.tokens[i])
    ensures r.result.Failure? ==>
      r.result.error == s.end && r.pos == |s.tokens| &&
      forall i :: pos <= i < |s.tokens| ==> Skippable(s.tokens[i])
    decreases |s.tokens| - pos
  {
    var t := TokenAt(s, pos);
    if t.result.Success? && Skippable(t.result.value) then NextInteresting(s, t.pos) else t
  }

  /** nextStartOrEndElement: the first start or end tag from pos on. */
  function NextStartOrEnd(s: Stream, pos: nat): (r: Step<Token>)
    requires pos <= |s.tokens|
    ensures pos <= r.pos <= |s.tokens|
    ensures r.result.Success? ==>
      pos < r.pos && r.result.value == s.tokens[r.pos - 1] && IsElement(r.result.value) &&
      forall i :: pos <= i < r.pos - 1 ==> !IsElement(s.tokens[i])
    ensures r.result.Failure? ==>
      r.result.error == s.end && r.pos == |s.tokens| &&
      forall i :: pos <= i < |s.tokens| ==> !IsElement(s.tokens[i])
    decreases |s.tokens| - pos
  {
    var t := NextInteresting(s, pos);
    if t.result.Success? && !IsElement(t.result.value) then NextStartOrEnd(s, t.pos) else t
  }

  /** nextStartElement: the first start tag from pos on; end tags are passed over too. */
  function NextStart(s: Stream, pos: nat): (r: Step<Token>)
    requires pos <= |s.tokens|
    ensures pos <= r.pos <= |s.tokens|
    ensures r.result.Success? ==>
      pos < r.pos && r.result.value == s.tokens[r.pos - 1] && r.result.value.StartElement? &&
      forall i :: pos <= i < r.pos - 1 ==> !s.tokens[i].StartElement?
    ensures r.result.Failure? ==>
      r.result.error == s.end && r.pos == |s.tokens| &&
      forall i :: pos <= i < |s.tokens| ==> !s.tokens[i].StartElement?
    decreases |s.tokens| - pos
  {
    var t := NextInteresting(s, pos);
    if t.result.Success? && !t.result.value.StartElement? then
      var r := NextStart(s, t.pos);
      assert forall i :: pos <= i < t.pos ==> !s.tokens[i].StartElement?;
      r
    else t
  }

  /** The text a token contributes to a read: its char data, if it is char data. */
  function CharOf(t: Token): string
  {
    if t.CharData? then t.text else ""
  }

  /** The char data of ts, concatenated in order. */
  function CharText(ts: seq<Token>): string
  {
    if ts == [] then "" else CharOf(ts[0]) + CharText(ts[1..])
  }

  /** One step of a read: the text of the token at i, then the rest. */
  lemma CharTextStep(ts: seq<Token>, i: nat, j: nat, acc: string)
    requires i < j <= |ts|
    ensures (if ts[i].CharData? then acc + ts[i].text else acc) + CharText(ts[i + 1..j])
      == acc + CharText(ts[i..j])
  {
    assert ts[i..j][1..] == ts[i + 1..j];
    if !ts[i].CharData? {
      assert CharOf(ts[i]) + CharText(ts[i + 1..j]) == CharText(ts[i + 1..j]);
    }
  }

  predicate NoEndTagIn(ts: seq<Token>, i: nat, j: nat)
    requires i <= j <= |ts|
  {
    forall k :: i <= k < j ==> !ts[k].EndElement?
  }

  /**
    readCharDataUntilEnd, with acc the text read so far: every char data
    token is appended, every other token except an end tag is passed
    over, and the first end tag decides: the awaited one ends the read
    successfully, any other one is an error.
  */
  function ReadCharData(s: Stream, pos: nat, end: Name, acc: string): (r: Step<string>)
    requires pos <= |s.tokens|
    ensures pos <= r.pos <= |s.tokens|
    ensures r.result.Success? ==>
      pos < r.pos && s.tokens[r.pos - 1] == EndElement(end) && NoEndTagIn(s.tokens, pos, r.pos - 1) &&
      r.result.value == acc + CharText(s.tokens[pos..r.pos - 1])
    ensures r.result.Failure? ==>
      (r.pos == |s.tokens| && r.result.error == s.end && NoEndTagIn(s.tokens, pos, |s.tokens|)) ||
      (pos < r.pos && s.tokens[r.pos - 1].EndElement? && s.tokens[r.pos - 1].name != end &&
       NoEndTagIn(s.tokens, pos, r.pos - 1) &&
       r.result.error == UnexpectedEnd(end, s.tokens[r.pos - 1].name))
    decreases |s.tokens| - pos
  {
    var t := TokenAt(s, pos);
    if t.result.Failure? then Step(Failure(t.result.error), t.pos)
    else
      var tok := t.result.value;
      if tok.EndElement? then
        if tok.name == end then
          assert s.tokens[pos..pos] == [];
          Step(Success(acc), t.pos)
        else Step(Failure(UnexpectedEnd(end, tok.name)), t.pos)
      else
        var r := ReadCharData(s, t.pos, end, if tok.CharData? then acc + tok.text else acc);
        if r.result.Success? then
          CharTextStep(s.tokens, pos, r.pos - 1, acc);
          NoEndTagExtends(s.tokens, pos, r.pos - 1);
          r
        else
          NoEndTagExtends(s.tokens, pos, if t.pos < r.pos && s.tokens[r.pos - 1].EndElement? then r.pos - 1 else r.pos);
          r
  }

  /** A token other than an end tag in front of a stretch without end tags. */
  lemma NoEndTagExtends(ts: seq<Token>, i: nat, j: nat)
    requires i < j <= |ts| && !ts[i].EndElement? && NoEndTagIn(ts, i + 1, j)
    ensures NoEndTagIn(ts, i, j)
  {
  }

  /**
    finishReadingBool: tokens are passed over up to and including the
    first end tag equal to end, other end tags included, and then the
    constant value is returned whatever came in between.
  */
  function ReadBool(s: Stream, pos: nat, value: bool, end: Name): (r: Step<bool>)
    requires pos <= |s.tokens|
    ensures pos <= r.pos <= |s.tokens|
    ensures r.result.Success? ==>
      r.result.value == value && pos < r.pos && s.tokens[r.pos - 1] == EndElement(end) &&
      forall i :: pos <= i < r.pos - 1 ==> s.tokens[i] != EndElement(end)
    ensures r.result.Failure? ==>
      r.result.error == s.end && r.pos == |s.tokens| &&
      forall i :: pos <= i < |s.tokens| ==> s.tokens[i] != EndElement(end)
    decreases |s.tokens| - pos
  {
    var t := TokenAt(s, pos);
    if t.result.Failure? then Step(Failure(t.result.error), t.pos)
    else if t.result.value == EndElement(end) then Step(Success(value), t.pos)
    else ReadBool(s, t.pos, value, end)
  }

  /** The token at q is the first one from pos on that is neither a comment nor blank. */
  predicate FirstInterestingAt(s: Stream, pos: nat, q: nat)
  {
    pos <= q < |s.tokens| && !Skippable(s.tokens[q]) &&
    forall i :: pos <= i < q ==> Skippable(s.tokens[i])
  }

  /** nextInterestingToken stops at the first token that is neither a comment nor blank. */
  lemma NextInterestingFinds(s: Stream, pos: nat, q: nat)
    requires FirstInterestingAt(s, pos, q)
    ensures NextInteresting(s, pos) == Step(Success(s.tokens[q]), q + 1)
  {
  }

  /** The token at q is the first start or end tag from pos on. */
  predicate FirstElementAt(s: Stream, pos: nat, q: nat)
  {
    pos <= q < |s.tokens| && IsElement(s.tokens[q]) &&
    forall i :: pos <= i < q ==> !IsElement(s.tokens[i])
  }

  /** nextStartOrEndElement stops at the first start or end tag and consumes it. */
  lemma NextStartOrEndFinds(s: Stream, pos: nat, q: nat)
    requires FirstElementAt(s, pos, q)
    ensures NextStartOrEnd(s, pos) == Step(Success(s.tokens[q]), q + 1)
  {
  }

  /** nextStartElement stops at the first start tag and consumes it. */
  lemma NextStartFinds(s: Stream, pos: nat, q: nat)
    requires pos <= q < |s.tokens| && s.tokens[q].StartElement?
    requires forall i :: pos <= i < q ==> !s.tokens[i].StartElement?
    ensures NextStart(s, pos) == Step(Success(s.tokens[q]), q + 1)
  {
  }

  /**
    A read up to the awaited end tag at j, with no other end tag before
    it, returns the char data in between and consumes the end tag.
  */
  lemma ReadCharDataFinds(s: Stream, pos: nat, j: nat, end: Name, acc: string)
    requires pos <= j < |s.tokens| && s.tokens[j] == EndElement(end) && NoEndTagIn(s.tokens, pos, j)
    ensures ReadCharData(s, pos, end, acc) == Step(Success(acc + CharText(s.tokens[pos..j])), j + 1)
  {
  }

  /** The same read from an empty buffer returns exactly the char data in between. */
  lemma ReadTextFinds(s: Stream, pos: nat, j: nat, end: Name)
    requires pos <= j < |s.tokens| && s.tokens[j] == EndElement(end) && NoEndTagIn(s.tokens, pos, j)
    ensures ReadCharData(s, pos, end, "") == Step(Success(CharText(s.tokens[pos..j])), j + 1)
  {
    ReadCharDataFinds(s, pos, j, end, "");
    assert "" + CharText(s.tokens[pos..j]) == CharText(s.tokens[pos..j]);
  }

  /** A read that meets another end tag first fails there. */
  lemma ReadCharDataMismatch(s: Stream, pos: nat, j: nat, end: Name, acc: string)
    requires pos <= j < |s.tokens| && s.tokens[j].EndElement? && s.tokens[j].name != end
    requires NoEndTagIn(s.tokens, pos, j)
    ensures ReadCharData(s, pos, end, acc) == Step(Failure(UnexpectedEnd(end, s.tokens[j].name)), j + 1)
  {
  }

  /** finishReadingBool stops at the first end tag equal to the awaited one. */
  lemma ReadBoolFinds(s: Stream, pos: nat, j: nat, value: bool, end: Name)
    requires pos <= j < |s.tokens| && s.tokens[j] == EndElement(end)
    requires forall i :: pos <= i < j ==> s.tokens[i] != EndElement(end)
    ensures ReadBool(s, pos, value, end) == Step(Success(value), j + 1)
  {
  }

  /** The *xml.Decoder every frame of a decoding shares. */
  class Cursor {
    const stream: Stream
    var pos: nat

    ghost predicate Valid()
      reads this
    {
      pos <= |stream.tokens|
    }

    constructor (stream: Stream)
      ensures Valid() && this.stream == stream && pos == 0
    {
      this.stream := stream;
      pos := 0;
    }

    /** xml.Decoder.Token */
    method Token() returns (r: Result<Token, Error>)
      requires Valid()
      modifies this
      ensures Valid()
      ensures Step(r, pos) == TokenAt(stream, old(pos))
    {
      if pos < |stream.tokens| {
        r := Success(stream.tokens[pos]);
        pos := pos + 1;
      } else {
        r := Failure(stream.end);
      }
    }
  }

  method NextInterestingToken(c: Cursor) returns (r: Result<Token, Error>)
    requires c.Valid()
    modifies c
    ensures c.Valid()
    ensures Step(r, c.pos) == NextInteresting(c.stream, old(c.pos))
  {
    while true
      invariant c.Valid()
      invariant NextInteresting(c.stream, c.pos) == NextInteresting(c.stream, old(c.pos))
      decreases |c.stream.tokens| - c.pos
    {
      r := c.Token();
      if r.Failure? {
        return;
      }
      match r.value {
        case Comment(_) =>
          continue;
        case CharData(text) =>
          if IsBlank(text) {
            continue;
          }
        case _ =>
      }
      return;
    }
  }

  method NextStartOrEndElement(c: Cursor) returns (r: Result<Token, Error>)
    requires c.Valid()
    modifies c
    ensures c.Valid()
    ensures Step(r, c.pos) == NextStartOrEnd(c.stream, old(c.pos))
  {
    while true
      invariant c.Valid()
      invariant NextStartOrEnd(c.stream, c.pos) == NextStartOrEnd(c.stream, old(c.pos))
      decreases |c.stream.tokens| - c.pos
    {
      r := NextInterestingToken(c);
      if r.Failure? {
        return;
      }
      if r.value.StartElement? || r.value.EndElement? {
        return;
      }
    }
  }

  method NextStartElement(c: Cursor) returns (r: Result<Token, Error>)
    requires c.Valid()
    modifies c
    ensures c.Valid()
    ensures Step(r, c.pos) == NextStart(c.stream, old(c.pos))
  {
    while true
      invariant c.Valid()
      invariant NextStart(c.stream, c.pos) == NextStart(c.stream, old(c.pos))
      decreases |c.stream.tokens| - c.pos
    {
      r := NextInterestingToken(c);
      if r.Failure? {
        return;
      }
      if r.value.StartElement? {
        return;
      }
    }
  }

  method ReadCharDataUntilEnd(c: Cursor, end: Name) returns (r: Result<string, Error>)
    requires c.Valid()
    modifies c
    ensures c.Valid()
    ensures Step(r, c.pos) == ReadCharData(c.stream, old(c.pos), end, "")
  {
    var buffer := "";
    while true
      invariant c.Valid()
      invariant ReadCharData(c.stream, c.pos, end, buffer) == ReadCharData(c.stream, old(c.pos), end, "")
      decreases |c.stream.tokens| - c.pos
    {
      ghost var before := c.pos;
      var t := c.Token();
      if t.Failure? {
        return Failure(t.error);
      }
      var token := t.value;
      if token.EndElement? {
        if token.name == end {
          return Success(buffer);
        }
        return Failure(UnexpectedEnd(end, token.name));
      }
      ghost var read := buffer;
      if token.CharData? {
        buffer := buffer + token.text;
      }
      assert ReadCharData(c.stream, before, end, read) == ReadCharData(c.stream, c.pos, end, buffer);
    }
  }

  method FinishReadingBool(c: Cursor, value: bool, end: Name) returns (r: Result<bool, Error>)
    requires c.Valid()
    modifies c
    ensures c.Valid()
    ensures Step(r, c.pos) == ReadBool(c.stream, old(c.pos), value, end)
  {
    while true
      invariant c.Valid()
      invariant ReadBool(c.stream, c.pos, value, end) == ReadBool(c.stream, old(c.pos), value, end)
      decreases |c.stream.tokens| - c.pos
    {
      var t := c.Token();
      if t.Failure? {
        return Failure(t.error);
      }
      if t.value == EndElement(end) {
        return Success(value);
      }
    }
  }
}
