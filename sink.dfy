/**
  The output side shared by every encoder of one document: the
  io.Writer and the xml.Encoder wrapped around it. The model keeps the
  writes in order as an append-only log. Whether a write fails is
  decided in advance by a set of attempt numbers: write number k fails
  with WriteFailed(k) exactly when k is in that set, and a failed write
  adds nothing to the log.
*/
module Sink {
  import opened Wrappers
  import opened XmlTokens
  import opened Errors

  /** One write the encoders make. */
  datatype Op =
      /** xml.Encoder.EncodeToken(token) */
    | Emit(token: Token)
      /** xml.Encoder.EncodeElement(text, start) for the element named name */
    | Element(name: Name, text: string)
      /** fmt.Fprintln on the raw writer */
    | Newline
      /** xml.Encoder.Flush() */
    | Flush

  /** What has been written so far and how many writes were attempted. */
  datatype Output = Output(log: seq<Op>, attempts: nat)

  const Empty := Output([], 0)

  /** One write attempt against a writer whose failing attempts are failing. */
  function Attempt(failing: set<nat>, o: Output, op: Op): (r: (Output, Option<Error>))
    ensures r.0.attempts == o.attempts + 1
    ensures r.1.None? <==> o.attempts !in failing
    ensures r.1.None? ==> r.0.log == o.log + [op]
    ensures r.1.Some? ==> r.0.log == o.log && r.1.value == WriteFailed(o.attempts)
  {
    if o.attempts in failing then (Output(o.log, o.attempts + 1), Some(WriteFailed(o.attempts)))
    else (Output(o.log + [op], o.attempts + 1), None)
  }

  /** The output after ops were all written successfully. */
  function Advance(o: Output, ops: seq<Op>): Output
  {
    Output(o.log + ops, o.attempts + |ops|)
  }

  lemma AdvanceTwice(o: Output, a: seq<Op>, b: seq<Op>)
    ensures Advance(Advance(o, a), b) == Advance(o, a + b)
  {
    assert o.log + a + b == o.log + (a + b);
  }

  /**
    The tokens a reader gets back for a write, with the indentation the
    encoder adds left out: EncodeElement of an empty text gives a start
    and an end tag with no character data between them.
  */
  function OpTokens(op: Op): (ts: seq<Token>)
    ensures op.Element? ==> |ts| >= 2 && ts[0] == StartElement(op.name, [])
                            && ts[|ts| - 1] == EndElement(op.name)
  {
    match op
    case Emit(t) => [t]
    case Element(name, text) =>
      if text == [] then [StartElement(name, []), EndElement(name)]
      else [StartElement(name, []), CharData(text), EndElement(name)]
    case Newline => [CharData("\n")]
    case Flush => []
  }

  /** The tokens of a whole log. */
  function LogTokens(log: seq<Op>): seq<Token>
  {
    if log == [] then [] else OpTokens(log[0]) + LogTokens(log[1..])
  }

  lemma {:induction false} LogTokensAppend(a: seq<Op>, b: seq<Op>)
    ensures LogTokens(a + b) == LogTokens(a) + LogTokens(b)
    decreases |a|
  {
    if a == [] {
      assert a + b == b;
    } else {
      assert (a + b)[1..] == a[1..] + b;
      LogTokensAppend(a[1..], b);
    }
  }

  /**
    The writer with its log. Every encoder of a document holds the same
    Writer object, as every baseEncoder copy holds the same xml.Encoder.
  */
  class Writer {
    const failing: set<nat>
    var log: seq<Op>
    var attempts: nat

    function Out(): Output
      reads this
    {
      Output(log, attempts)
    }

    constructor (failing: set<nat>)
      ensures this.failing == failing && Out() == Empty
    {
      this.failing := failing;
      log := [];
      attempts := 0;
    }

    /** One write: EncodeToken, EncodeElement, Flush or Fprintln. */
    method Put(op: Op) returns (err: Option<Error>)
      modifies this
      ensures (Out(), err) == Attempt(failing, old(Out()), op)
    {
      if attempts in failing {
        err := Some(WriteFailed(attempts));
      } else {
        log := log + [op];
        err := None;
      }
      attempts := attempts + 1;
    }
  }
}
