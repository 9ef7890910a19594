/**
  PlistDecoder: the public streaming decoder. It skips the XML header up
  to <plist>, opens the first <array> or <dict> after it, and from then
  on asks its current container decoder for the next value, pushing a
  new decoder when a container handle comes back and popping to the
  parent on EndDecodingContainer.

  The specification function DriverStep tracks only what decides the
  next answer: whether a container is open, how many decoders are
  stacked, and whether the current one follows the dict rules. A popped
  decoder's parent is always a base view (see DecoderFrames), so after a
  pop the current decoder follows the base rules.
*/
module PlistDecoder {
  import opened Wrappers
  import opened XmlTokens
  import opened Errors
  import opened Library
  import opened Vocabulary
  import opened TokenCursor
  import opened DecodedValues
  import opened DecoderFrames
  import opened BaseDecoder
  import opened DictDecoder

  datatype Rules = BaseRules | DictRules

  /**
    Closed: no current decoder (before the first value, after the root
    container has ended). Open: parents + 1 decoders are stacked and the
    current one follows rules.
  */
  datatype DecoderState = Closed | Open(parents: nat, rules: Rules)

  /** How many containers are open. */
  function Depth(st: DecoderState): nat
  {
    if st.Closed? then 0 else st.parents + 1
  }

  function RulesOf(d: ContainerDecoder): Rules
  {
    if d.DictDecoder? then DictRules else BaseRules
  }

  predicate IsStart(e: Event)
  {
    e.StartDecodingArray? || e.StartDecodingDict?
  }

  /** The change a successful answer makes to the number of open containers. */
  function DepthChange(e: Event): int
  {
    if IsStart(e) then 1 else if e.EndDecodingContainer? then -1 else 0
  }

  /** One NextValue of the current container decoder, by its rules. */
  function ContainerStep(lib: Library, s: Stream, pos: nat, rules: Rules): (r: Step<Event>)
    requires pos <= |s.tokens|
    ensures pos <= r.pos <= |s.tokens|
  {
    if rules.DictRules? then DictStep(lib, s, pos) else BaseStep(lib, s, pos)
  }

  /**
    startFirstContainer: the next start tag must be an array or a dict,
    recognised by its local name alone.
  */
  function FirstContainer(s: Stream, pos: nat): (r: Step<Rules>)
    requires pos <= |s.tokens|
    ensures pos <= r.pos <= |s.tokens|
  {
    var t := NextStart(s, pos);
    if t.result.Failure? then Step(Failure(t.result.error), t.pos)
    else if t.result.value.name.local == ArrayName.local then Step(Success(BaseRules), t.pos)
    else if t.result.value.name.local == DictName.local then Step(Success(DictRules), t.pos)
    else Step(Failure(ExpectedContainerStart(t.result.value)), t.pos)
  }

  /**
    consumeHeader when no decoder is current: the next start tag must be
    <plist> (any attributes), and then the first container is opened.
  */
  function OpenRoot(s: Stream, pos: nat): (r: Step<Rules>)
    requires pos <= |s.tokens|
    ensures pos <= r.pos <= |s.tokens|
  {
    var t := NextStart(s, pos);
    if t.result.Failure? then Step(Failure(t.result.error), t.pos)
    else if t.result.value.name == PlistName then FirstContainer(s, t.pos)
    else Step(Failure(ExpectedPlist(t.result.value)), t.pos)
  }

  datatype Outcome = Outcome(result: Result<Event, Error>, pos: nat, state: DecoderState)

  /**
    (*PlistDecoder).NextValue. Errors leave the decoder stack as it was;
    a StartDecoding answer opens one more container, EndDecodingContainer
    closes one, and every other answer, dictionary entries holding a
    container handle included, leaves the stack alone.
  */
  function DriverStep(lib: Library, s: Stream, pos: nat, st: DecoderState): (r: Outcome)
    requires pos <= |s.tokens|
    ensures pos <= r.pos <= |s.tokens|
    ensures r.result.Failure? ==> r.state == st
    ensures r.result.Success? ==> Depth(r.state) == Depth(st) + DepthChange(r.result.value)
    ensures r.result.Success? ==> !r.result.value.NewArray? && !r.result.value.NewDict?
    ensures r.result.Success? && r.result.value.StartDecodingDict? ==> r.state.Open? && r.state.rules == DictRules
    ensures r.result.Success? && r.result.value.StartDecodingArray? ==> r.state.Open? && r.state.rules == BaseRules
  {
    match st
    case Closed =>
      var h := OpenRoot(s, pos);
      if h.result.Failure? then Outcome(Failure(h.result.error), h.pos, Closed)
      else if h.result.value.DictRules? then Outcome(Success(StartDecodingDict), h.pos, Open(0, DictRules))
      else Outcome(Success(StartDecodingArray), h.pos, Open(0, BaseRules))
    case Open(parents, rules) =>
      var v := ContainerStep(lib, s, pos, rules);
      if v.result.Failure? then Outcome(Failure(v.result.error), v.pos, st)
      else match v.result.value
        case NewArray(_) => Outcome(Success(StartDecodingArray), v.pos, Open(parents + 1, BaseRules))
        case NewDict(_) => Outcome(Success(StartDecodingDict), v.pos, Open(parents + 1, DictRules))
        case EndDecodingContainer =>
          Outcome(Success(EndDecodingContainer), v.pos, if parents == 0 then Closed else Open(parents - 1, BaseRules))
        case _ => Outcome(v.result, v.pos, st)
  }

  /**
    With <plist> as the first start tag and some other start tag as the
    next one, the first NextValue opens the root container if that tag's
    local name is array or dict, whatever its namespace, and fails on it
    otherwise.
  */
  lemma OpenRootFinds(s: Stream, pos: nat, p: nat, q: nat)
    requires pos <= p < q < |s.tokens|
    requires s.tokens[p].StartElement? && s.tokens[p].name == PlistName && s.tokens[q].StartElement?
    requires forall i :: pos <= i < p ==> !s.tokens[i].StartElement?
    requires forall i :: p < i < q ==> !s.tokens[i].StartElement?
    ensures s.tokens[q].name.local == "array" ==> OpenRoot(s, pos) == Step(Success(BaseRules), q + 1)
    ensures s.tokens[q].name.local == "dict" ==> OpenRoot(s, pos) == Step(Success(DictRules), q + 1)
    ensures s.tokens[q].name.local != "array" && s.tokens[q].name.local != "dict" ==>
      OpenRoot(s, pos) == Step(Failure(ExpectedContainerStart(s.tokens[q])), q + 1)
  {
    NextStartFinds(s, pos, p);
    NextStartFinds(s, p + 1, q);
  }

  /** A first start tag other than <plist> is rejected, and no decoder becomes current. */
  lemma OpenRootRejects(lib: Library, s: Stream, pos: nat, p: nat)
    requires pos <= p < |s.tokens| && s.tokens[p].StartElement? && s.tokens[p].name != PlistName
    requires forall i :: pos <= i < p ==> !s.tokens[i].StartElement?
    ensures DriverStep(lib, s, pos, Closed) == Outcome(Failure(ExpectedPlist(s.tokens[p])), p + 1, Closed)
  {
    NextStartFinds(s, pos, p);
  }

  /**
    Once the root container has ended the decoder looks for <plist>
    again; with no start tag left it returns the reader's error (io.EOF).
  */
  lemma ClosedAtEnd(lib: Library, s: Stream, pos: nat)
    requires pos <= |s.tokens|
    requires forall i :: pos <= i < |s.tokens| ==> !s.tokens[i].StartElement?
    ensures DriverStep(lib, s, pos, Closed) == Outcome(Failure(s.end), |s.tokens|, Closed)
  {
  }

  /** The answers of n calls of NextValue in a row, and where they leave the decoder. */
  datatype Trace = Trace(results: seq<Result<Event, Error>>, pos: nat, state: DecoderState)

  function Run(lib: Library, s: Stream, pos: nat, st: DecoderState, n: nat): (t: Trace)
    requires pos <= |s.tokens|
    ensures |t.results| == n && pos <= t.pos <= |s.tokens|
    decreases n
  {
    if n == 0 then Trace([], pos, st)
    else
      var o := DriverStep(lib, s, pos, st);
      var rest := Run(lib, s, o.pos, o.state, n - 1);
      Trace([o.result] + rest.results, rest.pos, rest.state)
  }

  /** StartDecoding answers minus EndDecodingContainer answers; errors count for nothing. */
  function Balance(rs: seq<Result<Event, Error>>): int
  {
    if rs == [] then 0
    else (if rs[0].Success? then DepthChange(rs[0].value) else 0) + Balance(rs[1..])
  }

  /**
    However the calls go, the number of open containers is what it was
    plus the StartDecoding answers minus the EndDecodingContainer answers.
  */
  lemma {:induction false} RunDepth(lib: Library, s: Stream, pos: nat, st: DecoderState, n: nat)
    requires pos <= |s.tokens|
    ensures Depth(Run(lib, s, pos, st, n).state) == Depth(st) + Balance(Run(lib, s, pos, st, n).results)
    decreases n
  {
    if n > 0 {
      var o := DriverStep(lib, s, pos, st);
      RunDepth(lib, s, o.pos, o.state, n - 1);
      var t := Run(lib, s, pos, st, n);
      assert t.results[1..] == Run(lib, s, o.pos, o.state, n - 1).results;
    }
  }

  /**
    From a fresh decoder, no run of calls ever answers EndDecodingContainer
    more often than it has answered StartDecodingArray or StartDecodingDict.
  */
  lemma RunNeverOverCloses(lib: Library, s: Stream, n: nat)
    ensures Balance(Run(lib, s, 0, Closed, n).results) >= 0
  {
    RunDepth(lib, s, 0, Closed, n);
  }

  /** The NextValue of any container decoder, by the Go type behind the interface. */
  method ContainerNextValue(d: ContainerDecoder, lib: Library) returns (r: Result<Value<ContainerDecoder>, Error>)
    requires d.frame.cursor.Valid()
    modifies d.frame.cursor
    ensures d.frame.cursor.Valid()
    ensures Step(ShapeOf(r), d.frame.cursor.pos) ==
      ContainerStep(lib, d.frame.cursor.stream, old(d.frame.cursor.pos), RulesOf(d))
    ensures r.Success? && r.value.NewArray? ==>
      r.value.arrayDecoder.ArrayDecoder? && fresh(r.value.arrayDecoder.frame) &&
      r.value.arrayDecoder.frame.parent == Some(Base(d.frame)) && r.value.arrayDecoder.frame.cursor == d.frame.cursor
    ensures r.Success? && r.value.NewDict? ==>
      r.value.dictDecoder.DictDecoder? && fresh(r.value.dictDecoder.frame) &&
      r.value.dictDecoder.frame.parent == Some(Base(d.frame)) && r.value.dictDecoder.frame.cursor == d.frame.cursor
  {
    if d.DictDecoder? {
      r := DictNextValue(d.frame, lib);
    } else {
      r := BaseNextValue(d.frame, lib);
    }
  }

  class PlistDecoder {
    /** The *xml.Decoder reading the document. */
    const cursor: Cursor
    /** The library routines leaf values are decoded with. */
    const lib: Library
    /** currentDecoder; None is Go's nil. */
    var current: Option<ContainerDecoder>
    /** The frames from the root container's to the current decoder's. */
    ghost var frames: seq<DecoderFrame>

    /**
      Every stacked frame reads the one document, the root frame has no
      parent, each other frame's parent is the frame below it seen as a
      *baseDecoder, and the current decoder is the top frame.
    */
    ghost predicate Valid()
      reads this, cursor
    {
      cursor.Valid() &&
      (current.None? <==> frames == []) &&
      (current.Some? ==> current.value.frame == frames[|frames| - 1]) &&
      (forall i :: 0 <= i < |frames| ==> frames[i].cursor == cursor) &&
      (|frames| > 0 ==> frames[0].parent.None?) &&
      (forall i :: 0 < i < |frames| ==> frames[i].parent == Some(Base(frames[i - 1])))
    }

    ghost function State(): DecoderState
      reads this
    {
      if current.None? || frames == [] then Closed else Open(|frames| - 1, RulesOf(current.value))
    }

    /** NewDecoder: nothing read yet and no decoder current. */
    constructor (stream: Stream, lib: Library)
      ensures Valid() && fresh(cursor)
      ensures cursor.stream == stream && cursor.pos == 0 && this.lib == lib
      ensures State() == Closed
    {
      cursor := new Cursor(stream);
      this.lib := lib;
      current := None;
      frames := [];
    }

    /** startFirstContainer: a fresh root decoder of the kind the start tag names. */
    method StartFirstContainer() returns (r: Result<ContainerDecoder, Error>)
      requires cursor.Valid()
      modifies cursor
      ensures cursor.Valid()
      ensures var f := FirstContainer(cursor.stream, old(cursor.pos));
        cursor.pos == f.pos && r.Success? == f.result.Success? &&
        (r.Success? ==> RulesOf(r.value) == f.result.value && !r.value.Base?) &&
        (r.Failure? ==> r.error == f.result.error)
      ensures r.Success? ==>
        fresh(r.value.frame) && r.value.frame.parent.None? && r.value.frame.cursor == cursor
    {
      var t := NextStartElement(cursor);
      if t.Failure? {
        return Failure(t.error);
      }
      var token := t.value;
      if token.name.local == ArrayName.local {
        var d := NewArrayDecoder(None, cursor);
        return Success(d);
      } else if token.name.local == DictName.local {
        var d := NewDictDecoder(None, cursor);
        return Success(d);
      }
      return Failure(ExpectedContainerStart(token));
    }

    /**
      consumeHeader: Success(None) when a decoder is already current;
      otherwise the <plist> start tag and the root container's decoder.
    */
    method ConsumeHeader() returns (r: Result<Option<ContainerDecoder>, Error>)
      requires Valid()
      modifies cursor
      ensures cursor.Valid()
      ensures current.Some? ==> r == Success(None) && cursor.pos == old(cursor.pos)
      ensures current.None? ==>
        var h := OpenRoot(cursor.stream, old(cursor.pos));
        cursor.pos == h.pos && r.Success? == h.result.Success? &&
        (r.Success? ==> r.value.Some? && RulesOf(r.value.value) == h.result.value && !r.value.value.Base?) &&
        (r.Failure? ==> r.error == h.result.error)
      ensures current.None? && r.Success? ==>
        r.value.Some? && fresh(r.value.value.frame) && r.value.value.frame.parent.None? &&
        r.value.value.frame.cursor == cursor
    {
      if current.Some? {
        return Success(None);
      }
      var t := NextStartElement(cursor);
      if t.Failure? {
        return Failure(t.error);
      }
      if t.value.name == PlistName {
        var d := StartFirstContainer();
        if d.Failure? {
          return Failure(d.error);
        }
        return Success(Some(d.value));
      }
      return Failure(ExpectedPlist(t.value));
    }

    /** NextValue, proved to take the step DriverStep describes. */
    method NextValue() returns (r: Result<Value<ContainerDecoder>, Error>)
      requires Valid()
      modifies this, cursor
      ensures Valid()
      ensures Outcome(ShapeOf(r), cursor.pos, State()) ==
        DriverStep(lib, cursor.stream, old(cursor.pos), old(State()))
    {
      var header := ConsumeHeader();
      if header.Failure? {
        return Failure(header.error);
      }
      if header.value.Some? {
        var root := header.value.value;
        current := Some(root);
        frames := [root.frame];
        return Success(if root.DictDecoder? then StartDecodingDict else StartDecodingArray);
      }
      var d := current.value;
      var value := ContainerNextValue(d, lib);
      if value.Failure? {
        return value;
      }
      match value.value
      case NewArray(child) =>
        Push(child);
        return Success(StartDecodingArray);
      case NewDict(child) =>
        Push(child);
        return Success(StartDecodingDict);
      case EndDecodingContainer =>
        Pop();
        return Success(EndDecodingContainer);
      case _ =>
        return value;
    }

    /** Makes child, a decoder the current one has just returned, the current decoder. */
    method Push(child: ContainerDecoder)
      requires Valid() && current.Some? && !child.Base?
      requires child.frame.parent == Some(Base(current.value.frame)) && child.frame.cursor == cursor
      modifies this
      ensures Valid() && current == Some(child) && frames == old(frames) + [child.frame]
      ensures State() == Open(old(State()).parents + 1, RulesOf(child))
    {
      current := Some(child);
      frames := frames + [child.frame];
    }

    /** Makes the current decoder's parent the current decoder; nil once the root has ended. */
    method Pop()
      requires Valid() && current.Some?
      modifies this
      ensures Valid() && frames == old(frames)[..|old(frames)| - 1]
      ensures State() == if old(State()).parents == 0 then Closed else Open(old(State()).parents - 1, BaseRules)
    {
      var d := current.value;
      assert d.frame == frames[|frames| - 1];
      assert |frames| > 1 ==> d.frame.parent == Some(Base(frames[|frames| - 2]));
      current := ParentDecoder(d);
      frames := frames[..|frames| - 1];
    }
  }
}
