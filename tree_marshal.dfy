/**
  The marshal method of every element of the tree API: a leaf is one
  EncodeElement, a dict writes <dict>, then a <key> and the value for
  each key in its ordering, then </dict>, and an array writes <array>,
  its elements in order and </array>. Each stops at the first write
  that fails and returns that error. Calling marshal on a nil element
  panics.
*/
module TreeMarshal {
  import opened Wrappers
  import opened XmlTokens
  import opened Errors
  import opened Strconv
  import opened Library
  import opened Vocabulary
  import opened Sink
  import opened TreeValues
  import DecodedValues
  import EncoderSpec

  /** What a marshal call did: its return or its panic, and the output it left. */
  datatype Marshalled = Marshalled(outcome: Go<Option<Error>>, out: Output)

  /**
    What every marshal call keeps to: it only appends to the log, and
    an error it returns is the failure of its own last write attempt.
  */
  predicate Appends(failing: set<nat>, o: Output, r: Marshalled)
  {
    o.log <= r.out.log && o.attempts <= r.out.attempts
    && (r.outcome.Returns? && r.outcome.value.Some? ==>
          o.attempts < r.out.attempts && r.out.attempts - 1 in failing
          && r.outcome.value.value == WriteFailed(r.out.attempts - 1))
  }

  lemma AppendsTwice(failing: set<nat>, o: Output, r1: Marshalled, r2: Marshalled)
    requires Appends(failing, o, r1) && Appends(failing, r1.out, r2)
    ensures Appends(failing, o, r2)
  {
    assert o.log == r2.out.log[..|o.log|] by {
      assert r1.out.log == r2.out.log[..|r1.out.log|];
    }
  }

  /** The elements whose marshal is a single EncodeElement. */
  predicate IsLeaf(e: PlistElement)
  {
    e.IntElem? || e.BoolElem? || e.StringElem? || e.RealElem?
  }

  /**
    The element a leaf writes. An integer prints its signed field when
    that is nonzero and its unsigned field otherwise, the choice value
    makes; a boolean is an empty <true> or <false>.
  */
  function LeafOp(lib: Library, e: PlistElement): (op: Op)
    requires IsLeaf(e)
    ensures op.Element? && op.name in LeafNames()
    ensures e.IntElem? ==> op.name == IntegerName && IsSignedDecimal(op.text)
    ensures e.IntElem? && Value(e).value.Signed? ==> SignedValue(op.text) == Value(e).value.i
    ensures e.IntElem? && Value(e).value.Unsigned? ==> SignedValue(op.text) == Value(e).value.u
    ensures e.BoolElem? ==> op.text == [] && (op.name == TrueName <==> e.truth) && op.name in {TrueName, FalseName}
    ensures e.StringElem? ==> op == Sink.Element(StringName, e.text)
    ensures e.RealElem? ==> op.name == RealName
  {
    match e
    case IntElem(s, u) => Sink.Element(IntegerName, DecimalText(if s != 0 then s else u))
    case BoolElem(b) => Sink.Element(if b then TrueName else FalseName, "")
    case StringElem(t) => Sink.Element(StringName, t)
    case RealElem(f) => Sink.Element(RealName, lib.formatFloat(f))
  }

  /** One write whose error is returned as it is. */
  function WriteOne(failing: set<nat>, o: Output, op: Op): (r: Marshalled)
    ensures Appends(failing, o, r)
    ensures r.outcome.Returns? && r.out.attempts == o.attempts + 1
    ensures r.outcome.value.None? ==> r.out == Advance(o, [op])
  {
    var (o1, err) := Attempt(failing, o, op);
    Marshalled(Returns(err), o1)
  }

  /** plistElement.marshal */
  function MarshalElem(lib: Library, failing: set<nat>, o: Output, e: PlistElement): (r: Marshalled)
    ensures Appends(failing, o, r)
    decreases e, 2
  {
    match e
    case NilElem => Marshalled(Panics(NilElementCall), o)
    case DictElem(_, _) =>
      var (o1, err) := Attempt(failing, o, Emit(XmlElement("dict")));
      if err.Some? then Marshalled(Returns(err), o1)
      else
        var r := MarshalEntries(lib, failing, o1, e, 0);
        AppendsTwice(failing, o, Marshalled(Returns(None), o1), r);
        r
    case ArrayElem(_) =>
      var (o1, err) := Attempt(failing, o, Emit(XmlElement("array")));
      if err.Some? then Marshalled(Returns(err), o1)
      else
        var r := MarshalItems(lib, failing, o1, e, 0);
        AppendsTwice(failing, o, Marshalled(Returns(None), o1), r);
        r
    case _ => WriteOne(failing, o, LeafOp(lib, e))
  }

  /**
    The loop of Dict.marshal from the key d.ordering[i] on, then the
    end tag. A key whose value is missing or nil panics once its <key>
    is written.
  */
  function MarshalEntries(lib: Library, failing: set<nat>, o: Output, d: PlistElement, i: nat): (r: Marshalled)
    requires d.DictElem? && i <= |d.ordering|
    ensures Appends(failing, o, r)
    decreases d, 1, |d.ordering| - i
  {
    if i == |d.ordering| then WriteOne(failing, o, Emit(EndElement(DictName)))
    else
      var k := d.ordering[i];
      var (o1, err) := Attempt(failing, o, Sink.Element(KeyName, k));
      if err.Some? then Marshalled(Returns(err), o1)
      else if k !in d.dict then Marshalled(Panics(NilElementCall), o1)
      else
        var r1 := MarshalElem(lib, failing, o1, d.dict[k]);
        AppendsTwice(failing, o, Marshalled(Returns(None), o1), r1);
        if r1.outcome != Returns(None) then r1
        else
          var r := MarshalEntries(lib, failing, r1.out, d, i + 1);
          AppendsTwice(failing, o, r1, r);
          r
  }

  /** The loop of Array.marshal from index i on, then the end tag. */
  function MarshalItems(lib: Library, failing: set<nat>, o: Output, a: PlistElement, i: nat): (r: Marshalled)
    requires a.ArrayElem? && i <= |a.elements|
    ensures Appends(failing, o, r)
    decreases a, 1, |a.elements| - i
  {
    if i == |a.elements| then WriteOne(failing, o, Emit(EndElement(ArrayName)))
    else
      var r1 := MarshalElem(lib, failing, o, a.elements[i]);
      if r1.outcome != Returns(None) then r1
      else
        var r := MarshalItems(lib, failing, r1.out, a, i + 1);
        AppendsTwice(failing, o, r1, r);
        r
  }

  /*
   * What a tree writes when no write fails.
   */

  /**
    The writes of an element, independently of any writer: the start
    tag, the children in their order and the end tag; None when the
    tree holds a nil element or a dict key without a value.
  */
  function Render(lib: Library, e: PlistElement): Option<seq<Op>>
    decreases e, 2
  {
    match e
    case NilElem => None
    case DictElem(_, _) =>
      (match RenderEntries(lib, e, 0)
       case None => None
       case Some(ops) => Some([Emit(XmlElement("dict"))] + ops))
    case ArrayElem(_) =>
      (match RenderItems(lib, e, 0)
       case None => None
       case Some(ops) => Some([Emit(XmlElement("array"))] + ops))
    case _ => Some([LeafOp(lib, e)])
  }

  function RenderEntries(lib: Library, d: PlistElement, i: nat): Option<seq<Op>>
    requires d.DictElem? && i <= |d.ordering|
    decreases d, 1, |d.ordering| - i
  {
    if i == |d.ordering| then Some([Emit(EndElement(DictName))])
    else
      var k := d.ordering[i];
      if k !in d.dict then None
      else
        match Render(lib, d.dict[k])
        case None => None
        case Some(v) =>
          match RenderEntries(lib, d, i + 1)
          case None => None
          case Some(rest) => Some([Sink.Element(KeyName, k)] + v + rest)
  }

  function RenderItems(lib: Library, a: PlistElement, i: nat): Option<seq<Op>>
    requires a.ArrayElem? && i <= |a.elements|
    decreases a, 1, |a.elements| - i
  {
    if i == |a.elements| then Some([Emit(EndElement(ArrayName))])
    else
      match Render(lib, a.elements[i])
      case None => None
      case Some(v) =>
        match RenderItems(lib, a, i + 1)
        case None => None
        case Some(rest) => Some(v + rest)
  }

  /** No write attempt from o on fails. */
  predicate Reliable(failing: set<nat>, o: Output)
  {
    forall k :: k in failing ==> k < o.attempts
  }

  /**
    With a writer that does not fail, marshal writes exactly the
    rendering and returns nil, and it panics exactly when the tree has
    no rendering.
  */
  lemma {:induction false} MarshalRenders(lib: Library, failing: set<nat>, o: Output, e: PlistElement)
    requires Reliable(failing, o)
    ensures Render(lib, e).Some? ==> MarshalElem(lib, failing, o, e) == Marshalled(Returns(None), Advance(o, Render(lib, e).value))
    ensures Render(lib, e).None? ==> MarshalElem(lib, failing, o, e).outcome.Panics?
    decreases e, 2
  {
    match e
    case NilElem =>
    case DictElem(_, _) =>
      var o1 := Advance(o, [Emit(XmlElement("dict"))]);
      EntriesRender(lib, failing, o1, e, 0);
      if Render(lib, e).Some? {
        AdvanceTwice(o, [Emit(XmlElement("dict"))], RenderEntries(lib, e, 0).value);
      }
    case ArrayElem(_) =>
      var o1 := Advance(o, [Emit(XmlElement("array"))]);
      ItemsRender(lib, failing, o1, e, 0);
      if Render(lib, e).Some? {
        AdvanceTwice(o, [Emit(XmlElement("array"))], RenderItems(lib, e, 0).value);
      }
    case _ =>
  }

  lemma {:induction false} EntriesRender(lib: Library, failing: set<nat>, o: Output, d: PlistElement, i: nat)
    requires d.DictElem? && i <= |d.ordering|
    requires Reliable(failing, o)
    ensures RenderEntries(lib, d, i).Some? ==>
              MarshalEntries(lib, failing, o, d, i) == Marshalled(Returns(None), Advance(o, RenderEntries(lib, d, i).value))
    ensures RenderEntries(lib, d, i).None? ==> MarshalEntries(lib, failing, o, d, i).outcome.Panics?
    decreases d, 1, |d.ordering| - i
  {
    if i < |d.ordering| {
      var k := d.ordering[i];
      var o1 := Advance(o, [Sink.Element(KeyName, k)]);
      if k in d.dict {
        MarshalRenders(lib, failing, o1, d.dict[k]);
        match Render(lib, d.dict[k])
        case None =>
        case Some(v) =>
          var o2 := Advance(o1, v);
          EntriesRender(lib, failing, o2, d, i + 1);
          match RenderEntries(lib, d, i + 1)
          case None =>
          case Some(rest) =>
            AdvanceTwice(o, [Sink.Element(KeyName, k)], v);
            AdvanceTwice(o, [Sink.Element(KeyName, k)] + v, rest);
      }
    }
  }

  lemma {:induction false} ItemsRender(lib: Library, failing: set<nat>, o: Output, a: PlistElement, i: nat)
    requires a.ArrayElem? && i <= |a.elements|
    requires Reliable(failing, o)
    ensures RenderItems(lib, a, i).Some? ==>
              MarshalItems(lib, failing, o, a, i) == Marshalled(Returns(None), Advance(o, RenderItems(lib, a, i).value))
    ensures RenderItems(lib, a, i).None? ==> MarshalItems(lib, failing, o, a, i).outcome.Panics?
    decreases a, 1, |a.elements| - i
  {
    if i < |a.elements| {
      MarshalRenders(lib, failing, o, a.elements[i]);
      match Render(lib, a.elements[i])
      case None =>
      case Some(v) =>
        var o1 := Advance(o, v);
        ItemsRender(lib, failing, o1, a, i + 1);
        if RenderItems(lib, a, i + 1).Some? {
          AdvanceTwice(o, v, RenderItems(lib, a, i + 1).value);
        }
    }
  }

  /*
   * Agreement with the streaming encoder.
   */

  /** The value the streaming encoder would be given for a leaf. */
  function AsLeaf(e: PlistElement): (v: DecodedValues.Leaf)
    requires IsLeaf(e) && !e.RealElem?
  {
    match e
    case IntElem(s, u) => if s != 0 then DecodedValues.Int64(s) else DecodedValues.Uint64(u)
    case BoolElem(b) => DecodedValues.Bool(b)
    case StringElem(t) => DecodedValues.String(t)
  }

  /**
    A string, a boolean or an integer of the tree is written as the
    streaming encoder's WriteString, WriteBool, WriteInt or WriteUint
    writes the same value, the integer by the tier value reports.
  */
  lemma LeafAsStreamed(lib: Library, e: PlistElement)
    requires IsLeaf(e)
    ensures e.RealElem? ==> LeafOp(lib, e) == EncoderSpec.LeafOp(lib, DecodedValues.Real(e.number))
    ensures !e.RealElem? ==> LeafOp(lib, e) == EncoderSpec.LeafOp(lib, AsLeaf(e))
    ensures e.IntElem? ==> (AsLeaf(e).Int64? <==> Value(e).value.Signed?)
  {
  }

  /*
   * Marshal as a method: Dict.marshal and Array.marshal are loops.
   */

  /** plistElement.marshal on the writer w. */
  method MarshalValue(lib: Library, w: Writer, e: PlistElement) returns (r: Go<Option<Error>>)
    modifies w
    ensures Marshalled(r, w.Out()) == MarshalElem(lib, w.failing, old(w.Out()), e)
    decreases e, 1
  {
    match e
    case NilElem =>
      r := Panics(NilElementCall);
    case DictElem(dict, ordering) =>
      var err := w.Put(Emit(XmlElement("dict")));
      if err.Some? {
        return Returns(err);
      }
      var i := 0;
      while i < |ordering|
        invariant 0 <= i <= |ordering|
        invariant MarshalElem(lib, w.failing, old(w.Out()), e) == MarshalEntries(lib, w.failing, w.Out(), e, i)
      {
        var k := ordering[i];
        err := w.Put(Sink.Element(KeyName, k));
        if err.Some? {
          return Returns(err);
        }
        if k !in dict {
          return Panics(NilElementCall);
        }
        r := MarshalValue(lib, w, dict[k]);
        if r != Returns(None) {
          return;
        }
        i := i + 1;
      }
      err := w.Put(Emit(EndElement(DictName)));
      r := Returns(err);
    case ArrayElem(elements) =>
      var err := w.Put(Emit(XmlElement("array")));
      if err.Some? {
        return Returns(err);
      }
      var i := 0;
      while i < |elements|
        invariant 0 <= i <= |elements|
        invariant MarshalElem(lib, w.failing, old(w.Out()), e) == MarshalItems(lib, w.failing, w.Out(), e, i)
      {
        r := MarshalValue(lib, w, elements[i]);
        if r != Returns(None) {
          return;
        }
        i := i + 1;
      }
      err := w.Put(Emit(EndElement(ArrayName)));
      r := Returns(err);
    case _ =>
      var err := w.Put(LeafOp(lib, e));
      r := Returns(err);
  }
}
