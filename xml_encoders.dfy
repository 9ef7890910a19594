/**
  The streaming encoders as objects: baseEncoder with its two flags,
  ArrayEncoder and DictEncoder around it, and writeArrayFunc /
  writeDictFunc, which hand a fresh child encoder to a callback. Every
  method is proved to do what the matching function of EncoderSpec
  says, on the writer's output and the flags of all live encoders.

  A callback is a script (EncoderSpec.Cmd). The encoders its closure
  can reach are passed along as a stack, outermost first, the
  callback's own encoder last.
*/
module XmlEncoders {
  import opened Wrappers
  import opened XmlTokens
  import opened Errors
  import opened Library
  import opened Vocabulary
  import opened DecodedValues
  import opened Sink
  import opened EncoderSpec

  /** baseEncoder: the shared writer and xml.Encoder, and this encoder's flags. */
  class BaseEncoder {
    const writer: Writer
    var encodingContainer: bool
    var finished: bool

    function State(): Flags
      reads this
    {
      Flags(encodingContainer, finished)
    }

    /** newBaseEncoder, for a writer already wrapped in its xml.Encoder. */
    constructor (writer: Writer)
      ensures this.writer == writer && State() == Fresh
    {
      this.writer := writer;
      encodingContainer := false;
      finished := false;
    }

    /** copy: the same writer and xml.Encoder, fresh flags. */
    method Copy() returns (e: BaseEncoder)
      ensures fresh(e) && e.writer == writer && e.State() == Fresh
    {
      e := new BaseEncoder(writer);
    }

    /** assertReady, returning the panic instead of raising it. */
    method AssertReady() returns (p: Option<PanicReason>)
      ensures p == EncoderSpec.AssertReady(State())
    {
      if finished {
        p := Some(EndTagWritten);
      } else if encodingContainer {
        p := Some(ChildContainerOpen);
      } else {
        p := None;
      }
    }

    /** writeEndTag: finished is set only after the end tag was written. */
    method WriteEndTag(name: Name) returns (s: Status)
      modifies this, writer
      ensures (s, writer.Out(), State()) == BaseEndTag(writer.failing, old(writer.Out()), old(State()), name)
    {
      var err := writer.Put(Emit(EndElement(name)));
      if err.Some? {
        s := Failed(err.value);
      } else {
        finished := true;
        s := Done;
      }
    }

    method StartContainer()
      modifies this
      ensures State() == Flags(true, old(finished))
    {
      encodingContainer := true;
    }

    method EndContainer()
      modifies this
      ensures State() == Flags(false, old(finished))
    {
      encodingContainer := false;
    }
  }

  /** ArrayEncoder: a baseEncoder whose entries are bare values. */
  class ArrayEncoder {
    const base: BaseEncoder

    constructor (base: BaseEncoder)
      ensures this.base == base
    {
      this.base := base;
    }

    /**
      WriteString, WriteBool, WriteFloat, WriteInt, WriteUint, WriteDate,
      WriteData, WriteArray and WriteDict: assertReady, then the value.
    */
    method Write(lib: Library, w: Writer, stack: seq<EncoderRef>, i: nat, item: Item) returns (s: Status)
      requires Wired(w, stack) && 1 <= i < |stack| && stack[i] == ArrayRef(this)
      requires ItemOk(item, |stack| - 1)
      modifies w, Bases(stack)
      ensures (s, Snapshot(w, stack)) == EncoderWrite(Env(lib, w.failing), old(Snapshot(w, stack)), i, "", item)
      decreases item, 3
    {
      var p := base.AssertReady();
      if p.Some? {
        return Panicked(p.value);
      }
      s := WriteValue(lib, w, stack, i, item);
    }

    /** writeEndTag: assertReady, then </array>. */
    method WriteEndTag() returns (s: Status)
      modifies base, base.writer
      ensures (s, base.writer.Out(), base.State())
              == ContainerEndTag(base.writer.failing, old(base.writer.Out()), old(base.State()), ArrayKind)
    {
      var p := base.AssertReady();
      if p.Some? {
        return Panicked(p.value);
      }
      s := base.WriteEndTag(ArrayName);
    }
  }

  /** DictEncoder: a baseEncoder whose entries are a key element and a value. */
  class DictEncoder {
    const base: BaseEncoder

    constructor (base: BaseEncoder)
      ensures this.base == base
    {
      this.base := base;
    }

    /**
      WriteString ... WriteDict with their key: assertReady, the key, and
      the value only if the key was written.
    */
    method Write(lib: Library, w: Writer, stack: seq<EncoderRef>, i: nat, key: string, item: Item) returns (s: Status)
      requires Wired(w, stack) && 1 <= i < |stack| && stack[i] == DictRef(this)
      requires ItemOk(item, |stack| - 1)
      modifies w, Bases(stack)
      ensures (s, Snapshot(w, stack)) == EncoderWrite(Env(lib, w.failing), old(Snapshot(w, stack)), i, key, item)
      decreases item, 3
    {
      var p := base.AssertReady();
      if p.Some? {
        return Panicked(p.value);
      }
      var err := WriteKey(key);
      if err.Some? {
        return Failed(err.value);
      }
      s := WriteValue(lib, w, stack, i, item);
    }

    /** writeKey: the <key> element. */
    method WriteKey(key: string) returns (err: Option<Error>)
      modifies base.writer
      ensures (base.writer.Out(), err) == Attempt(base.writer.failing, old(base.writer.Out()), Element(KeyName, key))
    {
      err := base.writer.Put(Element(KeyName, key));
    }

    /** writeEndTag: assertReady, then </dict>. */
    method WriteEndTag() returns (s: Status)
      modifies base, base.writer
      ensures (s, base.writer.Out(), base.State())
              == ContainerEndTag(base.writer.failing, old(base.writer.Out()), old(base.State()), DictKind)
    {
      var p := base.AssertReady();
      if p.Some? {
        return Panicked(p.value);
      }
      s := base.WriteEndTag(DictName);
    }
  }

  /** An encoder a callback can reach: the object reference and its dynamic type. */
  datatype EncoderRef = PlainRef(plain: BaseEncoder) | ArrayRef(array: ArrayEncoder) | DictRef(dict: DictEncoder)
  {
    function Base(): BaseEncoder
    {
      match this
      case PlainRef(b) => b
      case ArrayRef(a) => a.base
      case DictRef(d) => d.base
    }

    function Kind(): Kind
    {
      match this
      case PlainRef(_) => Plain
      case ArrayRef(_) => ArrayKind
      case DictRef(_) => DictKind
    }
  }

  function Bases(stack: seq<EncoderRef>): set<BaseEncoder>
  {
    set j | 0 <= j < |stack| :: stack[j].Base()
  }

  /**
    The encoders of a stack: they share the writer, they are distinct
    objects, and only the outermost is a bare baseEncoder.
  */
  predicate Wired(w: Writer, stack: seq<EncoderRef>)
  {
    |stack| >= 1
    && (forall j :: 0 <= j < |stack| ==> stack[j].Base().writer == w)
    && (forall j, k :: 0 <= j < k < |stack| ==> stack[j].Base() != stack[k].Base())
    && (forall j :: 1 <= j < |stack| ==> !stack[j].PlainRef?)
  }

  function FrameOf(r: EncoderRef): EncFrame
    reads r.Base()
  {
    EncFrame(r.Kind(), r.Base().State())
  }

  /** What EncoderSpec sees of the live encoders. */
  function Frames(stack: seq<EncoderRef>): (r: seq<EncFrame>)
    reads Bases(stack)
    ensures |r| == |stack| && forall j :: 0 <= j < |stack| ==> r[j] == FrameOf(stack[j])
  {
    seq(|stack|, j requires 0 <= j < |stack| reads Bases(stack) => FrameOf(stack[j]))
  }

  function Snapshot(w: Writer, stack: seq<EncoderRef>): EncState
    reads w, Bases(stack)
  {
    EncState(w.Out(), Frames(stack))
  }

  /** writeString ... writeData: one EncodeElement on the shared xml.Encoder. */
  method WriteLeaf(lib: Library, w: Writer, v: Leaf) returns (err: Option<Error>)
    modifies w
    ensures (w.Out(), err) == Attempt(w.failing, old(w.Out()), LeafOp(lib, v))
  {
    err := w.Put(LeafOp(lib, v));
  }

  /** newArrayEncoder: the <array> start tag, then the wrapper. */
  method NewArrayEncoder(base: BaseEncoder) returns (a: ArrayEncoder?, err: Option<Error>)
    modifies base.writer
    ensures (base.writer.Out(), err) == Attempt(base.writer.failing, old(base.writer.Out()), Emit(ContainerStart(ArrayKind)))
    ensures err.None? ==> a != null && fresh(a) && a.base == base
  {
    err := base.writer.Put(Emit(XmlElement("array")));
    if err.Some? {
      return null, err;
    }
    a := new ArrayEncoder(base);
  }

  /** newDictEncoder: the <dict> start tag, then the wrapper. */
  method NewDictEncoder(base: BaseEncoder) returns (d: DictEncoder?, err: Option<Error>)
    modifies base.writer
    ensures (base.writer.Out(), err) == Attempt(base.writer.failing, old(base.writer.Out()), Emit(ContainerStart(DictKind)))
    ensures err.None? ==> d != null && fresh(d) && d.base == base
  {
    err := base.writer.Put(Emit(XmlElement("dict")));
    if err.Some? {
      return null, err;
    }
    d := new DictEncoder(base);
  }

  /** A callback: its statements in order, stopping at the first error or panic. */
  method RunScript(lib: Library, w: Writer, stack: seq<EncoderRef>, script: seq<Cmd>) returns (s: Status)
    requires Wired(w, stack) && ScriptOk(script, |stack| - 1)
    modifies w, Bases(stack)
    ensures (s, Snapshot(w, stack)) == Run(Env(lib, w.failing), old(Snapshot(w, stack)), script)
    decreases script, 0
  {
    if script == [] {
      return Done;
    }
    ScriptSplit(script, |stack| - 1);
    s := ExecCmd(lib, w, stack, script[0]);
    if s == Done {
      s := RunScript(lib, w, stack, script[1..]);
    }
  }

  /** One statement of a callback. */
  method ExecCmd(lib: Library, w: Writer, stack: seq<EncoderRef>, c: Cmd) returns (s: Status)
    requires Wired(w, stack) && CmdOk(c, |stack| - 1)
    modifies w, Bases(stack)
    ensures (s, Snapshot(w, stack)) == Exec(Env(lib, w.failing), old(Snapshot(w, stack)), c)
    decreases c, 0
  {
    match c
    case Fail(code) =>
      s := Failed(CallbackError(code));
    case Write(up, key, item) =>
      s := WriteTo(lib, w, stack, |stack| - 1 - up, key, item);
    case Unchecked(up, key, item) =>
      s := WriteTo(lib, w, stack, |stack| - 1 - up, key, item);
      if s.Failed? {
        s := Done;
      }
  }

  /** A Write method of the encoder at index i, through its wrapper. */
  method WriteTo(lib: Library, w: Writer, stack: seq<EncoderRef>, i: nat, key: string, item: Item)
    returns (s: Status)
    requires Wired(w, stack) && 1 <= i < |stack| && ItemOk(item, |stack| - 1)
    modifies w, Bases(stack)
    ensures (s, Snapshot(w, stack)) == EncoderWrite(Env(lib, w.failing), old(Snapshot(w, stack)), i, key, item)
    decreases item, 4
  {
    match stack[i]
    case ArrayRef(a) =>
      s := a.Write(lib, w, stack, i, item);
    case DictRef(d) =>
      s := d.Write(lib, w, stack, i, key, item);
  }

  /** The value part of a Write of the encoder at index i. */
  method WriteValue(lib: Library, w: Writer, stack: seq<EncoderRef>, i: nat, item: Item) returns (s: Status)
    requires Wired(w, stack) && i < |stack| && ItemOk(item, |stack| - 1)
    modifies w, Bases(stack)
    ensures (s, Snapshot(w, stack)) == WriteItem(Env(lib, w.failing), old(Snapshot(w, stack)), i, item)
    decreases item, 2
  {
    match item
    case Value(v) =>
      var err := WriteLeaf(lib, w, v);
      s := if err.Some? then Failed(err.value) else Done;
    case ArrayOf(body) =>
      s := WriteContainerFunc(lib, w, stack, i, ArrayKind, body);
    case DictOf(body) =>
      s := WriteContainerFunc(lib, w, stack, i, DictKind, body);
  }

  /**
    writeArrayFunc (kind = ArrayKind) and writeDictFunc (kind = DictKind)
    on the encoder at index i: startContainer, the deferred
    endContainer on every way out, the child made from a copy, the
    callback, and the child's end tag only when the callback returned
    nil.
  */
  method WriteContainerFunc(lib: Library, w: Writer, stack: seq<EncoderRef>, i: nat, kind: Kind, body: seq<Cmd>)
    returns (s: Status)
    requires Wired(w, stack) && i < |stack| && kind != Plain && ScriptOk(body, |stack|)
    modifies w, Bases(stack)
    ensures (s, Snapshot(w, stack)) == ContainerFunc(Env(lib, w.failing), old(Snapshot(w, stack)), i, kind, body)
    decreases body, 3
  {
    ghost var st := Snapshot(w, stack);
    var child, err := LockAndOpenChild(lib, w, stack, i, kind, body);
    if err.Some? {
      return Failed(err.value);
    }
    ghost var pushed := Snapshot(w, stack + [child]);
    ghost var r := Run(Env(lib, w.failing), pushed, body);
    ContainerFuncAfterCallback(Env(lib, w.failing), st, i, kind, body, r.0, r.1);
    s := RunChild(lib, w, stack, i, child, body);
  }

  /**
    The start of writeArrayFunc/writeDictFunc: startContainer, then the
    child from a copy; when the child's start tag fails, the deferred
    endContainer and the error.
  */
  method LockAndOpenChild(lib: Library, w: Writer, stack: seq<EncoderRef>, i: nat, kind: Kind, ghost body: seq<Cmd>)
    returns (child: EncoderRef, err: Option<Error>)
    requires Wired(w, stack) && i < |stack| && kind != Plain && ScriptOk(body, |stack|)
    modifies w, stack[i].Base()
    ensures err.Some? ==>
              (Failed(err.value), Snapshot(w, stack)) == ContainerFunc(Env(lib, w.failing), old(Snapshot(w, stack)), i, kind, body)
    ensures err.None? ==>
              && old(w.Out()).attempts !in w.failing
              && Wired(w, stack + [child]) && !child.PlainRef? && child.Kind() == kind && fresh(child.Base())
              && Bases(stack + [child]) == Bases(stack) + {child.Base()}
              && Snapshot(w, stack + [child])
                 == EncState(Advance(old(w.Out()), [Emit(ContainerStart(kind))]),
                             SetOpen(old(Frames(stack)), i, true) + [EncFrame(kind, Fresh)])
  {
    ghost var st := Snapshot(w, stack);
    SetContainerFlag(w, stack, i, true);
    ghost var locked := Frames(stack);
    child, err := OpenChildOn(w, stack, i, kind);
    assert Frames(stack) == locked;
    if err.Some? {
      ghost var o := w.Out();
      SetContainerFlag(w, stack, i, false);
      assert Snapshot(w, stack) == EncState(o, SetOpen(locked, i, false));
      ContainerFuncStartFails(Env(lib, w.failing), st, i, kind, body);
    }
  }

  /**
    The part of writeArrayFunc/writeDictFunc after the child is open:
    the callback, the child's end tag if it returned nil, and the
    deferred endContainer on the encoder at index i.
  */
  method RunChild(lib: Library, w: Writer, stack: seq<EncoderRef>, i: nat, child: EncoderRef, body: seq<Cmd>)
    returns (s: Status)
    requires Wired(w, stack + [child]) && i < |stack| && !child.PlainRef? && ScriptOk(body, |stack|)
    requires child.Base() !in Bases(stack) && child.Base().writer == w
    modifies w, Bases(stack + [child])
    ensures var r := Run(Env(lib, w.failing), old(Snapshot(w, stack + [child])), body);
            && |r.1.stack| == |stack| + 1
            && (s, w.Out()) == CloseAfter(w.failing, r.0, r.1.out, r.1.stack[|stack|].flags, child.Kind())
            && Frames(stack) == SetOpen(r.1.stack[..|stack|], i, false)
    decreases body, 2
  {
    s := RunCallback(lib, w, stack, child, body);
    ghost var s0 := s;
    ghost var o := w.Out();
    ghost var f := child.Base().State();
    ghost var frames := Frames(stack);
    if s == Done {
      s := CloseChild(w, child);
    }
    assert (s, w.Out()) == CloseAfter(w.failing, s0, o, f, child.Kind());
    assert Frames(stack) == frames;
    SetContainerFlag(w, stack, i, false);
  }

  /** The callback, run with the child on top of the stack. */
  method RunCallback(lib: Library, w: Writer, stack: seq<EncoderRef>, child: EncoderRef, body: seq<Cmd>)
    returns (s: Status)
    requires Wired(w, stack + [child]) && ScriptOk(body, |stack|)
    modifies w, Bases(stack + [child])
    ensures var r := Run(Env(lib, w.failing), old(Snapshot(w, stack + [child])), body);
            && |r.1.stack| == |stack| + 1
            && s == r.0 && w.Out() == r.1.out
            && Frames(stack) == r.1.stack[..|stack|]
            && child.Base().State() == r.1.stack[|stack|].flags
    decreases body, 1
  {
    var inner := stack + [child];
    assert inner[|stack|] == child;
    s := RunScript(lib, w, inner, body);
    assert Frames(stack) == Frames(inner)[..|stack|];
  }

  /** startContainer (open) or endContainer (not open) on the encoder at index i. */
  method SetContainerFlag(w: Writer, stack: seq<EncoderRef>, i: nat, open: bool)
    requires Wired(w, stack) && i < |stack|
    modifies stack[i].Base()
    ensures Snapshot(w, stack) == EncState(old(w.Out()), SetOpen(old(Frames(stack)), i, open))
  {
    if open {
      stack[i].Base().StartContainer();
    } else {
      stack[i].Base().EndContainer();
    }
  }

  /**
    The child of the encoder at index i, pushed on the stack: a fresh
    encoder on the same writer, after its start tag.
  */
  method OpenChildOn(w: Writer, stack: seq<EncoderRef>, i: nat, kind: Kind) returns (child: EncoderRef, err: Option<Error>)
    requires Wired(w, stack) && i < |stack| && kind != Plain
    modifies w
    ensures (w.Out(), err) == Attempt(w.failing, old(w.Out()), Emit(ContainerStart(kind)))
    ensures err.None? ==> Wired(w, stack + [child]) && !child.PlainRef? && child.Kind() == kind && fresh(child.Base())
                          && Frames(stack + [child]) == Frames(stack) + [EncFrame(kind, Fresh)]
                          && Bases(stack + [child]) == Bases(stack) + {child.Base()}
  {
    child, err := OpenChild(w, stack[i].Base(), kind);
    if err.None? {
      var inner := stack + [child];
      assert forall j :: 0 <= j < |stack| ==> inner[j] == stack[j];
      assert inner[|stack|] == child;
      assert Frames(inner) == Frames(stack) + [EncFrame(kind, Fresh)];
      assert Bases(inner) == Bases(stack) + {child.Base()};
    }
  }

  /** newArrayEncoder or newDictEncoder around a copy of parent. */
  method OpenChild(w: Writer, parent: BaseEncoder, kind: Kind) returns (child: EncoderRef, err: Option<Error>)
    requires parent.writer == w && kind != Plain
    modifies w
    ensures (w.Out(), err) == Attempt(w.failing, old(w.Out()), Emit(ContainerStart(kind)))
    ensures err.None? ==> fresh(child.Base()) && child.Base().writer == w && child.Kind() == kind
                          && child.Base().State() == Fresh
  {
    var copy := parent.Copy();
    if kind == ArrayKind {
      var a;
      a, err := NewArrayEncoder(copy);
      child := if err.None? then ArrayRef(a) else PlainRef(copy);
    } else {
      var d;
      d, err := NewDictEncoder(copy);
      child := if err.None? then DictRef(d) else PlainRef(copy);
    }
  }

  /** The child's writeEndTag, through its ArrayEncoder or DictEncoder. */
  method CloseChild(w: Writer, child: EncoderRef) returns (s: Status)
    requires child.Base().writer == w && !child.PlainRef?
    modifies w, child.Base()
    ensures (s, w.Out(), child.Base().State())
            == ContainerEndTag(w.failing, old(w.Out()), old(child.Base().State()), child.Kind())
  {
    match child
    case ArrayRef(a) => s := a.WriteEndTag();
    case DictRef(d) => s := d.WriteEndTag();
  }
}
