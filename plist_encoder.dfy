/**
  The document driver of the streaming encoder: startPlist writes the
  XML declaration, the DOCTYPE and <plist version="1.0">, each of the
  first two followed by a flush and a raw newline; EncodeArrayPlist and
  EncodeDictPlist then write exactly one top-level container through a
  callback, then </plist>, then flush. Encode picks the container from
  the kind of the Go value.
*/
module PlistEncoder {
  import opened Wrappers
  import opened XmlTokens
  import opened Errors
  import opened Strconv
  import opened Library
  import opened Vocabulary
  import opened DecodedValues
  import opened Sink
  import opened EncoderSpec
  import opened XmlEncoders

  /** Writes ops in order and stops at the first one that fails. */
  function AttemptAll(failing: set<nat>, o: Output, ops: seq<Op>): (r: (Output, Option<Error>))
    ensures r.1.None? ==> r.0 == Advance(o, ops)
    ensures r.1.Some? ==> o.attempts < r.0.attempts <= o.attempts + |ops|
                          && r.0.attempts - 1 in failing && r.1.value == WriteFailed(r.0.attempts - 1)
    decreases |ops|
  {
    if ops == [] then
      assert o.log + ops == o.log;
      (o, None)
    else
      var (o1, err) := Attempt(failing, o, ops[0]);
      if err.Some? then (o1, err)
      else
        var r := AttemptAll(failing, o1, ops[1..]);
        assert r.1.None? ==> o1.log + ops[1..] == o.log + ops by {
          assert ops == [ops[0]] + ops[1..];
        }
        r
  }

  /** Writing a + b is writing a and, if that succeeded, writing b. */
  lemma {:induction false} AttemptAllAppend(failing: set<nat>, o: Output, a: seq<Op>, b: seq<Op>)
    ensures AttemptAll(failing, o, a + b)
            == var r := AttemptAll(failing, o, a);
               if r.1.Some? then r else AttemptAll(failing, r.0, b)
    decreases |a|
  {
    if a == [] {
      assert a + b == b;
      assert o.log + a == o.log;
    } else {
      assert (a + b)[0] == a[0] && (a + b)[1..] == a[1..] + b;
      var (o1, err) := Attempt(failing, o, a[0]);
      if err.None? {
        AttemptAllAppend(failing, o1, a[1..], b);
      }
    }
  }

  /** When no write of ops fails, all of them are written. */
  lemma {:induction false} AttemptAllSucceeds(failing: set<nat>, o: Output, ops: seq<Op>)
    requires forall k :: o.attempts <= k < o.attempts + |ops| ==> k !in failing
    ensures AttemptAll(failing, o, ops) == (Advance(o, ops), None)
    decreases |ops|
  {
    if ops != [] {
      var (o1, err) := Attempt(failing, o, ops[0]);
      AttemptAllSucceeds(failing, o1, ops[1..]);
    }
  }

  /**
    When write number k of ops is the first to fail, the k writes before
    it are in the log and the error names write k.
  */
  lemma {:induction false} AttemptAllStops(failing: set<nat>, o: Output, ops: seq<Op>, k: nat)
    requires k < |ops| && o.attempts + k in failing
    requires forall j :: o.attempts <= j < o.attempts + k ==> j !in failing
    ensures AttemptAll(failing, o, ops)
            == (Output(o.log + ops[..k], o.attempts + k + 1), Some(WriteFailed(o.attempts + k)))
    decreases k
  {
    if k == 0 {
      assert o.log + ops[..0] == o.log;
    } else {
      var (o1, err) := Attempt(failing, o, ops[0]);
      AttemptAllStops(failing, o1, ops[1..], k - 1);
      assert o.log + [ops[0]] + ops[1..][..k - 1] == o.log + ops[..k] by {
        assert ops[..k] == [ops[0]] + ops[1..][..k - 1];
      }
    }
  }

  /** writeNewline: a flush, then a raw newline on the writer. */
  const NewlineOps: seq<Op> := [Flush, Newline]

  /** writePlistHeader: the declaration and the DOCTYPE, each on its own line. */
  const HeaderOps: seq<Op> := [Emit(Declaration)] + NewlineOps + [Emit(Doctype)] + NewlineOps

  /** What writePlistEndTag writes after the root container. */
  const EndOps: seq<Op> := [Emit(EndElement(PlistName)), Flush]

  /**
    startPlist: an error of the header comes back wrapped as
    "error writing plist header", an error of <plist version="1.0">
    comes back as it is.
  */
  function Start(failing: set<nat>, o: Output): (r: (Output, Option<Error>))
    ensures r.1.None? ==> r.0 == Advance(o, HeaderOps + [Emit(PlistStart)])
  {
    var (o1, err) := AttemptAll(failing, o, HeaderOps);
    if err.Some? then (o1, Some(HeaderWriteFailed(err.value)))
    else
      var r := Attempt(failing, o1, Emit(PlistStart));
      assert r.1.None? ==> r.0 == Advance(o, HeaderOps + [Emit(PlistStart)]) by {
        assert o.log + HeaderOps + [Emit(PlistStart)] == o.log + (HeaderOps + [Emit(PlistStart)]);
      }
      r
  }

  /**
    writePlistEndTag on the root encoder with flags f: assertReady, then
    </plist> (which marks the encoder finished), then a flush.
  */
  function PlistEnd(failing: set<nat>, o: Output, f: Flags): (r: (Status, Output, Flags))
    ensures AssertReady(f).Some? ==> r == (Panicked(AssertReady(f).value), o, f)
    ensures r.0 == Done ==> r.1 == Advance(o, EndOps)
    ensures r.0 == Done ==> r.2.finished && AssertReady(r.2) == Some(EndTagWritten)
  {
    match AssertReady(f)
    case Some(p) => (Panicked(p), o, f)
    case None =>
      var (s, o1, f1) := BaseEndTag(failing, o, f, PlistName);
      if s != Done then (s, o1, f1)
      else
        var (o2, err) := Attempt(failing, o1, Flush);
        assert err.None? ==> o2 == Advance(o, EndOps) by {
          assert o.log + [Emit(EndElement(PlistName))] + [Flush] == o.log + EndOps;
        }
        (if err.Some? then Failed(err.value) else Done, o2, f1)
  }

  /** The root encoder alone, as startPlist returns it. */
  const Root: seq<EncFrame> := [EncFrame(Plain, Fresh)]

  /**
    EncodeArrayPlist (kind = ArrayKind) and EncodeDictPlist (kind =
    DictKind): startPlist, then writeArrayFunc/writeDictFunc on the root
    encoder, then writePlistEndTag, each step only when the one before
    returned nil.
  */
  function Document(env: Env, o: Output, kind: Kind, body: seq<Cmd>): (r: (Status, Output))
    requires kind != Plain && ScriptOk(body, 1)
  {
    var (o1, err) := Start(env.failing, o);
    if err.Some? then (Failed(err.value), o1)
    else
      var (s, st) := ContainerFunc(env, EncState(o1, Root), 0, kind, body);
      if s != Done then (s, st.out)
      else
        var e := PlistEnd(env.failing, st.out, st.stack[0].flags);
        (e.0, e.1)
  }

  /*
   * The encoder objects.
   */

  /** writeNewline */
  method WriteNewline(w: Writer) returns (err: Option<Error>)
    modifies w
    ensures (w.Out(), err) == AttemptAll(w.failing, old(w.Out()), NewlineOps)
  {
    ghost var o := w.Out();
    err := w.Put(Flush);
    if err.Some? {
      return;
    }
    ghost var o1 := w.Out();
    err := w.Put(Newline);
    assert AttemptAll(w.failing, o1, [Newline]) == (w.Out(), err);
    assert NewlineOps[1..] == [Newline];
  }

  /** writePlistHeader */
  method WritePlistHeader(e: BaseEncoder) returns (err: Option<Error>)
    modifies e.writer
    ensures (e.writer.Out(), err) == AttemptAll(e.writer.failing, old(e.writer.Out()), HeaderOps)
  {
    var w := e.writer;
    ghost var o := w.Out();
    AttemptAllAppend(w.failing, o, [Emit(Declaration)] + NewlineOps, [Emit(Doctype)] + NewlineOps);
    assert HeaderOps == ([Emit(Declaration)] + NewlineOps) + ([Emit(Doctype)] + NewlineOps);
    err := Line(w, Emit(Declaration));
    if err.Some? {
      return;
    }
    err := Line(w, Emit(Doctype));
  }

  /** One header token and the newline after it. */
  method Line(w: Writer, op: Op) returns (err: Option<Error>)
    modifies w
    ensures (w.Out(), err) == AttemptAll(w.failing, old(w.Out()), [op] + NewlineOps)
  {
    ghost var o := w.Out();
    AttemptAllAppend(w.failing, o, [op], NewlineOps);
    err := w.Put(op);
    if err.Some? {
      return;
    }
    assert AttemptAll(w.failing, o, [op]) == (w.Out(), None);
    err := WriteNewline(w);
  }

  /** startPlist: the header and the root start tag; no encoder on error. */
  method StartPlist(w: Writer) returns (base: BaseEncoder?, err: Option<Error>)
    modifies w
    ensures (w.Out(), err) == Start(w.failing, old(w.Out()))
    ensures err.Some? ==> base == null
    ensures err.None? ==> base != null && fresh(base) && base.writer == w && base.State() == Fresh
  {
    var b := new BaseEncoder(w);
    err := WritePlistHeader(b);
    if err.Some? {
      return null, Some(HeaderWriteFailed(err.value));
    }
    err := w.Put(Emit(PlistStart));
    if err.Some? {
      return null, err;
    }
    base := b;
  }

  /** writePlistEndTag, returning the panic of assertReady instead of raising it. */
  method WritePlistEndTag(e: BaseEncoder) returns (s: Status)
    modifies e, e.writer
    ensures (s, e.writer.Out(), e.State()) == PlistEnd(e.writer.failing, old(e.writer.Out()), old(e.State()))
  {
    var p := e.AssertReady();
    if p.Some? {
      return Panicked(p.value);
    }
    s := e.WriteEndTag(PlistName);
    if s != Done {
      return;
    }
    var err := e.writer.Put(Flush);
    s := if err.Some? then Failed(err.value) else Done;
  }

  /** EncodeArrayPlist */
  method EncodeArrayPlist(lib: Library, w: Writer, body: seq<Cmd>) returns (s: Status)
    requires ScriptOk(body, 1)
    modifies w
    ensures (s, w.Out()) == Document(Env(lib, w.failing), old(w.Out()), ArrayKind, body)
  {
    s := EncodeContainerPlist(lib, w, ArrayKind, body);
  }

  /** EncodeDictPlist */
  method EncodeDictPlist(lib: Library, w: Writer, body: seq<Cmd>) returns (s: Status)
    requires ScriptOk(body, 1)
    modifies w
    ensures (s, w.Out()) == Document(Env(lib, w.failing), old(w.Out()), DictKind, body)
  {
    s := EncodeContainerPlist(lib, w, DictKind, body);
  }

  /** The steps EncodeArrayPlist and EncodeDictPlist share. */
  method EncodeContainerPlist(lib: Library, w: Writer, kind: Kind, body: seq<Cmd>) returns (s: Status)
    requires kind != Plain && ScriptOk(body, 1)
    modifies w
    ensures (s, w.Out()) == Document(Env(lib, w.failing), old(w.Out()), kind, body)
  {
    var base, err := StartPlist(w);
    if err.Some? {
      return Failed(err.value);
    }
    var stack := [PlainRef(base)];
    assert Frames(stack) == Root;
    s := WriteContainerFunc(lib, w, stack, 0, kind, body);
    assert Frames(stack)[0] == FrameOf(PlainRef(base));
    if s != Done {
      return;
    }
    s := WritePlistEndTag(base);
  }

  /*
   * Encode.
   */

  /**
    The Go value given to Encode, by its reflect.Kind. Arrays, slices,
    maps and structs carry the callback their reflection writer
    (arrayWriter, mapWriter, structWriter) would run; every other kind
    carries the text the error message prints.
  */
  datatype GoValue =
    | GoArray(elements: seq<Cmd>)
    | GoSlice(elements: seq<Cmd>)
    | GoMap(entries: seq<Cmd>)
    | GoStruct(fields: seq<Cmd>)
    | GoOther(description: string)

  predicate Encodable(v: GoValue)
  {
    match v
    case GoArray(b) => ScriptOk(b, 1)
    case GoSlice(b) => ScriptOk(b, 1)
    case GoMap(b) => ScriptOk(b, 1)
    case GoStruct(b) => ScriptOk(b, 1)
    case GoOther(_) => true
  }

  /** Encode: arrays and slices become an array plist, maps and structs a dict plist. */
  function EncodeValue(env: Env, o: Output, v: GoValue): (r: (Status, Output))
    requires Encodable(v)
  {
    match v
    case GoArray(b) => Document(env, o, ArrayKind, b)
    case GoSlice(b) => Document(env, o, ArrayKind, b)
    case GoMap(b) => Document(env, o, DictKind, b)
    case GoStruct(b) => Document(env, o, DictKind, b)
    case GoOther(d) => (Failed(InvalidEncodeType(d)), o)
  }

  method Encode(lib: Library, w: Writer, v: GoValue) returns (s: Status)
    requires Encodable(v)
    modifies w
    ensures (s, w.Out()) == EncodeValue(Env(lib, w.failing), old(w.Out()), v)
  {
    match v
    case GoArray(b) => s := EncodeArrayPlist(lib, w, b);
    case GoSlice(b) => s := EncodeArrayPlist(lib, w, b);
    case GoMap(b) => s := EncodeDictPlist(lib, w, b);
    case GoStruct(b) => s := EncodeDictPlist(lib, w, b);
    case GoOther(d) => s := Failed(InvalidEncodeType(d));
  }

  /**
    keyForField: the key a struct field is written under is its plist
    tag when it has a non-empty one, and its name otherwise.
  */
  function KeyForField(tag: string, name: string): (key: string)
    ensures tag != "" ==> key == tag
    ensures tag == "" ==> key == name
    ensures key == "" <==> tag == "" && name == ""
  {
    if tag != "" then tag else name
  }

  /** A field of a struct: its plist tag ("" when it has none), its name and its value. */
  datatype Field = Field(tag: string, name: string, value: Item)

  /**
    structWriter: the callback writes every field in declaration order,
    into its own dict encoder, under the key keyForField gives.
  */
  function StructWriter(fields: seq<Field>): (script: seq<Cmd>)
    ensures |script| == |fields|
    ensures forall i :: 0 <= i < |fields| ==>
              script[i] == Write(0, KeyForField(fields[i].tag, fields[i].name), fields[i].value)
  {
    if fields == [] then []
    else [Write(0, KeyForField(fields[0].tag, fields[0].name), fields[0].value)] + StructWriter(fields[1..])
  }

  /**
    The entries of a struct's dict as the package documents them: for
    each field in order, a <key> holding the tag when the field has one
    and its name otherwise, then the field's value.
  */
  function FieldEntries(lib: Library, fields: seq<Field>): seq<Op>
    requires forall i :: 0 <= i < |fields| ==> LocalItem(fields[i].value)
  {
    if fields == [] then []
    else
      var f := fields[0];
      [Element(KeyName, if f.tag == "" then f.name else f.tag)] + RenderItem(lib, f.value)
      + FieldEntries(lib, fields[1..])
  }

  /** structWriter's callback writes exactly the struct's entries, and is a callback Encode accepts. */
  lemma {:induction false} StructWriterRenders(lib: Library, fields: seq<Field>)
    requires forall i :: 0 <= i < |fields| ==> LocalItem(fields[i].value) && ItemOk(fields[i].value, 1)
    ensures ScriptOk(StructWriter(fields), 1) && LocalScript(StructWriter(fields))
    ensures RenderScript(lib, DictKind, StructWriter(fields)) == FieldEntries(lib, fields)
  {
    var script := StructWriter(fields);
    if fields != [] {
      StructWriterRenders(lib, fields[1..]);
      assert script[1..] == StructWriter(fields[1..]);
    }
  }

  /*
   * Properties of a whole document.
   */

  /**
    Against a writer that never fails, a local callback yields the header,
    <plist version="1.0">, its one container, </plist> and a flush, and
    nothing else.
  */
  lemma DocumentRenders(env: Env, o: Output, kind: Kind, body: seq<Cmd>)
    requires env.failing == {} && kind != Plain && ScriptOk(body, 1) && LocalScript(body)
    ensures Document(env, o, kind, body)
            == (Done, Advance(o, HeaderOps + [Emit(PlistStart)] + RenderContainer(env.lib, kind, body) + EndOps))
  {
    AttemptAllSucceeds(env.failing, o, HeaderOps);
    var h := HeaderOps + [Emit(PlistStart)];
    var o1 := Advance(o, h);
    assert Start(env.failing, o) == (o1, None);
    var c := RenderContainer(env.lib, kind, body);
    ContainerRenders(env, EncState(o1, Root), kind, body);
    var o2 := Advance(o1, c);
    assert PlistEnd(env.failing, o2, Fresh) == (Done, Advance(o2, EndOps), Flags(false, true));
    AdvanceTwice(o, h, c);
    AdvanceTwice(o, h + c, EndOps);
  }

  /**
    When write k of the header fails, startPlist stops there and the
    error comes back wrapped; nothing of the root is written.
  */
  lemma HeaderFailureIsWrapped(env: Env, o: Output, kind: Kind, body: seq<Cmd>, k: nat)
    requires kind != Plain && ScriptOk(body, 1)
    requires k < |HeaderOps| && o.attempts + k in env.failing
    requires forall j :: o.attempts <= j < o.attempts + k ==> j !in env.failing
    ensures Document(env, o, kind, body)
            == (Failed(HeaderWriteFailed(WriteFailed(o.attempts + k))),
                Output(o.log + HeaderOps[..k], o.attempts + k + 1))
  {
    AttemptAllStops(env.failing, o, HeaderOps, k);
  }

  /** A failure of <plist version="1.0"> itself is returned unwrapped. */
  lemma RootStartFailureIsNotWrapped(env: Env, o: Output, kind: Kind, body: seq<Cmd>)
    requires kind != Plain && ScriptOk(body, 1)
    requires forall j :: o.attempts <= j < o.attempts + |HeaderOps| ==> j !in env.failing
    requires o.attempts + |HeaderOps| in env.failing
    ensures Document(env, o, kind, body)
            == (Failed(WriteFailed(o.attempts + |HeaderOps|)),
                Output(o.log + HeaderOps, o.attempts + |HeaderOps| + 1))
  {
    AttemptAllSucceeds(env.failing, o, HeaderOps);
  }

  /**
    When the callback returns an error (or panics), EncodeArrayPlist and
    EncodeDictPlist return it with nothing written after the callback's
    own output: neither the container's end tag nor </plist> nor the
    final flush.
  */
  lemma CallbackFailureEndsDocument(env: Env, o: Output, kind: Kind, body: seq<Cmd>, s: Status, inner: EncState)
    requires kind != Plain && ScriptOk(body, 1)
    requires Start(env.failing, o).1.None? && Start(env.failing, o).0.attempts !in env.failing
    requires Run(env, EncState(Advance(Start(env.failing, o).0, [Emit(ContainerStart(kind))]),
                               [EncFrame(Plain, Locked), EncFrame(kind, Fresh)]), body) == (s, inner)
    requires s != Done
    ensures Document(env, o, kind, body) == (s, inner.out)
  {
    var o1 := Start(env.failing, o).0;
    assert SetOpen(Root, 0, true) + [EncFrame(kind, Fresh)] == [EncFrame(Plain, Locked), EncFrame(kind, Fresh)];
    ContainerFuncAfterCallback(env, EncState(o1, Root), 0, kind, body, s, inner);
  }

  /**
    Encode with a writer that never fails and a local reflection writer:
    a map or a struct gives a dict plist, an array or a slice an array
    plist; any other kind writes nothing and is reported.
  */
  lemma EncodeRenders(env: Env, o: Output, v: GoValue)
    requires env.failing == {} && Encodable(v)
    requires !v.GoOther? ==> LocalScript(Body(v))
    ensures v.GoOther? ==> EncodeValue(env, o, v) == (Failed(InvalidEncodeType(v.description)), o)
    ensures !v.GoOther? ==>
              var kind := if v.GoMap? || v.GoStruct? then DictKind else ArrayKind;
              EncodeValue(env, o, v)
              == (Done, Advance(o, HeaderOps + [Emit(PlistStart)] + RenderContainer(env.lib, kind, Body(v)) + EndOps))
  {
    if !v.GoOther? {
      DocumentRenders(env, o, if v.GoMap? || v.GoStruct? then DictKind else ArrayKind, Body(v));
    }
  }

  function Body(v: GoValue): seq<Cmd>
    requires !v.GoOther?
  {
    match v
    case GoArray(b) => b
    case GoSlice(b) => b
    case GoMap(b) => b
    case GoStruct(b) => b
  }

  /*
   * The documented outputs.
   */

  /**
    startPlist followed at once by writePlistEndTag: the declaration,
    the DOCTYPE, each on its own line, then <plist version="1.0"></plist>.
  */
  lemma EmptyPlist()
    ensures var (o, err) := Start({}, Empty);
            err.None?
            && PlistEnd({}, o, Fresh).0 == Done
            && LogTokens(PlistEnd({}, o, Fresh).1.log)
               == [Declaration, CharData("\n"), Doctype, CharData("\n"), PlistStart, EndElement(PlistName)]
  {
    AttemptAllSucceeds({}, Empty, HeaderOps);
    var log := HeaderOps + [Emit(PlistStart)] + EndOps;
    assert PlistEnd({}, Start({}, Empty).0, Fresh).1.log == log;
    HeaderAndRootTokens(Declaration, Doctype, PlistStart, EndElement(PlistName));
  }

  /** The tokens of a header, a root start tag and an end tag with its flush. */
  lemma HeaderAndRootTokens(a: Token, b: Token, c: Token, d: Token)
    ensures LogTokens([Emit(a)] + NewlineOps + [Emit(b)] + NewlineOps + [Emit(c)] + [Emit(d), Flush])
            == [a, CharData("\n"), b, CharData("\n"), c, d]
  {
    var nl := CharData("\n");
    var l1 := [Emit(a)] + NewlineOps;
    TokensAfterLine([Emit(a)]);
    TokensAfterEmit([], a);
    assert [] + [Emit(a)] == [Emit(a)];
    assert LogTokens(l1) == [a, nl];
    var l2 := l1 + [Emit(b)];
    TokensAfterEmit(l1, b);
    var l3 := l2 + NewlineOps;
    TokensAfterLine(l2);
    var l4 := l3 + [Emit(c)];
    TokensAfterEmit(l3, c);
    TokensAfterEnd(l4, d);
    assert LogTokens(l4) == [a, nl, b, nl, c];
  }

  /** A written token adds itself to the tokens of a log. */
  lemma TokensAfterEmit(log: seq<Op>, t: Token)
    ensures LogTokens(log + [Emit(t)]) == LogTokens(log) + [t]
  {
    LogTokensAppend(log, [Emit(t)]);
    assert [Emit(t)][1..] == [];
  }

  /** writeNewline adds one newline to the tokens of a log. */
  lemma TokensAfterLine(log: seq<Op>)
    ensures LogTokens(log + NewlineOps) == LogTokens(log) + [CharData("\n")]
  {
    LogTokensAppend(log, NewlineOps);
    assert NewlineOps[1..][1..] == [];
  }

  /** An end tag and its flush add just the end tag to the tokens of a log. */
  lemma TokensAfterEnd(log: seq<Op>, d: Token)
    ensures LogTokens(log + [Emit(d), Flush]) == LogTokens(log) + [d]
  {
    var tail := [Emit(d), Flush];
    LogTokensAppend(log, tail);
    assert LogTokens([Flush]) == [] by {
      assert [Flush][1..] == [];
    }
    assert tail[1..] == [Flush];
    assert LogTokens(tail) == OpTokens(Emit(d)) + LogTokens([Flush]);
  }

  /** A callback writing three strings into an array encoder. */
  function ThreeStrings(a: string, b: string, c: string): seq<Cmd>
  {
    [Write(0, "", Value(String(a))), Write(0, "", Value(String(b))), Write(0, "", Value(String(c)))]
  }

  /**
    A callback writing a string, an unsigned integer and an array into a
    dict encoder.
  */
  function Profile(k1: string, s: string, k2: string, n: nat, k3: string, list: seq<Cmd>): seq<Cmd>
  {
    [Write(0, k1, Value(String(s))), Write(0, k2, Value(Uint64(n))), Write(0, k3, ArrayOf(list))]
  }

  lemma ThreeLocal(a: Cmd, b: Cmd, c: Cmd)
    requires LocalCmd(a) && LocalCmd(b) && LocalCmd(c)
    ensures LocalScript([a, b, c])
  {
    var s := [a, b, c];
    assert s[1..] == [b, c] && s[1..][1..] == [c] && s[1..][1..][1..] == [];
    assert LocalScript([c]);
  }

  /** A callback of three local writes renders as the three writes in order. */
  lemma ThreeWrites(lib: Library, kind: Kind, a: Cmd, b: Cmd, c: Cmd)
    requires LocalCmd(a) && LocalCmd(b) && LocalCmd(c) && LocalScript([a, b, c])
    ensures RenderScript(lib, kind, [a, b, c])
            == RenderCmd(lib, kind, a) + RenderCmd(lib, kind, b) + RenderCmd(lib, kind, c)
  {
    var s := [a, b, c];
    assert s[1..] == [b, c] && s[1..][1..] == [c] && s[1..][1..][1..] == [];
    assert RenderScript(lib, kind, [c]) == RenderCmd(lib, kind, c) + [];
  }

  lemma ThreeStringsRender(lib: Library, a: string, b: string, c: string)
    ensures ScriptOk(ThreeStrings(a, b, c), 2) && LocalScript(ThreeStrings(a, b, c))
    ensures RenderScript(lib, ArrayKind, ThreeStrings(a, b, c))
            == [Element(StringName, a), Element(StringName, b), Element(StringName, c)]
  {
    var l := ThreeStrings(a, b, c);
    ThreeLocal(l[0], l[1], l[2]);
    assert l == [l[0], l[1], l[2]];
    ThreeWrites(lib, ArrayKind, l[0], l[1], l[2]);
    assert forall j :: 0 <= j < |l| ==> CmdOk(l[j], 2);
  }

  lemma ProfileWellFormed(k1: string, s: string, k2: string, n: nat, k3: string, list: seq<Cmd>)
    requires n <= MaxUint64 && ScriptOk(list, 2) && LocalScript(list)
    ensures ScriptOk(Profile(k1, s, k2, n, k3, list), 1) && LocalScript(Profile(k1, s, k2, n, k3, list))
  {
    var p := Profile(k1, s, k2, n, k3, list);
    ThreeLocal(p[0], p[1], p[2]);
    assert p == [p[0], p[1], p[2]];
    assert forall j :: 0 <= j < |p| ==> CmdOk(p[j], 1);
  }

  lemma ProfileRenders(lib: Library, k1: string, s: string, k2: string, n: nat, k3: string, list: seq<Cmd>)
    requires n <= MaxUint64 && LocalScript(list) && LocalScript(Profile(k1, s, k2, n, k3, list))
    ensures RenderScript(lib, DictKind, Profile(k1, s, k2, n, k3, list))
            == [Element(KeyName, k1), Element(StringName, s),
                Element(KeyName, k2), Element(IntegerName, DecimalText(n)),
                Element(KeyName, k3)] + RenderContainer(lib, ArrayKind, list)
  {
    var a := Write(0, k1, Value(String(s)));
    var b := Write(0, k2, Value(Uint64(n)));
    var c := Write(0, k3, ArrayOf(list));
    assert Profile(k1, s, k2, n, k3, list) == [a, b, c];
    ThreeWrites(lib, DictKind, a, b, c);
    EntryRenders(lib, k1, Value(String(s)));
    EntryRenders(lib, k2, Value(Uint64(n)));
    EntryRenders(lib, k3, ArrayOf(list));
    Regroup(Element(KeyName, k1), Element(StringName, s), Element(KeyName, k2),
            Element(IntegerName, DecimalText(n)), Element(KeyName, k3), RenderContainer(lib, ArrayKind, list));
  }

  /** A dict entry renders as its key element followed by its value. */
  lemma EntryRenders(lib: Library, key: string, item: Item)
    requires LocalItem(item)
    ensures RenderCmd(lib, DictKind, Write(0, key, item)) == [Element(KeyName, key)] + RenderItem(lib, item)
    ensures item.Value? && item.leaf.String? ==> RenderItem(lib, item) == [Element(StringName, item.leaf.text)]
    ensures item.Value? && item.leaf.Uint64? ==> RenderItem(lib, item) == [Element(IntegerName, DecimalText(item.leaf.uint64))]
  {
  }

  lemma Regroup(x1: Op, x2: Op, x3: Op, x4: Op, x5: Op, rest: seq<Op>)
    ensures ([x1] + [x2]) + ([x3] + [x4]) + ([x5] + rest) == [x1, x2, x3, x4, x5] + rest
  {
  }

  /** The callback of the package example: a name, an age and a list of acquaintances. */
  function ExampleBody(): seq<Cmd>
  {
    Profile("name", "Bilbo Baggins", "age", 111, "acquaintances",
            ThreeStrings("Gandalf the Grey", "Frodo Baggins", "Samwise Gamgee"))
  }

  /** EncodeDictPlist on a profile callback: header, the profile's dict, end tag. */
  lemma ProfileDocument(lib: Library, k1: string, v: string, k2: string, n: nat, k3: string,
                        a: string, b: string, c: string)
    requires n <= MaxUint64
    ensures ScriptOk(Profile(k1, v, k2, n, k3, ThreeStrings(a, b, c)), 1)
    ensures Document(Env(lib, {}), Empty, DictKind, Profile(k1, v, k2, n, k3, ThreeStrings(a, b, c))).0 == Done
    ensures Document(Env(lib, {}), Empty, DictKind, Profile(k1, v, k2, n, k3, ThreeStrings(a, b, c))).1.log
            == HeaderOps + [Emit(PlistStart)]
               + ([Emit(XmlElement("dict"))]
                  + ([Element(KeyName, k1), Element(StringName, v),
                      Element(KeyName, k2), Element(IntegerName, DecimalText(n)),
                      Element(KeyName, k3)]
                     + ([Emit(XmlElement("array"))]
                        + [Element(StringName, a), Element(StringName, b), Element(StringName, c)]
                        + [Emit(End(XmlElement("array")))]))
                  + [Emit(End(XmlElement("dict")))])
               + EndOps
  {
    var list := ThreeStrings(a, b, c);
    ThreeStringsRender(lib, a, b, c);
    ProfileWellFormed(k1, v, k2, n, k3, list);
    DocumentRenders(Env(lib, {}), Empty, DictKind, Profile(k1, v, k2, n, k3, list));
    ProfileLog(lib, k1, v, k2, n, k3, a, b, c);
  }

  /** The log a reliable writer holds after a profile document. */
  lemma ProfileLog(lib: Library, k1: string, v: string, k2: string, n: nat, k3: string,
                   a: string, b: string, c: string)
    requires n <= MaxUint64
    requires LocalScript(Profile(k1, v, k2, n, k3, ThreeStrings(a, b, c)))
    ensures Empty.log + (HeaderOps + [Emit(PlistStart)]
                         + RenderContainer(lib, DictKind, Profile(k1, v, k2, n, k3, ThreeStrings(a, b, c)))
                         + EndOps)
            == HeaderOps + [Emit(PlistStart)]
               + ([Emit(XmlElement("dict"))]
                  + ([Element(KeyName, k1), Element(StringName, v),
                      Element(KeyName, k2), Element(IntegerName, DecimalText(n)),
                      Element(KeyName, k3)]
                     + ([Emit(XmlElement("array"))]
                        + [Element(StringName, a), Element(StringName, b), Element(StringName, c)]
                        + [Emit(End(XmlElement("array")))]))
                  + [Emit(End(XmlElement("dict")))])
               + EndOps
  {
    ProfileContainer(lib, k1, v, k2, n, k3, a, b, c);
    var all := HeaderOps + [Emit(PlistStart)]
               + RenderContainer(lib, DictKind, Profile(k1, v, k2, n, k3, ThreeStrings(a, b, c))) + EndOps;
    assert Empty.log + all == all;
  }

  /** The dict a profile callback renders. */
  lemma ProfileContainer(lib: Library, k1: string, v: string, k2: string, n: nat, k3: string,
                         a: string, b: string, c: string)
    requires n <= MaxUint64
    requires LocalScript(Profile(k1, v, k2, n, k3, ThreeStrings(a, b, c)))
    ensures RenderContainer(lib, DictKind, Profile(k1, v, k2, n, k3, ThreeStrings(a, b, c)))
            == [Emit(XmlElement("dict"))]
               + ([Element(KeyName, k1), Element(StringName, v),
                   Element(KeyName, k2), Element(IntegerName, DecimalText(n)),
                   Element(KeyName, k3)]
                  + ([Emit(XmlElement("array"))]
                     + [Element(StringName, a), Element(StringName, b), Element(StringName, c)]
                     + [Emit(End(XmlElement("array")))]))
               + [Emit(End(XmlElement("dict")))]
  {
    var list := ThreeStrings(a, b, c);
    ThreeStringsRender(lib, a, b, c);
    ContainerOf(lib, ArrayKind, list, [Element(StringName, a), Element(StringName, b), Element(StringName, c)]);
    ProfileRenders(lib, k1, v, k2, n, k3, list);
    ContainerOf(lib, DictKind, Profile(k1, v, k2, n, k3, list), RenderScript(lib, DictKind, Profile(k1, v, k2, n, k3, list)));
  }

  /** A container whose callback renders as r renders as its start tag, r and its end tag. */
  lemma ContainerOf(lib: Library, kind: Kind, body: seq<Cmd>, r: seq<Op>)
    requires kind != Plain && LocalScript(body) && RenderScript(lib, kind, body) == r
    ensures RenderContainer(lib, kind, body)
            == [Emit(XmlElement(if kind == ArrayKind then "array" else "dict"))] + r
               + [Emit(End(XmlElement(if kind == ArrayKind then "array" else "dict")))]
  {
  }

  /** EncodeDictPlist on the package example writes the documented dict. */
  lemma ExampleEncoding(lib: Library)
    ensures ScriptOk(ExampleBody(), 1)
    ensures Document(Env(lib, {}), Empty, DictKind, ExampleBody()).0 == Done
    ensures Document(Env(lib, {}), Empty, DictKind, ExampleBody()).1.log
            == HeaderOps + [Emit(PlistStart)]
               + ([Emit(XmlElement("dict"))]
                  + ([Element(KeyName, "name"), Element(StringName, "Bilbo Baggins"),
                      Element(KeyName, "age"), Element(IntegerName, DecimalText(111)),
                      Element(KeyName, "acquaintances")]
                     + ([Emit(XmlElement("array"))]
                        + [Element(StringName, "Gandalf the Grey"),
                           Element(StringName, "Frodo Baggins"),
                           Element(StringName, "Samwise Gamgee")]
                        + [Emit(End(XmlElement("array")))]))
                  + [Emit(End(XmlElement("dict")))])
               + EndOps
  {
    ProfileDocument(lib, "name", "Bilbo Baggins", "age", 111, "acquaintances",
                    "Gandalf the Grey", "Frodo Baggins", "Samwise Gamgee");
  }
}
