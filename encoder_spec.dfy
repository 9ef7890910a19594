/**
  What the streaming encoders do, as functions of the writer's output
  and the flags of every encoder that is alive.

  Each baseEncoder has two flags: encodingContainer, set while a child
  container's callback runs, and finished, set once its end tag is
  written. assertReady panics on either. A callback is a script: a list
  of commands, each aimed at the callback's own encoder (up = 0) or at
  an encoder further out that the callback's closure could capture
  (up = 1, 2, ...). A callback runs its commands in order and returns
  the first error it gets, except from a write it leaves unchecked,
  whose error it drops; a panic unwinds through every open
  writeArrayFunc/writeDictFunc, whose deferred endContainer still runs.

  The encoders alive during a callback form a stack: index 0 is the
  bare baseEncoder that startPlist made, each later entry the array or
  dict encoder a writeArrayFunc/writeDictFunc call created.
*/
module EncoderSpec {
  import opened Wrappers
  import opened XmlTokens
  import opened Strconv
  import opened Errors
  import opened Library
  import opened Vocabulary
  import opened DecodedValues
  import opened Sink

  /** The state flags of one baseEncoder. */
  datatype Flags = Flags(encodingContainer: bool, finished: bool)

  /** The flags of a new encoder, and of one that is running a child's callback. */
  const Fresh := Flags(false, false)
  const Locked := Flags(true, false)

  /** The two panics of assertReady. */
  datatype PanicReason = EndTagWritten | ChildContainerOpen

  /** How an encoding call ends: a nil error, an error, or a panic. */
  datatype Status = Done | Failed(error: Error) | Panicked(reason: PanicReason)

  /** assertReady: the end tag is checked first, the open child second. */
  function AssertReady(f: Flags): (p: Option<PanicReason>)
    ensures p.None? <==> !f.finished && !f.encodingContainer
    ensures f.finished ==> p == Some(EndTagWritten)
    ensures !f.finished && f.encodingContainer ==> p == Some(ChildContainerOpen)
  {
    if f.finished then Some(EndTagWritten)
    else if f.encodingContainer then Some(ChildContainerOpen)
    else None
  }

  /** The dynamic type behind an encoder: a bare baseEncoder, an ArrayEncoder or a DictEncoder. */
  datatype Kind = Plain | ArrayKind | DictKind

  /** arrayStartElement and dictStartElement. */
  function ContainerStart(kind: Kind): (t: Token)
    requires kind != Plain
    ensures t.StartElement? && t.attrs == []
    ensures t.name == (if kind == ArrayKind then ArrayName else DictName)
  {
    if kind == ArrayKind then XmlElement("array") else XmlElement("dict")
  }

  /**
    The leaves the exported Write methods take: WriteString, WriteBool,
    WriteFloat, WriteInt (an int64), WriteUint (a uint64), WriteDate and
    WriteData. writeBigInt and writeBigFloat exist but no encoder
    exposes them.
  */
  predicate Writable(v: Leaf)
  {
    match v
    case Int64(i) => MinInt64 <= i <= MaxInt64
    case Uint64(u) => u <= MaxUint64
    case BigInt(_) => false
    case BigReal(_) => false
    case _ => true
  }

  /**
    The element a leaf writer emits (writeString ... writeData): its
    name and the text EncodeElement is given.
  */
  function LeafElement(lib: Library, v: Leaf): (e: (Name, string))
    ensures e.0 in LeafNames()
    ensures v.Bool? ==> e.1 == ""
  {
    match v
    case String(s) => (StringName, s)
    case Bool(b) => (if b then TrueName else FalseName, "")
    case Int64(i) => (IntegerName, DecimalText(i))
    case Uint64(u) => (IntegerName, DecimalText(u))
    case BigInt(n) => (IntegerName, DecimalText(n))
    case Real(f) => (RealName, lib.formatFloat(f))
    case BigReal(b) => (RealName, lib.formatBigFloat(b))
    case Date(t) => (DateName, lib.formatTime(t))
    case Data(d) => (DataName, lib.encodeBase64(d))
  }

  function LeafOp(lib: Library, v: Leaf): Op
  {
    Element(LeafElement(lib, v).0, LeafElement(lib, v).1)
  }

  /** What a Write method is given besides its key: a leaf or a callback. */
  datatype Item = Value(leaf: Leaf) | ArrayOf(body: seq<Cmd>) | DictOf(body: seq<Cmd>)

  /**
    One statement of a callback: a Write on the encoder up levels out
    (the key is used when that encoder is a DictEncoder) whose error the
    callback returns, the same Write whose error the callback drops and
    goes on after, or returning an error of the callback's own.
  */
  datatype Cmd =
    | Write(up: nat, key: string, item: Item)
    | Unchecked(up: nat, key: string, item: Item)
    | Fail(code: nat)

  /**
    A script a callback with visible encoders in reach can run: every
    command aims at one of them, every leaf has a Write method, and a
    nested callback sees one encoder more.
  */
  predicate ScriptOk(script: seq<Cmd>, visible: nat)
    decreases script, 0
  {
    forall i :: 0 <= i < |script| ==> CmdOk(script[i], visible)
  }

  predicate CmdOk(c: Cmd, visible: nat)
    decreases c, 0
  {
    match c
    case Fail(_) => true
    case Write(up, _, item) => up < visible && ItemOk(item, visible)
    case Unchecked(up, _, item) => up < visible && ItemOk(item, visible)
  }

  predicate ItemOk(item: Item, visible: nat)
    decreases item, 0
  {
    match item
    case Value(v) => Writable(v)
    case ArrayOf(body) => ScriptOk(body, visible + 1)
    case DictOf(body) => ScriptOk(body, visible + 1)
  }

  /** One live encoder: its dynamic type and its flags. */
  datatype EncFrame = EncFrame(kind: Kind, flags: Flags)

  /** The writer's output and the live encoders, outermost first. */
  datatype EncState = EncState(out: Output, stack: seq<EncFrame>)

  /** The library that formats reals, dates and data, and the writes that fail. */
  datatype Env = Env(lib: Library, failing: set<nat>)

  /** startContainer (open = true) and endContainer (open = false) on encoder i. */
  function SetOpen(stack: seq<EncFrame>, i: nat, open: bool): (r: seq<EncFrame>)
    requires i < |stack|
    ensures |r| == |stack| && r[i].kind == stack[i].kind
    ensures r[i].flags == Flags(open, stack[i].flags.finished)
    ensures forall j :: 0 <= j < |r| && j != i ==> r[j] == stack[j]
  {
    stack[i := EncFrame(stack[i].kind, Flags(open, stack[i].flags.finished))]
  }

  /** baseEncoder.writeEndTag: finished is set only when the end tag was written. */
  function BaseEndTag(failing: set<nat>, o: Output, f: Flags, name: Name): (r: (Status, Output, Flags))
    ensures r.0 != Done ==> r.2 == f
    ensures r.0 == Done ==> r.2 == Flags(f.encodingContainer, true)
  {
    var (o2, err) := Attempt(failing, o, Emit(EndElement(name)));
    if err.Some? then (Failed(err.value), o2, f)
    else (Done, o2, Flags(f.encodingContainer, true))
  }

  /** ArrayEncoder.writeEndTag and DictEncoder.writeEndTag: assertReady, then the end tag. */
  function ContainerEndTag(failing: set<nat>, o: Output, f: Flags, kind: Kind): (r: (Status, Output, Flags))
    requires kind != Plain
  {
    match AssertReady(f)
    case Some(p) => (Panicked(p), o, f)
    case None => BaseEndTag(failing, o, f, ContainerStart(kind).name)
  }

  /** A callback running script with the encoders of st alive, the last one its own. */
  function Run(env: Env, st: EncState, script: seq<Cmd>): (r: (Status, EncState))
    requires 1 <= |st.stack| && ScriptOk(script, |st.stack| - 1)
    ensures |r.1.stack| == |st.stack|
    decreases script, 0
  {
    if script == [] then (Done, st)
    else
      var (s, st1) := Exec(env, st, script[0]);
      if s == Done then Run(env, st1, script[1..]) else (s, st1)
  }

  function Exec(env: Env, st: EncState, c: Cmd): (r: (Status, EncState))
    requires 1 <= |st.stack| && CmdOk(c, |st.stack| - 1)
    ensures |r.1.stack| == |st.stack|
    decreases c, 0
  {
    match c
    case Fail(code) => (Failed(CallbackError(code)), st)
    case Write(up, key, item) => EncoderWrite(env, st, |st.stack| - 1 - up, key, item)
    case Unchecked(up, key, item) =>
      var (s, st1) := EncoderWrite(env, st, |st.stack| - 1 - up, key, item);
      (if s.Failed? then Done else s, st1)
  }

  /**
    A Write method of the array or dict encoder at index i: assertReady,
    then for a DictEncoder the key (a failed key write skips the value),
    then the value.
  */
  function EncoderWrite(env: Env, st: EncState, i: nat, key: string, item: Item): (r: (Status, EncState))
    requires i < |st.stack| && ItemOk(item, |st.stack| - 1)
    ensures |r.1.stack| == |st.stack|
    decreases item, 1
  {
    match AssertReady(st.stack[i].flags)
    case Some(p) => (Panicked(p), st)
    case None =>
      if st.stack[i].kind == DictKind then
        var (o, err) := Attempt(env.failing, st.out, Element(KeyName, key));
        if err.Some? then (Failed(err.value), EncState(o, st.stack))
        else WriteItem(env, EncState(o, st.stack), i, item)
      else WriteItem(env, st, i, item)
  }

  /** The value part of a Write: a leaf writer, or writeArrayFunc/writeDictFunc. */
  function WriteItem(env: Env, st: EncState, i: nat, item: Item): (r: (Status, EncState))
    requires i < |st.stack| && ItemOk(item, |st.stack| - 1)
    ensures |r.1.stack| == |st.stack|
    decreases item, 0
  {
    match item
    case Value(v) =>
      var (o, err) := Attempt(env.failing, st.out, LeafOp(env.lib, v));
      (if err.Some? then Failed(err.value) else Done, EncState(o, st.stack))
    case ArrayOf(body) => ContainerFunc(env, st, i, ArrayKind, body)
    case DictOf(body) => ContainerFunc(env, st, i, DictKind, body)
  }

  /**
    writeArrayFunc (kind = ArrayKind) and writeDictFunc (kind = DictKind)
    on encoder i: lock it, open the child with its start tag, run the
    callback with the child on top, write the child's end tag only if
    the callback returned nil, and unlock on every path.
  */
  function ContainerFunc(env: Env, st: EncState, i: nat, kind: Kind, body: seq<Cmd>): (r: (Status, EncState))
    requires i < |st.stack| && kind != Plain && ScriptOk(body, |st.stack|)
    ensures |r.1.stack| == |st.stack|
    ensures r.1.stack[i].flags.encodingContainer == false
    decreases body, 1
  {
    var n := |st.stack|;
    var locked := SetOpen(st.stack, i, true);
    var (o, err) := Attempt(env.failing, st.out, Emit(ContainerStart(kind)));
    if err.Some? then (Failed(err.value), EncState(o, SetOpen(locked, i, false)))
    else
      var (s, inner) := Run(env, EncState(o, locked + [EncFrame(kind, Fresh)]), body);
      var (s2, o2) := CloseAfter(env.failing, s, inner.out, inner.stack[n].flags, kind);
      (s2, EncState(o2, SetOpen(inner.stack[..n], i, false)))
  }

  /**
    After the callback returned s: the child's end tag when s is nil,
    otherwise s itself and nothing more written.
  */
  function CloseAfter(failing: set<nat>, s: Status, o: Output, child: Flags, kind: Kind): (r: (Status, Output))
    requires kind != Plain
    ensures s != Done ==> r == (s, o)
  {
    if s == Done then
      var (s2, o2, _) := ContainerEndTag(failing, o, child, kind);
      (s2, o2)
    else (s, o)
  }

  /** ContainerFunc when the child's start tag cannot be written. */
  lemma ContainerFuncStartFails(env: Env, st: EncState, i: nat, kind: Kind, body: seq<Cmd>)
    requires i < |st.stack| && kind != Plain && ScriptOk(body, |st.stack|)
    requires st.out.attempts in env.failing
    ensures ContainerFunc(env, st, i, kind, body)
            == (Failed(WriteFailed(st.out.attempts)),
                EncState(Output(st.out.log, st.out.attempts + 1), SetOpen(SetOpen(st.stack, i, true), i, false)))
  {
  }

  /** ContainerFunc once the child is open and its callback has run. */
  lemma ContainerFuncAfterCallback(env: Env, st: EncState, i: nat, kind: Kind, body: seq<Cmd>,
                                   s: Status, inner: EncState)
    requires i < |st.stack| && kind != Plain && ScriptOk(body, |st.stack|)
    requires st.out.attempts !in env.failing
    requires Run(env, EncState(Advance(st.out, [Emit(ContainerStart(kind))]),
                               SetOpen(st.stack, i, true) + [EncFrame(kind, Fresh)]), body) == (s, inner)
    ensures |inner.stack| == |st.stack| + 1
    ensures ContainerFunc(env, st, i, kind, body)
            == var (s2, o2) := CloseAfter(env.failing, s, inner.out, inner.stack[|st.stack|].flags, kind);
               (s2, EncState(o2, SetOpen(inner.stack[..|st.stack|], i, false)))
  {
  }

  /*
   * The container lock.
   */

  /**
    The stack while a callback runs: every encoder but the last is
    locked by the open child above it, the last one is fresh.
  */
  predicate Nested(stack: seq<EncFrame>)
  {
    |stack| >= 1
    && (forall j :: 0 <= j < |stack| - 1 ==> stack[j].flags == Locked)
    && stack[|stack| - 1].flags == Fresh
  }

  /** In a nested stack only the innermost encoder passes assertReady. */
  lemma OnlyInnermostReady(stack: seq<EncFrame>, j: nat)
    requires Nested(stack) && j < |stack|
    ensures AssertReady(stack[j].flags).None? <==> j == |stack| - 1
    ensures j < |stack| - 1 ==> AssertReady(stack[j].flags) == Some(ChildContainerOpen)
  {
  }

  lemma NestedPush(stack: seq<EncFrame>, kind: Kind)
    requires Nested(stack)
    ensures Nested(SetOpen(stack, |stack| - 1, true) + [EncFrame(kind, Fresh)])
  {
  }

  /**
    A callback leaves the flags of every encoder as it found them,
    whatever it returns and even when it panics: children it opened are
    closed again by the deferred endContainer.
  */
  lemma {:induction false} RunKeepsStack(env: Env, st: EncState, script: seq<Cmd>)
    requires Nested(st.stack) && ScriptOk(script, |st.stack| - 1)
    ensures Run(env, st, script).1.stack == st.stack
    decreases script, 0
  {
    if script != [] {
      ExecKeepsStack(env, st, script[0]);
      var (s, st1) := Exec(env, st, script[0]);
      if s == Done {
        assert ScriptOk(script[1..], |st.stack| - 1) by {
          forall k | 0 <= k < |script[1..]| ensures CmdOk(script[1..][k], |st.stack| - 1) {
            assert script[1..][k] == script[k + 1];
          }
        }
        RunKeepsStack(env, st1, script[1..]);
      }
    }
  }

  lemma {:induction false} ExecKeepsStack(env: Env, st: EncState, c: Cmd)
    requires Nested(st.stack) && CmdOk(c, |st.stack| - 1)
    ensures Exec(env, st, c).1.stack == st.stack
    decreases c, 0
  {
    match c
    case Fail(_) =>
    case Write(up, key, item) => WriteKeepsStack(env, st, |st.stack| - 1 - up, key, item);
    case Unchecked(up, key, item) => WriteKeepsStack(env, st, |st.stack| - 1 - up, key, item);
  }

  /**
    A Write on an encoder other than the innermost panics with "cannot
    encode to parent container before closing child container" and
    writes nothing; a Write on the innermost one keeps every flag.
  */
  lemma {:induction false} WriteKeepsStack(env: Env, st: EncState, i: nat, key: string, item: Item)
    requires Nested(st.stack) && i < |st.stack| && ItemOk(item, |st.stack| - 1)
    ensures EncoderWrite(env, st, i, key, item).1.stack == st.stack
    ensures i < |st.stack| - 1 ==> EncoderWrite(env, st, i, key, item) == (Panicked(ChildContainerOpen), st)
    decreases item, 1
  {
    OnlyInnermostReady(st.stack, i);
    if i == |st.stack| - 1 {
      if st.stack[i].kind == DictKind {
        var (o, err) := Attempt(env.failing, st.out, Element(KeyName, key));
        if err.None? {
          ItemKeepsStack(env, EncState(o, st.stack), item);
        }
      } else {
        ItemKeepsStack(env, st, item);
      }
    }
  }

  lemma {:induction false} ItemKeepsStack(env: Env, st: EncState, item: Item)
    requires Nested(st.stack) && ItemOk(item, |st.stack| - 1)
    ensures WriteItem(env, st, |st.stack| - 1, item).1.stack == st.stack
    decreases item, 0
  {
    match item
    case Value(_) =>
    case ArrayOf(body) => ContainerKeepsStack(env, st, ArrayKind, body);
    case DictOf(body) => ContainerKeepsStack(env, st, DictKind, body);
  }

  lemma {:induction false} ContainerKeepsStack(env: Env, st: EncState, kind: Kind, body: seq<Cmd>)
    requires Nested(st.stack) && kind != Plain && ScriptOk(body, |st.stack|)
    ensures ContainerFunc(env, st, |st.stack| - 1, kind, body).1.stack == st.stack
    decreases body, 1
  {
    var n := |st.stack|;
    var locked := SetOpen(st.stack, n - 1, true);
    var (o, err) := Attempt(env.failing, st.out, Emit(ContainerStart(kind)));
    if err.None? {
      var pushed := locked + [EncFrame(kind, Fresh)];
      NestedPush(st.stack, kind);
      RunKeepsStack(env, EncState(o, pushed), body);
      assert pushed[..n] == locked;
    }
  }

  /** The first command of a script and the rest are in reach of the same encoders. */
  lemma ScriptSplit(script: seq<Cmd>, visible: nat)
    requires script != [] && ScriptOk(script, visible)
    ensures CmdOk(script[0], visible) && ScriptOk(script[1..], visible)
  {
    forall k | 0 <= k < |script[1..]| ensures CmdOk(script[1..][k], visible) {
      assert script[1..][k] == script[k + 1];
    }
  }

  /*
   * What a well-behaved callback writes.
   */

  /**
    A script that only writes into its own encoder and never returns
    an error of its own; whether it passes write errors on does not
    matter to a writer that never fails.
  */
  predicate LocalScript(script: seq<Cmd>)
    decreases script, 0
  {
    script == [] || (LocalCmd(script[0]) && LocalScript(script[1..]))
  }

  predicate LocalCmd(c: Cmd)
    decreases c, 0
  {
    !c.Fail? && c.up == 0 && LocalItem(c.item)
  }

  predicate LocalItem(item: Item)
    decreases item, 0
  {
    match item
    case Value(v) => Writable(v)
    case ArrayOf(body) => LocalScript(body)
    case DictOf(body) => LocalScript(body)
  }

  /**
    The writes a local script makes into an encoder of the given kind,
    defined by the plist grammar rather than by the encoder's steps: a
    dict entry is its key element followed by its value, an array entry
    its value alone, and a nested container its start tag, its entries
    and its end tag.
  */
  function RenderScript(lib: Library, kind: Kind, script: seq<Cmd>): seq<Op>
    requires LocalScript(script)
    decreases script, 0
  {
    if script == [] then []
    else RenderCmd(lib, kind, script[0]) + RenderScript(lib, kind, script[1..])
  }

  function RenderCmd(lib: Library, kind: Kind, c: Cmd): seq<Op>
    requires LocalCmd(c)
    decreases c, 0
  {
    (if kind == DictKind then [Element(KeyName, c.key)] else []) + RenderItem(lib, c.item)
  }

  function RenderItem(lib: Library, item: Item): seq<Op>
    requires LocalItem(item)
    decreases item, 0
  {
    match item
    case Value(v) => [LeafOp(lib, v)]
    case ArrayOf(body) => RenderContainer(lib, ArrayKind, body)
    case DictOf(body) => RenderContainer(lib, DictKind, body)
  }

  function RenderContainer(lib: Library, kind: Kind, body: seq<Cmd>): seq<Op>
    requires kind != Plain && LocalScript(body)
    decreases body, 1
  {
    [Emit(ContainerStart(kind))] + RenderScript(lib, kind, body) + [Emit(End(ContainerStart(kind)))]
  }

  /**
    Against a writer that never fails, a local callback returns nil and
    writes exactly its rendering, one attempt per write, leaving every
    flag as it was.
  */
  lemma {:induction false} RunRenders(env: Env, st: EncState, script: seq<Cmd>)
    requires env.failing == {} && Nested(st.stack) && |st.stack| >= 2
    requires st.stack[|st.stack| - 1].kind != Plain
    requires ScriptOk(script, |st.stack| - 1) && LocalScript(script)
    ensures Run(env, st, script)
            == (Done, EncState(Advance(st.out, RenderScript(env.lib, st.stack[|st.stack| - 1].kind, script)), st.stack))
    decreases script, 0
  {
    if script != [] {
      var kind := st.stack[|st.stack| - 1].kind;
      ScriptSplit(script, |st.stack| - 1);
      ExecRenders(env, st, script[0]);
      var a := RenderCmd(env.lib, kind, script[0]);
      var st1 := EncState(Advance(st.out, a), st.stack);
      assert Exec(env, st, script[0]) == (Done, st1);
      RunRenders(env, st1, script[1..]);
      assert Run(env, st, script) == Run(env, st1, script[1..]);
      AdvanceTwice(st.out, a, RenderScript(env.lib, kind, script[1..]));
    } else {
      assert st.out.log + [] == st.out.log;
    }
  }

  lemma {:induction false} ExecRenders(env: Env, st: EncState, c: Cmd)
    requires env.failing == {} && Nested(st.stack) && |st.stack| >= 2
    requires st.stack[|st.stack| - 1].kind != Plain
    requires CmdOk(c, |st.stack| - 1) && LocalCmd(c)
    ensures Exec(env, st, c)
            == (Done, EncState(Advance(st.out, RenderCmd(env.lib, st.stack[|st.stack| - 1].kind, c)), st.stack))
    decreases c, 0
  {
    var kind := st.stack[|st.stack| - 1].kind;
    var keyOps: seq<Op> := if kind == DictKind then [Element(KeyName, c.key)] else [];
    var o := Advance(st.out, keyOps);
    OnlyInnermostReady(st.stack, |st.stack| - 1);
    if kind == DictKind {
      assert Attempt(env.failing, st.out, Element(KeyName, c.key)) == (o, None);
    } else {
      assert st.out.log + keyOps == st.out.log;
    }
    assert EncoderWrite(env, st, |st.stack| - 1, c.key, c.item) == WriteItem(env, EncState(o, st.stack), |st.stack| - 1, c.item);
    ItemRenders(env, EncState(o, st.stack), c.item);
    AdvanceTwice(st.out, keyOps, RenderItem(env.lib, c.item));
    assert EncoderWrite(env, st, |st.stack| - 1, c.key, c.item).0 == Done;
  }

  lemma {:induction false} ItemRenders(env: Env, st: EncState, item: Item)
    requires env.failing == {} && Nested(st.stack) && |st.stack| >= 2
    requires ItemOk(item, |st.stack| - 1) && LocalItem(item)
    ensures WriteItem(env, st, |st.stack| - 1, item)
            == (Done, EncState(Advance(st.out, RenderItem(env.lib, item)), st.stack))
    decreases item, 0
  {
    match item
    case Value(_) =>
    case ArrayOf(body) => ContainerRenders(env, st, ArrayKind, body);
    case DictOf(body) => ContainerRenders(env, st, DictKind, body);
  }

  /**
    writeArrayFunc/writeDictFunc with a local callback and a writer that
    never fails: start tag, the callback's rendering, end tag, and the
    encoder unlocked again.
  */
  lemma {:induction false} ContainerRenders(env: Env, st: EncState, kind: Kind, body: seq<Cmd>)
    requires env.failing == {} && Nested(st.stack) && kind != Plain
    requires ScriptOk(body, |st.stack|) && LocalScript(body)
    ensures ContainerFunc(env, st, |st.stack| - 1, kind, body)
            == (Done, EncState(Advance(st.out, RenderContainer(env.lib, kind, body)), st.stack))
    decreases body, 1
  {
    var n := |st.stack|;
    var start: seq<Op> := [Emit(ContainerStart(kind))];
    var end: seq<Op> := [Emit(End(ContainerStart(kind)))];
    var locked := SetOpen(st.stack, n - 1, true);
    var pushed := locked + [EncFrame(kind, Fresh)];
    var o := Advance(st.out, start);
    NestedPush(st.stack, kind);
    RunRenders(env, EncState(o, pushed), body);
    var r := RenderScript(env.lib, kind, body);
    assert pushed[..n] == locked;
    assert SetOpen(locked, n - 1, false) == st.stack;
    AdvanceTwice(st.out, start, r);
    AdvanceTwice(st.out, start + r, end);
  }

  /*
   * Failures.
   */

  /**
    DictEncoder: when the key cannot be written the Write returns that
    error at once; the value is never attempted.
  */
  lemma KeyFailureSkipsValue(env: Env, st: EncState, key: string, item: Item)
    requires Nested(st.stack) && st.stack[|st.stack| - 1].kind == DictKind
    requires ItemOk(item, |st.stack| - 1) && st.out.attempts in env.failing
    ensures EncoderWrite(env, st, |st.stack| - 1, key, item)
            == (Failed(WriteFailed(st.out.attempts)), EncState(Output(st.out.log, st.out.attempts + 1), st.stack))
  {
  }

  /**
    A callback that writes one string and then returns an error of its
    own: the array's start tag and the string are written, the end tag
    is not, the error comes back unchanged and the encoder is unlocked.
  */
  lemma CallbackErrorSkipsEndTag(lib: Library)
    ensures var st := EncState(Empty, [EncFrame(Plain, Fresh)]);
            ContainerFunc(Env(lib, {}), st, 0, ArrayKind, [Write(0, "", Value(String("a"))), Fail(7)])
            == (Failed(CallbackError(7)),
                EncState(Output([Emit(XmlElement("array")), Element(StringName, "a")], 2), st.stack))
  {
    var env := Env(lib, {});
    var pushed := [EncFrame(Plain, Locked), EncFrame(ArrayKind, Fresh)];
    var o := Output([Emit(XmlElement("array"))], 1);
    var o2 := Output([Emit(XmlElement("array")), Element(StringName, "a")], 2);
    var script := [Write(0, "", Value(String("a"))), Fail(7)];
    assert SetOpen([EncFrame(Plain, Fresh)], 0, true) == [EncFrame(Plain, Locked)];
    assert LeafOp(lib, String("a")) == Element(StringName, "a");
    assert o.log + [Element(StringName, "a")] == o2.log;
    assert Exec(env, EncState(o, pushed), script[0]) == (Done, EncState(o2, pushed));
    assert script[1..] == [Fail(7)];
    assert Run(env, EncState(o2, pushed), script[1..]) == (Failed(CallbackError(7)), EncState(o2, pushed));
    assert Run(env, EncState(o, pushed), script) == (Failed(CallbackError(7)), EncState(o2, pushed));
    assert pushed[..1] == [EncFrame(Plain, Locked)];
    assert SetOpen([EncFrame(Plain, Locked)], 0, false) == [EncFrame(Plain, Fresh)];
    assert ContainerStart(ArrayKind) == XmlElement("array");
    assert Empty.log + [Emit(XmlElement("array"))] == o.log;
    assert Attempt(env.failing, Empty, Emit(ContainerStart(ArrayKind))) == (o, None);
    assert [EncFrame(Plain, Locked)] + [EncFrame(ArrayKind, Fresh)] == pushed;
  }

  /*
   * A writer that stays broken.
   */

  /**
    Every attempt from from up to (not including) to fails. An
    xml.Encoder keeps the first error its buffer met and returns it
    from every later EncodeToken, EncodeElement and Flush, so after
    its first failure it is such a writer for all its remaining writes.
  */
  predicate Broken(failing: set<nat>, from: nat, to: nat)
  {
    forall k :: from <= k < to ==> k in failing
  }

  /**
    A callback run against a writer that is broken for all the attempts
    it makes writes nothing, whatever it does with the errors it gets.
  */
  lemma {:induction false} RunOnBrokenWriter(env: Env, st: EncState, script: seq<Cmd>)
    requires 1 <= |st.stack| && ScriptOk(script, |st.stack| - 1)
    requires Broken(env.failing, st.out.attempts, Run(env, st, script).1.out.attempts)
    ensures Run(env, st, script).1.out.log == st.out.log
    decreases script
  {
    if script != [] {
      ScriptSplit(script, |st.stack| - 1);
      var (s, st1) := Exec(env, st, script[0]);
      if !script[0].Fail? {
        WriteAttemptsGrow(env, st, |st.stack| - 1 - script[0].up, script[0].key, script[0].item);
      }
      if s == Done {
        RunAttemptsGrow(env, st1, script[1..]);
        RunOnBrokenWriter(env, st1, script[1..]);
      }
      ExecOnBrokenWriter(env, st, script[0]);
    }
  }

  /** One statement of a callback against a broken writer writes nothing. */
  lemma ExecOnBrokenWriter(env: Env, st: EncState, c: Cmd)
    requires 1 <= |st.stack| && CmdOk(c, |st.stack| - 1)
    requires Broken(env.failing, st.out.attempts, Exec(env, st, c).1.out.attempts)
    ensures Exec(env, st, c).1.out.log == st.out.log
  {
    if !c.Fail? {
      var i := |st.stack| - 1 - c.up;
      WriteAttemptsGrow(env, st, i, c.key, c.item);
      if AssertReady(st.stack[i].flags).None? && st.stack[i].kind != DictKind {
        ItemFirstAttempt(env, st, i, c.item);
      }
    }
  }

  /** A callback never takes back a write attempt. */
  lemma {:induction false} RunAttemptsGrow(env: Env, st: EncState, script: seq<Cmd>)
    requires 1 <= |st.stack| && ScriptOk(script, |st.stack| - 1)
    ensures st.out.attempts <= Run(env, st, script).1.out.attempts
    decreases script, 0
  {
    if script != [] {
      ScriptSplit(script, |st.stack| - 1);
      var (s, st1) := Exec(env, st, script[0]);
      if !script[0].Fail? {
        WriteAttemptsGrow(env, st, |st.stack| - 1 - script[0].up, script[0].key, script[0].item);
      }
      if s == Done {
        RunAttemptsGrow(env, st1, script[1..]);
      }
    }
  }

  /** A Write that passes assertReady makes at least one attempt. */
  lemma {:induction false} WriteAttemptsGrow(env: Env, st: EncState, i: nat, key: string, item: Item)
    requires i < |st.stack| && ItemOk(item, |st.stack| - 1)
    ensures st.out.attempts <= EncoderWrite(env, st, i, key, item).1.out.attempts
    ensures AssertReady(st.stack[i].flags).None? ==> st.out.attempts < EncoderWrite(env, st, i, key, item).1.out.attempts
    decreases item, 1
  {
    if AssertReady(st.stack[i].flags).None? {
      if st.stack[i].kind == DictKind {
        var (o, err) := Attempt(env.failing, st.out, Element(KeyName, key));
        if err.None? {
          ItemFirstAttempt(env, EncState(o, st.stack), i, item);
        }
      } else {
        ItemFirstAttempt(env, st, i, item);
      }
    }
  }

  /** A value write makes its first attempt at once and writes nothing when that fails. */
  lemma {:induction false} ItemFirstAttempt(env: Env, st: EncState, i: nat, item: Item)
    requires i < |st.stack| && ItemOk(item, |st.stack| - 1)
    ensures st.out.attempts < WriteItem(env, st, i, item).1.out.attempts
    ensures st.out.attempts in env.failing ==> WriteItem(env, st, i, item).1.out.log == st.out.log
    decreases item, 0
  {
    match item
    case Value(_) =>
    case ArrayOf(body) => ContainerFirstAttempt(env, st, i, ArrayKind, body);
    case DictOf(body) => ContainerFirstAttempt(env, st, i, DictKind, body);
  }

  /** writeArrayFunc/writeDictFunc attempt the start tag first, and stop when it fails. */
  lemma {:induction false} ContainerFirstAttempt(env: Env, st: EncState, i: nat, kind: Kind, body: seq<Cmd>)
    requires i < |st.stack| && kind != Plain && ScriptOk(body, |st.stack|)
    ensures st.out.attempts < ContainerFunc(env, st, i, kind, body).1.out.attempts
    ensures st.out.attempts in env.failing ==> ContainerFunc(env, st, i, kind, body).1.out.log == st.out.log
    decreases body, 1
  {
    var (o, err) := Attempt(env.failing, st.out, Emit(ContainerStart(kind)));
    if err.None? {
      RunAttemptsGrow(env, EncState(o, SetOpen(st.stack, i, true) + [EncFrame(kind, Fresh)]), body);
    }
  }

  /**
    The string writes of the package's array encoder tests, with their
    errors dropped, against a writer whose write of "a" fails and which
    stays broken, as an xml.Encoder does: "b" fails as well, the
    callback still returns nil, the array's end tag cannot be written
    and writeArrayFunc returns that error; only the start tag is written.
  */
  lemma IgnoredErrorsStillFail(lib: Library)
    ensures var st := EncState(Empty, [EncFrame(Plain, Fresh)]);
            ContainerFunc(Env(lib, {1, 2, 3}), st, 0, ArrayKind, IgnoredScript)
            == (Failed(WriteFailed(3)), EncState(Output([Emit(XmlElement("array"))], 4), st.stack))
  {
    var env := Env(lib, {1, 2, 3});
    var st := EncState(Empty, [EncFrame(Plain, Fresh)]);
    var pushed := [EncFrame(Plain, Locked), EncFrame(ArrayKind, Fresh)];
    var o2 := Output([Emit(XmlElement("array"))], 3);
    assert SetOpen(st.stack, 0, true) + [EncFrame(ArrayKind, Fresh)] == pushed;
    assert Advance(Empty, [Emit(ContainerStart(ArrayKind))]) == Output([Emit(XmlElement("array"))], 1);
    IgnoredCallback(lib);
    ContainerFuncAfterCallback(env, st, 0, ArrayKind, IgnoredScript, Done, EncState(o2, pushed));
    ArrayCloseFails(env.failing, o2);
    Unlocked();
  }

  /** Unlocking the outer encoder once the child is dropped. */
  lemma Unlocked()
    ensures SetOpen([EncFrame(Plain, Locked), EncFrame(ArrayKind, Fresh)][..1], 0, false) == [EncFrame(Plain, Fresh)]
  {
    assert [EncFrame(Plain, Locked), EncFrame(ArrayKind, Fresh)][..1] == [EncFrame(Plain, Locked)];
  }

  /** A callback that returned nil, in an array whose end tag cannot be written. */
  lemma ArrayCloseFails(failing: set<nat>, o: Output)
    requires o.attempts in failing
    ensures CloseAfter(failing, Done, o, Fresh, ArrayKind)
            == (Failed(WriteFailed(o.attempts)), Output(o.log, o.attempts + 1))
  {
  }

  const IgnoredScript := [Unchecked(0, "", Value(String("a"))), Unchecked(0, "", Value(String("b")))]

  /**
    The callback of IgnoredErrorsStillFail, run inside the open array:
    both writes fail, neither error is passed on and nothing is written.
  */
  lemma IgnoredCallback(lib: Library)
    ensures var pushed := [EncFrame(Plain, Locked), EncFrame(ArrayKind, Fresh)];
            Run(Env(lib, {1, 2, 3}), EncState(Output([Emit(XmlElement("array"))], 1), pushed), IgnoredScript)
            == (Done, EncState(Output([Emit(XmlElement("array"))], 3), pushed))
  {
    var env := Env(lib, {1, 2, 3});
    var pushed := [EncFrame(Plain, Locked), EncFrame(ArrayKind, Fresh)];
    var o := Output([Emit(XmlElement("array"))], 1);
    var o1 := Output(o.log, 2);
    var o2 := Output(o.log, 3);
    var script := IgnoredScript;
    assert EncoderWrite(env, EncState(o, pushed), 1, "", script[0].item)
           == (Failed(WriteFailed(1)), EncState(o1, pushed));
    assert Exec(env, EncState(o, pushed), script[0]) == (Done, EncState(o1, pushed));
    assert EncoderWrite(env, EncState(o1, pushed), 1, "", script[1].item)
           == (Failed(WriteFailed(2)), EncState(o2, pushed));
    assert Exec(env, EncState(o1, pushed), script[1]) == (Done, EncState(o2, pushed));
    assert script[1..][1..] == [];
    assert Run(env, EncState(o1, pushed), script[1..]) == (Done, EncState(o2, pushed));
  }
}
