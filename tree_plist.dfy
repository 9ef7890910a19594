/**
  Marshal of the tree API: the root is found or made first, then the
  header is written (declaration, newline, DOCTYPE, newline,
  <plist version="1.0">), then the root if there is one, then </plist>
  and a flush. Unlike the streaming encoder, the two newlines are
  written with their errors dropped.
*/
module TreePlist {
  import opened Wrappers
  import opened XmlTokens
  import opened Errors
  import opened Library
  import opened Vocabulary
  import opened Sink
  import opened TreeValues
  import opened TreeMarshal
  import opened TreeContainers
  import PlistEncoder

  /** Where the two dropped newlines fall among the header's attempts. */
  const FirstNewline: nat := 2
  const SecondNewline: nat := 5

  /**
    encodeHeader: each token and flush returns its error; the newline
    written after each flush drops its error.
  */
  function Header(failing: set<nat>, o: Output): (r: (Output, Option<Error>))
    ensures o.log <= r.0.log && o.attempts < r.0.attempts <= o.attempts + 7
    ensures r.1.Some? ==> r.1.value == WriteFailed(r.0.attempts - 1) && r.0.attempts - 1 in failing
                          && r.0.attempts - 1 - o.attempts !in {FirstNewline, SecondNewline}
    ensures r.1.None? ==> r.0.attempts == o.attempts + 7
                          && forall j :: j in failing && o.attempts <= j < o.attempts + 7
                                         ==> j - o.attempts in {FirstNewline, SecondNewline}
  {
    var (o1, e1) := Attempt(failing, o, Emit(Declaration));
    if e1.Some? then (o1, e1)
    else
      var (o2, e2) := Attempt(failing, o1, Flush);
      if e2.Some? then (o2, e2)
      else
        var (o3, _) := Attempt(failing, o2, Newline);
        var (o4, e4) := Attempt(failing, o3, Emit(Doctype));
        if e4.Some? then (o4, e4)
        else
          var (o5, e5) := Attempt(failing, o4, Flush);
          if e5.Some? then (o5, e5)
          else
            var (o6, _) := Attempt(failing, o5, Newline);
            Attempt(failing, o6, Emit(PlistStart))
  }

  /** Marshal */
  ghost function Document(lib: Library, failing: set<nat>, o: Output, v: Host): (r: Marshalled)
    ensures Root(v).Panics? ==> r == Marshalled(Panics(Root(v).reason), o)
    ensures Appends(failing, o, r)
  {
    match Root(v)
    case Panics(p) => Marshalled(Panics(p), o)
    case Returns(root) =>
      var (o1, err) := Header(failing, o);
      if err.Some? then Marshalled(Returns(err), o1)
      else
        var r1 := if root.NilElem? then Marshalled(Returns(None), o1) else MarshalElem(lib, failing, o1, root);
        AppendsTwice(failing, o, Marshalled(Returns(None), o1), r1);
        if r1.outcome != Returns(None) then r1
        else
          var (o2, e2) := Attempt(failing, r1.out, Emit(EndElement(PlistName)));
          AppendsTwice(failing, o, r1, Marshalled(Returns(e2), o2));
          if e2.Some? then Marshalled(Returns(e2), o2)
          else
            var r := WriteOne(failing, o2, Flush);
            AppendsTwice(failing, o, Marshalled(Returns(None), o2), r);
            r
  }

  /*
   * The methods.
   */

  /** encodeHeader on the writer w. */
  method EncodeHeader(w: Writer) returns (err: Option<Error>)
    modifies w
    ensures (w.Out(), err) == Header(w.failing, old(w.Out()))
  {
    err := w.Put(Emit(Declaration));
    if err.Some? {
      return;
    }
    err := w.Put(Flush);
    if err.Some? {
      return;
    }
    var _ := w.Put(Newline);
    err := w.Put(Emit(Doctype));
    if err.Some? {
      return;
    }
    err := w.Put(Flush);
    if err.Some? {
      return;
    }
    var _ := w.Put(Newline);
    err := w.Put(Emit(PlistStart));
  }

  /** getOrCreateRootElement */
  method GetOrCreateRootElement(v: Host) returns (r: Go<PlistElement>)
    ensures r == Root(v)
  {
    match v
    case HNil => r := Returns(NilElem);
    case HElement(e) => r := RootOf(e);
    case _ =>
      var c := CreatePlistElement(v);
      match c
      case Panics(p) => r := Panics(p);
      case Returns(e) => r := RootOf(e);
  }

  /** Marshal on the writer w. */
  method Marshal(lib: Library, v: Host, w: Writer) returns (r: Go<Option<Error>>)
    modifies w
    ensures Marshalled(r, w.Out()) == Document(lib, w.failing, old(w.Out()), v)
  {
    var root := GetOrCreateRootElement(v);
    if root.Panics? {
      return Panics(root.reason);
    }
    var err := EncodeHeader(w);
    if err.Some? {
      return Returns(err);
    }
    if !root.value.NilElem? {
      r := MarshalValue(lib, w, root.value);
      if r != Returns(None) {
        return;
      }
    }
    err := w.Put(Emit(EndElement(PlistName)));
    if err.Some? {
      return Returns(err);
    }
    err := w.Put(Flush);
    r := Returns(err);
  }

  /*
   * What Marshal writes.
   */

  /**
    With a writer that does not fail, the header is the streaming
    encoder's header followed by <plist version="1.0">.
  */
  lemma HeaderAsStreamed(failing: set<nat>, o: Output)
    requires Reliable(failing, o)
    ensures Header(failing, o) == (Advance(o, PlistEncoder.HeaderOps + [Emit(PlistStart)]), None)
  {
    var a1 := [Emit(Declaration)];
    var a2 := a1 + [Flush];
    var a3 := a2 + [Newline];
    var a4 := a3 + [Emit(Doctype)];
    var a5 := a4 + [Flush];
    var a6 := a5 + [Newline];
    var a7 := a6 + [Emit(PlistStart)];
    ReliableAttempt(failing, o, [], Emit(Declaration));
    assert [] + a1 == a1;
    ReliableAttempt(failing, o, a1, Flush);
    ReliableAttempt(failing, o, a2, Newline);
    ReliableAttempt(failing, o, a3, Emit(Doctype));
    ReliableAttempt(failing, o, a4, Flush);
    ReliableAttempt(failing, o, a5, Newline);
    ReliableAttempt(failing, o, a6, Emit(PlistStart));
    assert Advance(o, []) == o;
    assert PlistEncoder.HeaderOps + [Emit(PlistStart)] == a7;
  }

  /** A write from a writer that does not fail succeeds. */
  lemma ReliableAttempt(failing: set<nat>, o: Output, a: seq<Op>, op: Op)
    requires Reliable(failing, o)
    ensures Attempt(failing, Advance(o, a), op) == (Advance(o, a + [op]), None)
  {
    assert o.log + a + [op] == o.log + (a + [op]);
  }

  /**
    With a writer that does not fail, Marshal writes the same header
    and trailer as the streaming encoder around the rendering of the
    root, nothing at all between them for a nil value, and returns nil;
    it panics exactly when the root has no rendering.
  */
  lemma DocumentRenders(lib: Library, failing: set<nat>, o: Output, v: Host)
    requires Reliable(failing, o) && Root(v).Returns?
    ensures var root := Root(v).value;
            root.NilElem? ==> Document(lib, failing, o, v)
                              == Marshalled(Returns(None), Advance(o, PlistEncoder.HeaderOps + [Emit(PlistStart)]
                                                                      + PlistEncoder.EndOps))
    ensures var root := Root(v).value;
            !root.NilElem? && Render(lib, root).Some? ==>
              Document(lib, failing, o, v)
              == Marshalled(Returns(None), Advance(o, PlistEncoder.HeaderOps + [Emit(PlistStart)]
                                                      + Render(lib, root).value + PlistEncoder.EndOps))
    ensures !Root(v).value.NilElem? && Render(lib, Root(v).value).None? ==>
              Document(lib, failing, o, v).outcome.Panics?
  {
    var root := Root(v).value;
    var h := PlistEncoder.HeaderOps + [Emit(PlistStart)];
    HeaderAsStreamed(failing, o);
    var o1 := Advance(o, h);
    var body := if root.NilElem? then [] else if Render(lib, root).Some? then Render(lib, root).value else [];
    if !root.NilElem? {
      MarshalRenders(lib, failing, o1, root);
    }
    if root.NilElem? || Render(lib, root).Some? {
      var o2 := Advance(o1, body);
      assert o2 == o1 || MarshalElem(lib, failing, o1, root) == Marshalled(Returns(None), o2);
      assert Document(lib, failing, o, v) == Marshalled(Returns(None), Advance(o2, PlistEncoder.EndOps)) by {
        assert o2.log + [Emit(EndElement(PlistName))] + [Flush] == o2.log + PlistEncoder.EndOps;
      }
      AdvanceTwice(o, h, body);
      AdvanceTwice(o, h + body, PlistEncoder.EndOps);
      assert h + [] == h;
    }
  }

  /**
    Marshal(nil) writes the two header lines and an empty
    <plist version="1.0"></plist>.
  */
  lemma MarshalNil(lib: Library)
    ensures Document(lib, {}, Empty, HNil).outcome == Returns(None)
    ensures LogTokens(Document(lib, {}, Empty, HNil).out.log)
            == [Declaration, CharData("\n"), Doctype, CharData("\n"), PlistStart, EndElement(PlistName)]
  {
    DocumentRenders(lib, {}, Empty, HNil);
    PlistEncoder.HeaderAndRootTokens(Declaration, Doctype, PlistStart, EndElement(PlistName));
    var all := PlistEncoder.HeaderOps + [Emit(PlistStart)] + PlistEncoder.EndOps;
    assert all == [Emit(Declaration)] + PlistEncoder.NewlineOps + [Emit(Doctype)] + PlistEncoder.NewlineOps
                  + [Emit(PlistStart)] + [Emit(EndElement(PlistName)), Flush];
    assert Document(lib, {}, Empty, HNil).out.log == Empty.log + all;
    assert Empty.log + all == all;
  }

  /**
    A failing newline does not stop Marshal: the document is written
    without that line break and nil is returned. The streaming
    encoder's startPlist fails on the same write.
  */
  lemma NewlineFailureIgnored(lib: Library, o: Output, k: nat)
    requires k == FirstNewline || k == SecondNewline
    ensures Document(lib, {o.attempts + k}, o, HNil).outcome == Returns(None)
    ensures |Document(lib, {o.attempts + k}, o, HNil).out.log| == |o.log| + 8
    ensures PlistEncoder.Start({o.attempts + k}, o).1 == Some(HeaderWriteFailed(WriteFailed(o.attempts + k)))
  {
    var failing := {o.attempts + k};
    PlistEncoder.AttemptAllStops(failing, o, PlistEncoder.HeaderOps, k);
  }
}
