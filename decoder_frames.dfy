/**
  The frames of the streaming decoder. Go's baseDecoder struct holds a
  parent link and the shared token reader; arrayDecoder and dictDecoder
  embed it. A frame here is that struct; a ContainerDecoder is an
  interface value referring to a frame through one of the three Go
  types, which decides the rules its NextValue follows.
*/
module DecoderFrames {
  import opened Wrappers
  import opened TokenCursor

  class DecoderFrame {
    /** The frame's parent decoder; None for the root container. */
    const parent: Option<ContainerDecoder>
    /** The *xml.Decoder every frame of one decoding shares. */
    const cursor: Cursor

    constructor (parent: Option<ContainerDecoder>, cursor: Cursor)
      ensures this.parent == parent && this.cursor == cursor
    {
      this.parent := parent;
      this.cursor := cursor;
    }
  }

  /**
    A containerDecoder interface value. Base is a *baseDecoder, which is
    what a frame hands its children as their parent: in Go the reference
    is the address of the base struct embedded in the array or dict
    decoder, so it carries the base rules even when the frame is a dict.
  */
  datatype ContainerDecoder =
    | Base(frame: DecoderFrame)
    | ArrayDecoder(frame: DecoderFrame)
    | DictDecoder(frame: DecoderFrame)

  /** newArrayDecoder: a fresh frame with the given parent, sharing the given reader. */
  method NewArrayDecoder(parent: Option<ContainerDecoder>, cursor: Cursor) returns (d: ContainerDecoder)
    ensures d.ArrayDecoder? && fresh(d.frame)
    ensures d.frame.parent == parent && d.frame.cursor == cursor
  {
    var frame := new DecoderFrame(parent, cursor);
    d := ArrayDecoder(frame);
  }

  /** newDictDecoder: a fresh frame with the given parent, sharing the given reader. */
  method NewDictDecoder(parent: Option<ContainerDecoder>, cursor: Cursor) returns (d: ContainerDecoder)
    ensures d.DictDecoder? && fresh(d.frame)
    ensures d.frame.parent == parent && d.frame.cursor == cursor
  {
    var frame := new DecoderFrame(parent, cursor);
    d := DictDecoder(frame);
  }

  /** ParentDecoder, which every frame answers from its base struct. */
  function ParentDecoder(d: ContainerDecoder): Option<ContainerDecoder>
  {
    d.frame.parent
  }
}
