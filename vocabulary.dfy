/**
  The fixed tokens of an XML property list: the XML declaration, the
  Apple DOCTYPE, the <plist version="1.0"> root and the element names of
  the values. Both the streaming package and the tree package write the
  same ones.
*/
module Vocabulary {
  import opened XmlTokens

  /** The start element of an element in no namespace and without attributes. */
  function XmlElement(local: string): (t: Token)
    ensures t.StartElement? && t.name == Name("", local) && t.attrs == []
  {
    StartElement(Name("", local), [])
  }

  lemma XmlElementInjective(a: string, b: string)
    ensures XmlElement(a) == XmlElement(b) <==> a == b
  {
  }

  /** The XML declaration. */
  const DeclarationTarget := "xml"
  const DeclarationText := "version=\"1.0\" encoding=\"UTF-8\""
  const Declaration: Token := ProcInst(DeclarationTarget, DeclarationText)

  /** The document type declaration of Apple's property-list DTD. */
  const DoctypeText :=
    "DOCTYPE plist PUBLIC \"-//Apple Computer//DTD PLIST 1.0//EN\" \"http://www.apple.com/DTDs/PropertyList-1.0.dtd\""
  const Doctype: Token := Directive(DoctypeText)

  /** The root element, <plist version="1.0">. */
  const PlistName := Name("", "plist")
  const PlistStart: Token := StartElement(PlistName, [Attr(Name("", "version"), "1.0")])

  const StringName := Name("", "string")
  const RealName := Name("", "real")
  const TrueName := Name("", "true")
  const FalseName := Name("", "false")
  const IntegerName := Name("", "integer")
  const DateName := Name("", "date")
  const DataName := Name("", "data")
  const ArrayName := Name("", "array")
  const DictName := Name("", "dict")
  const KeyName := Name("", "key")

  /** The layout dates are printed and parsed with: time.RFC3339. */
  const DateLayout := "2006-01-02T15:04:05Z07:00"

  /** The seven leaf names. */
  function LeafNames(): (names: seq<Name>)
    ensures |names| == 7
    ensures forall i :: 0 <= i < |names| ==> names[i].space == ""
  {
    [StringName, RealName, TrueName, FalseName, IntegerName, DateName, DataName]
  }

  /**
    No two value names coincide, so the decoder's dispatch on the name of
    a start element picks at most one case, and the container names are
    not leaf names.
  */
  lemma ValueNamesDistinct()
    ensures forall i, j :: 0 <= i < j < |LeafNames()| ==> LeafNames()[i] != LeafNames()[j]
    ensures ArrayName !in LeafNames() && DictName !in LeafNames() && KeyName !in LeafNames()
    ensures ArrayName != DictName && PlistName !in LeafNames() + [ArrayName, DictName, KeyName]
  {
    AllDistinct();
    var all := ValueNames();
    assert all[..7] == LeafNames();
    assert all[7] == ArrayName && all[8] == DictName && all[9] == KeyName && all[10] == PlistName;
  }

  /** No two of the eleven names coincide. */
  lemma AllDistinct()
    ensures forall i, j :: 0 <= i < j < |ValueNames()| ==> ValueNames()[i] != ValueNames()[j]
  {
    NameEnds();
    EndsDistinct();
  }

  lemma EndsDistinct()
    ensures forall i, j :: 0 <= i < j < |EndsTable| ==> EndsTable[i] != EndsTable[j]
  {
  }

  /** The leaf names, then the array, dict, key and plist names. */
  function ValueNames(): seq<Name>
  {
    LeafNames() + [ArrayName, DictName, KeyName, PlistName]
  }

  const EndsTable := [('s', 'g'), ('r', 'l'), ('t', 'e'), ('f', 'e'), ('i', 'r'), ('d', 'e'), ('d', 'a'),
                      ('a', 'y'), ('d', 't'), ('k', 'y'), ('p', 't')]

  lemma NameEnds()
    ensures |ValueNames()| == |EndsTable|
    ensures forall i :: 0 <= i < |ValueNames()| ==> Ends(ValueNames()[i]) == EndsTable[i]
  {
  }

  /** The first and the last letter of a name. */
  function Ends(n: Name): (char, char)
  {
    if n.local == [] then ('\0', '\0') else (n.local[0], n.local[|n.local| - 1])
  }

  /** The root element carries exactly one attribute, version="1.0". */
  lemma PlistStartShape()
    ensures PlistStart.StartElement? && PlistStart.name.local == "plist" && PlistStart.name.space == ""
    ensures |PlistStart.attrs| == 1 && PlistStart.attrs[0] == Attr(Name("", "version"), "1.0")
  {
  }
}
