/**
  The vocabulary of the generic XML token reader and writer (Go's
  encoding/xml): qualified names, attributes and the six token kinds.
  The tokenizer itself is not modelled; a document is a given sequence
  of these tokens.
*/
module XmlTokens {

  /** xml.Name: a namespace and a local name. */
  datatype Name = Name(space: string, local: string)

  /** xml.Attr */
  datatype Attr = Attr(name: Name, value: string)

  /** xml.Token */
  datatype Token =
    | StartElement(name: Name, attrs: seq<Attr>)
    | EndElement(name: Name)
    | CharData(text: string)
    | Comment(text: string)
    | ProcInst(target: string, inst: string)
    | Directive(text: string)

  /** xml.StartElement.End(): the end tag that closes a start tag. */
  function End(start: Token): (t: Token)
    requires start.StartElement?
    ensures t.EndElement? && t.name == start.name
  {
    EndElement(start.name)
  }

  /**
    Go's unicode.IsSpace: the Latin-1 spaces and the rest of Unicode's
    White_Space property.
  */
  predicate IsSpace(c: char)
  {
    var n := c as int;
    n == 0x09 || n == 0x0A || n == 0x0B || n == 0x0C || n == 0x0D || n == 0x20
    || n == 0x85 || n == 0xA0 || n == 0x1680 || (0x2000 <= n <= 0x200A)
    || n == 0x2028 || n == 0x2029 || n == 0x202F || n == 0x205F || n == 0x3000
  }

  /** strings.TrimLeftFunc(s, unicode.IsSpace) */
  function TrimLeft(s: string): (r: string)
    ensures |r| <= |s| && r == s[|s| - |r|..]
    ensures r == [] || !IsSpace(r[0])
    ensures forall i :: 0 <= i < |s| - |r| ==> IsSpace(s[i])
  {
    if s != [] && IsSpace(s[0]) then TrimLeft(s[1..]) else s
  }

  /** strings.TrimRightFunc(s, unicode.IsSpace) */
  function TrimRight(s: string): (r: string)
    ensures |r| <= |s| && r == s[..|r|]
    ensures r == [] || !IsSpace(r[|r| - 1])
    ensures forall i :: |r| <= i < |s| ==> IsSpace(s[i])
  {
    if s != [] && IsSpace(s[|s| - 1]) then TrimRight(s[..|s| - 1]) else s
  }

  /** strings.TrimSpace */
  function TrimSpace(s: string): string
  {
    TrimRight(TrimLeft(s))
  }

  /** Text made of white space only. */
  predicate IsBlank(s: string)
  {
    forall i :: 0 <= i < |s| ==> IsSpace(s[i])
  }

  /**
    The decoder's test len(strings.TrimSpace(s)) == 0 holds exactly for
    blank text.
  */
  lemma TrimSpaceEmptyIffBlank(s: string)
    ensures |TrimSpace(s)| == 0 <==> IsBlank(s)
  {
  }
}
