/**
  The errors the decoder and the encoder report. Go builds most of them
  with fmt.Errorf; here each message format is one constructor carrying
  the values the message prints.
*/
module Errors {
  import opened XmlTokens
  import opened Strconv

  datatype Error =
      /** io.EOF: the token reader ran out of input. */
    | EOF
      /** Any other error of the token reader (malformed XML). */
    | SyntaxError(code: nat)
      /** "Invalid element: %+v" */
    | InvalidElement(token: Token)
      /** "Expected %#v, found %#v": an end tag other than the one awaited. */
    | UnexpectedEnd(expected: Name, found: Name)
      /** A *strconv.NumError passed through unchanged. */
    | NumErr(numError: NumError)
      /** "Could not parse '%s' as an integer." */
    | NotAnInteger(raw: string)
      /** An error of a library routine that is not modelled (time, base64, big.Float). */
    | LibraryError(code: nat)
      /** "Expected key or dict, found %#v" */
    | ExpectedKeyOrDictEnd(token: Token)
      /** "Expected <plist version=\"1.0\">, found %#v" */
    | ExpectedPlist(token: Token)
      /** "Expected container start element, found %#v" */
    | ExpectedContainerStart(token: Token)
      /** An error of the output writer; attempt numbers the failing write. */
    | WriteFailed(attempt: nat)
      /** "error writing plist header: %s" */
    | HeaderWriteFailed(cause: Error)
      /** An error an encoding callback returns of its own accord. */
    | CallbackError(code: nat)
      /** "invalid type for encoding: %v (%v)" */
    | InvalidEncodeType(kind: string)
}
