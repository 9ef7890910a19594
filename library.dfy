/**
  The library routines the plist code calls but whose workings are not
  part of this model: floating-point parsing and printing
  (strconv.ParseFloat, big.Float, fmt), time.Parse and time.Format with
  the RFC 3339 layout, and standard base64 (section 4 of RFC 4648). A
  Library value carries one function per routine; every statement about
  reals, dates and data holds for whatever functions it carries.
*/
module Library {
  import opened Wrappers
  import opened Strconv
  import opened Errors

  /** A float64, by its IEEE 754 bit pattern. */
  datatype Float64 = Float64(bits: bv64)

  /** A *big.Float, by the text it prints as. */
  datatype BigFloat = BigFloat(text: string)

  /** A time.Time: an instant and the zone offset it is shown in. */
  datatype Time = Time(unixNanos: int, offsetSeconds: int)

  newtype byte = b: int | 0 <= b < 256

  datatype Library = Library(
    /** strconv.ParseFloat(s, 64) */
    parseFloat: string -> Result<Float64, NumError>,
    /** (*big.Float).Parse(s, 10) */
    parseBigFloat: string -> Result<BigFloat, Error>,
    /** time.Parse(time.RFC3339, s) */
    parseTime: string -> Result<Time, Error>,
    /** reading all of base64.NewDecoder(base64.StdEncoding, s) */
    decodeBase64: string -> Result<seq<byte>, Error>,
    /** the text xml.Encoder prints for a float64 */
    formatFloat: Float64 -> string,
    /** (*big.Float).String() */
    formatBigFloat: BigFloat -> string,
    /** t.Format(time.RFC3339) */
    formatTime: Time -> string,
    /** writing through base64.NewEncoder(base64.StdEncoding, ...) */
    encodeBase64: seq<byte> -> string
  )
}
