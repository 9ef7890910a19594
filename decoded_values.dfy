/**
  What the streaming decoder hands back: plist scalars, container
  handles, the container markers, and dictionary entries; and the tier
  choice finishReadingInteger makes between int64, uint64 and big.Int.
*/
module DecodedValues {
  import opened Wrappers
  import opened Strconv
  import opened Errors
  import opened Library

  /** The Go types a leaf element decodes to. */
  datatype Leaf =
    | String(text: string)
    | Bool(truth: bool)
    | Int64(int64: int)
    | Uint64(uint64: nat)
    | BigInt(big: int)
    | Real(float: Float64)
    | BigReal(bigFloat: BigFloat)
    | Date(time: Time)
    | Data(bytes: seq<byte>)

  /**
    A value NextValue returns. H is what a container handle refers to:
    a decoder frame where frames exist, nothing at all in the
    specification functions.
  */
  datatype Value<H> =
    | Scalar(leaf: Leaf)
      /** a fresh *arrayDecoder */
    | NewArray(arrayDecoder: H)
      /** a fresh *dictDecoder */
    | NewDict(dictDecoder: H)
    | EndDecodingContainer
    | Entry(key: string, value: Value<H>)
    | StartDecodingArray
    | StartDecodingDict

  /** A value with its handles forgotten. */
  type Event = Value<()>

  function Shape<H>(v: Value<H>): (e: Event)
    ensures v.Scalar? <==> e.Scalar?
    ensures v.NewArray? <==> e.NewArray?
    ensures v.NewDict? <==> e.NewDict?
    ensures v.Entry? <==> e.Entry?
    ensures v.Scalar? ==> e.leaf == v.leaf
    ensures v.Entry? ==> e.key == v.key && e.value == Shape(v.value)
    ensures v.EndDecodingContainer? <==> e.EndDecodingContainer?
    ensures v.StartDecodingArray? <==> e.StartDecodingArray?
    ensures v.StartDecodingDict? <==> e.StartDecodingDict?
  {
    match v
    case Scalar(l) => Scalar(l)
    case NewArray(_) => NewArray(())
    case NewDict(_) => NewDict(())
    case EndDecodingContainer => EndDecodingContainer
    case Entry(k, x) => Entry(k, Shape(x))
    case StartDecodingArray => StartDecodingArray
    case StartDecodingDict => StartDecodingDict
  }

  function ShapeOf<H>(r: Result<Value<H>, Error>): Result<Event, Error>
  {
    if r.Success? then Success(Shape(r.value)) else Failure(r.error)
  }

  /** isErrOutOfRange: a *strconv.NumError whose reason is ErrRange. */
  predicate IsErrOutOfRange(e: Error)
  {
    e.NumErr? && e.numError.err == ErrRange
  }

  /**
    The decision of finishReadingInteger once the text is read: ParseInt,
    then ParseUint only after a range error, then big.Int only after a
    second range error; any other parse error is returned as it is.
  */
  function DecodeInteger(raw: string): Result<Leaf, Error>
  {
    var i := ParseInt(raw);
    if i.Success? then Success(Int64(i.value))
    else if !IsErrOutOfRange(NumErr(i.error)) then Failure(NumErr(i.error))
    else
      var u := ParseUint(raw);
      if u.Success? then Success(Uint64(u.value))
      else if !IsErrOutOfRange(NumErr(u.error)) then Failure(NumErr(u.error))
      else match BigSetString(raw)
        case Some(n) => Success(BigInt(n))
        case None => Failure(NotAnInteger(raw))
  }

  /** Text that fits an int64, sign allowed, decodes to int64. */
  lemma DecodeIntegerInt64(raw: string)
    requires IsSignedDecimal(raw) && MinInt64 <= SignedValue(raw) <= MaxInt64
    ensures DecodeInteger(raw) == Success(Int64(SignedValue(raw)))
  {
    ParseIntSuccessIff(raw);
  }

  /** Unsigned digits too large for an int64 but not for a uint64 decode to uint64. */
  lemma DecodeIntegerUint64(raw: string)
    requires raw != [] && AllDigits(raw) && MaxInt64 < DecimalValue(raw) <= MaxUint64
    ensures DecodeInteger(raw) == Success(Uint64(DecimalValue(raw)))
  {
    assert SignedBody(raw) == raw;
    ParseIntRangeIff(raw);
    ParseUintSuccessIff(raw);
  }

  /** Unsigned digits too large for a uint64 decode to a big integer. */
  lemma DecodeIntegerBig(raw: string)
    requires raw != [] && AllDigits(raw) && DecimalValue(raw) > MaxUint64
    ensures DecodeInteger(raw) == Success(BigInt(DecimalValue(raw)))
  {
    assert SignedBody(raw) == raw;
    var p := DigitPrefixLength(raw);
    assert p == |raw| by { DigitPrefixCovers(raw, |raw|); }
    assert raw[..p] == raw;
    ParseIntRangeIff(raw);
    ParseUintRangeIff(raw);
    ParseUintSuccessIff(raw);
  }

  /**
    A sign in front of a magnitude beyond the int64 range makes the text
    undecodable: ParseInt reports a range error, and ParseUint then
    rejects the sign as a syntax error, which is returned.
  */
  lemma DecodeIntegerSignedOutOfRange(raw: string)
    requires IsSignedDecimal(raw) && (raw[0] == '-' || raw[0] == '+')
    requires !(MinInt64 <= SignedValue(raw) <= MaxInt64)
    ensures DecodeInteger(raw) == Failure(NumErr(NumError("ParseUint", raw, ErrSyntax)))
  {
    var body := SignedBody(raw);
    var p := DigitPrefixLength(body);
    assert p == |body| by { DigitPrefixCovers(body, |body|); }
    ParseIntRangeIff(raw);
    ParseUintRangeIff(raw);
    ParseUintSuccessIff(raw);
    assert DigitPrefixLength(raw) == 0;
    assert raw[..0] == [];
  }

  /**
    Decoding succeeds exactly for signed decimals within the int64 range
    and for unsigned decimals of any size.
  */
  lemma DecodeIntegerSuccessIff(raw: string)
    ensures DecodeInteger(raw).Success? <==>
      (IsSignedDecimal(raw) && MinInt64 <= SignedValue(raw) <= MaxInt64) || (raw != [] && AllDigits(raw))
  {
    if IsSignedDecimal(raw) && MinInt64 <= SignedValue(raw) <= MaxInt64 {
      DecodeIntegerInt64(raw);
    } else if raw != [] && AllDigits(raw) {
      assert SignedBody(raw) == raw;
      if DecimalValue(raw) <= MaxUint64 {
        DecodeIntegerUint64(raw);
      } else {
        DecodeIntegerBig(raw);
      }
    } else if IsSignedDecimal(raw) {
      DecodeIntegerSignedOutOfRange(raw);
    } else {
      DecodeIntegerRejectsNonDecimal(raw);
    }
  }

  lemma DecodeIntegerRejectsNonDecimal(raw: string)
    requires !IsSignedDecimal(raw)
    ensures DecodeInteger(raw).Failure?
  {
    assert ParseInt(raw).Failure? by { ParseIntSuccessIff(raw); }
    assert ParseUint(raw).Failure? by {
      ParseUintSuccessIff(raw);
      assert raw != [] && AllDigits(raw) ==> SignedBody(raw) == raw;
    }
    assert BigSetString(raw).None? by { BigSetStringIff(raw); }
  }

  /**
    The last-resort error, "Could not parse ... as an integer", is
    reported exactly when the text begins with more digits than a uint64
    holds and then goes on with something that is not a digit: ParseUint
    reports the overflow before it reaches the bad character, and
    big.Int rejects the text.
  */
  lemma DecodeIntegerNotAnIntegerIff(raw: string)
    ensures DecodeInteger(raw) == Failure(NotAnInteger(raw)) <==>
      DigitPrefixLength(raw) < |raw| && DecimalValue(raw[..DigitPrefixLength(raw)]) > MaxUint64
  {
    var p := DigitPrefixLength(raw);
    if p < |raw| && DecimalValue(raw[..p]) > MaxUint64 {
      NotAnIntegerWhenOverflowThenJunk(raw);
    } else if DecodeInteger(raw) == Failure(NotAnInteger(raw)) {
      NotAnIntegerCauses(raw);
      OverflowThenJunkWhenRangeAndNotBig(raw);
    }
  }

  lemma NotAnIntegerWhenOverflowThenJunk(raw: string)
    requires DigitPrefixLength(raw) < |raw| && DecimalValue(raw[..DigitPrefixLength(raw)]) > MaxUint64
    ensures DecodeInteger(raw) == Failure(NotAnInteger(raw))
  {
    LeadingDigit(raw);
    assert ParseInt(raw).Failure? && ParseInt(raw).error.err == ErrRange by {
      ParseIntRangeIff(raw);
    }
    assert ParseUint(raw).Failure? && ParseUint(raw).error.err == ErrRange by {
      ParseUintRangeIff(raw);
    }
    assert BigSetString(raw).None? by {
      AllDigitsIffPrefixWhole(raw);
      BigSetStringIff(raw);
    }
    NotAnIntegerFromCauses(raw);
  }

  /** Two range errors and a rejected big.Int lead to "Could not parse ... as an integer". */
  lemma NotAnIntegerFromCauses(raw: string)
    requires ParseInt(raw).Failure? && ParseInt(raw).error.err == ErrRange
    requires ParseUint(raw).Failure? && ParseUint(raw).error.err == ErrRange && BigSetString(raw).None?
    ensures DecodeInteger(raw) == Failure(NotAnInteger(raw))
  {
  }

  lemma OverflowThenJunkWhenRangeAndNotBig(raw: string)
    requires ParseUint(raw).Failure? && ParseUint(raw).error.err == ErrRange && BigSetString(raw).None?
    ensures DigitPrefixLength(raw) < |raw| && DecimalValue(raw[..DigitPrefixLength(raw)]) > MaxUint64
  {
    ParseUintRangeIff(raw);
    LeadingDigit(raw);
    AllDigitsIffPrefixWhole(raw);
    BigSetStringIff(raw);
  }

  /** The two failures that lead to "Could not parse ... as an integer". */
  lemma NotAnIntegerCauses(raw: string)
    requires DecodeInteger(raw) == Failure(NotAnInteger(raw))
    ensures ParseUint(raw).Failure? && ParseUint(raw).error.err == ErrRange && BigSetString(raw).None?
  {
  }

  /**
    An example of that case: one past the largest uint64 followed by a
    letter, the text "18446744073709551616x".
  */
  lemma NotAnIntegerReachable()
    ensures var raw := DecimalText(MaxUint64 + 1) + "x";
      DecodeInteger(raw) == Failure(NotAnInteger(raw))
  {
    var digits := DecimalText(MaxUint64 + 1);
    var raw := digits + "x";
    assert raw[..|digits|] == digits;
    DigitPrefixEndsAt(raw, |digits|);
    DecodeIntegerNotAnIntegerIff(raw);
  }

  /** Text that is not a number is reported with ParseInt's own syntax error. */
  lemma DecodeIntegerRejectsText()
    ensures DecodeInteger("foo") == Failure(NumErr(NumError("ParseInt", "foo", ErrSyntax)))
    ensures DecodeInteger("") == Failure(NumErr(NumError("ParseInt", "", ErrSyntax)))
  {
    var foo := "foo";
    assert DigitPrefixLength(foo) == 0;
    ParseUintMeetsSpec(foo);
  }

  /**
    Reading back the decimal text the encoder writes for an integer: the
    smallest tier that holds it for values from the int64 minimum up,
    and an error below that.
  */
  lemma DecodeIntegerOfDecimalText(n: int)
    ensures MinInt64 <= n <= MaxInt64 ==> DecodeInteger(DecimalText(n)) == Success(Int64(n))
    ensures MaxInt64 < n <= MaxUint64 ==> DecodeInteger(DecimalText(n)) == Success(Uint64(n))
    ensures MaxUint64 < n ==> DecodeInteger(DecimalText(n)) == Success(BigInt(n))
    ensures n < MinInt64 ==> DecodeInteger(DecimalText(n)).Failure?
  {
    var t := DecimalText(n);
    if MinInt64 <= n <= MaxInt64 {
      DecodeIntegerInt64(t);
    } else if n > MaxInt64 {
      assert SignedBody(t) == t;
      if n <= MaxUint64 { DecodeIntegerUint64(t); } else { DecodeIntegerBig(t); }
    } else {
      DecodeIntegerSignedOutOfRange(t);
    }
  }
}
