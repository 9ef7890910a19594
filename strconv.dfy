/**
  The base-10, 64-bit contract of Go's strconv.ParseInt and
  strconv.ParseUint, the decimal text printed for integers, and
  (*big.Int).SetString with base 10. The integer decoder's tier
  fallback (int64, then uint64, then big integer) is built on these.
*/
module Strconv {
  import opened Wrappers

  const MaxInt64: int := 0x7FFF_FFFF_FFFF_FFFF
  const MinInt64: int := -0x8000_0000_0000_0000
  const MaxUint64: int := 0xFFFF_FFFF_FFFF_FFFF

  /** strconv.ErrSyntax and strconv.ErrRange */
  datatype NumErrorKind = ErrSyntax | ErrRange

  /** *strconv.NumError: the function, the text it was given, the reason. */
  datatype NumError = NumError(func: string, num: string, err: NumErrorKind)

  predicate IsDigit(c: char)
  {
    '0' <= c <= '9'
  }

  function DigitValue(c: char): nat
    requires IsDigit(c)
  {
    c as int - '0' as int
  }

  predicate AllDigits(s: string)
  {
    forall i :: 0 <= i < |s| ==> IsDigit(s[i])
  }

  /** The number a string of decimal digits denotes. */
  function DecimalValue(s: string): nat
    requires AllDigits(s)
  {
    if s == [] then 0 else DecimalValue(s[..|s| - 1]) * 10 + DigitValue(s[|s| - 1])
  }

  /** Length of the longest prefix of s made of digits only. */
  function DigitPrefixLength(s: string): (n: nat)
    ensures n <= |s| && AllDigits(s[..n])
    ensures n < |s| ==> !IsDigit(s[n])
  {
    if s == [] || !IsDigit(s[0]) then 0
    else
      var n := 1 + DigitPrefixLength(s[1..]);
      assert s[..n] == [s[0]] + s[1..][..n - 1];
      n
  }

  /**
    The digit loop of strconv.ParseUint for base 10 and bit size 64, as
    the library writes it: n holds the value of s[..i]; a non-digit is a
    syntax error, and the first digit that takes the value past the
    largest uint64 is a range error, whatever follows it.
  */
  function ParseUintLoop(s: string, i: nat, n: nat): Result<nat, NumErrorKind>
    requires i <= |s| && n <= MaxUint64
    decreases |s| - i
  {
    if i == |s| then Success(n)
    else if !IsDigit(s[i]) then Failure(ErrSyntax)
    else if n >= MaxUint64 / 10 + 1 then Failure(ErrRange)
    else
      var n1 := n * 10 + DigitValue(s[i]);
      if n1 > MaxUint64 then Failure(ErrRange) else ParseUintLoop(s, i + 1, n1)
  }

  /** strconv.ParseUint(s, 10, 64) */
  function ParseUint(s: string): Result<nat, NumError>
  {
    if s == [] then Failure(NumError("ParseUint", s, ErrSyntax))
    else match ParseUintLoop(s, 0, 0)
      case Success(n) => Success(n)
      case Failure(k) => Failure(NumError("ParseUint", s, k))
  }

  /**
    strconv.ParseInt(s, 10, 64): an optional sign, then the unsigned
    parse of the rest; a syntax error of that parse is reported as
    ParseInt's own, and a magnitude outside the int64 range is a range
    error.
  */
  function ParseInt(s: string): Result<int, NumError>
  {
    if s == [] then Failure(NumError("ParseInt", s, ErrSyntax))
    else
      var neg := s[0] == '-';
      var u := ParseUint(SignedBody(s));
      if u.Failure? && u.error.err == ErrSyntax then Failure(NumError("ParseInt", s, ErrSyntax))
      else
        var un := if u.Success? then u.value else MaxUint64;
        if !neg && un >= 0x8000_0000_0000_0000 then Failure(NumError("ParseInt", s, ErrRange))
        else if neg && un > 0x8000_0000_0000_0000 then Failure(NumError("ParseInt", s, ErrRange))
        else Success(if neg then -un else un)
  }

  /** (*big.Int).SetString(s, 10): an optional sign and at least one digit, nothing else. */
  function BigSetString(s: string): Option<int>
  {
    var body := if |s| > 0 && (s[0] == '+' || s[0] == '-') then s[1..] else s;
    if body != [] && AllDigits(body) then
      var v: int := DecimalValue(body);
      Some(if s[0] == '-' then -v else v)
    else None
  }

  // ---------------------------------------------------------------------
  // Declarative reading of the parsers.

  /** Text made of an optional sign followed by one or more digits. */
  predicate IsSignedDecimal(s: string)
  {
    |s| > 0 && var body := SignedBody(s); body != [] && AllDigits(body)
  }

  /** The text after an optional leading sign. */
  function SignedBody(s: string): (b: string)
    ensures |b| <= |s| && b == s[|s| - |b|..]
  {
    if |s| > 0 && (s[0] == '+' || s[0] == '-') then s[1..] else s
  }

  /** The number a signed decimal text denotes. */
  function SignedValue(s: string): int
    requires IsSignedDecimal(s)
  {
    var v: int := DecimalValue(SignedBody(s));
    if s[0] == '-' then -v else v
  }

  /**
    What ParseUint answers, stated without the loop: a range error when
    the leading run of digits already exceeds the largest uint64, a
    syntax error when the text is empty or holds a non-digit, and the
    value otherwise.
  */
  function ParseUintSpec(s: string): Result<nat, NumErrorKind>
  {
    var p := DigitPrefixLength(s);
    if s == [] then Failure(ErrSyntax)
    else if DecimalValue(s[..p]) > MaxUint64 then Failure(ErrRange)
    else if p < |s| then Failure(ErrSyntax)
    else Success(DecimalValue(s))
  }

  /** Appending a digit multiplies by ten and adds it. */
  lemma DecimalValueAppend(s: string, i: nat)
    requires i < |s| && AllDigits(s[..i + 1])
    ensures AllDigits(s[..i])
    ensures DecimalValue(s[..i + 1]) == DecimalValue(s[..i]) * 10 + DigitValue(s[i])
  {
    assert s[..i + 1][..i] == s[..i];
  }

  /** The value of a digit prefix never exceeds that of a longer digit prefix. */
  lemma {:induction false} DecimalValueMonotone(s: string, j: nat, k: nat)
    requires j <= k <= |s| && AllDigits(s[..k])
    ensures AllDigits(s[..j]) && DecimalValue(s[..j]) <= DecimalValue(s[..k])
    decreases k - j
  {
    if j < k {
      DecimalValueAppend(s, k - 1);
      DecimalValueMonotone(s, j, k - 1);
    }
  }

  /** A run of digits at the front of s lies inside its longest digit prefix. */
  lemma {:induction false} DigitPrefixCovers(s: string, i: nat)
    requires i <= |s| && AllDigits(s[..i])
    ensures i <= DigitPrefixLength(s)
  {
    if i > 0 {
      assert s[..i][0] == s[0];
      assert s[1..][..i - 1] == s[..i][1..];
      DigitPrefixCovers(s[1..], i - 1);
    }
  }

  /** A run of digits followed by a non-digit is the longest digit prefix. */
  lemma DigitPrefixEndsAt(s: string, i: nat)
    requires i < |s| && AllDigits(s[..i]) && !IsDigit(s[i])
    ensures DigitPrefixLength(s) == i
  {
    DigitPrefixCovers(s, i);
  }

  /** A text is all digits exactly when its longest digit prefix is the whole of it. */
  lemma AllDigitsIffPrefixWhole(s: string)
    ensures AllDigits(s) <==> DigitPrefixLength(s) == |s|
    ensures DigitPrefixLength(s) == |s| ==> s[..DigitPrefixLength(s)] == s
  {
    if AllDigits(s) {
      DigitPrefixCovers(s, |s|);
    }
    if DigitPrefixLength(s) == |s| {
      assert s[..|s|] == s;
    }
  }

  /** A leading run of digits with a positive value means the text starts with a digit, not a sign. */
  lemma LeadingDigit(s: string)
    requires DecimalValue(s[..DigitPrefixLength(s)]) > 0
    ensures DigitPrefixLength(s) > 0 && IsDigit(s[0]) && SignedBody(s) == s
  {
    DigitsStart(s, DigitPrefixLength(s));
  }

  /** Text that begins with a non-empty run of digits has no sign. */
  lemma DigitsStart(s: string, p: nat)
    requires 0 < p <= |s| && AllDigits(s[..p])
    ensures IsDigit(s[0]) && SignedBody(s) == s
  {
    assert s[..p][0] == s[0];
  }

  lemma {:induction false} ParseUintLoopMeetsSpec(s: string, i: nat)
    requires 0 < |s| && i <= |s| && AllDigits(s[..i]) && DecimalValue(s[..i]) <= MaxUint64
    ensures ParseUintLoop(s, i, DecimalValue(s[..i])) == ParseUintSpec(s)
    decreases |s| - i
  {
    var p := DigitPrefixLength(s);
    var n := DecimalValue(s[..i]);
    DigitPrefixCovers(s, i);
    if i == |s| {
      assert s[..i] == s;
    } else {
      if !IsDigit(s[i]) {
        assert p == i;
      } else {
        assert AllDigits(s[..i + 1]) by {
          assert s[..i + 1] == s[..i] + [s[i]];
        }
        DecimalValueAppend(s, i);
        var n1 := n * 10 + DigitValue(s[i]);
        assert p >= i + 1;
        if n1 > MaxUint64 {
          DecimalValueMonotone(s, i + 1, p);
        } else {
          ParseUintLoopMeetsSpec(s, i + 1);
        }
      }
    }
  }

  /** ParseUint agrees with its declarative reading on every input. */
  lemma ParseUintMeetsSpec(s: string)
    ensures s != [] ==> ParseUint(s) == match ParseUintSpec(s)
      case Success(n) => Success(n)
      case Failure(k) => Failure(NumError("ParseUint", s, k))
    ensures s == [] ==> ParseUint(s) == Failure(NumError("ParseUint", s, ErrSyntax))
  {
    if s != [] {
      assert s[..0] == [];
      ParseUintLoopMeetsSpec(s, 0);
    }
  }

  /** ParseUint succeeds exactly on non-empty digit strings whose value fits a uint64. */
  lemma ParseUintSuccessIff(s: string)
    ensures ParseUint(s).Success? <==> s != [] && AllDigits(s) && DecimalValue(s) <= MaxUint64
    ensures ParseUint(s).Success? ==> ParseUint(s).value == DecimalValue(s)
  {
    ParseUintMeetsSpec(s);
    var p := DigitPrefixLength(s);
    if s != [] && AllDigits(s) {
      assert p == |s| && s[..p] == s;
    }
  }

  /**
    ParseUint reports a range error exactly when the leading run of
    digits exceeds the largest uint64, even if non-digits follow.
  */
  lemma ParseUintRangeIff(s: string)
    ensures (ParseUint(s).Failure? && ParseUint(s).error.err == ErrRange)
      <==> s != [] && DecimalValue(s[..DigitPrefixLength(s)]) > MaxUint64
  {
    ParseUintMeetsSpec(s);
  }

  /** ParseInt succeeds exactly on signed decimals whose value fits an int64. */
  lemma ParseIntSuccessIff(s: string)
    ensures ParseInt(s).Success? <==> IsSignedDecimal(s) && MinInt64 <= SignedValue(s) <= MaxInt64
    ensures ParseInt(s).Success? ==> ParseInt(s).value == SignedValue(s)
  {
    if s != [] {
      ParseUintSuccessIff(SignedBody(s));
      ParseUintMeetsSpec(SignedBody(s));
    }
  }

  /** A ParseInt range error means the magnitude was too large for an int64 or a uint64. */
  lemma ParseIntRangeIff(s: string)
    ensures (ParseInt(s).Failure? && ParseInt(s).error.err == ErrRange) <==>
      s != [] && SignedBody(s) != [] &&
      (DecimalValue(SignedBody(s)[..DigitPrefixLength(SignedBody(s))]) > MaxUint64 ||
       (IsSignedDecimal(s) && !(MinInt64 <= SignedValue(s) <= MaxInt64)))
  {
    if s != [] {
      var body := SignedBody(s);
      ParseUintMeetsSpec(body);
      var p := DigitPrefixLength(body);
      if AllDigits(body) {
        DigitPrefixCovers(body, |body|);
        assert body[..p] == body;
      }
    }
  }

  // ---------------------------------------------------------------------
  // Decimal text, as strconv.FormatInt, strconv.FormatUint and
  // (*big.Int).String print it.

  function DigitChar(d: nat): (c: char)
    requires d < 10
    ensures IsDigit(c) && DigitValue(c) == d
  {
    ('0' as int + d) as char
  }

  /** The canonical digits of n: no leading zero, "0" for zero. */
  function NaturalText(n: nat): (s: string)
    ensures s != [] && AllDigits(s) && DecimalValue(s) == n
    ensures s[0] == '0' ==> n == 0
    decreases n
  {
    if n < 10 then [DigitChar(n)]
    else
      var s := NaturalText(n / 10) + [DigitChar(n % 10)];
      assert s[..|s| - 1] == NaturalText(n / 10);
      s
  }

  /** The decimal text of n: a '-' for negatives, then the canonical digits. */
  function DecimalText(n: int): (s: string)
    ensures IsSignedDecimal(s) && SignedValue(s) == n
    ensures s[0] != '+'
    ensures n >= 0 ==> AllDigits(s)
  {
    if n < 0 then
      var s := "-" + NaturalText(-n);
      assert SignedBody(s) == NaturalText(-n);
      s
    else
      assert SignedBody(NaturalText(n)) == NaturalText(n);
      NaturalText(n)
  }

  /** (*big.Int).SetString accepts exactly the signed decimals. */
  lemma BigSetStringIff(s: string)
    ensures BigSetString(s).Some? <==> IsSignedDecimal(s)
    ensures BigSetString(s).Some? ==> BigSetString(s).value == SignedValue(s)
  {
  }

  /** ParseInt reads back every int64 that DecimalText prints. */
  lemma ParseIntReadsDecimalText(n: int)
    requires MinInt64 <= n <= MaxInt64
    ensures ParseInt(DecimalText(n)) == Success(n)
  {
    ParseIntSuccessIff(DecimalText(n));
  }

  /** ParseUint reads back every uint64 that DecimalText prints. */
  lemma ParseUintReadsDecimalText(n: nat)
    requires n <= MaxUint64
    ensures ParseUint(DecimalText(n)) == Success(n)
  {
    ParseUintSuccessIff(DecimalText(n));
  }

  /** (*big.Int).SetString reads back every integer that DecimalText prints. */
  lemma BigSetStringReadsDecimalText(n: int)
    ensures BigSetString(DecimalText(n)) == Some(n)
  {
  }
}
