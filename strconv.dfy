/** The part of Go's `strconv` package the loaders rely on, for base 10 only:
    ParseBool, ParseUint, ParseInt and Atoi. Each parser is written the way
    the library computes (a digit loop that rejects a bad character or an
    overflow as soon as it meets one) and its contract states the result
    against declarative definitions of decimal text and its value. */
module StrConv {
  import opened Wrappers
  import opened GoTypes

  /** The `Err` field of a *strconv.NumError: which kind of failure it was. */
  datatype NumError = ErrSyntax | ErrRange

  /** The bitSize arguments the loaders pass; 0 stands for IntSize. */
  type BitSize = b: nat | b == 0 || b == 8 || b == 16 || b == 32 || b == 64

  function WidthOf(bitSize: BitSize): Width
  {
    if bitSize == 0 then IntSize else bitSize
  }

  // ---------------------------------------------------------------------
  // Decimal text, declaratively

  predicate IsDigit(c: char)
  {
    '0' <= c <= '9'
  }

  function DigitValue(c: char): (d: nat)
    requires IsDigit(c)
  {
    c as int - '0' as int
  }

  predicate AllDigits(s: string)
  {
    forall i :: 0 <= i < |s| ==> IsDigit(s[i])
  }

  /** Unsigned decimal text: one or more digits and nothing else (no sign,
      no underscore, no base prefix). */
  predicate IsUnsignedDecimal(s: string)
  {
    |s| > 0 && AllDigits(s)
  }

  /** The number a string of digits denotes in base 10. */
  function DecimalValue(s: string): nat
    requires AllDigits(s)
  {
    if s == [] then 0 else 10 * DecimalValue(s[..|s| - 1]) + DigitValue(s[|s| - 1])
  }

  /** The optional leading sign ParseInt accepts, split from the rest:
      (negative?, text after the sign). */
  function SplitSign(s: string): (bool, string)
  {
    if |s| > 0 && s[0] == '+' then (false, s[1..])
    else if |s| > 0 && s[0] == '-' then (true, s[1..])
    else (false, s)
  }

  /** Signed decimal text: an optional '+' or '-', then unsigned decimal text. */
  predicate IsSignedDecimal(s: string)
  {
    IsUnsignedDecimal(SplitSign(s).1)
  }

  function SignedDecimalValue(s: string): int
    requires IsSignedDecimal(s)
  {
    var (negative, digits) := SplitSign(s);
    var magnitude: int := DecimalValue(digits);
    if negative then -magnitude else magnitude
  }

  /** The end of the run of digits that starts at `i`. */
  function DigitRun(s: string, i: nat): (e: nat)
    requires i <= |s|
    ensures i <= e <= |s|
    ensures forall k :: i <= k < e ==> IsDigit(s[k])
    ensures e < |s| ==> !IsDigit(s[e])
    decreases |s| - i
  {
    if i == |s| || !IsDigit(s[i]) then i else DigitRun(s, i + 1)
  }

  // ---------------------------------------------------------------------
  // The parsers

  /** The digit loop of strconv.ParseUint for base 10. `n` is the value of
      s[..i]. A character that is not a digit (an underscore or a letter
      included) is a syntax error; a step whose value would exceed `maxVal` is
      a range error. Go's two overflow tests (against the cutoff before the
      multiplication and against wrap-around after the addition) together
      say exactly that 10 * n + d > maxVal on unbounded integers. */
  function ScanUint(s: string, i: nat, n: nat, maxVal: nat): Result<nat, NumError>
    requires i <= |s| && n <= maxVal
    decreases |s| - i
  {
    if i == |s| then Ok(n)
    else if !IsDigit(s[i]) then Err(ErrSyntax)
    else if 10 * n + DigitValue(s[i]) > maxVal then Err(ErrRange)
    else ScanUint(s, i + 1, 10 * n + DigitValue(s[i]), maxVal)
  }

  /** strconv.ParseUint(s, 10, bitSize). */
  function ParseUint(s: string, bitSize: BitSize): (r: Result<nat, NumError>)
    ensures r.Ok? <==> IsUnsignedDecimal(s) && DecimalValue(s) < TwoTo(WidthOf(bitSize))
    ensures r.Ok? ==> r.value == DecimalValue(s)
    ensures r == Err(ErrRange) <==> DecimalValue(s[..DigitRun(s, 0)]) >= TwoTo(WidthOf(bitSize))
  {
    var maxVal := TwoTo(WidthOf(bitSize)) - 1;
    ScanUintMeaning(s, 0, 0, maxVal);
    var p := DigitRun(s, 0);
    assert AllDigits(s) ==> p == |s|;
    assert p == |s| ==> s[..p] == s;
    if s == "" then Err(ErrSyntax) else ScanUint(s, 0, 0, maxVal)
  }

  /** strconv.ParseInt(s, 10, bitSize): an optional sign, then ParseUint of
      the rest at the same bit size, then the signed range check against
      cutoff = 2^(width-1). A range error from ParseUint stays a range error
      (Go goes on with the clamped maximum, which always fails the cutoff
      test at the widths used here). */
  function ParseInt(s: string, bitSize: BitSize): (r: Result<int, NumError>)
    ensures r.Ok? <==>
      IsSignedDecimal(s) &&
      SignedMin(WidthOf(bitSize)) <= SignedDecimalValue(s) < SignedLimit(WidthOf(bitSize))
    ensures r.Ok? ==> r.value == SignedDecimalValue(s)
  {
    if s == "" then Err(ErrSyntax)
    else
      var (negative, digits) := SplitSign(s);
      match ParseUint(digits, bitSize)
      case Err(e) => Err(e)
      case Ok(un) =>
        var cutoff := TwoTo(WidthOf(bitSize)) / 2;
        if !negative && un >= cutoff then Err(ErrRange)
        else if negative && un > cutoff then Err(ErrRange)
        else Ok(if negative then -(un as int) else un)
  }

  /** strconv.Atoi(s): ParseInt(s, 10, 0). Go takes a shortcut for inputs of
      fewer than 19 bytes, which never overflow 64 bits, so the shortcut
      returns what ParseInt returns. */
  function Atoi(s: string): (r: Result<int, NumError>)
    ensures r.Ok? <==>
      IsSignedDecimal(s) &&
      -0x8000_0000_0000_0000 <= SignedDecimalValue(s) < 0x8000_0000_0000_0000
    ensures r.Ok? ==> r.value == SignedDecimalValue(s)
  {
    ParseInt(s, 0)
  }

  /** The spellings strconv.ParseBool accepts for each truth value. */
  const TrueSpellings: set<string> := {"1", "t", "T", "TRUE", "true", "True"}
  const FalseSpellings: set<string> := {"0", "f", "F", "FALSE", "false", "False"}

  /** strconv.ParseBool(str). */
  function ParseBool(str: string): (r: Result<bool, NumError>)
    ensures r == Ok(true) <==> str in TrueSpellings
    ensures r == Ok(false) <==> str in FalseSpellings
    ensures r.Err? <==> str !in TrueSpellings + FalseSpellings
  {
    if str == "1" || str == "t" || str == "T" || str == "true" || str == "TRUE" || str == "True" then Ok(true)
    else if str == "0" || str == "f" || str == "F" || str == "false" || str == "FALSE" || str == "False" then Ok(false)
    else Err(ErrSyntax)
  }

  // ---------------------------------------------------------------------
  // Lemmas

  /** Appending a digit multiplies the value by ten and adds the digit. */
  lemma DecimalValueStep(s: string, i: nat)
    requires i < |s| && AllDigits(s[..i + 1])
    ensures AllDigits(s[..i])
    ensures DecimalValue(s[..i + 1]) == 10 * DecimalValue(s[..i]) + DigitValue(s[i])
  {
    assert s[..i + 1][..i] == s[..i];
  }

  /** A longer run of digits never denotes a smaller number. */
  lemma {:induction false} DecimalValueMonotone(s: string, i: nat, j: nat)
    requires i <= j <= |s| && AllDigits(s[..j])
    ensures AllDigits(s[..i])
    ensures DecimalValue(s[..i]) <= DecimalValue(s[..j])
  {
    assert s[..j][..i] == s[..i];
    if i < j {
      DecimalValueStep(s, j - 1);
      DecimalValueMonotone(s, i, j - 1);
    }
  }

  /** What the digit loop computes from position `i` on: a range error when
      the maximal run of digits denotes more than `maxVal` (the overflow is met
      before the first non-digit), otherwise a syntax error if a non-digit
      follows the run, otherwise the value of the whole text. */
  lemma {:induction false} ScanUintMeaning(s: string, i: nat, n: nat, maxVal: nat)
    requires i <= |s| && AllDigits(s[..i]) && n == DecimalValue(s[..i]) && n <= maxVal
    ensures AllDigits(s[..DigitRun(s, i)])
    ensures
      var v := DecimalValue(s[..DigitRun(s, i)]);
      ScanUint(s, i, n, maxVal) ==
        if v > maxVal then Err(ErrRange)
        else if DigitRun(s, i) < |s| then Err(ErrSyntax)
        else Ok(v)
    decreases |s| - i
  {
    var e := DigitRun(s, i);
    assert forall k :: 0 <= k < e ==> IsDigit(s[..e][k]) by {
      forall k | 0 <= k < e ensures IsDigit(s[..e][k]) {
        if k < i { assert s[..e][k] == s[..i][k]; }
      }
    }
    if i < |s| && IsDigit(s[i]) {
      DecimalValueStep(s, i);
      DecimalValueMonotone(s, i + 1, e);
      if 10 * n + DigitValue(s[i]) <= maxVal {
        ScanUintMeaning(s, i + 1, 10 * n + DigitValue(s[i]), maxVal);
      }
    }
  }
}
