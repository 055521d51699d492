/**
 * The error value of the insights package: a message and a numeric code,
 * rendered as "C-<code> <message>".
 */
module Errors {
  import opened Wrappers
  import opened DataTypes

  // Error codes.
  const ErrCGeneric: int := 0
  const ErrCDataTypeMismatch: int := 1
  const ErrCUnsupportedDataType: int := 2
  const ErrCMetricSizeMismatch: int := 3

  // Error messages. Note that the two mismatch messages have no space between
  // "is" and the type tag.
  const ErrMDAddMetricFloatMismatch: string :=
    "The given data is not of the type []" + Float + " while the metric data type is" + Float
  const ErrMDAddMetricStringMismatch: string :=
    "The given data is not of the type []" + String + " while the metric data type is" + String
  const ErrMDAddMetricUnsupportedType: string := "Unsupported datatype. Got "
  const ErrMDCorrelationNoVaraible: string := "Variables doesn't exist in the dataset"
  const ErrMDCorrelationDatatypeMismatch: string := "Datatype mismatch Got "
  const ErrMDCorrelationNonFloat: string := "Only " + Float + " datatype supported. Got"
  const ErrMMetricsDatasizeIncorrect: string :=
    "The no. of records provided in the " + "metric mismatch to that of the dataset"

  datatype Error = Error(message: string, code: int) {

    /** The printed form, as fmt's "C-%d %s" renders it. */
    function String(): (s: string)
      ensures ParseError(s) == Some(this)
    {
      ErrorStringParses(this);
      "C-" + Decimal(code) + " " + message
    }

    /** The text of the error interface: the same as String(). */
    function Error(): (s: string)
      ensures s == String()
    {
      String()
    }
  }

  lemma CodesDistinct()
    ensures ErrCGeneric != ErrCDataTypeMismatch && ErrCGeneric != ErrCUnsupportedDataType
    ensures ErrCGeneric != ErrCMetricSizeMismatch && ErrCDataTypeMismatch != ErrCUnsupportedDataType
    ensures ErrCDataTypeMismatch != ErrCMetricSizeMismatch && ErrCUnsupportedDataType != ErrCMetricSizeMismatch
  {
  }

  // ---------------------------------------------------------------------
  // Decimal rendering of integers (the %d verb) and its inverse.

  predicate IsDigit(c: char) { '0' <= c <= '9' }

  function DigitChar(d: nat): (c: char)
    requires d < 10
    ensures IsDigit(c) && c as int - '0' as int == d
  {
    ('0' as int + d) as char
  }

  /** The decimal digits of a natural number, most significant first. */
  function Digits(n: nat): (s: string)
    ensures |s| > 0
    ensures forall i :: 0 <= i < |s| ==> IsDigit(s[i])
  {
    if n < 10 then [DigitChar(n)] else Digits(n / 10) + [DigitChar(n % 10)]
  }

  /** The %d rendering: a leading '-' for negative numbers, then the digits. */
  function Decimal(n: int): (s: string)
    ensures |s| > 0 && ' ' !in s
  {
    if n < 0 then "-" + Digits(-n) else Digits(n)
  }

  /** The value of a non-empty string of decimal digits. */
  function DigitsValue(s: string): nat
    requires |s| > 0 && forall i :: 0 <= i < |s| ==> IsDigit(s[i])
  {
    assert IsDigit(s[|s| - 1]);
    var last: nat := s[|s| - 1] as int - '0' as int;
    if |s| == 1 then last else DigitsValue(s[..|s| - 1]) * 10 + last
  }

  function ParseInt(s: string): Option<int> {
    if |s| > 1 && s[0] == '-' && (forall i :: 1 <= i < |s| ==> IsDigit(s[i])) then
      Some(0 - DigitsValue(s[1..]) as int)
    else if |s| > 0 && (forall i :: 0 <= i < |s| ==> IsDigit(s[i])) then
      Some(DigitsValue(s))
    else
      None
  }

  /** The first position at or after `from` that holds a space, or |s|. */
  function SpaceAt(s: string, from: nat): (k: nat)
    requires from <= |s|
    ensures from <= k <= |s|
    ensures k < |s| ==> s[k] == ' '
    ensures forall i :: from <= i < k ==> s[i] != ' '
    decreases |s| - from
  {
    if from == |s| || s[from] == ' ' then from else SpaceAt(s, from + 1)
  }

  /** Reads an error back from its printed form. */
  function ParseError(s: string): Option<Error> {
    if |s| < 2 || s[..2] != "C-" then None
    else
      var k := SpaceAt(s, 2);
      if k == |s| then None
      else match ParseInt(s[2..k])
        case None => None
        case Some(c) => Some(Error(s[k + 1..], c))
  }

  lemma {:induction false} DigitsRoundTrip(n: nat)
    ensures DigitsValue(Digits(n)) == n
    decreases n
  {
    if n >= 10 {
      var d := Digits(n / 10);
      DigitsRoundTrip(n / 10);
      assert Digits(n) == d + [DigitChar(n % 10)];
      assert (d + [DigitChar(n % 10)])[..|d|] == d;
    }
  }

  lemma DecimalRoundTrip(n: int)
    ensures ParseInt(Decimal(n)) == Some(n)
  {
    if n < 0 {
      DigitsRoundTrip(-n);
      assert Decimal(n)[1..] == Digits(-n);
    } else {
      DigitsRoundTrip(n);
    }
  }

  /** The printed form determines the error: no information is lost. */
  lemma ErrorStringParses(e: Error)
    ensures ParseError("C-" + Decimal(e.code) + " " + e.message) == Some(e)
  {
    var d := Decimal(e.code);
    var s := "C-" + d + " " + e.message;
    assert s[..2] == "C-";
    assert forall i :: 2 <= i < 2 + |d| ==> s[i] == d[i - 2];
    assert SpaceAt(s, 2) == 2 + |d| by {
      SpaceAtFirst(s, 2, 2 + |d|);
    }
    assert s[2..2 + |d|] == d;
    assert s[2 + |d| + 1..] == e.message;
    DecimalRoundTrip(e.code);
  }

  lemma {:induction false} SpaceAtFirst(s: string, from: nat, k: nat)
    requires from <= k < |s| && s[k] == ' '
    requires forall i :: from <= i < k ==> s[i] != ' '
    ensures SpaceAt(s, from) == k
    decreases k - from
  {
    if from < k {
      SpaceAtFirst(s, from + 1, k);
    }
  }

  /** Two errors print alike only if they are the same error. */
  lemma StringInjective(e1: Error, e2: Error)
    requires e1.String() == e2.String()
    ensures e1 == e2
  {
  }

  /** The example of insights/error_test.go. */
  lemma TestErrorString()
    ensures Error("TestError", 0).String() == "C-0 TestError"
    ensures Error("TestError", 0).Error() == "C-0 TestError"
  {
  }
}
