/**
 The key the listing list gives each row: the template literal
 `${item.id + item.host_id}`. Both identifiers are numbers, so `+` adds them
 and the key is the decimal rendering of the sum.
 */
module ListingKey {
  import opened Listings

  predicate IsDigit(c: char) {
    '0' <= c <= '9'
  }

  function DigitChar(d: nat): (c: char)
    requires d < 10
    ensures IsDigit(c)
  {
    "0123456789"[d]
  }

  /** Value of a digit character; any other character counts as 0. */
  function DigitValue(c: char): (d: nat)
    ensures d < 10
  {
    if IsDigit(c) then (c as int - '0' as int) else 0
  }

  lemma DigitValueOfDigitChar(d: nat)
    requires d < 10
    ensures DigitValue(DigitChar(d)) == d
  {
  }

  /** Decimal rendering of a natural number, without leading zeros. */
  function NatToDecimal(n: nat): (s: string)
    decreases n
    ensures |s| >= 1
    ensures forall i :: 0 <= i < |s| ==> IsDigit(s[i])
    ensures |s| > 1 ==> s[0] != '0'
  {
    if n < 10 then [DigitChar(n)]
    else NatToDecimal(n / 10) + [DigitChar(n % 10)]
  }

  /** Reads a string of digits back as a number (the inverse of NatToDecimal). */
  function DecimalValue(s: string): nat
    decreases |s|
  {
    if |s| == 0 then 0
    else DecimalValue(s[..|s| - 1]) * 10 + DigitValue(s[|s| - 1])
  }

  lemma {:induction false} DecimalRoundTrip(n: nat)
    ensures DecimalValue(NatToDecimal(n)) == n
    decreases n
  {
    if n < 10 {
      DigitValueOfDigitChar(n);
    } else {
      var s := NatToDecimal(n);
      assert s[..|s| - 1] == NatToDecimal(n / 10);
      DecimalRoundTrip(n / 10);
      DigitValueOfDigitChar(n % 10);
    }
  }

  /** How JavaScript renders an integral number in a template literal
      (plain decimal, leading '-' when negative). */
  function NumberToString(n: int): (s: string)
    ensures |s| >= 1
    ensures s[0] == '-' <==> n < 0
  {
    if n < 0 then "-" + NatToDecimal(-n) else NatToDecimal(n)
  }

  /** Reads a rendered number back. */
  function StringToNumber(s: string): int {
    if |s| > 0 && s[0] == '-' then
      var magnitude: int := DecimalValue(s[1..]);
      -magnitude
    else DecimalValue(s)
  }

  lemma NumberRoundTrip(n: int)
    ensures StringToNumber(NumberToString(n)) == n
  {
    var s := NumberToString(n);
    if n < 0 {
      var digits := NatToDecimal(-n);
      assert s == "-" + digits;
      assert s[1..] == digits;
      DecimalRoundTrip(-n);
    } else {
      assert s == NatToDecimal(n);
      assert s[0] != '-';
      DecimalRoundTrip(n);
    }
  }

  /** Rendering is injective: two numbers give the same text only when equal. */
  lemma NumberToStringInjective(a: int, b: int)
    ensures NumberToString(a) == NumberToString(b) <==> a == b
  {
    if NumberToString(a) == NumberToString(b) {
      NumberRoundTrip(a);
      NumberRoundTrip(b);
    }
  }

  /** The list key of a listing. */
  function KeyOf(l: Listing): (k: string)
    ensures StringToNumber(k) == l.id + l.hostId
  {
    NumberRoundTrip(l.id + l.hostId);
    NumberToString(l.id + l.hostId)
  }

  /** Two listings get the same key exactly when their id sums agree. */
  lemma KeyDependsOnlyOnSum(a: Listing, b: Listing)
    ensures KeyOf(a) == KeyOf(b) <==> a.id + a.hostId == b.id + b.hostId
  {
    NumberToStringInjective(a.id + a.hostId, b.id + b.hostId);
  }

  /** Distinct (id, host_id) pairs can share a key: (1, 2) and (2, 1) both give "3". */
  lemma DistinctListingsCanShareKey()
    ensures exists a: Listing, b: Listing ::
      (a.id, a.hostId) != (b.id, b.hostId) && KeyOf(a) == KeyOf(b)
  {
    var a := Listing(1, 2, "Home/Apt", 0.0, 0.0);
    var b := Listing(2, 1, "Home/Apt", 0.0, 0.0);
    KeyDependsOnlyOnSum(a, b);
    assert KeyOf(a) == KeyOf(b);
  }
}
