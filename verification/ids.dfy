/**
 Opportunity identifiers: `"OPP_"` followed by the record index in decimal,
 left-padded with zeros to five digits (the format `OPP_{i:05d}`). Indices
 of six or more digits are written in full, never truncated. `ParseId`
 reads an identifier back; the round trip makes the identifiers distinct.
 */
module OpportunityIds {
  import opened Optional

  const IdPrefix: string := "OPP_"

  /** Minimum number of digits after the prefix. */
  const IdWidth: nat := 5

  function Pow10(k: nat): (p: nat)
    ensures p >= 1
  {
    if k == 0 then 1 else 10 * Pow10(k - 1)
  }

  predicate IsDigit(c: char) {
    '0' <= c <= '9'
  }

  predicate AllDigits(s: string) {
    forall i :: 0 <= i < |s| ==> IsDigit(s[i])
  }

  function DigitChar(d: nat): (c: char)
    requires d < 10
    ensures IsDigit(c)
  {
    ('0' as int + d) as char
  }

  function DigitValue(c: char): (d: nat)
    requires IsDigit(c)
    ensures d < 10 && DigitChar(d) == c
  {
    c as int - '0' as int
  }

  /** Decimal notation of `n` without leading zeros, as `str(n)` writes it. */
  function Decimal(n: nat): (s: string)
    ensures 1 <= |s|
    ensures AllDigits(s)
    ensures |s| > 1 ==> s[0] != '0'
  {
    if n < 10 then [DigitChar(n)] else Decimal(n / 10) + [DigitChar(n % 10)]
  }

  /** The number a string of decimal digits denotes; leading zeros count for nothing. */
  function DecimalValue(s: string): nat
    requires AllDigits(s)
  {
    if |s| == 0 then 0 else DecimalValue(s[..|s| - 1]) * 10 + DigitValue(s[|s| - 1])
  }

  function Zeros(k: nat): (s: string)
    ensures |s| == k && AllDigits(s)
    ensures forall i :: 0 <= i < k ==> s[i] == '0'
  {
    if k == 0 then [] else Zeros(k - 1) + ['0']
  }

  /** Left-pad with zeros to `width`, as the format spec `0<width>d` does. */
  function ZeroPad(s: string, width: nat): (r: string)
    requires AllDigits(s)
    ensures AllDigits(r)
    ensures |r| == if |s| >= width then |s| else width
    ensures r[|r| - |s|..] == s
    ensures forall k :: 0 <= k < |r| - |s| ==> r[k] == '0'
    ensures DecimalValue(r) == DecimalValue(s)
  {
    if |s| >= width then s
    else
      LeadingZerosValue(width - |s|, s);
      Zeros(width - |s|) + s
  }

  /** The identifier of the record with index `i`. */
  function FormatId(i: nat): (id: string)
    ensures |id| == |IdPrefix| + (if |Decimal(i)| >= IdWidth then |Decimal(i)| else IdWidth)
    ensures id[..|IdPrefix|] == IdPrefix
    ensures AllDigits(id[|IdPrefix|..])
  {
    IdPrefix + ZeroPad(Decimal(i), IdWidth)
  }

  /** The record index an identifier carries, if it has the identifier's shape. */
  function ParseId(s: string): (r: Option<nat>)
    ensures r.Some? ==> |s| > |IdPrefix| && s[..|IdPrefix|] == IdPrefix && AllDigits(s[|IdPrefix|..])
  {
    if |s| > |IdPrefix| && s[..|IdPrefix|] == IdPrefix && AllDigits(s[|IdPrefix|..])
    then Some(DecimalValue(s[|IdPrefix|..]))
    else None
  }

  lemma {:induction false} DecimalRoundTrip(n: nat)
    ensures DecimalValue(Decimal(n)) == n
  {
    if n >= 10 {
      var s := Decimal(n);
      assert s[..|s| - 1] == Decimal(n / 10);
      DecimalRoundTrip(n / 10);
    }
  }

  lemma {:induction false} ZerosValue(k: nat)
    ensures DecimalValue(Zeros(k)) == 0
  {
    if k > 0 {
      assert Zeros(k)[..k - 1] == Zeros(k - 1);
      ZerosValue(k - 1);
    }
  }

  /** Leading zeros do not change the value of a digit string. */
  lemma {:induction false} LeadingZerosValue(k: nat, s: string)
    requires AllDigits(s)
    ensures DecimalValue(Zeros(k) + s) == DecimalValue(s)
    decreases |s|
  {
    if |s| == 0 {
      assert Zeros(k) + s == Zeros(k);
      ZerosValue(k);
    } else {
      var t := Zeros(k) + s;
      assert t[..|t| - 1] == Zeros(k) + s[..|s| - 1];
      LeadingZerosValue(k, s[..|s| - 1]);
    }
  }

  /** `Decimal(n)` fits in `k` digits exactly when `n < 10^k`. */
  lemma {:induction false} DecimalLength(n: nat, k: nat)
    requires 1 <= k
    ensures |Decimal(n)| <= k <==> n < Pow10(k)
  {
    if n >= 10 && k > 1 {
      DecimalLength(n / 10, k - 1);
    } else if n >= 10 {
      assert |Decimal(n)| >= 2 by { assert Decimal(n) == Decimal(n / 10) + [DigitChar(n % 10)]; }
    }
  }

  /** Reading an identifier back yields the index it was made from. */
  lemma {:induction false} ParseFormatRoundTrip(i: nat)
    ensures ParseId(FormatId(i)) == Some(i)
  {
    var digits := ZeroPad(Decimal(i), IdWidth);
    var id := FormatId(i);
    assert id[..|IdPrefix|] == IdPrefix;
    assert id[|IdPrefix|..] == digits;
    DecimalRoundTrip(i);
    if |Decimal(i)| < IdWidth {
      LeadingZerosValue(IdWidth - |Decimal(i)|, Decimal(i));
    }
  }

  /** Different records get different identifiers, whatever their indices. */
  lemma FormatIdInjective(i: nat, j: nat)
    requires i != j
    ensures FormatId(i) != FormatId(j)
  {
    ParseFormatRoundTrip(i);
    ParseFormatRoundTrip(j);
  }

  /** An identifier is nine characters long exactly when its index is below 100000. */
  lemma FormatIdLength(i: nat)
    ensures |FormatId(i)| >= 9
    ensures |FormatId(i)| == 9 <==> i < 100000
  {
    DecimalLength(i, IdWidth);
    assert Pow10(5) == 100000;
  }
}
