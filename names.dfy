/**
 * Cluster names. Every gene cluster that has elements is tagged with the
 * label "c_<n>", where <n> is the decimal rendering of the run-wide cluster
 * counter (igia/skeleton.py:195-196). The parser below is the partner of the
 * formatter: it recovers <n>, so two different counters never give the same label.
 */
module Names {
  import opened Basics

  predicate IsDigit(c: char) {
    '0' <= c <= '9'
  }

  predicate AllDigits(s: string) {
    forall i :: 0 <= i < |s| ==> IsDigit(s[i])
  }

  function DigitChar(d: nat): (c: char)
    requires d < 10
    ensures IsDigit(c) && c as int - '0' as int == d
  {
    ('0' as int + d) as char
  }

  function DigitValue(c: char): nat
    requires IsDigit(c)
  {
    c as int - '0' as int
  }

  /** Decimal rendering of n without leading zeros, as Python's str.format gives it. */
  function NatToString(n: nat): (s: string)
    ensures |s| >= 1 && AllDigits(s)
    ensures n > 0 ==> s[0] != '0'
    decreases n
  {
    if n < 10 then [DigitChar(n)] else NatToString(n / 10) + [DigitChar(n % 10)]
  }

  /** The value of a string of decimal digits, most significant digit first. */
  function StringToNat(s: string): nat
    requires AllDigits(s)
    decreases |s|
  {
    if s == [] then 0 else 10 * StringToNat(s[..|s| - 1]) + DigitValue(s[|s| - 1])
  }

  lemma {:induction false} NatStringRoundTrip(n: nat)
    ensures StringToNat(NatToString(n)) == n
    decreases n
  {
    if n >= 10 {
      var s := NatToString(n);
      assert s[..|s| - 1] == NatToString(n / 10);
      NatStringRoundTrip(n / 10);
    }
  }

  /** The label "c_<n>" given to the n-th cluster of a run. */
  function ClusterName(n: nat): string {
    "c_" + NatToString(n)
  }

  /** Recovers n from a label "c_<n>"; None for anything that is not such a label. */
  function ParseClusterName(s: string): Option<nat> {
    if |s| >= 3 && s[..2] == "c_" && AllDigits(s[2..]) then Some(StringToNat(s[2..])) else None
  }

  lemma ClusterNameRoundTrip(n: nat)
    ensures ParseClusterName(ClusterName(n)) == Some(n)
  {
    assert ClusterName(n)[2..] == NatToString(n);
    NatStringRoundTrip(n);
  }

  /** Different counter values never give the same label. */
  lemma ClusterNameInjective(a: nat, b: nat)
    ensures ClusterName(a) == ClusterName(b) <==> a == b
  {
    ClusterNameRoundTrip(a);
    ClusterNameRoundTrip(b);
  }
}
