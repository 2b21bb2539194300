/** Display names of profiles: the profile number in decimal is looked up in the list of
    profile values, and the entry at the same position is the name. */
module ProfileNames {
  import opened Wrappers
  import opened DolbyAtmos

  predicate IsDigit(c: char) {
    '0' <= c <= '9'
  }

  predicate AllDigits(s: string) {
    forall i :: 0 <= i < |s| ==> IsDigit(s[i])
  }

  function DigitChar(d: nat): (c: char)
    requires d < 10
    ensures IsDigit(c)
  {
    ('0' as int + d) as char
  }

  function DigitValue(c: char): nat
    requires IsDigit(c)
  {
    c as int - '0' as int
  }

  /** The decimal digits of `n`, most significant first, without leading zeros. */
  function Digits(n: nat): (s: string)
    ensures |s| >= 1 && AllDigits(s)
    ensures s[0] == '0' ==> n == 0
    decreases n
  {
    if n < 10 then [DigitChar(n)] else Digits(n / 10) + [DigitChar(n % 10)]
  }

  /** `Integer.toString`: a minus sign before the digits of the magnitude when negative. */
  function DecimalString(n: int32): (s: string)
    ensures |s| >= 1
    ensures (s[0] == '-') == (n < 0)
  {
    if n < 0 then "-" + Digits(-(n as int)) else Digits(n as int)
  }

  /** Reads a string of digits as a number. */
  function DigitsValue(s: string): nat
    requires AllDigits(s)
    decreases |s|
  {
    if s == [] then 0 else 10 * DigitsValue(s[..|s| - 1]) + DigitValue(s[|s| - 1])
  }

  lemma {:induction false} DigitsRoundTrip(n: nat)
    ensures DigitsValue(Digits(n)) == n
    decreases n
  {
    var s := Digits(n);
    if n < 10 {
      assert s[..|s| - 1] == [];
    } else {
      var p := Digits(n / 10);
      assert s == p + [DigitChar(n % 10)];
      assert s[..|s| - 1] == p;
      DigitsRoundTrip(n / 10);
    }
  }

  /** Decimal formatting loses nothing: the profile number can be read back. */
  lemma DecimalStringRoundTrip(n: int32)
    ensures var s := DecimalString(n);
      if s[0] == '-' then AllDigits(s[1..]) && DigitsValue(s[1..]) == -(n as int)
      else AllDigits(s) && DigitsValue(s) == n as int
  {
    if n < 0 {
      var s := DecimalString(n);
      assert s[1..] == Digits(-(n as int));
      DigitsRoundTrip(-(n as int));
    } else {
      DigitsRoundTrip(n as int);
    }
  }

  /** Two different profile numbers never have the same decimal string. */
  lemma DecimalStringInjective(m: int32, n: int32)
    requires DecimalString(m) == DecimalString(n)
    ensures m == n
  {
    DecimalStringRoundTrip(m);
    DecimalStringRoundTrip(n);
  }

  /** `List.indexOf`: the first position holding `x`, or -1. */
  function IndexOf(xs: seq<string>, x: string): (i: int)
    ensures -1 <= i < |xs|
    ensures i == -1 <==> x !in xs
    ensures 0 <= i ==> xs[i] == x && forall k :: 0 <= k < i ==> xs[k] != x
    decreases |xs|
  {
    if xs == [] then -1
    else if xs[0] == x then 0
    else
      var j := IndexOf(xs[1..], x);
      if j == -1 then -1 else j + 1
  }

  /** `getProfileName`: absent when the profile's decimal string is not among `values`,
      otherwise the entry at the first position where it appears. The entry is looked up
      only when the string is found, so `entries` needs to reach that position and no
      further. */
  function ProfileName(profile: int32, values: seq<string>, entries: seq<string>): (name: Option<string>)
    requires IndexOf(values, DecimalString(profile)) < |entries|
    ensures name == None <==> DecimalString(profile) !in values
    ensures forall i :: 0 <= i < |values| && values[i] == DecimalString(profile) &&
                        (forall k :: 0 <= k < i ==> values[k] != DecimalString(profile))
                        ==> i < |entries| && name == Some(entries[i])
  {
    var i := IndexOf(values, DecimalString(profile));
    if i == -1 then None else Some(entries[i])
  }
}
