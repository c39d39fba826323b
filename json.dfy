/**
  JSON values as the snapshot serialisers build them, and Python's `str` of an
  integer, which keys the objects of a live-data snapshot.
 */
module Json {
  import opened Wrappers

  /** A JSON value; an object is a map because key order carries no meaning. */
  datatype Json =
    | JNull
    | JBool(b: bool)
    | JInt(i: int)
    | JReal(r: real)
    | JString(s: string)
    | JArray(items: seq<Json>)
    | JObject(members: map<string, Json>)

  // ------------------------------------------------------- decimal integers

  function DigitChar(d: nat): char
    requires d < 10
  {
    "0123456789"[d]
  }

  function DigitValue(c: char): Option<nat>
  {
    if '0' <= c <= '9' then Some((c - '0') as nat) else None
  }

  /** The decimal digits of a natural number, without leading zeros. */
  function NatToString(n: nat): (s: string)
    ensures |s| >= 1
    ensures forall i :: 0 <= i < |s| ==> DigitValue(s[i]).Some?
    ensures s[0] == '0' ==> n == 0
    decreases n
  {
    if n < 10 then [DigitChar(n)] else NatToString(n / 10) + [DigitChar(n % 10)]
  }

  /** `str(i)` of a Python integer: a minus sign, then the digits of |i|. */
  function IntToString(i: int): (s: string)
    ensures |s| >= 1
  {
    if i < 0 then "-" + NatToString(-i) else NatToString(i)
  }

  /** The value of a string of decimal digits, or None if any character is not a digit. */
  function ParseNat(s: string): Option<nat>
    decreases |s|
  {
    if |s| == 0 then None
    else if |s| == 1 then DigitValue(s[0])
    else match (ParseNat(s[..|s| - 1]), DigitValue(s[|s| - 1]))
         case (Some(p), Some(d)) => Some(10 * p + d)
         case _ => None
  }

  /** The inverse of `IntToString`. */
  function ParseInt(s: string): Option<int>
  {
    if |s| >= 2 && s[0] == '-' then
      match ParseNat(s[1..])
      case Some(n) => if n > 0 then Some(-(n as int)) else None
      case None => None
    else if |s| >= 1 && s[0] != '-' then
      match ParseNat(s)
      case Some(n) => Some(n as int)
      case None => None
    else None
  }

  // ------------------------------------------------------------------ lemmas

  lemma DigitRoundTrip(d: nat)
    requires d < 10
    ensures DigitValue(DigitChar(d)) == Some(d)
  {
    assert "0123456789"[d] as int == '0' as int + d by {
      assert "0123456789"[0] == '0' && "0123456789"[9] == '9';
    }
  }

  /** Reading back the digits of `n` gives `n`. */
  lemma {:induction false} NatRoundTrip(n: nat)
    ensures ParseNat(NatToString(n)) == Some(n)
    decreases n
  {
    if n < 10 {
      DigitRoundTrip(n);
    } else {
      var s := NatToString(n);
      var prefix := NatToString(n / 10);
      assert s == prefix + [DigitChar(n % 10)];
      assert s[..|s| - 1] == prefix;
      NatRoundTrip(n / 10);
      DigitRoundTrip(n % 10);
    }
  }

  /** `str` of an integer parses back to that integer. */
  lemma IntRoundTrip(i: int)
    ensures ParseInt(IntToString(i)) == Some(i)
  {
    if i < 0 {
      NegativeRoundTrip(i);
    } else {
      var t := NatToString(i);
      NatRoundTrip(i);
      assert DigitValue(t[0]).Some?;
      assert IntToString(i) == t && t[0] != '-';
    }
  }

  /** A negative integer: the minus sign, then the digits of a positive number. */
  lemma NegativeRoundTrip(i: int)
    requires i < 0
    ensures ParseInt(IntToString(i)) == Some(i)
  {
    var t := NatToString(-i);
    NatRoundTrip(-i);
    var s := "-" + t;
    assert IntToString(i) == s;
    assert s[1..] == t;
    assert ParseNat(s[1..]) == Some(-i);
  }

  /** Distinct integers have distinct decimal strings, so keying a map by
      `str(id)` loses no entry. */
  lemma IntToStringInjective(i: int, j: int)
    ensures IntToString(i) == IntToString(j) ==> i == j
  {
    IntRoundTrip(i);
    IntRoundTrip(j);
  }
}
