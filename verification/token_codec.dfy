/**
 This module stands in for the signed JWT codec the registration handlers use.
 A token is text; its claims are written as two length-prefixed fields (email,
 role) followed by the expiry as a decimal numeral. The signature is not
 modelled: what the handlers rely on is that decoding an issued token gives
 back exactly the claims it was issued with, and that decoding is partial.
 */
module TokenCodec {
  import opened Wrappers

  /** The claim set signed into a registration token; `exp` is an absolute
      time in whole seconds. */
  datatype Claims = Claims(email: string, role: string, exp: nat)

  predicate IsDigit(c: char) {
    '0' <= c <= '9'
  }

  predicate AllDigits(s: string) {
    forall i :: 0 <= i < |s| ==> IsDigit(s[i])
  }

  function DigitValue(c: char): (d: nat)
    requires IsDigit(c)
    ensures d < 10
  {
    (c as int) - ('0' as int)
  }

  function DigitChar(d: nat): (c: char)
    requires d < 10
    ensures IsDigit(c) && DigitValue(c) == d
  {
    (('0' as int) + d) as char
  }

  /** The decimal numeral of `n`, most significant digit first. */
  function Numeral(n: nat): (s: string)
    ensures |s| > 0 && AllDigits(s)
    decreases n
  {
    if n < 10 then [DigitChar(n)] else Numeral(n / 10) + [DigitChar(n % 10)]
  }

  /** The number a digit string denotes (the empty string denotes 0). */
  function NumeralValue(s: string): (n: nat)
    requires AllDigits(s)
  {
    if |s| == 0 then 0 else 10 * NumeralValue(s[..|s| - 1]) + DigitValue(s[|s| - 1])
  }

  /** Reads a non-empty digit string; anything else is rejected. */
  function ParseNumeral(s: string): (r: Option<nat>)
    ensures r.Some? <==> |s| > 0 && AllDigits(s)
  {
    if |s| > 0 && AllDigits(s) then Some(NumeralValue(s)) else None
  }

  lemma {:induction false} NumeralRoundTrip(n: nat)
    ensures ParseNumeral(Numeral(n)) == Some(n)
    decreases n
  {
    if n >= 10 {
      var p := Numeral(n / 10);
      var s := p + [DigitChar(n % 10)];
      assert s[..|s| - 1] == p;
      NumeralRoundTrip(n / 10);
      assert Numeral(n) == s;
      assert NumeralValue(s) == 10 * (n / 10) + n % 10 == n;
    } else {
      var s := [DigitChar(n)];
      assert s[..0] == [];
      assert NumeralValue(s) == n;
    }
  }

  /** The position of the first `c` in `t`, if any. */
  function IndexOf(t: string, c: char): (r: Option<nat>)
    ensures r.Some? ==> r.value < |t| && t[r.value] == c && c !in t[..r.value]
    ensures r.None? ==> c !in t
  {
    if |t| == 0 then None
    else if t[0] == c then Some(0)
    else match IndexOf(t[1..], c)
      case None => None
      case Some(i) =>
        assert t[1..][..i] == t[1..i + 1];
        assert t[..i + 1] == [t[0]] + t[1..i + 1];
        Some(i + 1)
  }

  /** One field: its length as a numeral, a colon, then the text itself. */
  function Frame(s: string): (t: string) {
    Numeral(|s|) + [':'] + s
  }

  /** Splits one framed field off the front of `t`, returning it and the rest. */
  function Unframe(t: string): (r: Option<(string, string)>) {
    match IndexOf(t, ':')
    case None => None
    case Some(i) =>
      match ParseNumeral(t[..i])
      case None => None
      case Some(n) =>
        if i + 1 + n <= |t| then Some((t[i + 1..i + 1 + n], t[i + 1 + n..])) else None
  }

  lemma UnframeFrame(s: string, rest: string)
    ensures Unframe(Frame(s) + rest) == Some((s, rest))
  {
    var d := Numeral(|s|);
    var t := Frame(s) + rest;
    assert t == d + ([':'] + (s + rest));
    assert t[|d|] == ':';
    assert ':' !in d by {
      forall i | 0 <= i < |d| ensures d[i] != ':' {
        assert IsDigit(d[i]);
      }
    }
    assert IndexOf(t, ':') == Some(|d|);
    assert t[..|d|] == d;
    NumeralRoundTrip(|s|);
    assert t[|d| + 1..|d| + 1 + |s|] == s;
    assert t[|d| + 1 + |s|..] == rest;
  }

  /** The token text for a claim set. */
  function Encode(c: Claims): (t: string) {
    Frame(c.email) + Frame(c.role) + Numeral(c.exp)
  }

  /** Recovers the claims from token text; fails on text that is not a token. */
  function Decode(t: string): (r: Option<Claims>) {
    match Unframe(t)
    case None => None
    case Some((email, afterEmail)) =>
      match Unframe(afterEmail)
      case None => None
      case Some((role, afterRole)) =>
        match ParseNumeral(afterRole)
        case None => None
        case Some(exp) => Some(Claims(email, role, exp))
  }

  /** Decoding an issued token gives back exactly the claims it was issued with. */
  lemma DecodeEncode(c: Claims)
    ensures Decode(Encode(c)) == Some(c)
  {
    var roleAndExp := Frame(c.role) + Numeral(c.exp);
    assert Encode(c) == Frame(c.email) + roleAndExp;
    UnframeFrame(c.email, roleAndExp);
    UnframeFrame(c.role, Numeral(c.exp));
    NumeralRoundTrip(c.exp);
  }

  /** Distinct claim sets never share a token. */
  lemma EncodeInjective(c1: Claims, c2: Claims)
    ensures Encode(c1) == Encode(c2) ==> c1 == c2
  {
    DecodeEncode(c1);
    DecodeEncode(c2);
  }
}
