/** The crate's error type: its two cases, how each is displayed, and its error source. */
module Errors {

  import opened Optional
  import Decimal

  /** A failure of the JSON encoder, visible only through the message it displays. */
  datatype EncoderError = EncoderError(message: string)

  datatype Error =
    | FieldTooLong(name: string, len: nat, limit: nat)
    | SerdeError(cause: EncoderError)

  const PREFIX: string := "field '"
  const MIDDLE: string := "' too long, its length "
  const SUFFIX: string := " is longer than the allowed limit "

  /** The `Display` text of an error. */
  function Display(e: Error): string {
    match e
    case FieldTooLong(name, len, limit) =>
      PREFIX + name + MIDDLE + Decimal.FromNat(len) + SUFFIX + Decimal.FromNat(limit)
    case SerdeError(cause) => cause.message
  }

  /** `std::error::Error::source`: the wrapped encoder error, if there is one. */
  function Source(e: Error): (r: Option<EncoderError>)
    ensures r.None? <==> e.FieldTooLong?
    ensures e.SerdeError? ==> r == Some(e.cause)
  {
    match e
    case FieldTooLong(_, _, _) => None
    case SerdeError(cause) => Some(cause)
  }

  /** `From<serde_json::Error>`: an encoder error becomes a `SerdeError`, carried unchanged. */
  function FromEncoderError(cause: EncoderError): (e: Error)
    ensures e.SerdeError? && Source(e) == Some(cause) && Display(e) == cause.message
  {
    SerdeError(cause)
  }

  // ---- Reading a FieldTooLong message back ---------------------------------

  /** How many decimal digits end `s`. */
  function TrailingDigits(s: string): (n: nat)
    ensures n <= |s| && Decimal.AllDigits(s[|s| - n..])
  {
    if s == [] || !Decimal.IsDigit(s[|s| - 1]) then 0
    else
      var n := TrailingDigits(s[..|s| - 1]);
      assert s[|s| - (n + 1)..] == s[..|s| - 1][|s| - 1 - n..] + [s[|s| - 1]];
      n + 1
  }

  /** Split a number off the end of `s`: the text before it and its value. */
  function StripNumber(s: string): Option<(string, nat)> {
    var n := TrailingDigits(s);
    if n == 0 then None else Some((s[..|s| - n], Decimal.Value(s[|s| - n..])))
  }

  function StripSuffix(s: string, suffix: string): Option<string> {
    if |suffix| <= |s| && s[|s| - |suffix|..] == suffix then Some(s[..|s| - |suffix|]) else None
  }

  /** The name, length and limit a `FieldTooLong` message reports, read back from its text. */
  function ParseFieldTooLong(msg: string): Option<(string, nat, nat)> {
    match StripNumber(msg)
    case None => None
    case Some((r1, limit)) =>
      match StripSuffix(r1, SUFFIX)
      case None => None
      case Some(r2) =>
        match StripNumber(r2)
        case None => None
        case Some((r3, len)) =>
          match StripSuffix(r3, MIDDLE)
          case None => None
          case Some(r4) =>
            if |PREFIX| <= |r4| && r4[..|PREFIX|] == PREFIX then Some((r4[|PREFIX|..], len, limit)) else None
  }

  lemma {:induction false} TrailingDigitsAppend(a: string, d: string)
    requires |a| > 0 && !Decimal.IsDigit(a[|a| - 1]) && Decimal.AllDigits(d)
    ensures TrailingDigits(a + d) == |d|
  {
    if d == [] {
      assert a + d == a;
    } else {
      var s := a + d;
      assert s[..|s| - 1] == a + d[..|d| - 1];
      assert s[|s| - 1] == d[|d| - 1];
      TrailingDigitsAppend(a, d[..|d| - 1]);
    }
  }

  lemma StripNumberAppend(a: string, n: nat)
    requires |a| > 0 && !Decimal.IsDigit(a[|a| - 1])
    ensures StripNumber(a + Decimal.FromNat(n)) == Some((a, n))
  {
    var d := Decimal.FromNat(n);
    var s := a + d;
    TrailingDigitsAppend(a, d);
    assert s[..|s| - |d|] == a && s[|s| - |d|..] == d;
    Decimal.ValueOfFromNat(n);
  }

  lemma StripSuffixAppend(a: string, suffix: string)
    ensures StripSuffix(a + suffix, suffix) == Some(a)
  {
  }

  /** The displayed text of `FieldTooLong` names the field, its length and the limit recoverably. */
  lemma DisplayFieldTooLongParses(name: string, len: nat, limit: nat)
    ensures ParseFieldTooLong(Display(FieldTooLong(name, len, limit))) == Some((name, len, limit))
  {
    var r4 := PREFIX + name;
    var r3 := r4 + MIDDLE;
    var r2 := r3 + Decimal.FromNat(len);
    var r1 := r2 + SUFFIX;
    assert Display(FieldTooLong(name, len, limit)) == r1 + Decimal.FromNat(limit);
    assert r1[|r1| - 1] == ' ';
    StripNumberAppend(r1, limit);
    StripSuffixAppend(r2, SUFFIX);
    assert r3[|r3| - 1] == ' ';
    StripNumberAppend(r3, len);
    StripSuffixAppend(r4, MIDDLE);
    assert r4[..|PREFIX|] == PREFIX && r4[|PREFIX|..] == name;
  }

  /** Two `FieldTooLong` errors with the same message are the same error. */
  lemma DisplayFieldTooLongInjective(a: Error, b: Error)
    requires a.FieldTooLong? && b.FieldTooLong? && Display(a) == Display(b)
    ensures a == b
  {
    DisplayFieldTooLongParses(a.name, a.len, a.limit);
    DisplayFieldTooLongParses(b.name, b.len, b.limit);
  }
}
