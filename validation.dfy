/**
 * The length-check primitives that `src/lib.rs` defines as the macros
 * `validate_field!` and `validate_optional_field!`. A macro expands to a
 * comparison that either falls through or returns `Err(FieldTooLong{..})`
 * from the enclosing function; here each expansion is a function whose
 * `Outcome` is that choice.
 */
module Validation {

  import opened Optional
  import opened Errors
  import Utf8

  /** What one expanded check does: fall through, or return early with the error. */
  datatype Outcome = Pass | Fail(error: Error)

  /** A value `.len()` can measure: text by its UTF-8 bytes, a vector by its elements. */
  datatype Field<T> = Text(s: string) | Items(xs: seq<T>) {
    function Len(): nat {
      match this
      case Text(s) => Utf8.ByteLen(s)
      case Items(xs) => |xs|
    }
  }

  /** `validate_field!(self, name, limit)`: fails exactly when the measured length exceeds the limit. */
  function ValidateField<T>(name: string, value: Field<T>, limit: nat): (o: Outcome)
    ensures o.Pass? <==> value.Len() <= limit
    ensures o.Fail? ==> o.error == FieldTooLong(name, value.Len(), limit)
  {
    var len := value.Len();
    if len > limit then Fail(FieldTooLong(name, len, limit)) else Pass
  }

  /** `validate_optional_field!(self, name, limit)`: an absent field passes, a present one is checked. */
  function ValidateOptionalField<T>(name: string, value: Option<Field<T>>, limit: nat): (o: Outcome)
    ensures value.None? ==> o == Pass
    ensures value.Some? ==> o == ValidateField(name, value.value, limit)
  {
    match value
    case None => Pass
    case Some(v) =>
      var len := v.Len();
      if len > limit then Fail(FieldTooLong(name, len, limit)) else Pass
  }

  /**
   * Checks written one after another in a function body: the first failing
   * one returns, so the result is that failure, or Pass when all pass.
   */
  function RunChecks(checks: seq<Outcome>): (o: Outcome)
    ensures o.Pass? <==> forall i :: 0 <= i < |checks| ==> checks[i].Pass?
    ensures o.Fail? ==> exists i :: 0 <= i < |checks| && checks[i] == o
                                    && forall j :: 0 <= j < i ==> checks[j].Pass?
  {
    if checks == [] then Pass
    else if checks[0].Fail? then checks[0]
    else
      var o := RunChecks(checks[1..]);
      assert forall i :: 1 <= i < |checks| ==> checks[i] == checks[1..][i - 1];
      o
  }

  /** The checks after the first failure have no say in the result. */
  lemma {:induction false} FirstFailureDecides(passed: seq<Outcome>, failure: Outcome, later: seq<Outcome>)
    requires forall i :: 0 <= i < |passed| ==> passed[i].Pass?
    requires failure.Fail?
    ensures RunChecks(passed + [failure] + later) == failure
  {
    if passed == [] {
      assert (passed + [failure] + later)[0] == failure;
    } else {
      var all := passed + [failure] + later;
      assert all[0] == passed[0] && all[1..] == passed[1..] + [failure] + later;
      FirstFailureDecides(passed[1..], failure, later);
    }
  }

  /** The limit itself is allowed; one byte more is reported with the measured length. */
  lemma AsciiLimitBoundary(name: string, s: string, limit: nat)
    requires Utf8.IsAscii(s)
    ensures |s| == limit ==> ValidateField<int>(name, Text(s), limit) == Pass
    ensures |s| == limit + 1 ==> ValidateField<int>(name, Text(s), limit) == Fail(FieldTooLong(name, limit + 1, limit))
  {
    Utf8.ByteLenIsCharCountIffAscii(s);
  }

  /**
   * The measured length of text adds up over concatenation, so text that
   * passes a check stays within the limit when any part of it is checked alone.
   */
  lemma TextLenAdds(name: string, s: string, t: string, limit: nat)
    ensures Field<int>.Text(s + t).Len() == Field<int>.Text(s).Len() + Field<int>.Text(t).Len()
    ensures ValidateField<int>(name, Text(s + t), limit).Pass? ==>
      ValidateField<int>(name, Text(s), limit).Pass? && ValidateField<int>(name, Text(t), limit).Pass?
  {
    Utf8.ByteLenAppend(s, t);
  }

  /** Text is measured in bytes: one two-byte character already exceeds a limit of one. */
  lemma BytesNotCharacters()
    ensures ValidateField<int>("title", Text("é"), 1) == Fail(FieldTooLong("title", 2, 1))
  {
  }

  /** A failing check's message names the field, the measured length and the limit. */
  lemma FailureMessage<T>(name: string, value: Field<T>, limit: nat)
    requires ValidateField(name, value, limit).Fail?
    ensures ParseFieldTooLong(Display(ValidateField(name, value, limit).error)) == Some((name, value.Len(), limit))
  {
    DisplayFieldTooLongParses(name, value.Len(), limit);
  }
}
