/**
 * The second copy of the validation macros, in `src/validation.rs`. The
 * crate never compiles this file (`src/lib.rs` declares `mod validation` with
 * an inline body); unlike the inline copy, its optional check binds the
 * present value by reference (`Some(ref field)`).
 */
module RefValidation {

  import opened Optional
  import opened Errors
  import Validation

  /** `validate_field!` as this file writes it. */
  function ValidateField<T>(name: string, value: Validation.Field<T>, limit: nat): (o: Validation.Outcome)
    ensures o.Fail? <==> value.Len() > limit
    ensures o.Fail? ==> o.error == FieldTooLong(name, value.Len(), limit)
  {
    var len := value.Len();
    if len > limit then Validation.Fail(FieldTooLong(name, len, limit)) else Validation.Pass
  }

  /** `validate_optional_field!` as this file writes it: the present value is only borrowed. */
  function ValidateOptionalField<T>(name: string, value: Option<Validation.Field<T>>, limit: nat): (o: Validation.Outcome)
    ensures value.None? ==> o.Pass?
    ensures value.Some? ==> (o.Fail? <==> value.value.Len() > limit)
    ensures o.Fail? ==> o.error == FieldTooLong(name, value.value.Len(), limit)
  {
    match value
    case None => Validation.Pass
    case Some(v) =>
      var len := v.Len();
      if len > limit then Validation.Fail(FieldTooLong(name, len, limit)) else Validation.Pass
  }

  /** Both copies of `validate_field!` behave identically on every input. */
  lemma SameFieldCheck<T>(name: string, value: Validation.Field<T>, limit: nat)
    ensures ValidateField(name, value, limit) == Validation.ValidateField(name, value, limit)
  {
  }

  /** Both copies of `validate_optional_field!` behave identically on every input. */
  lemma SameOptionalFieldCheck<T>(name: string, value: Option<Validation.Field<T>>, limit: nat)
    ensures ValidateOptionalField(name, value, limit) == Validation.ValidateOptionalField(name, value, limit)
  {
  }
}
