/**
 * The form-validation hook: field edits, a submit that records the validator's
 * errors and raises the submitting flag, and the effect that lowers it again,
 * reporting success exactly when there are no errors.
 */
module FormValidation {
  import opened Wrappers

  /** A form's fields, and a validator's errors, keyed by field name. */
  type Fields = map<string, string>

  /** The errors object has no keys. */
  predicate NoErrors(errors: Fields) {
    |errors.Keys| == 0
  }

  lemma NoErrorsIff(errors: Fields)
    ensures NoErrors(errors) <==> errors == map[]
  {
    if NoErrors(errors) {
      assert errors.Keys == {};
    }
  }

  class FormState {
    var values: Fields
    var errors: Fields
    var isSubmitting: bool
    /** The `validate` callback the hook was created with. */
    const validate: Fields -> Fields

    constructor (initialValues: Fields, validate: Fields -> Fields)
      ensures values == initialValues && errors == map[] && !isSubmitting
      ensures this.validate == validate
    {
      values := initialValues;
      errors := map[];
      isSubmitting := false;
      this.validate := validate;
    }

    /** `handleChange`: only the named field takes the new value. */
    method HandleChange(name: string, value: string)
      modifies this`values
      ensures values == old(values)[name := value]
      ensures forall other :: other != name ==> (other in values <==> other in old(values))
      ensures forall other :: other != name && other in values ==> values[other] == old(values)[other]
    {
      values := values[name := value];
    }

    /** `handleSubmit` */
    method HandleSubmit()
      modifies this`errors, this`isSubmitting
      ensures errors == validate(values) && isSubmitting
    {
      errors := validate(values);
      isSubmitting := true;
    }

    /**
     * The effect over `[errors, isSubmitting, values]`: while submitting it reports
     * whether the submission succeeded and lowers the flag; otherwise it does nothing.
     */
    method SubmitEffect() returns (succeeded: Option<bool>)
      modifies this`isSubmitting
      ensures !isSubmitting
      ensures succeeded.Some? <==> old(isSubmitting)
      ensures succeeded.Some? ==> (succeeded.value <==> errors == map[])
    {
      if isSubmitting {
        NoErrorsIff(errors);
        if NoErrors(errors) {
          succeeded := Some(true);
          isSubmitting := false;
        } else {
          succeeded := Some(false);
          isSubmitting := false;
        }
      } else {
        succeeded := None;
      }
    }
  }
}
