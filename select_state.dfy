/**
 * src/hooks/useSelectState.ts: the value/error state behind a select input,
 * with an optional required check and an optional custom validator.
 */
module SelectHook {
  import opened Wrappers

  const REQUIRED_MESSAGE := "This field is required"

  /** `!value`: undefined or the empty string. */
  predicate IsFalsy(value: Option<string>) {
    value == None || value == Some("")
  }

  /**
   * The error `validate(required, customValidator)` leaves behind: the required
   * message for a missing value, else the validator's non-empty message for a
   * present value, else none. The validator never sees a missing value.
   */
  function ValidationError(value: Option<string>, required: bool, validator: Option<string -> string>): string {
    if required && IsFalsy(value) then REQUIRED_MESSAGE
    else if validator.Some? && !IsFalsy(value) && validator.value(value.value) != "" then validator.value(value.value)
    else ""
  }

  /** A missing value fails a required check and passes an optional one, whatever the validator says. */
  lemma MissingValueIgnoresValidator(value: Option<string>, required: bool, v1: Option<string -> string>, v2: Option<string -> string>)
    requires IsFalsy(value)
    ensures ValidationError(value, required, v1) == ValidationError(value, required, v2)
    ensures ValidationError(value, required, v1) != "" <==> required
  {
  }

  /** A present value passes exactly when there is no validator or it returns the empty string. */
  lemma PresentValueDecidedByValidator(s: string, required: bool, validator: Option<string -> string>)
    requires s != ""
    ensures ValidationError(Some(s), required, validator) == "" <==>
      validator.None? || validator.value(s) == ""
  {
  }

  class SelectState {
    const initialValue: Option<string>
    var value: Option<string>
    var error: string

    /** `useSelectState(initialValue)`. */
    constructor (initialValue: Option<string>)
      ensures this.initialValue == initialValue && value == initialValue && error == ""
    {
      this.initialValue := initialValue;
      value := initialValue;
      error := "";
    }

    /** `handleValueChange`: take the new value and clear any error. */
    method HandleValueChange(newValue: string)
      modifies this
      ensures value == Some(newValue) && error == ""
    {
      value := Some(newValue);
      if error != "" {
        error := "";
      }
    }

    /** `validate`: record the error and report whether there is none. */
    method Validate(required: bool, validator: Option<string -> string>) returns (ok: bool)
      modifies this`error
      ensures error == ValidationError(value, required, validator)
      ensures ok <==> error == ""
    {
      if required && IsFalsy(value) {
        error := REQUIRED_MESSAGE;
        return false;
      }
      if validator.Some? && !IsFalsy(value) {
        var validationError := validator.value(value.value);
        if validationError != "" {
          error := validationError;
          return false;
        }
      }
      error := "";
      return true;
    }

    /** `reset`: back to the initial value with no error, whatever the state was. */
    method Reset()
      modifies this
      ensures value == initialValue && error == ""
    {
      value := initialValue;
      error := "";
    }
  }
}
