/** Small shared vocabulary: optional values, error-or-value results, and
    the Python truthiness test that the request handlers apply to form fields. */
module Common {

  datatype Option<+T> = None | Some(value: T)

  datatype Result<+T, +E> = Ok(value: T) | Err(error: E)

  /** `not field` in Python for a value taken from `request.form.get(...)`:
      true when the field is absent (None) or is the empty string. */
  predicate Blank(field: Option<string>) {
    field.None? || field.value == ""
  }
}
