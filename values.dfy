/**
 * Values shared by every layer of the declaration-file model: the dynamic
 * values a record field can hold, the error conditions the codec raises, and
 * the Option / Result / Outcome wrappers that carry them.
 */
module Values {

  datatype Option<T> = None | Some(value: T)

  /** The conditions under which the codec and the document raise. */
  datatype Error =
    | ValueTooWide    // a padded value does not fit its column ("Value is bigger than size")
    | MalformedValue  // int() / float() / "YYYY-MM-DD" unpacking rejects the text
    | TypeMismatch    // the field holds a value of the wrong kind (str where a number is needed, ...)
    | PrefixMismatch  // LineType.read: the text does not start with the prefix
    | LengthMismatch  // LineType.read: the text has the wrong length
    | MissingKey      // a dictionary lookup fails (missing field, unknown line code, no open group)
    | DuplicatePrefix // add_linetype: the prefix is already registered
    | DuplicateName   // add_linetype: the name is already registered
    | NoHeader        // lines[0] of an empty document

  datatype Result<T> = Ok(value: T) | Err(error: Error)
  {
    predicate IsFailure() {
      Err?
    }

    function PropagateFailure<U>(): Result<U>
      requires Err?
    {
      Err(error)
    }

    function Extract(): T
      requires Ok?
    {
      value
    }
  }

  datatype Outcome = Pass | Fail(error: Error)

  /**
   * A field value. Text columns and dates read back as strings, ColInt
   * columns as integers, and amounts (floats with two decimals in the
   * source) as an exact number of cents.
   */
  datatype Value = Text(s: string) | Int(n: int) | Amount(cents: int)

  /** One decoded line: field name to value (the source's dict). */
  type Record = map<string, Value>
}
