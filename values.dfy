/** Values the handler moves around: PHP scalars as they appear in a log
    record's context, in the recipient list and in a request body. */
module Values {

  /** A value that may be missing (PHP `null` in a return position). */
  datatype Option<+T> = None | Some(value: T)

  /** A PHP scalar. `Null` is what `isset` treats as absent and what an
      undefined array index reads as. */
  datatype Value = Null | Bool(b: bool) | Int(i: int) | Str(s: string)
}
