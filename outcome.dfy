/** Success/failure values for the loader's error paths. */
module Outcome {

  /** The ways `data2df` stops with an exception instead of returning a table. */
  datatype LoadError =
    | ShapeMismatch   // a line does not carry the 18 named fields plus one trailing column
    | SummerIndex     // fewer than two rows fall in the summer-time window (`summer_idx[-2]`)
    | TrimIndex       // fewer than 31 rows, so trimmed row 16 does not exist

  datatype Result<+T> = Ok(value: T) | Err(error: LoadError)
}
