/** Failure-aware values shared by the other modules: the optimizer catches every
    exception at the boundary of the step that raises it, and here those exceptions
    become explicit error values. */
module Results {

  datatype Option<+T> = None | Some(value: T)

  /** What can go wrong in one step of the optimizer. */
  datatype Error =
    | MissingColumn        // a data frame lacks the column that is averaged
    | NonNumericColumn     // a column whose values cannot be averaged
    | EmptyColumn          // a column with no rows (pandas gives NaN here)
    | UnconvertibleSample  // a live sample that `float(...)` rejects

  datatype Result<+T> = Ok(value: T) | Err(error: Error)
}
