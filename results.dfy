/**
 * Outcome values shared by the three modules.
 *
 * The Python code signals misuse by raising `ValueError(message)`; the model
 * returns the same message as a value, so every error path is visible in the
 * contracts instead of being excluded by a precondition.
 */
module Results {

  /** Either a value, or the message of the `ValueError` the source raises. */
  datatype Result<+T> = Ok(value: T) | ValueError(message: string)

  /** An optional value (a search that may find nothing). */
  datatype Option<+T> = None | Some(value: T)
}
