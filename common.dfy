/** Values shared by both form controllers. */
module Common {

  /** A value that may be absent; `None` stands for the source's `null`. */
  datatype Option<+T> = None | Some(value: T)

  /**
   * The `{success, message}` record a form shows under its button once a
   * submission attempt has been decided.
   */
  datatype Status = Status(success: bool, message: string)
}
