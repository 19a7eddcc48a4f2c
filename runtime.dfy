/** Python runtime notions shared by every module: optional values, the
    exceptions the scripts raise, and a result that is a value or an exception. */
module Runtime {

  datatype Option<T> = None | Some(value: T)

  /** The exception kinds the model tells apart. */
  datatype Exc =
    | ValueError     // int() of a non-number, datetime() out of range
    | NameError      // evaluation of an undefined name
    | TypeError      // a call with the wrong number of positional arguments
    | BrowserError   // any Playwright failure: timeout, missing element, detached frame
    | DatabaseError  // sqlite3.Error
    | OSError        // a file could not be written (PIL Image.save)
    | AttributeError // an attribute looked up on None

  /** A Python call that either returns a value or raises. */
  datatype Result<T> = Ok(value: T) | Err(error: Exc)
}
