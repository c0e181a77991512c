/** Option and error types shared by the reader model. */
module Wrappers {

  datatype Option<+T> = None | Some(value: T)

  /** The exceptions the reader lets escape. Only `ValueError` is raised by the reader
      itself; the other two are what the Python runtime raises on a value of the wrong
      kind (a non-string path, a non-dict `metadata`, a folder where a wave is needed,
      a wave record where a folder is needed). */
  datatype Error =
    | ValueError(message: string)
    | AttributeError
    | TypeError

  datatype Result<+T> = Success(value: T) | Failure(error: Error)
}
