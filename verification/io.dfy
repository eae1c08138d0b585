/** The part of Rust's `std::io::Error` the broker relies on: a kind and a message. */
module Io {

  datatype ErrorKind = NotFound | Other

  datatype IoError = IoError(kind: ErrorKind, message: string)

  /** `IoError::new(ErrorKind::Other, msg)`, the wrapper `engine` puts around bus failures. */
  function OtherError(message: string): (e: IoError)
    ensures e.kind == Other && e.message == message
  {
    IoError(Other, message)
  }
}
