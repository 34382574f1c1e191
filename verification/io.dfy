/** The kinds of `std::io::Error` that the two network stacks tell apart. */
module Io {

  datatype IoErrorKind =
    | WouldBlock
    | ConnectionAborted
    | ConnectionRefused
    | ConnectionReset
    | Interrupted
    | Unsupported
    | UnexpectedEof
    | OtherIo
}
