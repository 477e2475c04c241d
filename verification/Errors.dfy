/** Errors as the rest of the plugin tells them apart. */
module Errors {
  datatype StatusError = StatusError(code: string, httpStatus: int, retryable: bool)

  datatype Error =
    | Status(status: StatusError)
    | Eof
    | UnexpectedEof
    | Network
    | Canceled
    | DeadlineExceeded
    | Other(message: string)
}
