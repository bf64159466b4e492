/** Values that the client's operations return instead of Go's `error`. */
module Outcomes {

  /** An optional value: a Go pointer that may be nil, or a variadic argument that may be missing. */
  datatype Option<+T> = None | Some(value: T)

  /** A value or the error that replaced it. */
  datatype Result<+T, +E> = Success(value: T) | Failure(error: E)

  /** The error an SDK call reports, as far as the client looks into it:
      the structured S3 "not found" error, an API error carrying a code,
      or anything else (transport failure, signing failure, ...). */
  datatype SdkError = NotFound | ApiError(code: string) | OtherError

  /** The errors the client returns; every one but `MissingSettings`
      wraps the SDK error that caused it. */
  datatype Error =
    | MissingSettings                 // a required setting is empty
    | ConfigLoadFailed(cause: SdkError)
    | UploadFailed(cause: SdkError)
    | HeadFailed(cause: SdkError)
    | ListFailed(cause: SdkError)
}
