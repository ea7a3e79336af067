/** The HTTP statuses the image resource and its finder set (201 Created for a stored upload,
    and the error statuses), and why a request fails: one cause per distinct
    `RestletException` message, plus the null dereferences (`NullMediaType`, `NullProperty`)
    that end a request as a server error. */
module RestStatus {

  datatype Status =
    | Created               // Status.SUCCESS_CREATED
    | BadRequest            // Status.CLIENT_ERROR_BAD_REQUEST
    | NotFound              // Status.CLIENT_ERROR_NOT_FOUND
    | UnsupportedMediaType  // Status.CLIENT_ERROR_UNSUPPORTED_MEDIA_TYPE
    | UnprocessableEntity   // Status.CLIENT_ERROR_UNPROCESSABLE_ENTITY
    | InternalError         // Status.SERVER_ERROR_INTERNAL

  /** The numeric HTTP code of a status. */
  function Code(s: Status): nat {
    match s
    case Created => 201
    case BadRequest => 400
    case NotFound => 404
    case UnsupportedMediaType => 415
    case UnprocessableEntity => 422
    case InternalError => 500
  }

  datatype Cause =
    | NoSuchWorkspace
    | NoSuchDataStore
    | NoSuchFeatureTypeInStore
    | NoSuchFeatureType
    | UnrecognizedUploadMethod
    | NullMediaType
    | InvalidMimeType
    | DirectoryUnavailable
    | InvalidDirectory
    | WriteFailed
    | NotExactlyOneFeature
    | NullProperty
    | ImageNotLoadable
    | ImageNotFound
    | ImageNotReadable

  datatype Failure = Failure(status: Status, cause: Cause)
}
