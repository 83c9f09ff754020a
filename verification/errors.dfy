/** The errors the core can return, one constructor per kind the callers can tell apart. */
module Errors {

  /** The rule of a validator that rejected its input. */
  datatype ValidationError =
    | EmptyName
    | ZeroDateOfBirth
    | NullLastSeen
    | InvalidLatitude
    | InvalidLongitude
    | ZeroTigerID
    | ZeroSeenAt
    | EmptyImageData

  /** The text of the error each rule returns. */
  function Message(e: ValidationError): string {
    match e
    case EmptyName => "name cannot be empty"
    case ZeroDateOfBirth => "time cannot be zero"
    case NullLastSeen => "last seen time cannot be null"
    case InvalidLatitude => "not a valid latitude"
    case InvalidLongitude => "not a valid longitude"
    case ZeroTigerID => "tiger id cannot be 0"
    case ZeroSeenAt => "seen_at cannot be zero"
    case EmptyImageData => "image data should contain valid base64 image format"
  }

  /** The two image formats the normaliser knows. */
  datatype ImageFormat = Png | Jpeg

  /** Failures of the image codecs. */
  datatype ImageError =
    | Base64Corrupt
    | DecodeFailed(format: ImageFormat)
    | EncodeFailed(format: ImageFormat)

  datatype Error =
    | Invalid(rule: ValidationError)
    /** The cache store's "no such key" sentinel (goredis.Nil). */
    | Nil
    /** Any failure reported by the cache server or the database. */
    | Storage(message: string)
    /** The database holds no tiger with the requested ID. */
    | NoRows
    /** The sighting is too far from the tiger's last position. */
    | DistanceExceeded(distance: real)
    | Image(cause: ImageError)
    /** A value that JSON cannot encode, or bytes it cannot decode. */
    | Json(message: string)
}
