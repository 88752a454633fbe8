/**
 * `uploadToCloudinary`: the avatar checks it makes before any network call,
 * and how it turns the media host's answer into a URL or an error message.
 * The HTTP exchange itself is abstracted as an `UploadResponse`.
 */
module Upload {
  import opened Wrappers

  /** The largest accepted avatar, 5 MiB. */
  const MaxAvatarBytes: nat := 5 * 1024 * 1024

  /** The MIME types the script accepts. */
  const AllowedTypes: seq<string> := ["image/jpeg", "image/png", "image/gif", "image/webp"]

  /** The two properties of a browser `File` the checks read. */
  datatype AvatarFile = AvatarFile(size: nat, mimeType: string)

  /** The reasons the checks reject a file, in the order they are tested. */
  datatype Rejection = NoFile | TooLarge | UnsupportedType

  function RejectionMessage(r: Rejection): string
  {
    match r
    case NoFile => "No file provided"
    case TooLarge => "File size must be less than 5MB"
    case UnsupportedType => "File type not supported. Please use JPEG, PNG, GIF, or WebP"
  }

  /**
   * The checks before the upload request: a missing file first, then a
   * size strictly over 5 MiB, then a type outside the allowed four. The
   * first failing check decides the rejection.
   */
  function Precheck(file: Option<AvatarFile>): (r: Option<Rejection>)
    ensures r.None? <==>
      file.Some? && file.value.size <= MaxAvatarBytes && file.value.mimeType in AllowedTypes
    ensures r == Some(NoFile) <==> file.None?
    ensures r == Some(TooLarge) <==> file.Some? && file.value.size > MaxAvatarBytes
    ensures r == Some(UnsupportedType) <==>
      file.Some? && file.value.size <= MaxAvatarBytes && file.value.mimeType !in AllowedTypes
  {
    if file.None? then Some(NoFile)
    else if file.value.size > MaxAvatarBytes then Some(TooLarge)
    else if file.value.mimeType !in AllowedTypes then Some(UnsupportedType)
    else None
  }

  /** A file of exactly 5 MiB passes the size check; one byte more does not. */
  lemma SizeBoundary(mimeType: string)
    requires mimeType in AllowedTypes
    ensures Precheck(Some(AvatarFile(5 * 1024 * 1024, mimeType))).None?
    ensures Precheck(Some(AvatarFile(5 * 1024 * 1024 + 1, mimeType))) == Some(TooLarge)
  {
  }

  /** The media host's answer to the upload request. */
  datatype UploadResponse =
    | Uploaded(secureUrl: string)         // 2xx with a `secure_url`
    | HttpFailure(statusLine: string)     // non-2xx; "<status> <statusText>"
    | ErrorBody(message: string)          // 2xx whose body carries `error`; "" when it has no message
    | NetworkError(message: string)       // `fetch` rejected, or a 2xx body was not JSON

  /** Every error leaving `uploadToCloudinary` is re-thrown with this prefix. */
  const UploadFailedPrefix: string := "Upload failed: "

  /**
   * What the upload yields once the request was sent. A non-2xx answer is
   * thrown inside the function's own `try` and so carries the prefix twice.
   */
  function UploadOutcome(response: UploadResponse): (r: Result<string, string>)
    ensures r.Success? <==> response.Uploaded?
    ensures r.Success? ==> r.value == response.secureUrl
    ensures r.Failure? ==> UploadFailedPrefix <= r.error
    ensures response.HttpFailure? ==>
      r == Failure(UploadFailedPrefix + UploadFailedPrefix + response.statusLine)
    ensures response.ErrorBody? && response.message != "" ==>
      r == Failure(UploadFailedPrefix + response.message)
    ensures response.ErrorBody? && response.message == "" ==>
      r == Failure(UploadFailedPrefix + "Upload error")
    ensures response.NetworkError? ==> r == Failure(UploadFailedPrefix + response.message)
  {
    match response
    case Uploaded(url) => Success(url)
    case HttpFailure(statusLine) => Failure(UploadFailedPrefix + UploadFailedPrefix + statusLine)
    case ErrorBody(message) =>
      Failure(UploadFailedPrefix + (if message == "" then "Upload error" else message))
    case NetworkError(message) => Failure(UploadFailedPrefix + message)
  }

  /**
   * `uploadToCloudinary` as a whole: the checks, then (only if they pass)
   * the request and its answer.
   */
  function UploadToCloudinary(file: Option<AvatarFile>, response: UploadResponse): (r: Result<string, string>)
    ensures r.Success? <==> Precheck(file).None? && response.Uploaded?
    ensures Precheck(file).Some? ==>
      r == Failure(UploadFailedPrefix + RejectionMessage(Precheck(file).value))
  {
    match Precheck(file)
    case Some(rejection) => Failure(UploadFailedPrefix + RejectionMessage(rejection))
    case None => UploadOutcome(response)
  }

  /**
   * A rejected file fails the same way whatever the network would have
   * answered: the checks decide before any request exists.
   */
  lemma RejectionIgnoresNetwork(file: Option<AvatarFile>, a: UploadResponse, b: UploadResponse)
    requires Precheck(file).Some?
    ensures UploadToCloudinary(file, a) == UploadToCloudinary(file, b)
    ensures UploadToCloudinary(file, a).Failure?
  {
  }
}
