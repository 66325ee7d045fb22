/**
 * The image upload endpoint (app/api/upload/route.ts): an ordered chain of
 * guards, then the upload itself, each ending in a JSON envelope with a status.
 * The media host's `uploadImage` is an abstract outcome.
 */
module UploadRoute {
  import opened Wrappers
  import opened Strings

  const MaxUploadBytes: int := 10 * 1024 * 1024
  const ImagePrefix: string := "image/"

  /** The three media-host settings read from the environment; `None` when unset. */
  datatype Config = Config(cloudName: Option<string>, apiKey: Option<string>, apiSecret: Option<string>)

  /** The value of the `file` form field: an uploaded file, or a text value. */
  datatype FormEntry = FileEntry(mimeType: string, size: int) | TextEntry(text: string)

  /** The request body: unreadable as form data, or a form whose `file` field may be missing. */
  datatype UploadRequest = Unreadable | Form(file: Option<FormEntry>)

  /**
   * How `uploadImage` (raced against the timeout) ends: it resolves with a
   * value (`Some` string, `None` for a non-string), or it rejects with an
   * error message ("" when the error has none).
   */
  datatype UploadOutcome = Resolved(url: Option<string>) | Rejected(message: string)

  /** Why a request failed. */
  datatype Reason =
    | ConfigMissing
    | UnreadableForm
    | NoFile
    | NotAnImage
    | TooLarge(size: int)
    | NoUrl
    | UploadError(message: string)

  /** The JSON body: `{success: true, url}` or `{success: false, error}`. */
  datatype Body = Uploaded(url: string) | Failed(reason: Reason)

  datatype Response = Response(status: int, body: Body)

  /** The status the route pairs with each failure. */
  function StatusOf(reason: Reason): (status: int)
    ensures status == 400 || status == 500
    ensures status == 500 <==> reason.ConfigMissing? || reason.NoUrl? || reason.UploadError?
  {
    match reason
    case ConfigMissing => 500
    case NoUrl => 500
    case UploadError(_) => 500
    case _ => 400
  }

  /** The guard chain succeeds with the file's type and size, or stops with a reason. */
  datatype Checked = Accepted(mimeType: string, size: int) | Refused(reason: Reason)

  /** All three media-host settings are set and non-empty. */
  predicate Configured(config: Config) {
    Truthy(config.cloudName) && Truthy(config.apiKey) && Truthy(config.apiSecret)
  }

  /** The guards, in the order the route runs them. */
  function Validate(config: Config, request: UploadRequest): (c: Checked)
    ensures c.Accepted? ==>
      && Configured(config)
      && request == Form(Some(FileEntry(c.mimeType, c.size)))
      && StartsWith(c.mimeType, ImagePrefix)
      && c.size <= MaxUploadBytes
    ensures c.Refused? ==> !c.reason.NoUrl? && !c.reason.UploadError?
    ensures (Configured(config) && request.Form? && request.file.Some? && request.file.value.FileEntry? &&
             StartsWith(request.file.value.mimeType, ImagePrefix) && request.file.value.size <= MaxUploadBytes) ==>
      c == Accepted(request.file.value.mimeType, request.file.value.size)
  {
    if !Configured(config) then Refused(ConfigMissing)
    else match request
      case Unreadable => Refused(UnreadableForm)
      case Form(None) => Refused(NoFile)
      case Form(Some(TextEntry(text))) =>
        // a text value has no `type`: "" is falsy, any other text is not a file
        if text == "" then Refused(NoFile) else Refused(NotAnImage)
      case Form(Some(FileEntry(mimeType, size))) =>
        if mimeType == "" || !StartsWith(mimeType, ImagePrefix) then Refused(NotAnImage)
        else if size > MaxUploadBytes then Refused(TooLarge(size))
        else Accepted(mimeType, size)
  }

  const DefaultUploadError: string := "Lỗi upload lên Cloudinary"

  /** `POST`: run the guards; only an accepted file is handed to the upload. */
  function Post(config: Config, request: UploadRequest, upload: UploadOutcome): (r: Response)
    ensures r.status == 200 || r.status == 400 || r.status == 500
    ensures r.status == 200 <==> r.body.Uploaded?
    ensures r.body.Failed? ==> r.status == StatusOf(r.body.reason)
    ensures r.body.Uploaded? ==> r.body.url != "" && upload == Resolved(Some(r.body.url))
  {
    match Validate(config, request)
    case Refused(reason) => Response(StatusOf(reason), Failed(reason))
    case Accepted(_, _) =>
      match upload
      case Resolved(None) => Response(500, Failed(NoUrl))
      case Resolved(Some(url)) =>
        if url == "" then Response(500, Failed(NoUrl)) else Response(200, Uploaded(url))
      case Rejected(message) =>
        Response(500, Failed(UploadError(if message != "" then message else DefaultUploadError)))
  }

  /** A request that fails a guard gets the same response whatever the upload would have done. */
  lemma RefusedNeverUploads(config: Config, request: UploadRequest, a: UploadOutcome, b: UploadOutcome)
    requires Validate(config, request).Refused?
    ensures Post(config, request, a) == Post(config, request, b)
    ensures Post(config, request, a).status != 200
  {
  }

  /** Missing settings answer 500 before the body is looked at. */
  lemma ConfigCheckedFirst(config: Config, r1: UploadRequest, r2: UploadRequest, upload: UploadOutcome)
    requires !Configured(config)
    ensures Post(config, r1, upload) == Post(config, r2, upload) == Response(500, Failed(ConfigMissing))
  {
  }

  /**
   * The size limit is inclusive: an image of at most 10 MiB passes the guards,
   * and every larger one is answered 400 whatever the upload would have done.
   */
  lemma SizeLimitInclusive(config: Config, mimeType: string, size: int, upload: UploadOutcome)
    requires Configured(config)
    requires StartsWith(mimeType, ImagePrefix)
    ensures size <= MaxUploadBytes ==> Validate(config, Form(Some(FileEntry(mimeType, size)))) == Accepted(mimeType, size)
    ensures size > MaxUploadBytes ==>
      Post(config, Form(Some(FileEntry(mimeType, size))), upload) == Response(400, Failed(TooLarge(size)))
  {
  }

  /**
   * The chain once the settings are present, guard by guard: an unreadable
   * body, then a missing file, then the type, and the size only after the type,
   * so a file that is not an image is refused as such at every size.
   */
  lemma GuardOrder(config: Config, request: UploadRequest, upload: UploadOutcome)
    requires Configured(config)
    ensures request == Unreadable ==> Validate(config, request) == Refused(UnreadableForm)
    ensures request == Form(None) ==> Validate(config, request) == Refused(NoFile)
    ensures (request.Form? && request.file.Some? && request.file.value.FileEntry? &&
             !StartsWith(request.file.value.mimeType, ImagePrefix)) ==>
      Post(config, request, upload) == Response(400, Failed(NotAnImage))
  {
  }

  /** Every image file is accepted, refused as too large, or refused as not an image: the three file outcomes. */
  lemma FileGuards(config: Config, mimeType: string, size: int)
    requires Configured(config)
    ensures var c := Validate(config, Form(Some(FileEntry(mimeType, size))));
      && (!StartsWith(mimeType, ImagePrefix) <==> c == Refused(NotAnImage))
      && (StartsWith(mimeType, ImagePrefix) && size > MaxUploadBytes <==> c == Refused(TooLarge(size)))
      && (StartsWith(mimeType, ImagePrefix) && size <= MaxUploadBytes <==> c == Accepted(mimeType, size))
  {
  }

  /** What an accepted file's upload turns into. */
  lemma UploadResults(config: Config, request: UploadRequest, upload: UploadOutcome)
    requires Validate(config, request).Accepted?
    ensures upload == Resolved(None) || upload == Resolved(Some("")) ==>
      Post(config, request, upload) == Response(500, Failed(NoUrl))
    ensures upload.Resolved? && upload.url.Some? && upload.url.value != "" ==>
      Post(config, request, upload) == Response(200, Uploaded(upload.url.value))
    ensures upload.Rejected? && upload.message != "" ==>
      Post(config, request, upload) == Response(500, Failed(UploadError(upload.message)))
  {
  }

  /** `OPTIONS`: the preflight answer, an empty 200 with the CORS headers. */
  function Options(): (r: (int, map<string, string>))
    ensures r.0 == 200
    ensures r.1.Keys == {"Access-Control-Allow-Origin", "Access-Control-Allow-Methods", "Access-Control-Allow-Headers"}
    ensures r.1["Access-Control-Allow-Methods"] == "POST, OPTIONS"
  {
    (200, map[
      "Access-Control-Allow-Origin" := "*",
      "Access-Control-Allow-Methods" := "POST, OPTIONS",
      "Access-Control-Allow-Headers" := "Content-Type"])
  }
}
