/**
 * The `POST /api/upload` route: a file, then an image type, then at most 10 MB, then the
 * backend's reply mapped to a response that copies the six fields of the stored file.
 * The backend call is a parameter.
 */
module UploadRoute {
  import opened Wrappers
  import Upload

  /** The route's response: the status and its JSON body. */
  datatype Response = Response(status: int, success: bool, message: string, file: Option<Upload.UploadedFile>)

  const Uploaded := "File uploaded successfully"
  const InvalidReply := "Invalid response from server"
  const Internal := "Internal server error"

  function Refuse(status: int, message: string): Response {
    Response(status, false, message, None)
  }

  /** The copy of the six file fields the route sends back. */
  function Copy(f: Upload.UploadedFile): (c: Upload.UploadedFile)
    ensures c.originalName == f.originalName && c.fileName == f.fileName && c.extension == f.extension
    ensures c.size == f.size && c.url == f.url && c.path == f.path
  {
    Upload.UploadedFile(f.originalName, f.fileName, f.extension, f.size, f.url, f.path)
  }

  /** The file checks: present, an image, at most 10 MB; the first failing check decides. */
  function Check(file: Option<Upload.File>): (r: Option<Response>)
    ensures file.None? ==> r == Some(Refuse(400, "No file provided"))
    ensures file.Some? && !Upload.IsImageFile(file.value) ==> r == Some(Refuse(400, "File must be an image"))
    ensures file.Some? && Upload.IsImageFile(file.value) && file.value.size > Upload.MaxSize
            ==> r == Some(Refuse(400, "File size must be less than 10MB"))
    ensures r.None? <==> file.Some? && Upload.IsImageFile(file.value) && file.value.size <= Upload.MaxSize
  {
    match file
    case None => Some(Refuse(400, "No file provided"))
    case Some(f) =>
      if !Upload.IsImageFile(f) then Some(Refuse(400, "File must be an image"))
      else if f.size > Upload.MaxSize then Some(Refuse(400, "File size must be less than 10MB"))
      else None
  }

  /** The response to the backend's reply; an unreadable body is an internal error. */
  function FromBackend(reply: Upload.Reply): (r: Response)
    ensures reply.body.Err? ==> r == Refuse(500, Internal)
    ensures !reply.ok && reply.body.Ok? ==> r == Refuse(reply.status, Upload.OrElse(reply.body.value.message, Upload.UploadFailed))
    ensures r.success <==> reply.ok && reply.body.Ok? && reply.body.value.success
                           && reply.body.value.file.Some? && reply.body.value.file.value.url != ""
    ensures r.success ==> r.status == 200 && r.file == Some(Copy(reply.body.value.file.value))
    ensures reply.ok && reply.body.Ok? && !r.success ==> r == Refuse(500, InvalidReply)
  {
    match reply.body
    case Err(_) => Refuse(500, Internal)
    case Ok(result) =>
      if !reply.ok then Refuse(reply.status, Upload.OrElse(result.message, Upload.UploadFailed))
      else if result.success && result.file.Some? && result.file.value.url != "" then
        Response(200, true, Uploaded, Some(Copy(result.file.value)))
      else Refuse(500, InvalidReply)
  }

  /**
   * `POST`: the form data (or the error reading it), the checks, then the backend call at
   * `<apiUrl>/upload`.
   */
  function Post(form: Result<Option<Upload.File>, string>, apiUrl: string,
                send: (string, Upload.File) -> Result<Upload.Reply, string>): (r: Response)
    ensures form.Err? ==> r == Refuse(500, Internal)
    ensures form.Ok? && Check(form.value).Some? ==> r == Check(form.value).value
    ensures form.Ok? && Check(form.value).None? ==>
      match send(apiUrl + "/upload", form.value.value)
      case Err(_) => r == Refuse(500, Internal)
      case Ok(reply) => r == FromBackend(reply)
  {
    match form
    case Err(_) => Refuse(500, Internal)
    case Ok(file) =>
      match Check(file)
      case Some(refusal) => refusal
      case None =>
        match send(apiUrl + "/upload", file.value)
        case Err(_) => Refuse(500, Internal)
        case Ok(reply) => FromBackend(reply)
  }

  /** Exactly 10 MB is accepted, one byte more is refused. */
  lemma SizeBoundary(f: Upload.File)
    requires Upload.IsImageFile(f)
    ensures f.size == Upload.MaxSize ==> Check(Some(f)).None?
    ensures f.size == Upload.MaxSize + 1 ==> Check(Some(f)) == Some(Refuse(400, "File size must be less than 10MB"))
  {
  }

  /** The route's checks accept precisely what the client-side service validates and sees as an image. */
  lemma AgreesWithClient(f: Upload.File)
    ensures Check(Some(f)).None? <==> Upload.IsImageFile(f) && Upload.ValidateFile(f).valid
  {
  }

  /** A refused file never reaches the backend. */
  lemma RefusedBeforeBackend(file: Option<Upload.File>, apiUrl: string,
                             s1: (string, Upload.File) -> Result<Upload.Reply, string>,
                             s2: (string, Upload.File) -> Result<Upload.Reply, string>)
    requires Check(file).Some?
    ensures Post(Ok(file), apiUrl, s1) == Post(Ok(file), apiUrl, s2)
    ensures Post(Ok(file), apiUrl, s1).status == 400
  {
  }
}
