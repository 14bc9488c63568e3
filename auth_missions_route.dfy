/**
 * The `POST /api/auth-missions` route: it checks the caller's token and the request body in a
 * fixed order, forwards a payload of exactly the validated fields to the backend, and maps the
 * backend's reply to its own response. The backend call is a parameter.
 */
module AuthMissionsRoute {
  import opened Wrappers

  /** The body fields the route reads; a coordinate is absent (None) or a number. */
  datatype Location = Location(latitude: Option<real>, longitude: Option<real>)

  /** What the body holds under `pictures`: nothing, something that is not an array, or an array. */
  datatype Pictures = Missing | NotAnArray | Pictures(items: seq<string>)

  datatype Body = Body(pictures: Pictures, location: Option<Location>, address: Option<string>)

  /** The request: the `Authorization` header and the body, or the message of its JSON parse error. */
  datatype Request = Request(authorization: Option<string>, body: Result<Body, string>)

  /** The payload forwarded to the backend. */
  datatype MissionPayload = MissionPayload(pictures: seq<string>, latitude: real, longitude: real, address: string)

  /** The backend's reply body; `data` is passed on as it came. */
  datatype BackendBody = BackendBody(success: bool, message: Option<string>, data: Option<string>)

  datatype BackendReply = BackendReply(ok: bool, status: int, body: Result<BackendBody, string>)

  /** The route's response: the status and the JSON keys it may carry. */
  datatype Response = Response(status: int, success: Option<bool>, message: string, data: Option<string>, error: Option<string>)

  const MissionCreated := "Mission created successfully"
  const CreateFailed := "Failed to create mission"

  function Reject(status: int, message: string): Response {
    Response(status, None, message, None, None)
  }

  function InternalError(e: string): Response {
    Response(500, None, "Internal server error", None, Some(e))
  }

  predicate Truthy(s: Option<string>) {
    s.Some? && s.value != ""
  }

  predicate NonZero(x: Option<real>) {
    x.Some? && x.value != 0.0
  }

  predicate PicturesGiven(b: Body) {
    b.pictures.Pictures? && b.pictures.items != []
  }

  predicate LocationGiven(b: Body) {
    b.location.Some? && NonZero(b.location.value.latitude) && NonZero(b.location.value.longitude)
  }

  /**
   * The guard chain: the response of the first failing check, or None when the request may be
   * forwarded. Token, parse, pictures, location and address are tested in that order.
   */
  function Check(req: Request): (r: Option<Response>)
    ensures !Truthy(req.authorization) ==> r == Some(Reject(401, "Unauthorized"))
    ensures Truthy(req.authorization) && req.body.Err? ==> r == Some(InternalError(req.body.error))
    ensures Truthy(req.authorization) && req.body.Ok? && !PicturesGiven(req.body.value)
            ==> r == Some(Reject(400, "Pictures are required"))
    ensures Truthy(req.authorization) && req.body.Ok? && PicturesGiven(req.body.value) && !LocationGiven(req.body.value)
            ==> r == Some(Reject(400, "Location coordinates are required"))
    ensures Truthy(req.authorization) && req.body.Ok? && PicturesGiven(req.body.value) && LocationGiven(req.body.value)
            && !Truthy(req.body.value.address)
            ==> r == Some(Reject(400, "Address is required"))
    ensures r.None? <==> Truthy(req.authorization) && req.body.Ok? && PicturesGiven(req.body.value)
                         && LocationGiven(req.body.value) && Truthy(req.body.value.address)
  {
    if !Truthy(req.authorization) then Some(Reject(401, "Unauthorized"))
    else match req.body
      case Err(e) => Some(InternalError(e))
      case Ok(b) =>
        if !PicturesGiven(b) then Some(Reject(400, "Pictures are required"))
        else if !LocationGiven(b) then Some(Reject(400, "Location coordinates are required"))
        else if !Truthy(b.address) then Some(Reject(400, "Address is required"))
        else None
  }

  /** The forwarded payload: the pictures, the two coordinates and the address, nothing else. */
  function Payload(b: Body): (p: MissionPayload)
    requires PicturesGiven(b) && LocationGiven(b) && Truthy(b.address)
    ensures p.pictures == b.pictures.items && p.address == b.address.value
    ensures Some(p.latitude) == b.location.value.latitude && Some(p.longitude) == b.location.value.longitude
  {
    MissionPayload(b.pictures.items, b.location.value.latitude.value, b.location.value.longitude.value, b.address.value)
  }

  /** The backend's message when it is truthy, else the route's fallback. */
  function MessageOr(b: BackendBody): string {
    if Truthy(b.message) then b.message.value else CreateFailed
  }

  /**
   * The response to a backend reply: an error status is passed on with the backend's message
   * ("Unknown error" when its body does not parse); an ok reply gives 200 with the data on
   * `success`, 500 with the backend's message otherwise, and 500 with the parse error when its
   * body does not parse.
   */
  function FromBackend(reply: BackendReply): (r: Response)
    ensures !reply.ok ==> r.status == reply.status
    ensures !reply.ok && reply.body.Err? ==> r == Reject(reply.status, "Unknown error")
    ensures !reply.ok && reply.body.Ok? ==> r == Reject(reply.status, MessageOr(reply.body.value))
    ensures reply.ok && r.status == 200 <==> reply.ok && reply.body.Ok? && reply.body.value.success
    ensures reply.ok && reply.body.Ok? && reply.body.value.success
            ==> r == Response(200, Some(true), MissionCreated, reply.body.value.data, None)
    ensures reply.ok && reply.body.Ok? && !reply.body.value.success ==> r == Reject(500, MessageOr(reply.body.value))
    ensures reply.ok && reply.body.Err? ==> r == InternalError(reply.body.error)
  {
    if !reply.ok then
      match reply.body
      case Err(_) => Reject(reply.status, "Unknown error")
      case Ok(e) => Reject(reply.status, MessageOr(e))
    else
      match reply.body
      case Err(e) => InternalError(e)
      case Ok(result) =>
        if result.success then Response(200, Some(true), MissionCreated, result.data, None)
        else Reject(500, MessageOr(result))
  }

  /**
   * `POST`: the guard chain, then the configuration check, then the backend call with the
   * token and the payload at `<apiUrl>/auth-missions`.
   */
  function Post(req: Request, apiUrl: Option<string>,
                send: (string, string, MissionPayload) -> Result<BackendReply, string>): (r: Response)
    ensures Check(req).Some? ==> r == Check(req).value
    ensures Check(req).None? && !Truthy(apiUrl) ==> r == Reject(500, "API URL not configured")
    ensures Check(req).None? && Truthy(apiUrl) ==>
      match send(apiUrl.value + "/auth-missions", req.authorization.value, Payload(req.body.value))
      case Err(e) => r == InternalError(e)
      case Ok(reply) => r == FromBackend(reply)
  {
    match Check(req)
    case Some(refusal) => refusal
    case None =>
      if !Truthy(apiUrl) then Reject(500, "API URL not configured")
      else
        match send(apiUrl.value + "/auth-missions", req.authorization.value, Payload(req.body.value))
        case Err(e) => InternalError(e)
        case Ok(reply) => FromBackend(reply)
  }

  /** A refused request never reaches the backend: its response does not depend on it or on the configuration. */
  lemma RefusedBeforeBackend(req: Request, u1: Option<string>, u2: Option<string>,
                             s1: (string, string, MissionPayload) -> Result<BackendReply, string>,
                             s2: (string, string, MissionPayload) -> Result<BackendReply, string>)
    requires Check(req).Some?
    ensures Post(req, u1, s1) == Post(req, u2, s2)
    ensures Post(req, u1, s1).status == 401 || Post(req, u1, s1).status == 400 || Post(req, u1, s1).status == 500
  {
  }

  /** A coordinate of exactly 0 is refused, as a falsy value. */
  lemma ZeroCoordinateRefused(req: Request, apiUrl: Option<string>,
                              send: (string, string, MissionPayload) -> Result<BackendReply, string>)
    requires Truthy(req.authorization) && req.body.Ok? && PicturesGiven(req.body.value)
    requires req.body.value.location.Some? && req.body.value.location.value.latitude == Some(0.0)
    ensures Post(req, apiUrl, send) == Reject(400, "Location coordinates are required")
  {
  }

  /** A successful response carries the backend's data; any other status is an error status. */
  lemma SuccessCarriesData(req: Request, apiUrl: Option<string>,
                           send: (string, string, MissionPayload) -> Result<BackendReply, string>)
    requires Post(req, apiUrl, send).success == Some(true)
    ensures Check(req).None? && Truthy(apiUrl)
    ensures var reply := send(apiUrl.value + "/auth-missions", req.authorization.value, Payload(req.body.value));
      && reply.Ok? && reply.value.ok && reply.value.body.Ok? && reply.value.body.value.success
      && Post(req, apiUrl, send) == Response(200, Some(true), MissionCreated, reply.value.body.value.data, None)
  {
  }
}
