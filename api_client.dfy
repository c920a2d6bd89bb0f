/**
  `APIClient`: builds each HTTP request, classifies what comes back into a
  value or an `APIError`, unwraps the `{data, message}` envelope per endpoint,
  and serialises the multipart body of a photo upload.

  The network, Foundation's URL parser and the JSON decoder are not modelled:
  what they produce is an input. An `Exchange` is what `URLSession` returned
  (a transport error, or a body and a response); a `Body` says what that body
  decodes to with each decoder the client tries on it.
*/
module ApiClient {
  import opened Wrappers
  import opened Text
  import opened Bytes
  import opened Uuids
  import opened ApiResponse
  import opened Defaults
  import opened PhotoModel

  // ---------------------------------------------------------------- errors

  /** `APIError`; a wrapped Swift `Error` is represented by its description. */
  datatype ApiError =
    | InvalidUrl
    | InvalidResponse
    | ServerError(message: string)
    | DecodingError(underlying: string)
    | NetworkError(underlying: string)

  /** `APIError.errorDescription`, the text the view models show. */
  function ErrorDescription(e: ApiError): (d: string)
    ensures e.ServerError? ==> d == e.message
    ensures e.NetworkError? ==> d == "Errore di rete: " + e.underlying
  {
    match e
    case InvalidUrl => "URL non valido"
    case InvalidResponse => "Risposta del server non valida"
    case ServerError(message) => message
    case DecodingError(_) => "Errore nella lettura dei dati"
    case NetworkError(underlying) => "Errore di rete: " + underlying
  }

  /**
    What a throwing call of the client throws: an `APIError`, or an error
    that is rethrown without being wrapped (a body that fails to encode, a
    decode outside a `do`/`catch`), represented by its description.
  */
  datatype Thrown = Api(error: ApiError) | Raw(description: string)

  /** `error.localizedDescription`: an `APIError` describes itself with `errorDescription`. */
  function LocalizedDescription(t: Thrown): string {
    match t
    case Api(e) => ErrorDescription(e)
    case Raw(d) => d
  }

  // ---------------------------------------------------------------- auth payloads

  datatype User = User(id: Uuid, firstName: string, lastName: string, email: string)

  /** `AuthResponse`: a single bearer token and the user; there is no refresh token. */
  datatype AuthResponse = AuthResponse(token: string, user: User)

  // ---------------------------------------------------------------- requests

  const BaseServerUrl: string := "https://onicotech.pve.local:8282/api/v1"

  const ContentTypeHeader: string := "Content-Type"
  const AuthorizationHeader: string := "Authorization"

  datatype QueryItem = QueryItem(name: string, value: Option<string>)

  /** A URL as `URLComponents` holds it: the address and the query items, if any were set. */
  datatype Url = Url(address: string, query: Option<seq<QueryItem>>)

  /** `URLRequest`: the fields the client sets. */
  datatype UrlRequest = UrlRequest(
    url: Url,
    httpMethod: string,
    headers: map<string, string>,
    httpBody: Option<seq<byte>>)

  /** An optional request body: absent, its JSON encoding, or the encoder's error. */
  type EncodedBody = Option<Result<seq<byte>, string>>

  /**
    The request `request(path:method:body:queryItems:)` sends, or the error it
    throws before sending. `urlAccepted` is Foundation's verdict on
    `baseServerURL + path`; `entries` is the content of `UserDefaults`.
  */
  function JsonRequest(
    path: string, httpMethod: string, body: EncodedBody, queryItems: Option<seq<QueryItem>>,
    entries: map<string, string>, urlAccepted: bool): (r: Result<UrlRequest, Thrown>)
    ensures !urlAccepted ==> r == Failure(Api(InvalidUrl))
    ensures urlAccepted && body.Some? && body.value.Failure? ==> r == Failure(Raw(body.value.error))
    ensures r.Success? <==> urlAccepted && (body.None? || body.value.Success?)
    ensures r.Success? ==>
      && r.value.url == Url(BaseServerUrl + path, queryItems)
      && r.value.httpMethod == httpMethod
      && r.value.headers.Keys <= {ContentTypeHeader, AuthorizationHeader}
      && ContentTypeHeader in r.value.headers
      && r.value.headers[ContentTypeHeader] == "application/json"
      && (AuthorizationHeader in r.value.headers <==> AuthTokenKey in entries)
      && (AuthTokenKey in entries ==> r.value.headers[AuthorizationHeader] == "Bearer " + entries[AuthTokenKey])
      && r.value.httpBody == (if body.Some? then Some(body.value.value) else None)
  {
    if !urlAccepted then Failure(Api(InvalidUrl))
    else if body.Some? && body.value.Failure? then Failure(Raw(body.value.error))
    else
      var headers := map[ContentTypeHeader := "application/json"];
      var headers := if AuthTokenKey in entries
        then headers[AuthorizationHeader := "Bearer " + entries[AuthTokenKey]] else headers;
      Success(UrlRequest(
        Url(BaseServerUrl + path, queryItems), httpMethod, headers,
        if body.Some? then Some(body.value.value) else None))
  }

  /** The steps of `request` up to the network call, setting the request's fields one at a time. */
  method PrepareRequest(
    path: string, httpMethod: string, body: EncodedBody, queryItems: Option<seq<QueryItem>>,
    defaults: UserDefaults, urlAccepted: bool) returns (r: Result<UrlRequest, Thrown>)
    ensures r == JsonRequest(path, httpMethod, body, queryItems, defaults.entries, urlAccepted)
  {
    if !urlAccepted {
      return Failure(Api(InvalidUrl));
    }
    var url := Url(BaseServerUrl + path, None);
    if queryItems.Some? {
      url := url.(query := queryItems);
    }
    var request := UrlRequest(url, "GET", map[], None);
    request := request.(httpMethod := httpMethod);
    request := request.(headers := request.headers[ContentTypeHeader := "application/json"]);
    var token := defaults.StringForKey(AuthTokenKey);
    if token.Some? {
      request := request.(headers := request.headers[AuthorizationHeader := "Bearer " + token.value]);
    }
    if body.Some? {
      if body.value.Failure? {
        return Failure(Raw(body.value.error));
      }
      request := request.(httpBody := Some(body.value.value));
    }
    return Success(request);
  }

  // ---------------------------------------------------------------- responses

  datatype UrlResponse = Http(statusCode: int) | NonHttp

  /**
    What a response body decodes to: as the expected type `T` (or the
    decoder's error), and as the error envelope `APIResponse<String>`
    (nil when that `try?` decode fails).
  */
  datatype Body<T> = Body(asValue: Result<T, string>, asErrorEnvelope: Option<Envelope<string>>)

  /** What `URLSession.data(for:)` gave back. */
  datatype Exchange<T> = TransportError(description: string) | Received(body: Body<T>, response: UrlResponse)

  /**
    How the result type `T` behaves at status 204: `nilValue` is the value of
    `Optional<T>.none as? T` (present exactly when `T` is itself optional),
    `fromEmptyObject` what decoding `{}` as `T` gives.
  */
  datatype ResultType<T> = ResultType(nilValue: Option<T>, fromEmptyObject: Result<T, string>)

  predicate IsSuccessStatus(code: int) {
    200 <= code <= 299
  }

  predicate IsHttpSuccess<T>(x: Exchange<T>) {
    x.Received? && x.response.Http? && IsSuccessStatus(x.response.statusCode)
  }

  /** The server's message from a decodable error envelope, "Errore sconosciuto" when it has none, else the fallback. */
  function ServerMessage(errorEnvelope: Option<Envelope<string>>, fallback: string): string {
    match errorEnvelope
    case Some(e) => e.message.GetOr("Errore sconosciuto")
    case None => fallback
  }

  /** The message `request` synthesises for a failed status without a decodable envelope. */
  function StatusFallback(code: int): string {
    "Errore del server (codice " + IntToString(code) + ")"
  }

  /**
    The part of `request` after the network call. A status outside 200...299
    (401 included) is a `serverError`; nothing is retried.
  */
  function HandleResponse<T>(t: ResultType<T>, x: Exchange<T>): (r: Result<T, Thrown>)
    ensures r.Success? ==> IsHttpSuccess(x)
    ensures r == Failure(Api(InvalidResponse)) <==> x.Received? && x.response.NonHttp?
    ensures (r.Failure? && r.error.Api? && r.error.error.NetworkError?) <==> x.TransportError?
    ensures (r.Failure? && r.error.Api? && r.error.error.ServerError?) <==>
      x.Received? && x.response.Http? && !IsSuccessStatus(x.response.statusCode)
    ensures r.Failure? && r.error.Api? && r.error.error.DecodingError? ==>
      IsHttpSuccess(x) && x.response.statusCode != 204
    ensures r.Failure? && r.error.Raw? ==> x.Received? && x.response == Http(204) && t.nilValue.None?
    ensures x.Received? && x.response == Http(204) ==>
      r == (if t.nilValue.Some? then Success(t.nilValue.value)
            else if t.fromEmptyObject.Success? then Success(t.fromEmptyObject.value)
            else Failure(Raw(t.fromEmptyObject.error)))
    ensures IsHttpSuccess(x) && x.response.statusCode != 204 && x.body.asValue.Success? ==>
      r == Success(x.body.asValue.value)
    ensures IsHttpSuccess(x) && x.response.statusCode != 204 && x.body.asValue.Failure? ==>
      r == Failure(Api(DecodingError(x.body.asValue.error)))
    ensures x.Received? && x.response.Http? && !IsSuccessStatus(x.response.statusCode) ==>
      r == Failure(Api(ServerError(ServerMessage(x.body.asErrorEnvelope, StatusFallback(x.response.statusCode)))))
  {
    match x
    case TransportError(d) => Failure(Api(NetworkError(d)))
    case Received(body, response) =>
      if response.NonHttp? then Failure(Api(InvalidResponse))
      else if response.statusCode == 204 then
        if t.nilValue.Some? then Success(t.nilValue.value)
        else if t.fromEmptyObject.Success? then Success(t.fromEmptyObject.value)
        else Failure(Raw(t.fromEmptyObject.error))
      else if !IsSuccessStatus(response.statusCode) then
        Failure(Api(ServerError(ServerMessage(body.asErrorEnvelope, StatusFallback(response.statusCode)))))
      else if body.asValue.Failure? then Failure(Api(DecodingError(body.asValue.error)))
      else Success(body.asValue.value)
  }

  /**
    Every failed status is handled alike: with a decodable error envelope the
    outcome does not depend on the code at all (so 401 is not singled out),
    without one only the code in the message differs.
  */
  lemma FailedStatusesAlike<T>(t: ResultType<T>, body: Body<T>, c1: int, c2: int)
    requires !IsSuccessStatus(c1) && !IsSuccessStatus(c2)
    ensures body.asErrorEnvelope.Some? ==>
      HandleResponse(t, Received(body, Http(c1))) == HandleResponse(t, Received(body, Http(c2)))
    ensures body.asErrorEnvelope.None? ==>
      HandleResponse(t, Received(body, Http(c1))) == Failure(Api(ServerError(StatusFallback(c1))))
  {
  }

  /**
    An example of `FailedStatusesAlike`: a 401 without an error envelope fails
    with the generic message for code 401; there is no refresh and no retry.
  */
  lemma UnauthorizedWithoutEnvelope<T>(t: ResultType<T>, asValue: Result<T, string>)
    ensures HandleResponse(t, Received(Body(asValue, None), Http(401)))
      == Failure(Api(ServerError("Errore del server (codice 401)")))
  {
    assert DigitChar(4) == '4' && DigitChar(0) == '0' && DigitChar(1) == '1';
    assert NatToString(4) == "4";
    assert NatToString(40) == NatToString(4) + ['0'] == "40";
    assert NatToString(401) == NatToString(40) + ['1'] == "401";
    assert IntToString(401) == "401";
    assert StatusFallback(401) == "Errore del server (codice 401)";
  }

  /**
    What the user is shown for a failed status: the server's own message when
    its error envelope carries one, whatever the envelope's `data` holds.
  */
  lemma ServerMessageReachesUser<T>(t: ResultType<T>, body: Body<T>, code: int, message: string)
    requires !IsSuccessStatus(code)
    requires body.asErrorEnvelope.Some? && body.asErrorEnvelope.value.message == Some(message)
    ensures HandleResponse(t, Received(body, Http(code))) == Failure(Api(ServerError(message)))
    ensures LocalizedDescription(HandleResponse(t, Received(body, Http(code))).error) == message
  {
  }

  /**
    An error envelope without a message: the user is shown "Errore
    sconosciuto", whatever the status and whatever the envelope's `data`.
  */
  lemma EnvelopeWithoutMessage<T>(t: ResultType<T>, body: Body<T>, code: int)
    requires !IsSuccessStatus(code)
    requires body.asErrorEnvelope.Some? && body.asErrorEnvelope.value.message.None?
    ensures HandleResponse(t, Received(body, Http(code))) == Failure(Api(ServerError("Errore sconosciuto")))
    ensures LocalizedDescription(HandleResponse(t, Received(body, Http(code))).error) == "Errore sconosciuto"
  {
  }

  /** `request`: prepare, send, classify. `sent` is the request that went out, if any. */
  method Request<T>(
    path: string, httpMethod: string, body: EncodedBody, queryItems: Option<seq<QueryItem>>,
    defaults: UserDefaults, urlAccepted: bool, t: ResultType<T>, x: Exchange<T>)
    returns (sent: Option<UrlRequest>, r: Result<T, Thrown>)
    ensures sent == JsonRequest(path, httpMethod, body, queryItems, defaults.entries, urlAccepted).ToOption()
    ensures sent.None? ==> r == Failure(JsonRequest(path, httpMethod, body, queryItems, defaults.entries, urlAccepted).error)
    ensures sent.Some? ==> r == HandleResponse(t, x)
  {
    var prepared := PrepareRequest(path, httpMethod, body, queryItems, defaults, urlAccepted);
    if prepared.Failure? {
      return None, Failure(prepared.error);
    }
    sent := Some(prepared.value);
    r := HandleResponse(t, x);
  }

  // ---------------------------------------------------------------- requests without a payload

  /** The request `requestNoContent(path:method:)` sends: no Content-Type, no Authorization, no body. */
  function NoContentRequest(path: string, httpMethod: string, urlAccepted: bool): (r: Result<UrlRequest, Thrown>)
    ensures r.Success? <==> urlAccepted
    ensures r.Failure? ==> r.error == Api(InvalidUrl)
    ensures r.Success? ==>
      && r.value.headers == map[] && r.value.httpBody.None?
      && r.value.url == Url(BaseServerUrl + path, None) && r.value.httpMethod == httpMethod
  {
    if urlAccepted then Success(UrlRequest(Url(BaseServerUrl + path, None), httpMethod, map[], None))
    else Failure(Api(InvalidUrl))
  }

  /** The part of `requestNoContent` after the network call: any 2xx succeeds and the body is never decoded. */
  function HandleNoContentResponse<T>(x: Exchange<T>): (r: Result<(), Thrown>) {
    match x
    case TransportError(d) => Failure(Api(NetworkError(d)))
    case Received(body, response) =>
      if response.NonHttp? then Failure(Api(InvalidResponse))
      else if !IsSuccessStatus(response.statusCode) then
        Failure(Api(ServerError(ServerMessage(body.asErrorEnvelope, StatusFallback(response.statusCode)))))
      else Success(())
  }

  /**
    `requestNoContent` and `request` fail in the same way on every exchange
    that is not an HTTP 2xx; on a 2xx the former always succeeds, whatever
    the body, where the latter may still fail to decode it.
  */
  lemma NoContentAgreesWithRequest<T>(t: ResultType<T>, x: Exchange<T>)
    ensures !IsHttpSuccess(x) ==>
      HandleResponse(t, x).Failure? && HandleNoContentResponse(x) == Failure(HandleResponse(t, x).error)
    ensures IsHttpSuccess(x) ==> HandleNoContentResponse(x) == Success(())
  {
  }

  /** `requestNoContent`. */
  method RequestNoContent<T>(path: string, httpMethod: string, urlAccepted: bool, x: Exchange<T>)
    returns (sent: Option<UrlRequest>, r: Result<(), Thrown>)
    ensures sent == NoContentRequest(path, httpMethod, urlAccepted).ToOption()
    ensures sent.Some? ==> sent.value.headers == map[]
    ensures r == if urlAccepted then HandleNoContentResponse(x) else Failure(Api(InvalidUrl))
  {
    if !urlAccepted {
      return None, Failure(Api(InvalidUrl));
    }
    var request := UrlRequest(Url(BaseServerUrl + path, None), "GET", map[], None);
    request := request.(httpMethod := httpMethod);
    sent := Some(request);
    r := HandleNoContentResponse(x);
  }

  // ---------------------------------------------------------------- envelope unwrapping

  /** `response.data ?? []`: what the list endpoints return. */
  function ListPayload<T>(r: Result<Envelope<seq<T>>, Thrown>): (l: Result<seq<T>, Thrown>)
    ensures l.Failure? <==> r.Failure?
    ensures r.Failure? ==> l.error == r.error
    ensures r.Success? ==> l.value == r.value.data.GetOr([])
  {
    match r
    case Failure(e) => Failure(e)
    case Success(envelope) => Success(envelope.data.GetOr([]))
  }

  /** `guard let x = response.data else { throw APIError.invalidResponse }`: the single-entity endpoints. */
  function EntityPayload<T>(r: Result<Envelope<T>, Thrown>): (l: Result<T, Thrown>)
    ensures l.Success? <==> r.Success? && r.value.data.Some?
    ensures l.Success? ==> l.value == r.value.data.value
    ensures r.Success? && r.value.data.None? ==> l == Failure(Api(InvalidResponse))
    ensures r.Failure? ==> l == Failure(r.error)
  {
    match r
    case Failure(e) => Failure(e)
    case Success(envelope) =>
      if envelope.data.Some? then Success(envelope.data.value) else Failure(Api(InvalidResponse))
  }

  /** The two unwrapping rules differ on exactly one outcome: a 2xx envelope without `data`. */
  lemma ListAndEntityDifferOnlyOnAbsentData<T>(r: Result<Envelope<seq<T>>, Thrown>)
    ensures ListPayload(r) != EntityPayload(r) <==> r.Success? && r.value.data.None?
    ensures r.Success? && r.value.data.None? ==>
      ListPayload(r) == Success([]) && EntityPayload(r) == Failure(Api(InvalidResponse))
  {
  }

  // ---------------------------------------------------------------- endpoints

  /** The facade's operations whose bodies are shown. */
  datatype Endpoint =
    | Login | Register | GetProfile
    | GetClients | GetClient(id: Uuid) | CreateClient | UpdateClient(id: Uuid) | DeleteClient(id: Uuid)
    | GetClientAppointments(id: Uuid)
    | GetServices | CreateService | UpdateService(id: Uuid) | DeleteService(id: Uuid)
    | GetAppointments(date: Option<string>) | GetAppointment(id: Uuid) | CreateAppointment
    | UpdateAppointment(id: Uuid) | DeleteAppointment(id: Uuid)
    | GetDashboard | GetAdvancedStats | InvalidateCache
    | DeletePhoto(id: Uuid) | GetAppointmentPhotos(id: Uuid) | GetClientPhotos(id: Uuid)

  /** How an endpoint turns the decoded response into its result. */
  datatype Unwrap =
    | Direct          // the body is the result itself (login, register)
    | DefaultEmpty    // `data ?? []`
    | RequireData     // absent `data` is `invalidResponse`
    | NoPayload       // `requestNoContent`

  function EndpointPath(e: Endpoint): string {
    match e
    case Login => "/auth/login"
    case Register => "/auth/register"
    case GetProfile => "/me"
    case GetClients => "/clients"
    case GetClient(id) => "/clients/" + id
    case CreateClient => "/clients"
    case UpdateClient(id) => "/clients/" + id
    case DeleteClient(id) => "/clients/" + id
    case GetClientAppointments(id) => "/clients/" + id + "/appointments"
    case GetServices => "/services"
    case CreateService => "/services"
    case UpdateService(id) => "/services/" + id
    case DeleteService(id) => "/services/" + id
    case GetAppointments(_) => "/appointments"
    case GetAppointment(id) => "/appointments/" + id
    case CreateAppointment => "/appointments"
    case UpdateAppointment(id) => "/appointments/" + id
    case DeleteAppointment(id) => "/appointments/" + id
    case GetDashboard => "/dashboard"
    case GetAdvancedStats => "/dashboard/stats"
    case InvalidateCache => "/cache/invalidate"
    case DeletePhoto(id) => "/photos/" + id
    case GetAppointmentPhotos(id) => "/appointments/" + id + "/photos"
    case GetClientPhotos(id) => "/clients/" + id + "/photos"
  }

  function EndpointMethod(e: Endpoint): string {
    match e
    case Login | Register | CreateClient | CreateService | CreateAppointment | InvalidateCache => "POST"
    case UpdateClient(_) | UpdateService(_) | UpdateAppointment(_) => "PUT"
    case DeleteClient(_) | DeleteService(_) | DeleteAppointment(_) | DeletePhoto(_) => "DELETE"
    case _ => "GET"
  }

  function EndpointUnwrap(e: Endpoint): Unwrap {
    match e
    case Login | Register => Direct
    case GetClients | GetClientAppointments(_) | GetServices | GetAppointments(_)
       | GetAppointmentPhotos(_) | GetClientPhotos(_) => DefaultEmpty
    case DeleteClient(_) | DeleteService(_) | DeleteAppointment(_) | DeletePhoto(_) | InvalidateCache => NoPayload
    case _ => RequireData
  }

  /** `getAppointments(date:)` is the one endpoint with query items: `date=<day>` when a day is given. */
  function EndpointQuery(e: Endpoint): Option<seq<QueryItem>> {
    if e.GetAppointments? && e.date.Some? then Some([QueryItem("date", Some(e.date.value))]) else None
  }

  /** The request an endpoint sends, given its encoded body and the stored defaults. */
  function EndpointRequest(e: Endpoint, body: EncodedBody, entries: map<string, string>, urlAccepted: bool)
    : Result<UrlRequest, Thrown>
  {
    if EndpointUnwrap(e) == NoPayload then NoContentRequest(EndpointPath(e), EndpointMethod(e), urlAccepted)
    else JsonRequest(EndpointPath(e), EndpointMethod(e), body, EndpointQuery(e), entries, urlAccepted)
  }

  /**
    The bearer token goes out on exactly the requests made through `request`
    (login and register included) and only while one is stored; the
    `requestNoContent` endpoints (the deletes and the cache invalidation)
    never carry it.
  */
  lemma {:induction false} AuthorizationHeaderRule(e: Endpoint, body: EncodedBody, entries: map<string, string>)
    requires body.None? || body.value.Success?
    ensures EndpointRequest(e, body, entries, true).Success?
    ensures AuthorizationHeader in EndpointRequest(e, body, entries, true).value.headers
      <==> EndpointUnwrap(e) != NoPayload && AuthTokenKey in entries
  {
  }

  /** Even the login call carries a stale token when one is still stored. */
  lemma LoginSendsStoredToken(body: seq<byte>, entries: map<string, string>)
    requires AuthTokenKey in entries
    ensures EndpointRequest(Login, Some(Success(body)), entries, true).value.headers[AuthorizationHeader]
      == "Bearer " + entries[AuthTokenKey]
  {
  }

  // ---------------------------------------------------------------- photo upload

  const Crlf: string := "\r\n"

  /** One part of a multipart/form-data body: its header lines and its content. */
  datatype Part = Part(headers: seq<string>, content: seq<byte>)

  function HeaderLines(headers: seq<string>): string {
    if headers == [] then "" else headers[0] + Crlf + HeaderLines(headers[1..])
  }

  /**
    One encapsulation in the layout of section 5.1.1 of RFC 2046: the
    dash-boundary line, the header lines, an empty line, the content, and the
    line break that belongs to the next delimiter.
  */
  function EncodePart(boundary: string, p: Part): seq<byte> {
    Utf8("--" + boundary + Crlf) + Utf8(HeaderLines(p.headers) + Crlf) + p.content + Utf8(Crlf)
  }

  function EncodeParts(boundary: string, parts: seq<Part>): seq<byte> {
    if parts == [] then [] else EncodePart(boundary, parts[0]) + EncodeParts(boundary, parts[1..])
  }

  /** A multipart body: the parts in order, then the close-delimiter `--boundary--`. */
  function MultipartBody(boundary: string, parts: seq<Part>): seq<byte> {
    EncodeParts(boundary, parts) + Utf8("--" + boundary + "--" + Crlf)
  }

  const AppointmentIdDisposition: string := "Content-Disposition: form-data; name=\"appointmentId\""
  const TypeDisposition: string := "Content-Disposition: form-data; name=\"type\""
  const ImageDisposition: string := "Content-Disposition: form-data; name=\"image\"; filename=\"photo.jpg\""
  const ImageContentType: string := "Content-Type: image/jpeg"

  /** The three form-data parts of an upload (section 4.2 of RFC 7578), in the order they are sent. */
  function UploadParts(appointmentId: Uuid, photoType: string, image: seq<byte>): seq<Part> {
    [ Part([AppointmentIdDisposition], Utf8(appointmentId)),
      Part([TypeDisposition], Utf8(photoType)),
      Part([ImageDisposition, ImageContentType], image) ]
  }

  function Boundary(boundaryUuid: Uuid): string {
    "Boundary-" + boundaryUuid
  }

  /** The body of `uploadPhoto`, appended piece by piece as the source does. */
  method BuildUploadBody(boundary: string, appointmentId: Uuid, photoType: string, image: seq<byte>)
    returns (body: seq<byte>)
    ensures body == MultipartBody(boundary, UploadParts(appointmentId, photoType, image))
  {
    var parts := UploadParts(appointmentId, photoType, image);
    ThreeParts(boundary, parts);
    body := AppendTextField([], boundary, AppointmentIdDisposition, appointmentId);
    assert body == EncodePart(boundary, parts[0]);
    body := AppendTextField(body, boundary, TypeDisposition, photoType);
    assert body == EncodePart(boundary, parts[0]) + EncodePart(boundary, parts[1]);
    body := AppendFileField(body, boundary, ImageDisposition, ImageContentType, image);
    assert body == EncodePart(boundary, parts[0]) + EncodePart(boundary, parts[1]) + EncodePart(boundary, parts[2]);
    body := body + Utf8("--" + boundary + "--" + Crlf);
  }

  /** Appends a text field: the delimiter line, the header with the empty line, the value with its line break. */
  method AppendTextField(body: seq<byte>, boundary: string, header: string, text: string)
    returns (out: seq<byte>)
    ensures out == body + EncodePart(boundary, Part([header], Utf8(text)))
  {
    out := body + Utf8("--" + boundary + Crlf);
    out := out + Utf8(header + Crlf + Crlf);
    out := out + Utf8(text + Crlf);
    TextPartLayout(boundary, header, text);
  }

  /** Appends a file field: the delimiter line, two headers with the empty line, the bytes, a line break. */
  method AppendFileField(body: seq<byte>, boundary: string, disposition: string, contentType: string, content: seq<byte>)
    returns (out: seq<byte>)
    ensures out == body + EncodePart(boundary, Part([disposition, contentType], content))
  {
    out := body + Utf8("--" + boundary + Crlf);
    out := out + Utf8(disposition + Crlf);
    out := out + Utf8(contentType + Crlf + Crlf);
    out := out + content;
    out := out + Utf8(Crlf);
    FilePartLayout(boundary, disposition, contentType, content);
  }

  /** A one-header text part, written as the source writes it: delimiter, header with the empty line, value with the line break. */
  lemma TextPartLayout(boundary: string, header: string, text: string)
    ensures EncodePart(boundary, Part([header], Utf8(text)))
      == Utf8("--" + boundary + Crlf) + Utf8(header + Crlf + Crlf) + Utf8(text + Crlf)
  {
    assert HeaderLines([header]) == header + Crlf + HeaderLines([]);
    assert HeaderLines([header]) + Crlf == header + Crlf + Crlf;
    Utf8Append(text, Crlf);
  }

  /** A two-header file part, written as the source writes it. */
  lemma FilePartLayout(boundary: string, h1: string, h2: string, content: seq<byte>)
    ensures EncodePart(boundary, Part([h1, h2], content))
      == Utf8("--" + boundary + Crlf) + Utf8(h1 + Crlf) + Utf8(h2 + Crlf + Crlf) + content + Utf8(Crlf)
  {
    assert [h1, h2][1..] == [h2];
    assert HeaderLines([h2]) == h2 + Crlf + HeaderLines([]);
    assert HeaderLines([h1, h2]) == h1 + Crlf + HeaderLines([h2]);
    assert HeaderLines([h1, h2]) + Crlf == (h1 + Crlf) + (h2 + Crlf + Crlf);
    Utf8Append(h1 + Crlf, h2 + Crlf + Crlf);
  }

  lemma ThreeParts(boundary: string, parts: seq<Part>)
    requires |parts| == 3
    ensures MultipartBody(boundary, parts)
      == EncodePart(boundary, parts[0]) + EncodePart(boundary, parts[1]) + EncodePart(boundary, parts[2])
         + Utf8("--" + boundary + "--" + Crlf)
  {
    var r1 := parts[1..];
    var r2 := r1[1..];
    assert r1[0] == parts[1] && r2[0] == parts[2] && r2[1..] == [];
    assert EncodeParts(boundary, r2) == EncodePart(boundary, parts[2]) + EncodeParts(boundary, r2[1..]);
    assert EncodeParts(boundary, r2) == EncodePart(boundary, parts[2]);
    assert EncodeParts(boundary, r1) == EncodePart(boundary, parts[1]) + EncodeParts(boundary, r2);
    assert EncodeParts(boundary, parts) == EncodePart(boundary, parts[0]) + EncodeParts(boundary, r1);
  }

  /** A multipart body opens with the first delimiter line and ends with the close-delimiter. */
  lemma MultipartFraming(boundary: string, parts: seq<Part>)
    requires parts != []
    ensures var body := MultipartBody(boundary, parts);
      var open := Utf8("--" + boundary + Crlf);
      var close := Utf8("--" + boundary + "--" + Crlf);
      |body| >= |open| + |close|
      && body[..|open|] == open
      && body[|body| - |close|..] == close
  {
  }

  /** The content of the third part of a three-part body is copied verbatim, right after that part's header block. */
  lemma ThirdContentVerbatim(boundary: string, parts: seq<Part>)
    requires |parts| == 3
    ensures
      var body := MultipartBody(boundary, parts);
      var start := |EncodePart(boundary, parts[0])| + |EncodePart(boundary, parts[1])|
        + |Utf8("--" + boundary + Crlf)| + |Utf8(HeaderLines(parts[2].headers) + Crlf)|;
      start + |parts[2].content| <= |body| && body[start..start + |parts[2].content|] == parts[2].content
  {
    ThreeParts(boundary, parts);
    var first := EncodePart(boundary, parts[0]) + EncodePart(boundary, parts[1]);
    var open := Utf8("--" + boundary + Crlf) + Utf8(HeaderLines(parts[2].headers) + Crlf);
    var close := Utf8("--" + boundary + "--" + Crlf);
    assert EncodePart(boundary, parts[2]) == open + parts[2].content + Utf8(Crlf);
    var rest := Utf8(Crlf) + close;
    assert MultipartBody(boundary, parts) == (first + open) + parts[2].content + rest;
    SliceOfMiddle(first + open, parts[2].content, rest);
  }

  lemma SliceOfMiddle(before: seq<byte>, middle: seq<byte>, after: seq<byte>)
    ensures (before + middle + after)[|before|..|before| + |middle|] == middle
  {
  }

  /** The image bytes of an upload are sent verbatim. */
  lemma UploadImageVerbatim(boundary: string, appointmentId: Uuid, photoType: string, image: seq<byte>)
    ensures
      var parts := UploadParts(appointmentId, photoType, image);
      var body := MultipartBody(boundary, parts);
      var start := |EncodePart(boundary, parts[0])| + |EncodePart(boundary, parts[1])|
        + |Utf8("--" + boundary + Crlf)| + |Utf8(HeaderLines(parts[2].headers) + Crlf)|;
      start + |image| <= |body| && body[start..start + |image|] == image
  {
    ThirdContentVerbatim(boundary, UploadParts(appointmentId, photoType, image));
  }

  /** The request `uploadPhoto` sends, before its body; the URL is force-unwrapped in the source. */
  function UploadRequest(
    appointmentId: Uuid, photoType: string, image: seq<byte>, boundaryUuid: Uuid,
    entries: map<string, string>): (r: UrlRequest)
    ensures r.httpMethod == "POST"
    ensures ContentTypeHeader in r.headers
    ensures r.headers[ContentTypeHeader] == "multipart/form-data; boundary=" + Boundary(boundaryUuid)
    ensures r.httpBody == Some(MultipartBody(Boundary(boundaryUuid), UploadParts(appointmentId, photoType, image)))
    ensures AuthorizationHeader in r.headers <==> AuthTokenKey in entries
  {
    var boundary := Boundary(boundaryUuid);
    var headers := map[ContentTypeHeader := "multipart/form-data; boundary=" + boundary];
    var headers := if AuthTokenKey in entries
      then headers[AuthorizationHeader := "Bearer " + entries[AuthTokenKey]] else headers;
    UrlRequest(
      Url(BaseServerUrl + "/appointments/" + appointmentId + "/photos", None), "POST", headers,
      Some(MultipartBody(boundary, UploadParts(appointmentId, photoType, image))))
  }

  /** The steps of `uploadPhoto` up to the network call. `boundaryUuid` is the fresh random UUID. */
  method PrepareUpload(
    appointmentId: Uuid, image: seq<byte>, photoType: string, boundaryUuid: Uuid, defaults: UserDefaults)
    returns (request: UrlRequest)
    ensures request == UploadRequest(appointmentId, photoType, image, boundaryUuid, defaults.entries)
  {
    var url := Url(BaseServerUrl + "/appointments/" + appointmentId + "/photos", None);
    request := UrlRequest(url, "GET", map[], None);
    request := request.(httpMethod := "POST");
    var boundary := "Boundary-" + boundaryUuid;
    request := request.(headers := request.headers[ContentTypeHeader := "multipart/form-data; boundary=" + boundary]);
    var token := defaults.StringForKey(AuthTokenKey);
    if token.Some? {
      request := request.(headers := request.headers[AuthorizationHeader := "Bearer " + token.value]);
    }
    var body := BuildUploadBody(boundary, appointmentId, photoType, image);
    request := request.(httpBody := Some(body));
  }

  /**
    The part of `uploadPhoto` after the network call. A transport error and a
    failure to decode a 2xx body escape unwrapped; anything that is not an
    HTTP 2xx is a `serverError`, "Upload fallito" when no envelope decodes.
  */
  function HandleUploadResponse(x: Exchange<Envelope<Photo>>): (r: Result<Photo, Thrown>)
    ensures r.Success? ==> IsHttpSuccess(x)
    ensures x.TransportError? ==> r == Failure(Raw(x.description))
    ensures (r.Failure? && r.error.Api? && r.error.error.ServerError?) <==> x.Received? && !IsHttpSuccess(x)
    ensures x.Received? && !IsHttpSuccess(x) ==>
      r == Failure(Api(ServerError(ServerMessage(x.body.asErrorEnvelope, "Upload fallito"))))
    ensures r == Failure(Api(InvalidResponse)) <==>
      IsHttpSuccess(x) && x.body.asValue.Success? && x.body.asValue.value.data.None?
    ensures IsHttpSuccess(x) && x.body.asValue.Failure? ==> r == Failure(Raw(x.body.asValue.error))
    ensures IsHttpSuccess(x) && x.body.asValue.Success? && x.body.asValue.value.data.Some? ==>
      r == Success(x.body.asValue.value.data.value)
  {
    match x
    case TransportError(d) => Failure(Raw(d))
    case Received(body, response) =>
      if !(response.Http? && IsSuccessStatus(response.statusCode)) then
        Failure(Api(ServerError(ServerMessage(body.asErrorEnvelope, "Upload fallito"))))
      else if body.asValue.Failure? then Failure(Raw(body.asValue.error))
      else EntityPayload(Success(body.asValue.value))
  }

  /**
    Where the upload path departs from `request`: a non-HTTP response is a
    `serverError` rather than `invalidResponse`, and a transport error is not
    wrapped in `networkError`.
  */
  lemma UploadDepartsFromRequest<T>(t: ResultType<Envelope<Photo>>, body: Body<Envelope<Photo>>, d: string)
    ensures HandleResponse(t, Received(body, NonHttp)) == Failure(Api(InvalidResponse))
    ensures HandleUploadResponse(Received(body, NonHttp)).error.error.ServerError?
    ensures HandleResponse(t, TransportError(d)) == Failure(Api(NetworkError(d)))
    ensures HandleUploadResponse(TransportError(d)) == Failure(Raw(d))
  {
  }
}
