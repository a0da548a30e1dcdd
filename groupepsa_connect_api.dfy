/** The GroupePSA Connect REST client: how a response status is classified (RFC 9110,
    section 15), how a body is decoded once the status allows it, how the user's vehicle
    list and a vehicle's merged status are obtained, and the shape of every request sent
    (GET, a bearer token as in section 2.1 of RFC 6750, the Accept and realm headers, the
    client_id parameter, a ten-second timeout).

    Decoding JSON is a foreign library call; it is a parameter here: a function from a
    body to what Gson returns for it. The network is a parameter too: a function from a
    request URI to the response received for it. */
module GroupePSA {
  import opened Wrappers

  // ---------------------------------------------------------------------------
  // Responses, decoded bodies and failures
  // ---------------------------------------------------------------------------

  /** An HTTP response: its status code and its body as text. */
  datatype Response = Response(status: int, body: string)

  /** What Gson's fromJson gives for a body: a value or null, or a JsonSyntaxException. */
  datatype Decoded<+T> = Decoded(value: Option<T>) | SyntaxError

  /** The error object some error responses carry; its message may be null. */
  datatype ErrorObject = ErrorObject(message: Option<string>)

  /** The user resource: its vehicle list may be null. */
  datatype User<V> = User(vehicles: Option<seq<V>>)

  /** A vehicle status snapshot: its odometer (nullable) and every other field. */
  datatype VehicleStatus<O, S> = VehicleStatus(odometer: Option<O>, fields: S)

  /** The exceptions a call can raise. */
  datatype Failure =
    | CommunicationError(status: int, message: string)  // GroupePSACommunicationException(status, message)
    | MalformedBody                                     // GroupePSACommunicationException wrapping a JsonSyntaxException
    | Unauthorized(status: int, body: string)           // UnauthorizedException(status, body)
    | UncheckedJsonSyntax                               // a JsonSyntaxException that nothing catches

  const NotFound: int := 404
  const Unauthorized401: int := 401
  const Forbidden: int := 403
  const UnknownMessage: string := "Unknown"

  /** The class of a three-digit status code: its first digit (section 15 of RFC 9110). */
  function StatusClass(status: int): int {
    status / 100
  }

  // ---------------------------------------------------------------------------
  // checkForError and parseResponse
  // ---------------------------------------------------------------------------

  /** The message of a decoded error object, or "Unknown" when the object or its message is null. */
  function ErrorMessage(error: Option<ErrorObject>): (message: string)
    ensures error.Some? && error.value.message.Some? ==> message == error.value.message.value
    ensures error.None? || error.value.message.None? ==> message == "Unknown"
  {
    var message := if error.Some? then error.value.message else None;
    if message.None? then UnknownMessage else message.value
  }

  /** Passes a 2xx status; raises for every other status. A 404 carries the message of the
      body's error object; 401 and 403 are authorization failures carrying the body; any other
      status is a communication error carrying the body. */
  function CheckForError(response: Response, decodeError: string -> Decoded<ErrorObject>): (r: Outcome<Failure>)
    ensures r.Pass? <==> StatusClass(response.status) == 2
    ensures r.Fail? && r.error.Unauthorized? <==> response.status == 401 || response.status == 403
    ensures r.Fail? && r.error.Unauthorized? ==> r.error.body == response.body
    ensures r.Fail? && (r.error.Unauthorized? || r.error.CommunicationError?) ==> r.error.status == response.status
    ensures response.status == 404 && decodeError(response.body).Decoded?
            ==> r == Fail(CommunicationError(404, ErrorMessage(decodeError(response.body).value)))
    ensures r == Fail(UncheckedJsonSyntax) <==> response.status == 404 && decodeError(response.body).SyntaxError?
    ensures r.Fail? && !(response.status in {401, 403, 404})
            ==> r.error == CommunicationError(response.status, response.body)
    ensures r != Fail(MalformedBody)
  {
    var statusCode := response.status;
    if statusCode >= 200 && statusCode < 300 then Pass
    else if statusCode == NotFound then
      match decodeError(response.body)
      case SyntaxError => Fail(UncheckedJsonSyntax)
      case Decoded(error) => Fail(CommunicationError(statusCode, ErrorMessage(error)))
    else if statusCode == Forbidden || statusCode == Unauthorized401 then
      Fail(Unauthorized(statusCode, response.body))
    else
      Fail(CommunicationError(statusCode, response.body))
  }

  /** Checks the status first and decodes the body only when it passes; a syntax error in
      the body becomes a communication error. */
  function ParseResponse<T>(response: Response, decodeError: string -> Decoded<ErrorObject>,
                            decode: string -> Decoded<T>): (r: Result<Option<T>, Failure>)
    ensures r.Ok? ==> StatusClass(response.status) == 2 && decode(response.body) == Decoded(r.value)
    ensures StatusClass(response.status) == 2 && decode(response.body).Decoded?
            ==> r == Ok(decode(response.body).value)
    ensures StatusClass(response.status) != 2 ==> r == Err(CheckForError(response, decodeError).error)
    ensures StatusClass(response.status) == 2 && decode(response.body).SyntaxError? ==> r == Err(MalformedBody)
    ensures r.Err? && r.error == MalformedBody ==> decode(response.body).SyntaxError?
  {
    match CheckForError(response, decodeError)
    case Fail(failure) => Err(failure)
    case Pass =>
      match decode(response.body)
      case SyntaxError => Err(MalformedBody)
      case Decoded(value) => Ok(value)
  }

  /** The status is checked before the body is decoded: for an error status the outcome does
      not depend on the decoder of the expected type, and is never a value. */
  lemma StatusCheckedBeforeDecoding<T>(response: Response, decodeError: string -> Decoded<ErrorObject>,
                                       decode: string -> Decoded<T>, otherDecode: string -> Decoded<T>)
    requires StatusClass(response.status) != 2
    ensures ParseResponse(response, decodeError, decode).Err?
    ensures ParseResponse(response, decodeError, decode) == ParseResponse(response, decodeError, otherDecode)
  {
  }

  // ---------------------------------------------------------------------------
  // getVehicles and getVehicleStatus
  // ---------------------------------------------------------------------------

  /** The URI of the user resource. */
  function UserUri(baseUrl: string): string {
    baseUrl + "/user"
  }

  /** The URI of one extension of a vehicle's status. */
  function StatusUri(baseUrl: string, vin: string, extension: string): string {
    baseUrl + "/vehicle/" + vin + "/status?extension=" + extension
  }

  /** The user's vehicle list, or null when the user or the list is null. */
  function GetVehicles<V>(baseUrl: string, send: string -> Response,
                          decodeError: string -> Decoded<ErrorObject>,
                          decodeUser: string -> Decoded<User<V>>): (r: Result<Option<seq<V>>, Failure>)
    ensures var response := send(UserUri(baseUrl));
            r.Ok? && r.value.Some?
            ==> StatusClass(response.status) == 2 && decodeUser(response.body) == Decoded(Some(User(r.value)))
    ensures var response := send(UserUri(baseUrl));
            StatusClass(response.status) == 2 && decodeUser(response.body).Decoded?
            && decodeUser(response.body).value.Some?
            ==> r == Ok(decodeUser(response.body).value.value.vehicles)
    ensures r.Err? <==> ParseResponse(send(UserUri(baseUrl)), decodeError, decodeUser).Err?
    ensures r.Err? ==> r.error == ParseResponse(send(UserUri(baseUrl)), decodeError, decodeUser).error
  {
    match ParseResponse(send(UserUri(baseUrl)), decodeError, decodeUser)
    case Err(failure) => Err(failure)
    case Ok(user) =>
      if user.Some? && user.value.vehicles.Some? then Ok(user.value.vehicles) else Ok(None)
  }

  /** A vehicle's status: the kinetic snapshot with the odometer taken from the odometer
      snapshot, or the odometer snapshot alone when either snapshot is null. */
  method GetVehicleStatus<O, S>(baseUrl: string, vin: string, send: string -> Response,
                                decodeError: string -> Decoded<ErrorObject>,
                                decodeStatus: string -> Decoded<VehicleStatus<O, S>>)
    returns (r: Result<Option<VehicleStatus<O, S>>, Failure>)
    ensures var odometer := ParseResponse(send(StatusUri(baseUrl, vin, "odometer")), decodeError, decodeStatus);
            odometer.Err? ==> r == odometer
    ensures var odometer := ParseResponse(send(StatusUri(baseUrl, vin, "odometer")), decodeError, decodeStatus);
            var kinetic := ParseResponse(send(StatusUri(baseUrl, vin, "kinetic")), decodeError, decodeStatus);
            odometer.Ok? && kinetic.Err? ==> r == kinetic
    ensures var odometer := ParseResponse(send(StatusUri(baseUrl, vin, "odometer")), decodeError, decodeStatus);
            var kinetic := ParseResponse(send(StatusUri(baseUrl, vin, "kinetic")), decodeError, decodeStatus);
            odometer.Ok? && kinetic.Ok? && odometer.value.Some? && kinetic.value.Some?
            ==> r == Ok(Some(VehicleStatus(odometer.value.value.odometer, kinetic.value.value.fields)))
    ensures var odometer := ParseResponse(send(StatusUri(baseUrl, vin, "odometer")), decodeError, decodeStatus);
            var kinetic := ParseResponse(send(StatusUri(baseUrl, vin, "kinetic")), decodeError, decodeStatus);
            odometer.Ok? && kinetic.Ok? && (odometer.value.None? || kinetic.value.None?) ==> r == odometer
    ensures var odometer := ParseResponse(send(StatusUri(baseUrl, vin, "odometer")), decodeError, decodeStatus);
            r.Ok? && r.value.Some? ==> odometer.Ok? && odometer.value.Some?
                                       && r.value.value.odometer == odometer.value.value.odometer
  {
    var responseOdometer := send(StatusUri(baseUrl, vin, "odometer"));
    var statusOdometer := ParseResponse(responseOdometer, decodeError, decodeStatus);
    if statusOdometer.Err? {
      return statusOdometer;
    }

    var response := send(StatusUri(baseUrl, vin, "kinetic"));
    var status := ParseResponse(response, decodeError, decodeStatus);
    if status.Err? {
      return status;
    }
    if status.value.Some? && statusOdometer.value.Some? {
      status := Ok(Some(status.value.value.(odometer := statusOdometer.value.value.odometer)));
    } else {
      status := statusOdometer;
    }
    r := status;
  }

  // ---------------------------------------------------------------------------
  // executeRequest
  // ---------------------------------------------------------------------------

  datatype HttpMethod = Get | Post | Put | Delete

  /** The default Accept value of executeRequest. */
  const HalJson: string := "application/hal+json"

  /** The credentials of a bearer token (section 2.1 of RFC 6750). */
  function BearerCredentials(token: string): string {
    "Bearer " + token
  }

  /** The token of bearer credentials, or None when the value has no "Bearer " scheme prefix. */
  function BearerToken(credentials: string): (token: Option<string>)
    ensures token.Some? ==> credentials == BearerCredentials(token.value)
  {
    if |credentials| >= 7 && credentials[..7] == "Bearer " then Some(credentials[7..]) else None
  }

  /** The token sent as bearer credentials is the token read back from them. */
  lemma BearerRoundTrip(token: string)
    ensures BearerToken(BearerCredentials(token)) == Some(token)
  {
    assert BearerCredentials(token)[..7] == "Bearer ";
  }

  /** The value of the first header with the given name (names compared exactly). */
  function HeaderValue(headers: seq<(string, string)>, name: string): (value: Option<string>)
    ensures value.None? <==> forall k :: 0 <= k < |headers| ==> headers[k].0 != name
    ensures value.Some? ==> exists k :: 0 <= k < |headers| && headers[k] == (name, value.value)
                                        && forall j :: 0 <= j < k ==> headers[j].0 != name
  {
    if headers == [] then None
    else if headers[0].0 == name then Some(headers[0].1)
    else
      var rest := HeaderValue(headers[1..], name);
      assert rest.Some? ==> exists k :: 1 <= k < |headers| && headers[k] == (name, rest.value)
                                        && forall j :: 0 <= j < k ==> headers[j].0 != name by {
        if rest.Some? {
          var k :| 0 <= k < |headers[1..]| && headers[1..][k] == (name, rest.value)
                   && forall j :: 0 <= j < k ==> headers[1..][j].0 != name;
          assert forall j :: 0 <= j < k + 1 ==> headers[j].0 != name by {
            forall j | 0 <= j < k + 1 ensures headers[j].0 != name {
              if j > 0 { assert headers[j] == headers[1..][j - 1]; }
            }
          }
          assert headers[k + 1] == headers[1..][k];
        }
      }
      rest
  }

  /** Headers appended after others are found by name only when none of the earlier ones has
      that name. */
  lemma {:induction false} HeaderValueAppend(first: seq<(string, string)>, added: seq<(string, string)>, name: string)
    ensures HeaderValue(first + added, name)
            == if HeaderValue(first, name).Some? then HeaderValue(first, name) else HeaderValue(added, name)
    decreases |first|
  {
    if first == [] {
      assert first + added == added;
    } else {
      assert (first + added)[0] == first[0];
      assert (first + added)[1..] == first[1..] + added;
      HeaderValueAppend(first[1..], added, name);
    }
  }

  /** A request under construction, updated by successive calls as the HTTP client's is. */
  class Request {
    const uri: string
    var httpMethod: HttpMethod
    var timeoutMillis: nat  // 0: no timeout
    var params: seq<(string, string)>
    var headers: seq<(string, string)>

    /** A new GET request for the URI, without timeout, as the HTTP client creates it: it
        already holds the query parameters of the URI and the client's default headers. */
    constructor (uri: string, queryParams: seq<(string, string)>, defaultHeaders: seq<(string, string)>)
      ensures this.uri == uri && httpMethod == Get && timeoutMillis == 0
      ensures params == queryParams && headers == defaultHeaders
    {
      this.uri := uri;
      httpMethod := Get;
      timeoutMillis := 0;
      params := queryParams;
      headers := defaultHeaders;
    }

    /** Sets the total timeout. */
    method Timeout(seconds: nat)
      modifies this
      ensures timeoutMillis == seconds * 1000
      ensures httpMethod == old(httpMethod) && params == old(params) && headers == old(headers)
    {
      timeoutMillis := seconds * 1000;
    }

    /** Adds a query parameter after those already present. */
    method Param(name: string, value: string)
      modifies this
      ensures params == old(params) + [(name, value)]
      ensures httpMethod == old(httpMethod) && timeoutMillis == old(timeoutMillis) && headers == old(headers)
    {
      params := params + [(name, value)];
    }

    /** Adds a header after those already present. */
    method Header(name: string, value: string)
      modifies this
      ensures headers == old(headers) + [(name, value)]
      ensures httpMethod == old(httpMethod) && timeoutMillis == old(timeoutMillis) && params == old(params)
    {
      headers := headers + [(name, value)];
    }

    /** Sets the HTTP method. */
    method Method(m: HttpMethod)
      modifies this
      ensures httpMethod == m
      ensures timeoutMillis == old(timeoutMillis) && params == old(params) && headers == old(headers)
    {
      httpMethod := m;
    }
  }

  /** The API client: the OAuth client id and realm it sends with every request. */
  class ConnectApi {
    const clientId: string
    const realm: string

    constructor (clientId: string, realm: string)
      ensures this.clientId == clientId && this.realm == realm
    {
      this.clientId := clientId;
      this.realm := realm;
    }

    /** Prepares the request the HTTP client created for a URI, with the token the bridge's
        authentication returned: a ten-second GET carrying the client id after the URI's own
        query parameters, and the bearer, Accept and realm headers after the client's default
        headers. A header the defaults do not already name is found with the value set here. */
    method ExecuteRequest(request: Request, accept: string, token: string)
      modifies request
      ensures request.httpMethod == Get && request.timeoutMillis == 10000
      ensures request.params == old(request.params) + [("client_id", clientId)]
      ensures request.headers == old(request.headers)
                                 + [("Authorization", BearerCredentials(token)), ("Accept", accept),
                                    ("x-introspect-realm", realm)]
      ensures HeaderValue(old(request.headers), "Authorization").None?
              ==> HeaderValue(request.headers, "Authorization") == Some("Bearer " + token)
      ensures HeaderValue(old(request.headers), "Accept").None?
              ==> HeaderValue(request.headers, "Accept") == Some(accept)
      ensures HeaderValue(old(request.headers), "x-introspect-realm").None?
              ==> HeaderValue(request.headers, "x-introspect-realm") == Some(realm)
    {
      ghost var initial := request.headers;
      request.Timeout(10);
      request.Param("client_id", clientId);
      request.Header("Authorization", "Bearer " + token);
      request.Header("Accept", accept);
      request.Header("x-introspect-realm", realm);
      request.Method(Get);
      ghost var added := [("Authorization", BearerCredentials(token)), ("Accept", accept), ("x-introspect-realm", realm)];
      assert request.headers == initial + added;
      assert "Accept"[1] != "Authorization"[1];
      assert "x-introspect-realm"[0] != "Authorization"[0] && "x-introspect-realm"[0] != "Accept"[0];
      assert added[1..][1..] == [("x-introspect-realm", realm)];
      assert HeaderValue(added[1..][1..], "x-introspect-realm") == Some(realm);
      assert HeaderValue(added[1..], "x-introspect-realm") == Some(realm);
      HeaderValueAppend(initial, added, "Authorization");
      HeaderValueAppend(initial, added, "Accept");
      HeaderValueAppend(initial, added, "x-introspect-realm");
    }

    /** The same preparation with the default Accept value. */
    method ExecuteHalRequest(request: Request, token: string)
      modifies request
      ensures request.httpMethod == Get && request.timeoutMillis == 10000
      ensures request.params == old(request.params) + [("client_id", clientId)]
      ensures request.headers == old(request.headers)
                                 + [("Authorization", BearerCredentials(token)), ("Accept", "application/hal+json"),
                                    ("x-introspect-realm", realm)]
    {
      ExecuteRequest(request, HalJson, token);
    }
  }
}
