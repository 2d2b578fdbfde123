/**
 * The connection, `src/connection.rs`, without its network I/O: the
 * transport is a parameter that maps each outgoing request to what came
 * back, and the model decides what the library makes of that.
 */
module Connection {
  import opened Wrappers
  import opened Urls
  import opened ErrorCodes
  import opened Configuration
  import opened LightStates
  import EndpointLight

  /** `DeconzConnection` without its HTTP client handle. Built once and never updated. */
  datatype DeconzConnection = DeconzConnection(url: Url, apiKey: string, apiUrl: Url)

  /** The errors the library returns (boxed strings in the source). */
  datatype ClientError =
    | UrlParse(cause: UrlError)
    | NetworkError
    | Unauthorized
    | UnexpectedApiResponse
    | ApiEndpointFailed(address: string, description: string, kind: DeconzErrorType)

  /** What a call produced: the `Result` it returned, or the panic it stopped with. */
  datatype Outcome<T> = Returned(result: Result<T, ClientError>) | Panicked(reason: Panic)

  /** A received body, and whether it parses as the type asked for. */
  datatype Body<T> = Parsed(value: T) | Unparsable

  /** What the HTTP transport hands back for one request. */
  datatype Exchange<T> = TransportFailed | Received(status: nat, body: Body<T>)

  /** `serde_json::Value`, carried as its text. */
  datatype JsonValue = JsonValue(text: string)

  /** `LightAttributes`, the body of a rename. */
  datatype LightAttributes = LightAttributes(name: string)

  type AttributeReply = seq<RequestResponse<map<string, JsonValue>>>
  type TokenReply = Exchange<seq<WireResponse<ApiToken>>>

  const Forbidden := 403

  // ---------------------------------------------------------------- construction

  /** `DeconzConnection::new`: the API root is `url.join("api/")?.join("<key>/")?`. */
  function New(url: Url, apiKey: Segment): (r: Result<DeconzConnection, ClientError>)
    ensures r.Err? <==> url.cannotBeABase
    ensures r.Err? ==> r.error == UrlParse(RelativeUrlWithCannotBeABaseBase)
    ensures r.Ok? ==> r.value.url == url && r.value.apiKey == apiKey
    ensures r.Ok? ==> r.value.apiUrl.origin == url.origin && !r.value.apiUrl.cannotBeABase
    ensures r.Ok? && apiKey != [] ==> r.value.apiUrl.path == BaseDir(url.path) + "api/" + apiKey + "/"
    ensures r.Ok? && apiKey == [] ==> r.value.apiUrl.path == "/"
  {
    assert PlainReference(apiKey + "/") by {
      assert forall i :: 0 <= i < |apiKey| ==> (apiKey + "/")[i] == apiKey[i];
    }
    match Join(url, "api/")
    case Err(e) => Err(UrlParse(e))
    case Ok(api) =>
      DirOfDirectory(api.path);
      match Join(api, apiKey + "/")
      case Err(e) => Err(UrlParse(e))
      case Ok(root) => Ok(DeconzConnection(url, apiKey, root))
  }

  /** `get_api_key`: the key the connection holds. */
  function GetApiKey(c: DeconzConnection): (k: string)
    ensures k == c.apiKey
  {
    c.apiKey
  }

  /** `new` keeps the key it was given, and `get_api_key` hands it back. */
  lemma NewKeepsKey(url: Url, apiKey: Segment)
    requires !url.cannotBeABase
    ensures New(url, apiKey).Ok? && GetApiKey(New(url, apiKey).value) == apiKey
    ensures New(url, apiKey).value.url == url
  {
  }

  /** For a base path ending in `/` the API root is `base + "api/" + key + "/"`. */
  lemma NewRootUnderBase(url: Url, apiKey: Segment)
    requires !url.cannotBeABase && url.path != [] && url.path[|url.path| - 1] == '/' && apiKey != []
    ensures New(url, apiKey).Ok? && New(url, apiKey).value.apiUrl.path == url.path + "api/" + apiKey + "/"
  {
    DirOfDirectory(url.path);
  }

  // ---------------------------------------------------------------- token provisioning

  /**
   * The first envelope of the token reply: a transport failure and an
   * undecodable body are errors, an empty array panics at `remove(0)`, and
   * otherwise the first element alone decides; the status is not looked at.
   */
  function FirstToken(reply: TokenReply): (o: Outcome<ApiToken>)
    ensures o == Returned(Err(NetworkError)) <==> reply.TransportFailed?
    ensures o == Returned(Err(UnexpectedApiResponse)) <==>
      reply.Received? && (reply.body.Unparsable? || DecodeResponses(reply.body.value).None?)
    ensures o.Panicked? <==> reply.Received? && reply.body == Parsed([])
    ensures o.Panicked? ==> o.reason == IndexOutOfBounds
    ensures o.Returned? && o.result.Ok? <==>
      reply.Received? && reply.body.Parsed? && DecodeResponses(reply.body.value).Some? &&
      reply.body.value != [] && reply.body.value[0].WireSuccess?
    ensures o.Returned? && o.result.Ok? ==> reply.body.value[0] == WireSuccess(o.result.value)
    ensures o.Returned? && o.result.Err? && o.result.error.ApiEndpointFailed? ==>
      reply.body.value[0] == WireError(Code(o.result.error.kind), o.result.error.address, o.result.error.description)
    ensures reply.Received? && reply.body.Parsed? && DecodeResponses(reply.body.value).Some? &&
            reply.body.value != [] && reply.body.value[0].WireError? ==>
      o == Returned(Err(ApiEndpointFailed(reply.body.value[0].address, reply.body.value[0].description,
                                          FromCode(reply.body.value[0].code).value)))
  {
    match reply
    case TransportFailed => Returned(Err(NetworkError))
    case Received(_, Unparsable) => Returned(Err(UnexpectedApiResponse))
    case Received(_, Parsed(ws)) =>
      match DecodeResponses(ws)
      case None => Returned(Err(UnexpectedApiResponse))
      case Some(res) =>
        if |res| == 0 then Panicked(IndexOutOfBounds)
        else
          assert DecodeResponse(ws[0]) == Some(res[0]);
          match res[0]
          case Success(token) => Returned(Ok(token))
          case Error(kind, address, description) => Returned(Err(ApiEndpointFailed(address, description, kind)))
  }

  /** Envelopes after the first are decoded but never consulted. */
  lemma OnlyFirstEnvelopeCounts(status1: nat, status2: nat, w: WireResponse<ApiToken>,
                                rest1: seq<WireResponse<ApiToken>>, rest2: seq<WireResponse<ApiToken>>)
    requires DecodeResponses(rest1).Some? && DecodeResponses(rest2).Some?
    ensures FirstToken(Received(status1, Parsed([w] + rest1))) == FirstToken(Received(status2, Parsed([w] + rest2)))
  {
    var ws1, ws2 := [w] + rest1, [w] + rest2;
    assert ws1[0] == w && ws2[0] == w;
    assert ws1[1..] == rest1 && ws2[1..] == rest2;
  }

  /** The path the token request is posted to: `url.join("api")`. */
  function TokenPath(url: Url): (r: Result<Url, UrlError>)
    ensures r.Ok? <==> !url.cannotBeABase
    ensures r.Ok? ==> r.value.origin == url.origin && r.value.path == BaseDir(url.path) + "api"
  {
    Join(url, "api")
  }

  /** The API root `new_without_key` builds, as written: `url.join("api/").join(key)`, without a trailing `/`. */
  function ProvisionedApiUrl(url: Url, key: Segment): (u: Url)
    requires !url.cannotBeABase
    ensures u.origin == url.origin && !u.cannotBeABase
    ensures key != [] ==> u.path == BaseDir(url.path) + "api/" + key
  {
    var api := Join(url, "api/").value;
    DirOfDirectory(api.path);
    Join(api, key).value
  }

  /** `new_without_key`, as written. */
  function Provisioned(url: Url, request: TokenRequest, post: (Url, TokenRequest) -> TokenReply)
    : (o: Outcome<DeconzConnection>)
    ensures url.cannotBeABase ==> o == Panicked(ExpectFailed("failed to build url"))
    ensures !url.cannotBeABase ==> (o.Returned? && o.result.Ok? <==> FirstToken(post(TokenPath(url).value, request)).Returned? && FirstToken(post(TokenPath(url).value, request)).result.Ok?)
    ensures o.Returned? && o.result.Ok? ==>
      var token := FirstToken(post(TokenPath(url).value, request)).result.value;
      o.result.value == DeconzConnection(url, token.username, ProvisionedApiUrl(url, token.username))
    ensures !url.cannotBeABase && o.Returned? && o.result.Err? ==>
      FirstToken(post(TokenPath(url).value, request)) == Returned(Err(o.result.error))
    ensures !url.cannotBeABase && o.Panicked? ==> FirstToken(post(TokenPath(url).value, request)) == Panicked(o.reason)
  {
    match TokenPath(url)
    case Err(_) => Panicked(ExpectFailed("failed to build url"))
    case Ok(apiPath) =>
      match FirstToken(post(apiPath, request))
      case Panicked(p) => Panicked(p)
      case Returned(Err(e)) => Returned(Err(e))
      case Returned(Ok(token)) =>
        Returned(Ok(DeconzConnection(url, token.username, ProvisionedApiUrl(url, token.username))))
  }

  /** The evidently intended `new_without_key`: the root is built exactly as `new` builds it. */
  function ProvisionedCorrected(url: Url, request: TokenRequest, post: (Url, TokenRequest) -> TokenReply)
    : (o: Outcome<DeconzConnection>)
    ensures url.cannotBeABase ==> o == Panicked(ExpectFailed("failed to build url"))
    ensures !url.cannotBeABase && FirstToken(post(TokenPath(url).value, request)).Returned? &&
            FirstToken(post(TokenPath(url).value, request)).result.Ok? ==>
      o == Returned(New(url, FirstToken(post(TokenPath(url).value, request)).result.value.username))
  {
    match TokenPath(url)
    case Err(_) => Panicked(ExpectFailed("failed to build url"))
    case Ok(apiPath) =>
      match FirstToken(post(apiPath, request))
      case Panicked(p) => Panicked(p)
      case Returned(Err(e)) => Returned(Err(e))
      case Returned(Ok(token)) => Returned(New(url, token.username))
  }

  /**
   * `new_without_key` step by step: post the request to `<base>/api`, decode
   * the envelope array, `remove(0)` its first element and match on it, then
   * build the root.
   */
  method NewWithoutKey(url: Url, request: TokenRequest, post: (Url, TokenRequest) -> TokenReply)
    returns (o: Outcome<DeconzConnection>)
    ensures o == Provisioned(url, request, post)
  {
    var apiPath := Join(url, "api");
    if apiPath.Err? {
      return Panicked(ExpectFailed("failed to build url"));
    }
    var response := post(apiPath.value, request);
    if response.TransportFailed? {
      return Returned(Err(NetworkError));
    }
    var decoded := if response.body.Parsed? then DecodeResponses(response.body.value) else None;
    if decoded.None? {
      return Returned(Err(UnexpectedApiResponse));
    }
    var res := decoded.value;
    if |res| == 0 {
      return Panicked(IndexOutOfBounds);
    }
    var first := res[0];
    res := res[1..];
    match first {
      case Error(kind, address, description) =>
        return Returned(Err(ApiEndpointFailed(address, description, kind)));
      case Success(token) =>
        var apiKey := token.username;
        var api := Join(url, "api/").value;
        DirOfDirectory(api.path);
        var apiUrl := Join(api, apiKey).value;
        o := Returned(Ok(DeconzConnection(url, apiKey, apiUrl)));
    }
  }

  // ---------------------------------------------------------------- requests

  /**
   * `get_request`: a transport failure is an error, status 403 is
   * "unauthorized user" before any decoding, and a body that does not parse
   * ends in a panic.
   */
  function GetRequest<T>(url: Url, get: Url -> Exchange<T>): (o: Outcome<T>)
    ensures o == Returned(Err(NetworkError)) <==> get(url).TransportFailed?
    ensures o == Returned(Err(Unauthorized)) <==> get(url).Received? && get(url).status == Forbidden
    ensures o.Panicked? <==> get(url).Received? && get(url).status != Forbidden && get(url).body.Unparsable?
    ensures o.Panicked? ==> o.reason == DeserializeFailed
    ensures o.Returned? && o.result.Ok? <==>
      get(url).Received? && get(url).status != Forbidden && get(url).body.Parsed?
    ensures o.Returned? && o.result.Ok? ==> o.result.value == get(url).body.value
  {
    match get(url)
    case TransportFailed => Returned(Err(NetworkError))
    case Received(status, body) =>
      if status == Forbidden then Returned(Err(Unauthorized))
      else match body
        case Parsed(v) => Returned(Ok(v))
        case Unparsable => Panicked(DeserializeFailed)
  }

  /** `put_request`: like `get_request` but without the 403 check; any status with a parsable body succeeds. */
  function PutRequest<B, T>(url: Url, data: B, put: (Url, B) -> Exchange<T>): (o: Outcome<T>)
    ensures o == Returned(Err(NetworkError)) <==> put(url, data).TransportFailed?
    ensures o.Panicked? <==> put(url, data).Received? && put(url, data).body.Unparsable?
    ensures o.Panicked? ==> o.reason == DeserializeFailed
    ensures o.Returned? && o.result.Ok? <==> put(url, data).Received? && put(url, data).body.Parsed?
    ensures o.Returned? && o.result.Ok? ==> o.result.value == put(url, data).body.value
  {
    match put(url, data)
    case TransportFailed => Returned(Err(NetworkError))
    case Received(_, Parsed(v)) => Returned(Ok(v))
    case Received(_, Unparsable) => Panicked(DeserializeFailed)
  }

  /** A 403 with a well-formed body: a read reports "unauthorized user", a write returns the body. */
  lemma ForbiddenOnlyStopsReads<T>(url: Url, v: T)
    ensures GetRequest(url, (_: Url) => Received(Forbidden, Parsed(v))) == Returned(Err(Unauthorized))
    ensures PutRequest(url, v, (_: Url, _: T) => Received(Forbidden, Parsed(v))) == Returned(Ok(v))
  {
  }

  /** A 403 is an error, distinct from the panic a garbled 200 body causes. */
  lemma ForbiddenIsNotGarbled<T>(url: Url)
    ensures var denied: Url -> Exchange<T> := _ => Received(Forbidden, Unparsable);
      GetRequest(url, denied) == Returned(Err(Unauthorized))
    ensures var garbled: Url -> Exchange<T> := _ => Received(200, Unparsable);
      GetRequest(url, garbled) == Panicked(DeserializeFailed)
  {
  }

  // ---------------------------------------------------------------- resource paths

  /** `api_url.join("lights")`. */
  function AllLightsUrl(c: DeconzConnection): (r: Result<Url, UrlError>)
    ensures r.Ok? <==> !c.apiUrl.cannotBeABase
    ensures r.Ok? ==> r.value.origin == c.apiUrl.origin && r.value.path == BaseDir(c.apiUrl.path) + "lights"
  {
    Join(c.apiUrl, "lights")
  }

  /** `api_url.join("lights/")`, the first step of the per-light paths. */
  function LightsDirUrl(c: DeconzConnection): (r: Result<Url, UrlError>)
    ensures r.Ok? <==> !c.apiUrl.cannotBeABase
    ensures r.Ok? ==> r.value.origin == c.apiUrl.origin && !r.value.cannotBeABase
    ensures r.Ok? ==> r.value.path == BaseDir(c.apiUrl.path) + "lights/"
  {
    Join(c.apiUrl, "lights/")
  }

  /** `api_url.join("lights/").join(id)`, used by `get_light_state`. */
  function LightUrl(c: DeconzConnection, id: Segment): (r: Result<Url, UrlError>)
    ensures r.Ok? <==> !c.apiUrl.cannotBeABase
    ensures r.Ok? ==> r.value.origin == c.apiUrl.origin && r.value.path == BaseDir(c.apiUrl.path) + "lights/" + id
  {
    match LightsDirUrl(c)
    case Err(e) => Err(e)
    case Ok(lights) =>
      JoinIntoDirectory(lights, id);
      Join(lights, id)
  }

  /** `api_url.join("lights/").join("<id>/").join("state")`, used by `set_light_state`. */
  function LightStateUrl(c: DeconzConnection, id: Segment): (r: Result<Url, UrlError>)
    ensures r.Ok? <==> !c.apiUrl.cannotBeABase
    ensures r.Ok? ==> r.value.origin == c.apiUrl.origin
    ensures r.Ok? && id != [] ==> r.value.path == BaseDir(c.apiUrl.path) + "lights/" + id + "/state"
    ensures r.Ok? && id == [] ==> r.value.path == "/state"
  {
    match LightsDirUrl(c)
    case Err(e) => Err(e)
    case Ok(lights) =>
      var light := LightDir(lights, id);
      if id == [] then
        DirOfDirectory(light.path);
        Join(light, "state")
      else
        JoinIntoDirectory(light, "state");
        AppendLiterals(BaseDir(c.apiUrl.path) + "lights/" + id, "/", "state");
        Join(light, "state")
  }

  /** `lights.join("<id>/")`: with an empty id the reference is `/`, which replaces the whole path. */
  function LightDir(lights: Url, id: Segment): (u: Url)
    requires !lights.cannotBeABase && lights.path != [] && lights.path[|lights.path| - 1] == '/'
    ensures u.origin == lights.origin && !u.cannotBeABase
    ensures id != [] ==> u.path == lights.path + id + "/"
    ensures id == [] ==> u.path == "/"
  {
    assert PlainReference(id + "/") by {
      assert forall i :: 0 <= i < |id| ==> (id + "/")[i] == id[i];
    }
    if id == [] then
      Join(lights, id + "/").value
    else
      JoinIntoDirectory(lights, id + "/");
      Join(lights, id + "/").value
  }

  /** `api_url.join("lights/").join(&format!("{id}"))`, used by `set_light_attributes`. */
  function LightAttributesUrl(c: DeconzConnection, id: Segment): (r: Result<Url, UrlError>)
    ensures r == LightUrl(c, id)
  {
    match Join(c.apiUrl, "lights/")
    case Err(e) => Err(e)
    case Ok(lights) => Join(lights, id)
  }

  /** The four paths of a connection built by `new` on a base path ending in `/`. */
  lemma ResourcePathsUnderNew(url: Url, apiKey: Segment, id: Segment)
    requires !url.cannotBeABase && url.path != [] && url.path[|url.path| - 1] == '/'
    requires apiKey != [] && id != []
    ensures var c := New(url, apiKey).value;
      var root := url.path + "api/" + apiKey + "/";
      AllLightsUrl(c).Ok? && AllLightsUrl(c).value.path == root + "lights" &&
      LightUrl(c, id).Ok? && LightUrl(c, id).value.path == root + "lights/" + id &&
      LightStateUrl(c, id).Ok? && LightStateUrl(c, id).value.path == root + "lights/" + id + "/state" &&
      LightAttributesUrl(c, id).Ok? && LightAttributesUrl(c, id).value.path == root + "lights/" + id
  {
    NewRootUnderBase(url, apiKey);
    DirOfDirectory(url.path + "api/" + apiKey + "/");
  }

  /**
   * As written, a connection from `new_without_key` has its key as the last
   * path segment without a `/`, so `join("lights")` replaces the key.
   */
  lemma ProvisionedRootDropsKey(url: Url, request: TokenRequest, post: (Url, TokenRequest) -> TokenReply)
    requires var o := Provisioned(url, request, post); o.Returned? && o.result.Ok? && o.result.value.apiKey != []
    ensures var c := Provisioned(url, request, post).result.value;
      AllLightsUrl(c).Ok? && AllLightsUrl(c).value.path == BaseDir(url.path) + "api/lights"
  {
    var c := Provisioned(url, request, post).result.value;
    assert c == DeconzConnection(url, c.apiKey, ProvisionedApiUrl(url, c.apiKey));
    ProvisionedLightsPath(url, c.apiKey);
  }

  /** Under the as-written root, `join("lights")` lands beside the key, in `<base dir>api/lights`. */
  lemma ProvisionedLightsPath(url: Url, key: Segment)
    requires !url.cannotBeABase && key != []
    ensures AllLightsUrl(DeconzConnection(url, key, ProvisionedApiUrl(url, key))).value.path
         == BaseDir(url.path) + "api/lights"
  {
    var b := BaseDir(url.path);
    var d := b + "api/";
    var root := ProvisionedApiUrl(url, key);
    assert root.path == d + key;
    DirAfterSegment(d, key);
    AppendLiterals(b, "api/", "lights");
  }

  /** On a bare host such as `http://192.168.0.166:80/`, `new_without_key` fetches `/api/lights`, whatever the key. */
  lemma ProvisionedRootExample(url: Url, key: Segment)
    requires !url.cannotBeABase && url.path == "/" && key != []
    ensures AllLightsUrl(DeconzConnection(url, key, ProvisionedApiUrl(url, key))).value.path == "/api/lights"
  {
    DirOfDirectory(url.path);
    ProvisionedLightsPath(url, key);
  }

  /** With the corrected root, the resource paths keep the key, exactly as under `new`. */
  lemma CorrectedRootKeepsKey(url: Url, request: TokenRequest, post: (Url, TokenRequest) -> TokenReply)
    requires url.path != [] && url.path[|url.path| - 1] == '/'
    requires var o := ProvisionedCorrected(url, request, post); o.Returned? && o.result.Ok? && o.result.value.apiKey != []
    ensures var c := ProvisionedCorrected(url, request, post).result.value;
      AllLightsUrl(c).Ok? && AllLightsUrl(c).value.path == url.path + "api/" + c.apiKey + "/lights"
  {
    var c := ProvisionedCorrected(url, request, post).result.value;
    assert c == New(url, c.apiKey).value;
    NewLightsPath(url, c.apiKey);
  }

  /** Under `new` on a base path ending in `/`, the lights collection is `base + "api/" + key + "/lights"`. */
  lemma NewLightsPath(url: Url, apiKey: Segment)
    requires !url.cannotBeABase && url.path != [] && url.path[|url.path| - 1] == '/' && apiKey != []
    ensures AllLightsUrl(New(url, apiKey).value).value.path == url.path + "api/" + apiKey + "/lights"
  {
    NewRootUnderBase(url, apiKey);
    var d := url.path + "api/" + apiKey;
    DirOfDirectory(d + "/");
    AppendLiterals(d, "/", "lights");
  }

  /** `(a + b) + c == a + (b + c)`, with `b + c` the literal it spells. */
  lemma AppendLiterals(a: string, b: string, c: string)
    ensures a + b + c == a + (b + c)
  {
  }

  // ---------------------------------------------------------------- resource operations

  /** `get_all_lights`: a GET of `<root>lights`; the `unwrap` on the join never fires for a built connection. */
  function GetAllLights(c: DeconzConnection, get: Url -> Exchange<map<string, EndpointLight.Light>>)
    : (o: Outcome<map<string, EndpointLight.Light>>)
    ensures c.apiUrl.cannotBeABase ==> o == Panicked(UnwrapOnErr)
    ensures !c.apiUrl.cannotBeABase ==>
      o == GetRequest(Url(c.apiUrl.origin, BaseDir(c.apiUrl.path) + "lights", None, None, false), get)
  {
    match AllLightsUrl(c)
    case Err(_) => Panicked(UnwrapOnErr)
    case Ok(u) => GetRequest(u, get)
  }

  /** `get_light_state`: a GET of `<root>lights/<id>`. */
  function GetLightState(c: DeconzConnection, id: Segment, get: Url -> Exchange<LightState>)
    : (o: Outcome<LightState>)
    ensures c.apiUrl.cannotBeABase ==> o == Panicked(ExpectFailed("failed to build url"))
    ensures !c.apiUrl.cannotBeABase ==>
      o == GetRequest(Url(c.apiUrl.origin, BaseDir(c.apiUrl.path) + "lights/" + id, None, None, false), get)
  {
    match LightUrl(c, id)
    case Err(_) => Panicked(ExpectFailed("failed to build url"))
    case Ok(u) => GetRequest(u, get)
  }

  /** `set_light_state`: a PUT of the state to `<root>lights/<id>/state`. */
  function SetLightState(c: DeconzConnection, id: Segment, newState: LightState,
                         put: (Url, LightState) -> Exchange<AttributeReply>)
    : (o: Outcome<AttributeReply>)
    ensures c.apiUrl.cannotBeABase ==> o == Panicked(ExpectFailed("failed to build url"))
    ensures !c.apiUrl.cannotBeABase && id != [] ==>
      o == PutRequest(Url(c.apiUrl.origin, BaseDir(c.apiUrl.path) + "lights/" + id + "/state", None, None, false),
                      newState, put)
    ensures !c.apiUrl.cannotBeABase && id == [] ==>
      o == PutRequest(Url(c.apiUrl.origin, "/state", None, None, false), newState, put)
  {
    match LightStateUrl(c, id)
    case Err(_) => Panicked(ExpectFailed("failed to build url"))
    case Ok(u) => PutRequest(u, newState, put)
  }

  /** `set_light_attributes`: a PUT of the attributes to `<root>lights/<id>`. */
  function SetLightAttributes(c: DeconzConnection, id: Segment, attrs: LightAttributes,
                              put: (Url, LightAttributes) -> Exchange<AttributeReply>)
    : (o: Outcome<AttributeReply>)
    ensures c.apiUrl.cannotBeABase ==> o == Panicked(ExpectFailed("failed to build url"))
    ensures !c.apiUrl.cannotBeABase ==>
      o == PutRequest(Url(c.apiUrl.origin, BaseDir(c.apiUrl.path) + "lights/" + id, None, None, false), attrs, put)
  {
    match LightAttributesUrl(c, id)
    case Err(_) => Panicked(ExpectFailed("failed to build url"))
    case Ok(u) => PutRequest(u, attrs, put)
  }
}
