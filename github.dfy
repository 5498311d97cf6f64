/** The GitHub App installation-token generator of
    pkg/generator/github/github.go.

    `Generate` parses the generator spec, fetches the App's private key from a
    Kubernetes secret, signs a short-lived JWT with it, and exchanges the JWT
    for an installation access token. Spec decoding, the secret fetch, RSA key
    parsing, JWT signing, JSON encoding, request construction and the HTTP
    round trip are collaborators outside this file; they are the
    function-valued fields of `Env`, together with the two clock readings. */
module GithubGenerator {
  import opened Wrappers
  import opened GoText

  const DefaultLoginUsername: GoString := Lit("token")
  const DefaultGithubAPI: GoString := Lit("https://api.github.com")

  const KeyPermissions: GoString := Lit("permissions")
  const KeyRepositories: GoString := Lit("repositories")
  const FieldMessage: GoString := Lit("message")
  const FieldToken: GoString := Lit("token")

  const MethodPost: GoString := Lit("POST")
  const HeaderAuthorization: GoString := Lit("Authorization")
  const HeaderAccept: GoString := Lit("Accept")
  const BearerPrefix: GoString := Lit("Bearer ")
  const AcceptGithubV3: GoString := Lit("application/vnd.github.v3+json")

  /** Nanoseconds per second; JWT dates are whole seconds. */
  const SecondNanos: int := 1_000_000_000
  /** The JWT is back-dated by this many seconds against clock skew. */
  const IssuedAtSkew: int := 10
  /** The JWT expires this many seconds after the clock reading. */
  const ExpiryAfter: int := 300

  /** The decoded GithubAccessToken spec; `url` is "" when not overridden and
      `permissions` is None when the field is absent. */
  datatype GithubAccessTokenSpec = GithubAccessTokenSpec(
    appID: GoString,
    installID: GoString,
    url: GoString,
    secretName: GoString,
    secretKey: GoString,
    repositories: seq<GoString>,
    permissions: Option<map<GoString, GoString>>)

  /** A parsed RSA private key; its content is the parser's business. */
  datatype PrivateKey = PrivateKey(material: Bytes)

  /** The registered JWT claims, dates in seconds since the Unix epoch. */
  datatype Claims = Claims(issuer: GoString, issuedAt: int, expiresAt: int)

  /** The two kinds of value the request payload can hold. */
  datatype PayloadValue = PermissionSet(grants: map<GoString, GoString>) | RepositoryList(names: seq<GoString>)

  datatype Request = Request(verb: GoString, url: GoString, headers: seq<(GoString, GoString)>, body: Option<Bytes>)

  /** A JSON value in the response: a string, or anything else together with
      the text `%v` prints for it. */
  datatype JsonValue = JString(text: GoString) | JOther(shown: GoString)

  /** The response body decoded into a `map[string]any`. When decoding fails
      the map is left nil, which reads as empty. */
  datatype ResponseBody = Decoded(fields: map<GoString, JsonValue>) | Undecodable(reason: GoString)

  datatype Response = Response(status: int, body: ResponseBody)

  /** The collaborators of one Generate call.
      clockAtIssue and clockAtExpiry are the two time.Now() readings taken
      for the JWT, in nanoseconds since the Unix epoch. */
  datatype Env = Env(
    parseSpec: Bytes -> Result<GithubAccessTokenSpec, GoString>,
    getSecret: (GoString, GoString) -> Result<map<GoString, Bytes>, GoString>,
    parseKey: Bytes -> Result<PrivateKey, GoString>,
    sign: (Claims, PrivateKey) -> Result<GoString, GoString>,
    marshal: map<GoString, PayloadValue> -> Result<Bytes, GoString>,
    newRequest: (GoString, GoString, Option<Bytes>) -> Outcome<GoString>,
    send: Request -> Result<Response, GoString>,
    clockAtIssue: int,
    clockAtExpiry: int)

  /** What newGHClient reports. */
  datatype ClientError =
    | SpecParseFailed(reason: GoString)
    | SecretFetchFailed(reason: GoString)
    | KeyParseFailed(reason: GoString)
    | SigningFailed(reason: GoString)

  /** What generate reports. */
  datatype GenError =
    | NoSpec
    | ClientFailed(cause: ClientError)
    | MarshalFailed(reason: GoString)
    | RequestFailed(reason: GoString)
    | TransportFailed(reason: GoString)
    | DecodeFailed(reason: GoString)
    | Rejected(status: int, message: JsonValue)
    | RejectedWithoutMessage(status: int)
    | TokenNotString

  /** The generated secret fields and the provider state (None: nil). */
  datatype Generated = Generated(fields: map<GoString, Bytes>, state: Option<Bytes>)

  const FailedToExtract: GoString := Lit("failed to extract error message")

  function Show(v: JsonValue): GoString
  {
    match v
    case JString(t) => t
    case JOther(shown) => shown
  }

  function ClientMessage(c: ClientError): GoString
  {
    match c
    case SpecParseFailed(r) => Lit("unable to parse spec: ") + r
    case SecretFetchFailed(r) => Lit("error getting GH pem from secret:") + r
    case KeyParseFailed(r) => Lit("error parsing RSA private key: ") + r
    case SigningFailed(r) => Lit("can't get InstallationToken: error signing token: ") + r
  }

  /** The text of an error, as fmt.Errorf and errors.New build it. */
  function Message(e: GenError): GoString
  {
    match e
    case NoSpec => Lit("no config spec provided")
    case ClientFailed(c) => Lit("error creating request: ") + ClientMessage(c)
    case MarshalFailed(r) => Lit("error marshaling payload: ") + r
    case RequestFailed(r) => Lit("error creating request: ") + r
    case TransportFailed(r) => Lit("error performing request: ") + r
    case DecodeFailed(r) => Lit("error decoding response: ") + r
    case Rejected(s, m) => Lit("error generating token: response code: ") + Decimal(s) + Lit(", response: ") + Show(m)
    case RejectedWithoutMessage(s) =>
      Lit("error generating token, ") + FailedToExtract + Lit(" from github request: response code: ") + Decimal(s)
    case TokenNotString => Lit("token isn't a string or token key doesn't exist")
  }

  // ---------------------------------------------------------------------------
  // GetInstallationToken

  /** jwt.NewNumericDate: the time truncated to whole seconds (rounded down). */
  function NumericDate(t: int): int
  {
    t / SecondNanos
  }

  /** The claims of the App JWT: issued by the App, back-dated by the skew
      against the first clock reading, expiring after the second. */
  function InstallationClaims(aid: GoString, env: Env): Claims
  {
    Claims(aid, NumericDate(env.clockAtIssue - IssuedAtSkew * SecondNanos),
           NumericDate(env.clockAtExpiry + ExpiryAfter * SecondNanos))
  }

  lemma NumericDateShift(t: int, s: int)
    ensures NumericDate(t + s * SecondNanos) == NumericDate(t) + s
    ensures NumericDate(t) * SecondNanos <= t
  {
  }

  lemma NumericDateMonotone(t1: int, t2: int)
    requires t1 <= t2
    ensures NumericDate(t1) <= NumericDate(t2)
  {
  }

  /** The claim values: issuer is the App id, issued-at is ten seconds before
      the first clock reading and strictly before it, expiry is 300 seconds
      after the second. The JWT is therefore valid for 310 seconds when both
      readings agree, and for at least that long when the clock moves forward. */
  lemma InstallationClaimsValues(aid: GoString, env: Env)
    ensures InstallationClaims(aid, env).issuer == aid
    ensures InstallationClaims(aid, env).issuedAt == NumericDate(env.clockAtIssue) - IssuedAtSkew
    ensures InstallationClaims(aid, env).expiresAt == NumericDate(env.clockAtExpiry) + ExpiryAfter
    ensures InstallationClaims(aid, env).issuedAt * SecondNanos < env.clockAtIssue
    ensures env.clockAtIssue == env.clockAtExpiry ==>
      InstallationClaims(aid, env).expiresAt - InstallationClaims(aid, env).issuedAt == 310
    ensures env.clockAtIssue <= env.clockAtExpiry ==>
      InstallationClaims(aid, env).expiresAt - InstallationClaims(aid, env).issuedAt >= 310
  {
    NumericDateShift(env.clockAtIssue, -IssuedAtSkew);
    NumericDateShift(env.clockAtExpiry, ExpiryAfter);
    if env.clockAtIssue <= env.clockAtExpiry {
      NumericDateMonotone(env.clockAtIssue, env.clockAtExpiry);
    }
  }

  /** GetInstallationToken: the signed JWT, or the signer's failure. */
  function InstallationToken(env: Env, key: PrivateKey, aid: GoString): Result<GoString, GoString>
  {
    env.sign(InstallationClaims(aid, env), key)
  }

  // ---------------------------------------------------------------------------
  // newGHClient

  function InstallationPath(installID: GoString): GoString
  {
    Lit("/app/installations/") + installID + Lit("/access_tokens")
  }

  /** The token endpoint: the default API base, or the spec's URL when it is
      not empty, followed by the installation path. */
  function EndpointURL(spec: GithubAccessTokenSpec): GoString
  {
    (if spec.url != [] then spec.url else DefaultGithubAPI) + InstallationPath(spec.installID)
  }

  /** Overriding the URL replaces only the base: the path after it is the
      same installation path, which names the installation id. */
  lemma EndpointURLKeepsPath(spec: GithubAccessTokenSpec, base: GoString)
    requires base != []
    ensures EndpointURL(spec.(url := base)) == base + InstallationPath(spec.installID)
    ensures EndpointURL(spec.(url := [])) == DefaultGithubAPI + InstallationPath(spec.installID)
    ensures EndpointURL(spec.(url := base))[|base|..] == EndpointURL(spec.(url := []))[|DefaultGithubAPI|..]
    ensures Contains(EndpointURL(spec), spec.installID)
  {
    var path := InstallationPath(spec.installID);
    assert (base + path)[|base|..] == path;
    assert (DefaultGithubAPI + path)[|DefaultGithubAPI|..] == path;
    ContainsInfix(Lit("/app/installations/"), spec.installID, Lit("/access_tokens"));
    ContainsAfter(if spec.url != [] then spec.url else DefaultGithubAPI, path, spec.installID);
  }

  /** The fields of the Github client that generate reads. */
  datatype ClientConfig = ClientConfig(
    namespace: GoString,
    url: GoString,
    installTkn: GoString,
    repositories: seq<GoString>,
    permissions: Option<map<GoString, GoString>>)

  /** The outcome of newGHClient(raw spec, namespace). */
  function NewClient(env: Env, raw: Bytes, namespace: GoString): Result<ClientConfig, ClientError>
  {
    match env.parseSpec(raw)
    case Failure(r) => Failure(SpecParseFailed(r))
    case Success(spec) =>
      match env.getSecret(spec.secretName, namespace)
      case Failure(r) => Failure(SecretFetchFailed(r))
      case Success(secretData) =>
        match env.parseKey(Index(secretData, spec.secretKey))
        case Failure(r) => Failure(KeyParseFailed(r))
        case Success(key) =>
          match InstallationToken(env, key, spec.appID)
          case Failure(r) => Failure(SigningFailed(r))
          case Success(tkn) =>
            Success(ClientConfig(namespace, EndpointURL(spec), tkn, spec.repositories, spec.permissions))
  }

  /** A failed fetch is its own error; a key missing from the fetched secret
      is not: the parser is handed the empty value and its rejection is
      reported as an RSA key parse error. */
  lemma MissingKeyIsParseError(env: Env, raw: Bytes, namespace: GoString)
    requires env.parseSpec(raw).Success?
    ensures var spec := env.parseSpec(raw).value;
      env.getSecret(spec.secretName, namespace).Failure? ==>
        NewClient(env, raw, namespace) == Failure(SecretFetchFailed(env.getSecret(spec.secretName, namespace).error))
    ensures var spec := env.parseSpec(raw).value;
      env.getSecret(spec.secretName, namespace).Success? &&
      spec.secretKey !in env.getSecret(spec.secretName, namespace).value &&
      env.parseKey([]).Failure? ==>
        NewClient(env, raw, namespace) == Failure(KeyParseFailed(env.parseKey([]).error))
  {
  }

  /** The `*Github` that newGHClient builds and fills in step by step. */
  class Github {
    var namespace: GoString
    var url: GoString
    var installTkn: GoString
    var repositories: seq<GoString>
    var permissions: Option<map<GoString, GoString>>

    constructor (namespace: GoString, repositories: seq<GoString>, permissions: Option<map<GoString, GoString>>)
      ensures Config() == ClientConfig(namespace, [], [], repositories, permissions)
    {
      this.namespace := namespace;
      this.repositories := repositories;
      this.permissions := permissions;
      url := [];
      installTkn := [];
    }

    function Config(): ClientConfig
      reads this
    {
      ClientConfig(namespace, url, installTkn, repositories, permissions)
    }
  }

  method NewGHClient(env: Env, raw: Bytes, namespace: GoString) returns (r: Result<Github, ClientError>)
    ensures r.Failure? <==> NewClient(env, raw, namespace).Failure?
    ensures r.Failure? ==> r.error == NewClient(env, raw, namespace).error
    ensures r.Success? ==> fresh(r.value) && r.value.Config() == NewClient(env, raw, namespace).value
  {
    var parsed := env.parseSpec(raw);
    if parsed.Failure? {
      return Failure(SpecParseFailed(parsed.error));
    }
    var spec := parsed.value;
    var gh := new Github(namespace, spec.repositories, spec.permissions);
    var path := InstallationPath(spec.installID);
    gh.url := DefaultGithubAPI + path;
    if spec.url != [] {
      gh.url := spec.url + path;
    }
    var secret := env.getSecret(spec.secretName, namespace);
    if secret.Failure? {
      return Failure(SecretFetchFailed(secret.error));
    }
    var key := env.parseKey(Index(secret.value, spec.secretKey));
    if key.Failure? {
      return Failure(KeyParseFailed(key.error));
    }
    var tkn := InstallationToken(env, key.value, spec.appID);
    if tkn.Failure? {
      return Failure(SigningFailed(tkn.error));
    }
    gh.installTkn := tkn.value;
    return Success(gh);
  }

  // ---------------------------------------------------------------------------
  // generate

  /** The request payload: "permissions" when the spec has a permissions map
      (even an empty one), "repositories" when it lists any repository. */
  function Payload(permissions: Option<map<GoString, GoString>>, repositories: seq<GoString>): map<GoString, PayloadValue>
  {
    (if permissions.Some? then map[KeyPermissions := PermissionSet(permissions.value)] else map[])
    + (if |repositories| > 0 then map[KeyRepositories := RepositoryList(repositories)] else map[])
  }

  /** The request body: none for an empty payload, its JSON otherwise. */
  function RequestBody(env: Env, payload: map<GoString, PayloadValue>): Result<Option<Bytes>, GenError>
  {
    if |payload| > 0 then
      match env.marshal(payload)
      case Failure(r) => Failure(MarshalFailed(r))
      case Success(b) => Success(Some(b))
    else Success(None)
  }

  lemma PayloadFields(env: Env, permissions: Option<map<GoString, GoString>>, repositories: seq<GoString>)
    ensures KeyPermissions in Payload(permissions, repositories) <==> permissions.Some?
    ensures permissions.Some? ==> Payload(permissions, repositories)[KeyPermissions] == PermissionSet(permissions.value)
    ensures KeyRepositories in Payload(permissions, repositories) <==> |repositories| > 0
    ensures |repositories| > 0 ==> Payload(permissions, repositories)[KeyRepositories] == RepositoryList(repositories)
    ensures Payload(permissions, repositories).Keys <= {KeyPermissions, KeyRepositories}
    ensures RequestBody(env, Payload(permissions, repositories)) == Success(None)
        <==> permissions.None? && |repositories| == 0
  {
    var p := Payload(permissions, repositories);
    if permissions.Some? {
      assert KeyPermissions in p;
    } else if |repositories| > 0 {
      assert KeyRepositories in p;
    } else {
      assert p == map[];
    }
  }

  /** The token request: a POST to the client's URL, the App JWT as bearer
      credential, and the GitHub v3 media type. */
  function TokenRequest(cfg: ClientConfig, body: Option<Bytes>): Request
  {
    Request(MethodPost, cfg.url, [(HeaderAuthorization, BearerPrefix + cfg.installTkn), (HeaderAccept, AcceptGithubV3)], body)
  }

  /** How generate reads the response. */
  function Classify(resp: Response): Result<Generated, GenError>
  {
    var gat := if resp.body.Decoded? then resp.body.fields else map[];
    if resp.body.Undecodable? && 200 <= resp.status < 300 then Failure(DecodeFailed(resp.body.reason))
    else if resp.status >= 300 then
      if FieldMessage in gat then Failure(Rejected(resp.status, gat[FieldMessage]))
      else Failure(RejectedWithoutMessage(resp.status))
    else if FieldToken in gat && gat[FieldToken].JString? then
      Success(Generated(map[DefaultLoginUsername := gat[FieldToken].text], None))
    else Failure(TokenNotString)
  }

  /** A status of 300 or more is always an error whose message carries the
      status code, and the response's message when it has one. */
  lemma RejectionCarriesStatus(resp: Response)
    requires resp.status >= 300
    ensures Classify(resp).Failure?
    ensures Contains(Message(Classify(resp).error), Decimal(resp.status))
    ensures resp.body.Decoded? && FieldMessage in resp.body.fields ==>
      Classify(resp).error == Rejected(resp.status, resp.body.fields[FieldMessage])
      && Contains(Message(Classify(resp).error), Show(resp.body.fields[FieldMessage]))
    ensures !(resp.body.Decoded? && FieldMessage in resp.body.fields) ==>
      Classify(resp).error == RejectedWithoutMessage(resp.status)
      && Contains(Message(Classify(resp).error), FailedToExtract)
  {
    var status := Decimal(resp.status);
    if resp.body.Decoded? && FieldMessage in resp.body.fields {
      var m := Show(resp.body.fields[FieldMessage]);
      var head := Lit("error generating token: response code: ");
      ContainsInfix(head, status, Lit(", response: ") + m);
      assert head + status + Lit(", response: ") + m == head + status + (Lit(", response: ") + m);
      ContainsInfix(head + status + Lit(", response: "), m, []);
      assert head + status + Lit(", response: ") + m == head + status + Lit(", response: ") + m + [];
    } else {
      var head := Lit("error generating token, ");
      var tail := Lit(" from github request: response code: ");
      ContainsInfix(head, FailedToExtract, tail + status);
      assert head + FailedToExtract + tail + status == head + FailedToExtract + (tail + status);
      ContainsInfix(head + FailedToExtract + tail, status, []);
      assert head + FailedToExtract + tail + status == head + FailedToExtract + tail + status + [];
    }
  }

  /** An undecodable body is fatal only for a 2xx status; otherwise the body
      reads as empty and the status and token checks decide. */
  lemma DecodeErrorFatalOnlyOn2xx(status: int, reason: GoString)
    ensures Classify(Response(status, Undecodable(reason))) == Failure(DecodeFailed(reason))
        <==> 200 <= status < 300
    ensures status >= 300 ==> Classify(Response(status, Undecodable(reason))) == Failure(RejectedWithoutMessage(status))
    ensures status < 200 ==> Classify(Response(status, Undecodable(reason))) == Failure(TokenNotString)
  {
  }

  /** Below 300 and decoded, the result is exactly one field "token" holding
      the token string's bytes, with no provider state; when "token" is absent
      or not a string the result is an error instead. */
  lemma TokenIsTheOnlyField(status: int, fields: map<GoString, JsonValue>)
    requires status < 300
    ensures Classify(Response(status, Decoded(fields))).Success?
        <==> FieldToken in fields && fields[FieldToken].JString?
    ensures Classify(Response(status, Decoded(fields))).Success? ==>
      var g := Classify(Response(status, Decoded(fields))).value;
      && g.fields.Keys == {DefaultLoginUsername}
      && g.fields[DefaultLoginUsername] == fields[FieldToken].text
      && g.state.None?
    ensures Classify(Response(status, Decoded(fields))).Failure? ==>
      Classify(Response(status, Decoded(fields))).error == TokenNotString
  {
  }

  /** The outcome of Generate(jsonSpec, namespace); None is a nil spec. */
  function GenerateOutcome(env: Env, jsonSpec: Option<Bytes>, namespace: GoString): Result<Generated, GenError>
  {
    if jsonSpec.None? then Failure(NoSpec)
    else
      match NewClient(env, jsonSpec.value, namespace)
      case Failure(c) => Failure(ClientFailed(c))
      case Success(cfg) => Exchange(env, cfg)
  }

  /** The token exchange once the client is built: body, request, round trip
      and the reading of the response. */
  function Exchange(env: Env, cfg: ClientConfig): Result<Generated, GenError>
  {
    match RequestBody(env, Payload(cfg.permissions, cfg.repositories))
    case Failure(err) => Failure(err)
    case Success(body) =>
      match env.newRequest(MethodPost, cfg.url, body)
      case Fail(r) => Failure(RequestFailed(r))
      case Pass =>
        match env.send(TokenRequest(cfg, body))
        case Failure(r) => Failure(TransportFailed(r))
        case Success(resp) => Classify(resp)
  }

  /** A nil spec is rejected before any collaborator is consulted: the
      outcome is the same whatever they would do. */
  lemma NilSpecConsultsNothing(env: Env, other: Env, namespace: GoString)
    ensures GenerateOutcome(env, None, namespace) == Failure(NoSpec)
    ensures GenerateOutcome(other, None, namespace) == GenerateOutcome(env, None, namespace)
  {
  }

  /** When building the client fails, no request is built or sent: the
      outcome does not depend on the encoder, the request builder or the
      HTTP round trip. */
  lemma ClientFailureSendsNothing(env: Env, raw: Bytes, namespace: GoString,
                                  marshal: map<GoString, PayloadValue> -> Result<Bytes, GoString>,
                                  newRequest: (GoString, GoString, Option<Bytes>) -> Outcome<GoString>,
                                  send: Request -> Result<Response, GoString>)
    requires NewClient(env, raw, namespace).Failure?
    ensures GenerateOutcome(env, Some(raw), namespace) == Failure(ClientFailed(NewClient(env, raw, namespace).error))
    ensures GenerateOutcome(env.(marshal := marshal, newRequest := newRequest, send := send), Some(raw), namespace)
         == GenerateOutcome(env, Some(raw), namespace)
  {
    var env' := env.(marshal := marshal, newRequest := newRequest, send := send);
    assert NewClient(env', raw, namespace) == NewClient(env, raw, namespace);
  }

  /** A successful Generate returns exactly the "token" field and no
      provider state. */
  lemma GenerateSuccessShape(env: Env, jsonSpec: Option<Bytes>, namespace: GoString)
    requires GenerateOutcome(env, jsonSpec, namespace).Success?
    ensures GenerateOutcome(env, jsonSpec, namespace).value.fields.Keys == {DefaultLoginUsername}
    ensures GenerateOutcome(env, jsonSpec, namespace).value.state.None?
  {
    var cfg := NewClient(env, jsonSpec.value, namespace).value;
    var body := RequestBody(env, Payload(cfg.permissions, cfg.repositories)).value;
    var resp := env.send(TokenRequest(cfg, body)).value;
    var fields := if resp.body.Decoded? then resp.body.fields else map[];
    TokenIsTheOnlyField(resp.status, fields);
  }

  /** The payload map of generate, filled one field at a time. */
  method BuildPayload(permissions: Option<map<GoString, GoString>>, repositories: seq<GoString>)
    returns (payload: map<GoString, PayloadValue>)
    ensures payload == Payload(permissions, repositories)
  {
    payload := map[];
    if permissions.Some? {
      payload := payload[KeyPermissions := PermissionSet(permissions.value)];
    }
    if |repositories| > 0 {
      payload := payload[KeyRepositories := RepositoryList(repositories)];
    }
  }

  /** Models generate: an early return at each failure, the payload built up
      one field at a time. */
  method Generate(env: Env, jsonSpec: Option<Bytes>, namespace: GoString) returns (r: Result<Generated, GenError>)
    ensures r == GenerateOutcome(env, jsonSpec, namespace)
  {
    if jsonSpec.None? {
      return Failure(NoSpec);
    }
    var client := NewGHClient(env, jsonSpec.value, namespace);
    if client.Failure? {
      return Failure(ClientFailed(client.error));
    }
    var gh := client.value;
    ghost var cfg := gh.Config();
    assert NewClient(env, jsonSpec.value, namespace) == Success(cfg);
    assert GenerateOutcome(env, jsonSpec, namespace) == Exchange(env, cfg);

    var payload := BuildPayload(gh.permissions, gh.repositories);

    var body: Option<Bytes> := None;
    if |payload| > 0 {
      var encoded := env.marshal(payload);
      if encoded.Failure? {
        return Failure(MarshalFailed(encoded.error));
      }
      body := Some(encoded.value);
    }
    assert RequestBody(env, payload) == Success(body);

    var built := env.newRequest(MethodPost, gh.url, body);
    if built.Fail? {
      return Failure(RequestFailed(built.error));
    }
    var sent := env.send(TokenRequest(gh.Config(), body));
    if sent.Failure? {
      return Failure(TransportFailed(sent.error));
    }
    var resp := sent.value;
    assert Exchange(env, cfg) == Classify(resp);

    var gat: map<GoString, JsonValue> := map[];
    if resp.body.Decoded? {
      gat := resp.body.fields;
    } else if 200 <= resp.status < 300 {
      return Failure(DecodeFailed(resp.body.reason));
    }
    if resp.status >= 300 {
      if FieldMessage in gat {
        return Failure(Rejected(resp.status, gat[FieldMessage]));
      }
      return Failure(RejectedWithoutMessage(resp.status));
    }
    if FieldToken !in gat || !gat[FieldToken].JString? {
      return Failure(TokenNotString);
    }
    return Success(Generated(map[DefaultLoginUsername := gat[FieldToken].text], None));
  }

  /** Cleanup: the issued token expires by itself, so there is nothing to
      undo; any spec and any provider state are accepted. */
  function Cleanup(jsonSpec: Option<Bytes>, state: Option<Bytes>, namespace: GoString): (err: Outcome<GenError>)
    ensures err.Pass?
  {
    Pass
  }
}
