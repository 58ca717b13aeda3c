/** The request builder of the fluent test helper: a record of the request
    being assembled, and pure transitions for each of its fluent calls.

    The process-wide "clear credentials after request" flag is a static field
    of the PHP class, shared by every builder; it lives here in `World`, next to
    the trace of requests handed to the test client so far. */
module RequestBuilder {
  import opened Wrappers
  import opened UriFormat

  /** Identifies a test client instance. */
  type ClientId = nat

  /** The `files` and `parameters` arrays: passed through without being read. */
  type FieldMap = map<string, string>

  /** The builder's fields; `None` stands for PHP's `null`. */
  datatype Builder = Builder(
    client: Option<ClientId>,
    httpMethod: Option<string>,
    uri: Option<string>,
    content: Option<string>,
    server: map<string, string>,
    files: FieldMap,
    parameters: FieldMap,
    defaultUsername: Option<string>,
    defaultPassword: Option<string>)

  /** The arguments of one `request` call on the test client. */
  datatype Request = Request(
    httpMethod: Option<string>,
    uri: Option<string>,
    parameters: FieldMap,
    files: FieldMap,
    server: map<string, string>,
    content: Option<string>)

  datatype Sent = Sent(client: ClientId, request: Request)

  /** State shared by all builders: the static flag and what the clients were sent. */
  datatype World = World(clearCredentialsAfterRequest: bool, sent: seq<Sent>)

  datatype Failure =
    | LogicException(message: string)
      /** `sprintf` rejected the URI template or its arguments. */
    | FormatFailure
      /** `getResponse` called a method on a builder without a client. */
    | NullClient

  /** A transition that touches the shared world and may throw. */
  datatype Outcome = Outcome(world: World, result: Result<Builder, Failure>)

  /** The result of `getResponse`: the world after dispatch, the builder after
      the optional credential clean-up, and the position in the trace of the
      request whose response is wrapped. */
  datatype Dispatch = Dispatch(world: World, builder: Builder, responseTo: nat)

  const AuthUserKey: string := "PHP_AUTH_USER"
  const AuthPasswordKey: string := "PHP_AUTH_PW"
  const HttpPrefix: string := "HTTP_"
  const MissingUsernameMessage: string := "Either provide username or set the default username"
  const MissingPasswordMessage: string := "Either provide password or set the default password"

  const InitialWorld: World := World(false, [])

  /** The server entry under which `setHttpHeader` stores a header. */
  function HttpHeaderKey(key: string): (k: string)
    ensures |k| == |HttpPrefix| + |key| && k[..|HttpPrefix|] == HttpPrefix && k[|HttpPrefix|..] == key
  {
    HttpPrefix + key
  }

  /** The request the builder currently describes. */
  function Snapshot(b: Builder): Request {
    Request(b.httpMethod, b.uri, b.parameters, b.files, b.server, b.content)
  }

  predicate HasCredentials(server: map<string, string>) {
    AuthUserKey in server && AuthPasswordKey in server
  }

  predicate NoCredentials(server: map<string, string>) {
    AuthUserKey !in server && AuthPasswordKey !in server
  }

  /** `create`: a fresh builder, bound to `client` when one is given. */
  function Create(client: Option<ClientId>): (b: Builder)
    ensures b.client == client
    ensures b.server == map[] && b.files == map[] && b.parameters == map[]
    ensures b.httpMethod.None? && b.uri.None? && b.content.None?
    ensures b.defaultUsername.None? && b.defaultPassword.None?
  {
    Builder(client, None, None, None, map[], map[], map[], None, None)
  }

  function SetClient(b: Builder, client: ClientId): (r: Builder)
    ensures r.client == Some(client)
    ensures Snapshot(r) == Snapshot(b)
    ensures r == b.(client := r.client)
  {
    b.(client := Some(client))
  }

  function SetMethod(b: Builder, httpMethod: string): (r: Builder)
    ensures r.httpMethod == Some(httpMethod)
    ensures Snapshot(r) == Snapshot(b).(httpMethod := Some(httpMethod))
    ensures r == b.(httpMethod := r.httpMethod)
  {
    b.(httpMethod := Some(httpMethod))
  }

  /** `setUri`: the template verbatim when no arguments are given (an empty
      argument list is falsy), otherwise the template formatted with them. */
  function SetUri(b: Builder, template: string, args: seq<Arg>): (r: Result<Builder, Failure>)
    ensures |args| == 0 ==> r == Success(b.(uri := Some(template)))
    ensures |args| > 0 ==> (r.Success? <==> Format(template, args).Some?)
    ensures |args| > 0 && r.Success? ==> r.value == b.(uri := Format(template, args))
    ensures r.Failure? ==> r.error == FormatFailure
  {
    if |args| == 0 then Success(b.(uri := Some(template)))
    else match Format(template, args)
      case None => Failure(FormatFailure)
      case Some(u) => Success(b.(uri := Some(u)))
  }

  function SetContent(b: Builder, content: string): (r: Builder)
    ensures r.content == Some(content)
    ensures Snapshot(r) == Snapshot(b).(content := Some(content))
    ensures r == b.(content := r.content)
  {
    b.(content := Some(content))
  }

  /** `setHeader`: stores `value` under the literal `key`; the last write to a
      key wins and every other entry is kept. */
  function SetHeader(b: Builder, key: string, value: string): (r: Builder)
    ensures r.server.Keys == b.server.Keys + {key}
    ensures r.server[key] == value
    ensures forall k :: k in b.server && k != key ==> r.server[k] == b.server[k]
    ensures r == b.(server := r.server)
  {
    b.(server := b.server[key := value])
  }

  /** `setHttpHeader`: stores `value` under `HTTP_` + `key`, the CGI naming of
      request headers (section 4.1.18 of RFC 3875). */
  function SetHttpHeader(b: Builder, key: string, value: string): (r: Builder)
    ensures r.server.Keys == b.server.Keys + {HttpHeaderKey(key)}
    ensures r.server[HttpHeaderKey(key)] == value
    ensures forall k :: k in b.server && k != HttpHeaderKey(key) ==> r.server[k] == b.server[k]
    ensures r == b.(server := r.server)
  {
    SetHeader(b, HttpHeaderKey(key), value)
  }

  function UnsetHeaders(b: Builder): (r: Builder)
    ensures |r.server| == 0
    ensures r == b.(server := r.server)
  {
    b.(server := map[])
  }

  function SetFiles(b: Builder, files: FieldMap): (r: Builder)
    ensures r.files == files
    ensures Snapshot(r) == Snapshot(b).(files := files)
    ensures r == b.(files := r.files)
  {
    b.(files := files)
  }

  function SetParameters(b: Builder, parameters: FieldMap): (r: Builder)
    ensures r.parameters == parameters
    ensures Snapshot(r) == Snapshot(b).(parameters := parameters)
    ensures r == b.(parameters := r.parameters)
  {
    b.(parameters := parameters)
  }

  function SetDefaultUsername(b: Builder, username: Option<string>): (r: Builder)
    ensures r.defaultUsername == username
    ensures Snapshot(r) == Snapshot(b) && r.defaultPassword == b.defaultPassword
    ensures r == b.(defaultUsername := r.defaultUsername)
  {
    b.(defaultUsername := username)
  }

  function SetDefaultPassword(b: Builder, password: Option<string>): (r: Builder)
    ensures r.defaultPassword == password
    ensures Snapshot(r) == Snapshot(b) && r.defaultUsername == b.defaultUsername
    ensures r == b.(defaultPassword := r.defaultPassword)
  {
    b.(defaultPassword := password)
  }

  /** PHP truthiness of a nullable string: `null`, `""` and `"0"` are falsy. */
  predicate Truthy(v: Option<string>) {
    v.Some? && v.value != "" && v.value != "0"
  }

  /** An explicit credential when it is truthy, the default otherwise: the
      falsy values `null`, `""` and `"0"` fall back, every other value is kept. */
  function Resolve(arg: Option<string>, default: Option<string>): (r: Option<string>)
    ensures arg in {None, Some(""), Some("0")} ==> r == default
    ensures arg !in {None, Some(""), Some("0")} ==> r == arg
  {
    if Truthy(arg) then arg else default
  }

  /** The username and password `setCredentials` would write, or the
      exception it throws; the username is checked before the password. */
  function ResolveCredentials(b: Builder, username: Option<string>, password: Option<string>)
    : (r: Result<(string, string), Failure>)
    ensures r.Success? <==>
              (Truthy(username) || b.defaultUsername.Some?) && (Truthy(password) || b.defaultPassword.Some?)
    ensures r.Success? ==> Some(r.value.0) == Resolve(username, b.defaultUsername)
    ensures r.Success? ==> Some(r.value.1) == Resolve(password, b.defaultPassword)
    ensures !Truthy(username) && b.defaultUsername.None? ==>
              r == Failure(LogicException(MissingUsernameMessage))
    ensures (Truthy(username) || b.defaultUsername.Some?) && !Truthy(password) && b.defaultPassword.None? ==>
              r == Failure(LogicException(MissingPasswordMessage))
  {
    var user := Resolve(username, b.defaultUsername);
    var pass := Resolve(password, b.defaultPassword);
    if user.None? then Failure(LogicException(MissingUsernameMessage))
    else if pass.None? then Failure(LogicException(MissingPasswordMessage))
    else Success((user.value, pass.value))
  }

  /** `setCredentials`: on success exactly the two Basic-Auth entries are
      written and nothing else changes; a throw happens before any write. */
  function SetCredentials(b: Builder, username: Option<string>, password: Option<string>)
    : (r: Result<Builder, Failure>)
    ensures r.Failure? <==> ResolveCredentials(b, username, password).Failure?
    ensures r.Failure? ==> r.error == ResolveCredentials(b, username, password).error
    ensures r.Success? ==>
              var creds := ResolveCredentials(b, username, password).value;
              && r.value.server.Keys == b.server.Keys + {AuthUserKey, AuthPasswordKey}
              && r.value.server[AuthUserKey] == creds.0
              && r.value.server[AuthPasswordKey] == creds.1
              && (forall k :: k in b.server && k != AuthUserKey && k != AuthPasswordKey ==>
                    r.value.server[k] == b.server[k])
              && r.value == b.(server := r.value.server)
  {
    var creds :- ResolveCredentials(b, username, password);
    Success(SetHeader(SetHeader(b, AuthUserKey, creds.0), AuthPasswordKey, creds.1))
  }

  /** `useCredentialsOnce`: arms the shared flag first, then behaves as
      `setCredentials`; the flag stays armed when that throws. */
  function UseCredentialsOnce(w: World, b: Builder, username: Option<string>, password: Option<string>)
    : (r: Outcome)
    ensures r.world.clearCredentialsAfterRequest
    ensures r.world.sent == w.sent
    ensures r.result == SetCredentials(b, username, password)
  {
    Outcome(w.(clearCredentialsAfterRequest := true), SetCredentials(b, username, password))
  }

  /** `unsetCredentials`: removes the two Basic-Auth entries and nothing else. */
  function UnsetCredentials(b: Builder): (r: Builder)
    ensures NoCredentials(r.server)
    ensures r.server.Keys == b.server.Keys - {AuthUserKey, AuthPasswordKey}
    ensures forall k :: k in r.server ==> r.server[k] == b.server[k]
    ensures r == b.(server := r.server)
  {
    var withoutUser := if AuthUserKey in b.server then b.server - {AuthUserKey} else b.server;
    var withoutBoth := if AuthPasswordKey in withoutUser then withoutUser - {AuthPasswordKey} else withoutUser;
    b.(server := withoutBoth)
  }

  /** `getResponse`: hands the current request to the client, then, when the
      shared flag is armed, strips this builder's credentials and disarms it. */
  function GetResponse(w: World, b: Builder): (r: Dispatch)
    requires b.client.Some?
    ensures r.world.sent == w.sent + [Sent(b.client.value, Snapshot(b))]
    ensures r.responseTo == |w.sent| && r.world.sent[r.responseTo].request.server == b.server
    ensures !r.world.clearCredentialsAfterRequest
    ensures w.clearCredentialsAfterRequest ==> r.builder == UnsetCredentials(b)
    ensures !w.clearCredentialsAfterRequest ==> r.builder == b
  {
    var sent := w.sent + [Sent(b.client.value, Snapshot(b))];
    if w.clearCredentialsAfterRequest then
      Dispatch(World(false, sent), UnsetCredentials(b), |w.sent|)
    else
      Dispatch(w.(sent := sent), b, |w.sent|)
  }

  // ---------------------------------------------------------------------------
  // A fluent chain as a test writes it: calls applied in order, the first
  // exception ending the chain.
  // ---------------------------------------------------------------------------

  datatype Call =
    | CallSetClient(client: ClientId)
    | CallSetMethod(httpMethod: string)
    | CallSetUri(template: string, args: seq<Arg>)
    | CallSetContent(content: string)
    | CallSetHttpHeader(key: string, value: string)
    | CallSetHeader(key: string, value: string)
    | CallUnsetHeaders
    | CallSetFiles(files: FieldMap)
    | CallSetParameters(parameters: FieldMap)
    | CallSetDefaultUsername(username: Option<string>)
    | CallSetDefaultPassword(password: Option<string>)
    | CallSetCredentials(username: Option<string>, password: Option<string>)
    | CallUseCredentialsOnce(username: Option<string>, password: Option<string>)
    | CallUnsetCredentials
    | CallGetResponse

  function CountDispatches(calls: seq<Call>): nat
    decreases |calls|
  {
    if |calls| == 0 then 0 else (if calls[0].CallGetResponse? then 1 else 0) + CountDispatches(calls[1..])
  }

  /** One fluent call. Only `getResponse` adds to the trace; on a builder
      without a client it fails the way a method call on `null` does. */
  function Apply(w: World, b: Builder, call: Call): (r: Outcome)
    ensures call.CallGetResponse? && r.result.Success? ==> |r.world.sent| == |w.sent| + 1
    ensures !call.CallGetResponse? ==> r.world.sent == w.sent
    ensures w.sent <= r.world.sent
    ensures call.CallGetResponse? ==> (r.result.Failure? <==> b.client.None?)
  {
    match call
    case CallSetClient(c) => Outcome(w, Success(SetClient(b, c)))
    case CallSetMethod(m) => Outcome(w, Success(SetMethod(b, m)))
    case CallSetUri(t, args) => Outcome(w, SetUri(b, t, args))
    case CallSetContent(c) => Outcome(w, Success(SetContent(b, c)))
    case CallSetHttpHeader(k, v) => Outcome(w, Success(SetHttpHeader(b, k, v)))
    case CallSetHeader(k, v) => Outcome(w, Success(SetHeader(b, k, v)))
    case CallUnsetHeaders => Outcome(w, Success(UnsetHeaders(b)))
    case CallSetFiles(f) => Outcome(w, Success(SetFiles(b, f)))
    case CallSetParameters(p) => Outcome(w, Success(SetParameters(b, p)))
    case CallSetDefaultUsername(u) => Outcome(w, Success(SetDefaultUsername(b, u)))
    case CallSetDefaultPassword(p) => Outcome(w, Success(SetDefaultPassword(b, p)))
    case CallSetCredentials(u, p) => Outcome(w, SetCredentials(b, u, p))
    case CallUseCredentialsOnce(u, p) => UseCredentialsOnce(w, b, u, p)
    case CallUnsetCredentials => Outcome(w, Success(UnsetCredentials(b)))
    case CallGetResponse =>
      if b.client.None? then Outcome(w, Failure(NullClient))
      else
        var d := GetResponse(w, b);
        Outcome(d.world, Success(d.builder))
  }

  /** A whole chain. The trace only ever grows, by at most one request per
      `getResponse` in the chain, and by exactly that many when nothing throws. */
  function Run(w: World, b: Builder, calls: seq<Call>): (r: Outcome)
    ensures w.sent <= r.world.sent
    ensures |r.world.sent| <= |w.sent| + CountDispatches(calls)
    ensures r.result.Success? ==> |r.world.sent| == |w.sent| + CountDispatches(calls)
    decreases |calls|
  {
    if |calls| == 0 then Outcome(w, Success(b))
    else
      var step := Apply(w, b, calls[0]);
      match step.result
      case Failure(_) => step
      case Success(b') => Run(step.world, b', calls[1..])
  }
}
