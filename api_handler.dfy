/**
 * The HTTP handler of the API Lambda function (task11/app/lambdas/api_handler/index.js):
 * the route table and its dispatch, the signin handler, and the CORS-carrying
 * response helpers. Everything is a pure function of its inputs; the
 * identity provider is a function parameter, the environment a `Config` value,
 * and a request body arrives already parsed (see `Body`).
 */
module ApiHandler {
  import opened Wrappers
  import opened Json

  // ---------------------------------------------------------------------------
  // Data model
  // ---------------------------------------------------------------------------

  /** The environment variables the signin handler reads; an unset variable is `undefined`. */
  datatype Config = Config(userPoolId: Option<string>, clientId: Option<string>)

  /** A thrown error: its `code` property (set by the AWS SDK, absent on language errors) and its `message`. */
  datatype Fault = Fault(code: Option<string>, message: string)

  /**
   * What `JSON.parse(event.body)` followed by `const { email, password } = ...`
   * yields. `Malformed` is a body JSON.parse rejects; `NullBody` is a body that
   * parses to null, which includes a missing body (JSON.parse(null) is null), and
   * on which the destructuring throws; `Parsed` is any other JSON value, with the
   * two properties it has (a number, a string or an array has neither).
   */
  datatype Body =
    | Malformed(syntaxError: string)
    | NullBody
    | Parsed(email: Option<Value>, password: Option<Value>)

  /** The fields of the API Gateway event the handler uses. */
  datatype Request = Request(httpMethod: Option<string>, resource: Option<string>, body: Body)

  /** A Lambda proxy response; `body` is the serialised JSON object. */
  datatype Response = Response(statusCode: int, headers: map<string, string>, body: seq<Member>)

  /** How a route handler finishes: it returns a response or throws. */
  datatype Completion = Returned(response: Response) | Threw(fault: Fault)

  /** `AuthenticationResult` of a Cognito adminInitiateAuth answer; each field may be absent. */
  datatype AuthenticationResult =
    AuthenticationResult(idToken: Option<string>, refreshToken: Option<string>, expiresIn: Option<int>)

  /** The parameters of the adminInitiateAuth call. */
  datatype AuthRequest =
    AuthRequest(authFlow: string, userPoolId: Option<string>, clientId: Option<string>, username: Value, password: Value)

  /** What the identity provider answers: a (possibly absent) authentication result, or an error. */
  datatype AuthOutcome = Authenticated(result: Option<AuthenticationResult>) | Failed(fault: Fault)

  /** The right-hand side of one property of the route table literal: a declared handler or an undeclared name. */
  datatype Binding = Defined(handler: Request -> Completion) | Undeclared(name: string)

  datatype RouteEntry = RouteEntry(key: string, binding: Binding)

  /** The route table once its literal has been evaluated, or the error its evaluation threw. */
  datatype Routes = Built(table: map<string, Request -> Completion>) | BuildFault(fault: Fault)

  // ---------------------------------------------------------------------------
  // Response shaping
  // ---------------------------------------------------------------------------

  const InternalServerError := "Internal Server Error"
  const NotFoundText := "Not Found"

  /** The four CORS headers every response carries. */
  function CorsHeaders(): (h: map<string, string>)
    ensures |h| == 4
  {
    var h := map[
      "Access-Control-Allow-Origin" := "*",
      "Access-Control-Allow-Headers" := "Content-Type,Authorization",
      "Access-Control-Allow-Methods" := "OPTIONS,POST,GET",
      "Content-Type" := "application/json"];
    assert h.Keys == {"Access-Control-Allow-Origin", "Access-Control-Allow-Headers",
                      "Access-Control-Allow-Methods", "Content-Type"};
    h
  }

  /** formatResponse: the status as given, the CORS headers, and the serialised body with nothing added. */
  function FormatResponse(statusCode: int, props: seq<Property>): (r: Response)
    ensures r.statusCode == statusCode && r.headers == CorsHeaders()
    ensures |r.body| <= |props|
    ensures forall k, v :: Member(k, v) in r.body <==> Property(k, Some(v)) in props
  {
    Response(statusCode, CorsHeaders(), Serialize(props))
  }

  /** The router's 404 answer. */
  function NotFound(): (r: Response)
    ensures r.statusCode == 404 && r.headers == CorsHeaders()
    ensures r.body == [Member("message", String(NotFoundText))]
  {
    Response(404, CorsHeaders(), Serialize([Property("message", Some(String(NotFoundText)))]))
  }

  /** The router's 500 answer, which exposes the fault's message. */
  function InternalError(f: Fault): (r: Response)
    ensures r.statusCode == 500 && r.headers == CorsHeaders()
    ensures r.body == [Member("message", String(InternalServerError)), Member("error", String(f.message))]
  {
    var props := [Property("message", Some(String(InternalServerError))), Property("error", Some(String(f.message)))];
    assert Serialize(props[1..]) == [Member("error", String(f.message))];
    Response(500, CorsHeaders(), Serialize(props))
  }

  // ---------------------------------------------------------------------------
  // Signin
  // ---------------------------------------------------------------------------

  const MissingCredentials := "Email and password are required."
  const InvalidCredentials := "Invalid email or password."
  const UnknownUser := "User does not exist."
  const AdminPasswordAuth := "ADMIN_USER_PASSWORD_AUTH"
  /** The message of the TypeError thrown when destructuring null (it is never shown to a client). */
  const DestructureNull := "Cannot destructure property 'email' of 'JSON.parse(...)' as it is null."

  /** JavaScript truthiness of a property value, as tested by `!email`: undefined, null, false, 0 and "" are falsy. */
  function Truthy(v: Option<Value>): (b: bool)
    ensures b <==> v !in {None, Some(Null), Some(Bool(false)), Some(Number(0)), Some(String(""))}
  {
    match v
    case None => false
    case Some(Null) => false
    case Some(Bool(b)) => b
    case Some(Number(n)) => n != 0
    case Some(String(s)) => s != ""
    case Some(Composite) => true
  }

  /** `{ error: text }` formatted with a status. */
  function ErrorResponse(statusCode: int, text: string): (r: Response)
    ensures r.statusCode == statusCode && r.headers == CorsHeaders()
    ensures r.body == [Member("error", String(text))]
  {
    FormatResponse(statusCode, [Property("error", Some(String(text)))])
  }

  /** The adminInitiateAuth parameters built from the configuration and the credentials. */
  function CognitoRequest(cfg: Config, email: Value, password: Value): AuthRequest
  {
    AuthRequest(AdminPasswordAuth, cfg.userPoolId, cfg.clientId, email, password)
  }

  function StringOrUndefined(s: Option<string>): Option<Value>
  {
    match s
    case None => None
    case Some(t) => Some(String(t))
  }

  function NumberOrUndefined(n: Option<int>): Option<Value>
  {
    match n
    case None => None
    case Some(k) => Some(Number(k))
  }

  /** The success body: each token read through optional chaining, so a missing one is `undefined`. */
  function TokenProperties(result: Option<AuthenticationResult>): seq<Property>
  {
    match result
    case None =>
      [Property("accessToken", None), Property("refreshToken", None), Property("expiresIn", None)]
    case Some(a) =>
      [Property("accessToken", StringOrUndefined(a.idToken)),
       Property("refreshToken", StringOrUndefined(a.refreshToken)),
       Property("expiresIn", NumberOrUndefined(a.expiresIn))]
  }

  /** The catch block of the signin handler. */
  function SigninFault(f: Fault): (r: Response)
    ensures r.headers == CorsHeaders()
    ensures r.statusCode == 400 <==> f.code in {Some("NotAuthorizedException"), Some("UserNotFoundException")}
    ensures r.statusCode != 400 ==> r.statusCode == 500 && r.body == [Member("error", String(InternalServerError))]
  {
    if f.code == Some("NotAuthorizedException") then ErrorResponse(400, InvalidCredentials)
    else if f.code == Some("UserNotFoundException") then ErrorResponse(400, UnknownUser)
    else ErrorResponse(500, InternalServerError)
  }

  /** One run of the signin handler: its response and the identity-provider calls it made. */
  datatype SigninRun = SigninRun(response: Response, calls: seq<AuthRequest>)

  /** handleSignin. It never throws: every fault ends in its own catch block. */
  function Signin(cfg: Config, body: Body, idp: AuthRequest -> AuthOutcome): (run: SigninRun)
    ensures run.response.headers == CorsHeaders()
    ensures run.response.statusCode in {200, 400, 500}
    ensures |run.calls| <= 1
  {
    match body
    case Malformed(syntaxError) => SigninRun(SigninFault(Fault(None, syntaxError)), [])
    case NullBody => SigninRun(SigninFault(Fault(None, DestructureNull)), [])
    case Parsed(email, password) =>
      if !Truthy(email) || !Truthy(password) then
        SigninRun(ErrorResponse(400, MissingCredentials), [])
      else
        var request := CognitoRequest(cfg, email.value, password.value);
        match idp(request)
        case Authenticated(result) => SigninRun(FormatResponse(200, TokenProperties(result)), [request])
        case Failed(f) => SigninRun(SigninFault(f), [request])
  }

  /** Credentials the handler accepts and passes on to the identity provider. */
  predicate Accepted(body: Body)
  {
    body.Parsed? && Truthy(body.email) && Truthy(body.password)
  }

  /** A missing or falsy email or password is answered 400 before the identity provider is called, and only then. */
  lemma SigninRejectsMissingCredentials(cfg: Config, body: Body, idp: AuthRequest -> AuthOutcome)
    ensures var run := Signin(cfg, body, idp);
      (run.calls == [] && run.response.statusCode == 400) <==> (body.Parsed? && !Accepted(body))
    ensures body.Parsed? && !Accepted(body) ==>
      Signin(cfg, body, idp).response.body == [Member("error", String(MissingCredentials))]
  {
  }

  /** A body that does not parse, or parses to null, faults inside the handler and is answered 500, not 400. */
  lemma SigninBodyFaults(cfg: Config, body: Body, idp: AuthRequest -> AuthOutcome)
    requires body.Malformed? || body.NullBody?
    ensures Signin(cfg, body, idp).calls == []
    ensures Signin(cfg, body, idp).response.statusCode == 500
    ensures Signin(cfg, body, idp).response.body == [Member("error", String(InternalServerError))]
  {
  }

  /** The identity provider is called exactly once, with the configured pool and client, iff the credentials are accepted. */
  lemma SigninCallsIdentityProvider(cfg: Config, body: Body, idp: AuthRequest -> AuthOutcome)
    ensures Signin(cfg, body, idp).calls != [] <==> Accepted(body)
    ensures Accepted(body) ==>
      Signin(cfg, body, idp).calls == [AuthRequest(AdminPasswordAuth, cfg.userPoolId, cfg.clientId, body.email.value, body.password.value)]
  {
  }

  /** The success body holds exactly the tokens the authentication result has... */
  lemma TokenBodyValues(result: Option<AuthenticationResult>)
    ensures var body := FormatResponse(200, TokenProperties(result)).body;
      && (forall t :: Member("accessToken", String(t)) in body <==> result.Some? && result.value.idToken == Some(t))
      && (forall t :: Member("refreshToken", String(t)) in body <==> result.Some? && result.value.refreshToken == Some(t))
      && (forall n :: Member("expiresIn", Number(n)) in body <==> result.Some? && result.value.expiresIn == Some(n))
  {
    var props := TokenProperties(result);
    var body := FormatResponse(200, props).body;
    forall t ensures Member("accessToken", String(t)) in body <==> result.Some? && result.value.idToken == Some(t) {
      assert Member("accessToken", String(t)) in body <==> Property("accessToken", Some(String(t))) in props;
    }
    forall t ensures Member("refreshToken", String(t)) in body <==> result.Some? && result.value.refreshToken == Some(t) {
      assert Member("refreshToken", String(t)) in body <==> Property("refreshToken", Some(String(t))) in props;
    }
    forall n ensures Member("expiresIn", Number(n)) in body <==> result.Some? && result.value.expiresIn == Some(n) {
      assert Member("expiresIn", Number(n)) in body <==> Property("expiresIn", Some(Number(n))) in props;
    }
  }

  /** ... and nothing else. */
  lemma TokenBodyShape(result: Option<AuthenticationResult>)
    ensures forall m :: m in FormatResponse(200, TokenProperties(result)).body ==>
      || (m.key == "accessToken" && m.value.String?)
      || (m.key == "refreshToken" && m.value.String?)
      || (m.key == "expiresIn" && m.value.Number?)
  {
    var props := TokenProperties(result);
    forall m | m in FormatResponse(200, props).body
      ensures || (m.key == "accessToken" && m.value.String?)
              || (m.key == "refreshToken" && m.value.String?)
              || (m.key == "expiresIn" && m.value.Number?)
    {
      assert Property(m.key, Some(m.value)) in props;
    }
  }

  /** On success the three tokens are copied from the authentication result; an absent one stays absent. */
  lemma SigninPassesTokensThrough(cfg: Config, body: Body, idp: AuthRequest -> AuthOutcome, result: Option<AuthenticationResult>)
    requires Accepted(body)
    requires idp(CognitoRequest(cfg, body.email.value, body.password.value)) == Authenticated(result)
    ensures var r := Signin(cfg, body, idp).response;
      && r.statusCode == 200
      && (forall t :: Member("accessToken", String(t)) in r.body <==> result.Some? && result.value.idToken == Some(t))
      && (forall t :: Member("refreshToken", String(t)) in r.body <==> result.Some? && result.value.refreshToken == Some(t))
      && (forall n :: Member("expiresIn", Number(n)) in r.body <==> result.Some? && result.value.expiresIn == Some(n))
      && (forall m :: m in r.body ==>
            || (m.key == "accessToken" && m.value.String?)
            || (m.key == "refreshToken" && m.value.String?)
            || (m.key == "expiresIn" && m.value.Number?))
  {
    assert Signin(cfg, body, idp).response == FormatResponse(200, TokenProperties(result));
    TokenBodyValues(result);
    TokenBodyShape(result);
  }

  /** Identity-provider faults are mapped by their code to fixed messages. */
  lemma SigninMapsFaults(cfg: Config, body: Body, idp: AuthRequest -> AuthOutcome, f: Fault)
    requires Accepted(body)
    requires idp(CognitoRequest(cfg, body.email.value, body.password.value)) == Failed(f)
    ensures var r := Signin(cfg, body, idp).response;
      if f.code == Some("NotAuthorizedException") then
        r.statusCode == 400 && r.body == [Member("error", String(InvalidCredentials))]
      else if f.code == Some("UserNotFoundException") then
        r.statusCode == 400 && r.body == [Member("error", String(UnknownUser))]
      else
        r.statusCode == 500 && r.body == [Member("error", String(InternalServerError))]
  {
  }

  /** Whatever goes wrong, a 500 from signin carries only the fixed text, never the fault's message. */
  lemma SigninNeverLeaksFaultDetail(cfg: Config, body: Body, idp: AuthRequest -> AuthOutcome)
    ensures var r := Signin(cfg, body, idp).response;
      r.statusCode == 500 ==> r.body == [Member("error", String(InternalServerError))]
  {
  }

  // ---------------------------------------------------------------------------
  // Router
  // ---------------------------------------------------------------------------

  /** A template literal's rendering of a possibly undefined value. */
  function Interpolate(v: Option<string>): string
  {
    match v
    case None => "undefined"
    case Some(s) => s
  }

  /** A route key: the HTTP method, one space, the resource template. */
  function Key(verb: string, resource: string): string
  {
    verb + " " + resource
  }

  /** The key a request is looked up under. */
  function RouteKey(req: Request): (key: string)
    ensures |Interpolate(req.httpMethod)| < |key| && key[|Interpolate(req.httpMethod)|] == ' '
    ensures key[..|Interpolate(req.httpMethod)|] == Interpolate(req.httpMethod)
    ensures key[|Interpolate(req.httpMethod)| + 1..] == Interpolate(req.resource)
  {
    Key(Interpolate(req.httpMethod), Interpolate(req.resource))
  }

  /** The error evaluating an undeclared identifier throws. */
  function NotDefined(name: string): Fault
  {
    Fault(None, name + " is not defined")
  }

  /**
   * Evaluation of the route table literal, property by property: the first
   * undeclared handler name throws a ReferenceError; otherwise every key is bound
   * (a later duplicate key would win).
   */
  function BuildRoutes(entries: seq<RouteEntry>): (routes: Routes)
    ensures routes.Built? <==> forall i :: 0 <= i < |entries| ==> entries[i].binding.Defined?
    ensures routes.BuildFault? ==>
      exists i :: && 0 <= i < |entries|
                  && entries[i].binding.Undeclared?
                  && (forall j :: 0 <= j < i ==> entries[j].binding.Defined?)
                  && routes.fault == NotDefined(entries[i].binding.name)
  {
    if entries == [] then Built(map[])
    else
      assert entries == [entries[0]] + entries[1..];
      match entries[0].binding
      case Undeclared(name) => BuildFault(NotDefined(name))
      case Defined(h) =>
        match BuildRoutes(entries[1..])
        case BuildFault(f) =>
          ghost var i :| && 0 <= i < |entries[1..]|
                         && entries[1..][i].binding.Undeclared?
                         && (forall j :: 0 <= j < i ==> entries[1..][j].binding.Defined?)
                         && f == NotDefined(entries[1..][i].binding.name);
          assert entries[i + 1] == entries[1..][i];
          BuildFault(f)
        case Built(t) => Built(map[entries[0].key := h] + t)
  }

  /** A fault out of a dispatched handler is caught and becomes the router's 500. */
  function Settle(c: Completion): Response
  {
    match c
    case Returned(response) => response
    case Threw(f) => InternalError(f)
  }

  /** The exported handler: build the table, look the key up, dispatch or answer 404; any fault becomes 500. */
  function Handle(routes: Routes, req: Request): (r: Response)
    ensures routes.BuildFault? || RouteKey(req) !in routes.table ==>
      r.statusCode in {404, 500} && r.headers == CorsHeaders()
    ensures r.statusCode !in {404, 500} ==>
      routes.Built? && RouteKey(req) in routes.table && routes.table[RouteKey(req)](req) == Returned(r)
  {
    match routes
    case BuildFault(f) => InternalError(f)
    case Built(table) =>
      var key := RouteKey(req);
      if key in table then Settle(table[key](req)) else NotFound()
  }

  /** A key not in the table is answered 404 `{message: "Not Found"}` with the CORS headers. */
  lemma UnknownRouteNotFound(routes: Routes, req: Request)
    requires routes.Built? && RouteKey(req) !in routes.table
    ensures var r := Handle(routes, req);
      r.statusCode == 404 && r.headers == CorsHeaders() && r.body == [Member("message", String(NotFoundText))]
  {
  }

  /** A key in the table invokes the handler bound to it, and its response is passed on unchanged. */
  lemma DispatchPassesResponse(routes: Routes, req: Request, response: Response)
    requires routes.Built? && RouteKey(req) in routes.table
    requires routes.table[RouteKey(req)](req) == Returned(response)
    ensures Handle(routes, req) == response
  {
  }

  /** A fault while building the table or inside the dispatched handler becomes a 500 that carries its message. */
  lemma FaultsBecomeInternalErrors(routes: Routes, req: Request, f: Fault)
    requires || routes == BuildFault(f)
             || (routes.Built? && RouteKey(req) in routes.table && routes.table[RouteKey(req)](req) == Threw(f))
    ensures var r := Handle(routes, req);
      && r.statusCode == 500 && r.headers == CorsHeaders()
      && r.body == [Member("message", String(InternalServerError)), Member("error", String(f.message))]
  {
  }

  /** Every handler in the table answers with the CORS headers whenever it returns. */
  ghost predicate KeepsCors(routes: Routes)
  {
    routes.Built? ==>
      forall k, q :: k in routes.table ==>
        (routes.table[k](q).Returned? ==> routes.table[k](q).response.headers == CorsHeaders())
  }

  /** If the handlers keep the CORS headers, every response of the router carries them. */
  lemma HandleKeepsCors(routes: Routes, req: Request)
    requires KeepsCors(routes)
    ensures Handle(routes, req).headers == CorsHeaders()
  {
  }

  // ---------------------------------------------------------------------------
  // The route table: as shipped, and as intended
  // ---------------------------------------------------------------------------

  /** The seven (method, resource template) pairs the table serves, in the literal's order. */
  const Endpoints: seq<(string, string)> := [
    ("POST", "/signup"),
    ("POST", "/signin"),
    ("GET", "/tables"),
    ("POST", "/tables"),
    ("GET", "/tables/{tableId}"),
    ("GET", "/reservations"),
    ("POST", "/reservations")]

  /** The keys of the route table literal, in order: "POST /signup", "POST /signin", ... */
  function RouteKeys(): (keys: seq<string>)
    ensures |keys| == |Endpoints|
    ensures forall i, j :: 0 <= i < j < |keys| ==> keys[i] != keys[j]
  {
    EndpointKeysAllDistinct();
    seq(|Endpoints|, i requires 0 <= i < |Endpoints| => Key(Endpoints[i].0, Endpoints[i].1))
  }

  /** The route table literal, given the right-hand side of each of its properties. */
  function RouteLiteral(bindings: seq<Binding>): (entries: seq<RouteEntry>)
    requires |bindings| == |RouteKeys()|
    ensures |entries| == |RouteKeys()|
    ensures forall i :: 0 <= i < |entries| ==> entries[i] == RouteEntry(RouteKeys()[i], bindings[i])
    ensures forall i, j :: 0 <= i < j < |entries| ==> entries[i].key != entries[j].key
  {
    seq(|RouteKeys()|, i requires 0 <= i < |RouteKeys()| => RouteEntry(RouteKeys()[i], bindings[i]))
  }

  /** The signin handler as a route handler: it always returns. */
  function SigninHandler(cfg: Config, idp: AuthRequest -> AuthOutcome): Request -> Completion
  {
    (req: Request) => Returned(Signin(cfg, req.body, idp).response)
  }

  /** The table as shipped: only handleSignin is declared; the six other names are not. */
  function ShippedEntries(cfg: Config, idp: AuthRequest -> AuthOutcome): (entries: seq<RouteEntry>)
    ensures |entries| == |RouteKeys()| && entries[0].binding == Undeclared("handleSignup")
    ensures forall i :: 0 <= i < |entries| ==> entries[i].key == RouteKeys()[i]
    ensures forall i :: 0 <= i < |entries| ==> (entries[i].binding.Defined? <==> i == 1)
  {
    RouteLiteral([Undeclared("handleSignup"), Defined(SigninHandler(cfg, idp)), Undeclared("handleGetTables"),
                  Undeclared("handleCreateTable"), Undeclared("handleGetTableById"),
                  Undeclared("handleGetReservations"), Undeclared("handleCreateReservation")])
  }

  /** The six handlers the table names besides signin; they are not part of this model. */
  datatype Handlers = Handlers(
    signup: Request -> Completion,
    getTables: Request -> Completion,
    createTable: Request -> Completion,
    getTableById: Request -> Completion,
    getReservations: Request -> Completion,
    createReservation: Request -> Completion)

  /** The handler bound to each key of the intended table, in the literal's order. */
  function IntendedHandlers(cfg: Config, idp: AuthRequest -> AuthOutcome, hs: Handlers): seq<Request -> Completion>
  {
    [hs.signup, SigninHandler(cfg, idp), hs.getTables, hs.createTable, hs.getTableById,
     hs.getReservations, hs.createReservation]
  }

  /** The table as intended: every name bound to a declared handler. */
  function IntendedEntries(cfg: Config, idp: AuthRequest -> AuthOutcome, hs: Handlers): seq<RouteEntry>
  {
    var handlers := IntendedHandlers(cfg, idp, hs);
    RouteLiteral(seq(|handlers|, i requires 0 <= i < |handlers| => Defined(handlers[i])))
  }

  /** A table literal whose first property names an undeclared handler throws a ReferenceError naming it. */
  lemma FirstUndeclaredFails(entries: seq<RouteEntry>, name: string)
    requires |entries| > 0 && entries[0].binding == Undeclared(name)
    ensures BuildRoutes(entries) == BuildFault(NotDefined(name))
  {
  }

  /** As shipped, evaluating the table throws on its first property, so every request is answered 500. */
  lemma ShippedAlwaysFails(cfg: Config, idp: AuthRequest -> AuthOutcome, req: Request)
    ensures var r := Handle(BuildRoutes(ShippedEntries(cfg, idp)), req);
      && r.statusCode == 500 && r.headers == CorsHeaders()
      && r.body == [Member("message", String(InternalServerError)), Member("error", String("handleSignup is not defined"))]
  {
    var f := NotDefined("handleSignup");
    assert f.message == "handleSignup is not defined" by { }
    assert Handle(BuildRoutes(ShippedEntries(cfg, idp)), req) == InternalError(f) by {
      FirstUndeclaredFails(ShippedEntries(cfg, idp), "handleSignup");
    }
  }

  /** A key with exactly one space determines the two parts it was built from. */
  lemma {:induction false} SplitAtOnlySpace(m: string, r: string, a: string, b: string)
    requires Key(m, r) == Key(a, b)
    requires ' ' !in a && ' ' !in b
    ensures m == a && r == b
  {
    var k := a + " " + b;
    assert k[|m|] == (m + " " + r)[|m|] == ' ';
    assert forall j :: 0 <= j < |a| ==> k[j] == a[j];
    assert forall j :: |a| < j < |k| ==> k[j] == b[j - |a| - 1];
    assert |m| == |a|;
    assert m == (m + " " + r)[..|m|] == k[..|a|] == a;
    assert r == (m + " " + r)[|m| + 1..] == k[|a| + 1..] == b;
  }

  /** No method or resource of the table contains a space. */
  lemma EndpointHasNoSpace(i: int)
    requires 0 <= i < |Endpoints|
    ensures ' ' !in Endpoints[i].0 && ' ' !in Endpoints[i].1
  {
    if i == 0 { } else if i == 1 { } else if i == 2 { } else if i == 3 { }
    else if i == 4 { } else if i == 5 { } else { }
  }

  /** A table that was built holds exactly the keys the literal writes. */
  lemma {:induction false} BuiltKeys(entries: seq<RouteEntry>)
    requires BuildRoutes(entries).Built?
    ensures BuildRoutes(entries).table.Keys == set e | e in entries :: e.key
  {
    if entries != [] {
      assert entries == [entries[0]] + entries[1..];
      BuiltKeys(entries[1..]);
    }
  }

  /** In a fully declared table, a key bound only once maps to its own handler. */
  lemma {:induction false} BuiltBinding(entries: seq<RouteEntry>, i: int)
    requires BuildRoutes(entries).Built?
    requires 0 <= i < |entries|
    requires forall j :: i < j < |entries| ==> entries[j].key != entries[i].key
    ensures entries[i].key in BuildRoutes(entries).table
    ensures BuildRoutes(entries).table[entries[i].key] == entries[i].binding.handler
  {
    assert entries == [entries[0]] + entries[1..];
    var rest := BuildRoutes(entries[1..]);
    assert rest.Built?;
    if i == 0 {
      BuiltKeys(entries[1..]);
      assert entries[0].key !in rest.table by {
        forall e | e in entries[1..] ensures e.key != entries[0].key {
          var j :| 0 <= j < |entries[1..]| && entries[1..][j] == e;
          assert entries[j + 1] == e;
        }
      }
    } else {
      BuiltBinding(entries[1..], i - 1);
      assert entries[1..][i - 1] == entries[i];
    }
  }

  /** Two different endpoints of the table have different keys. */
  lemma EndpointKeysDistinct(i: int, j: int)
    requires 0 <= i < j < |Endpoints|
    ensures Key(Endpoints[i].0, Endpoints[i].1) != Key(Endpoints[j].0, Endpoints[j].1)
  {
    assert Endpoints[i] != Endpoints[j];
    EndpointHasNoSpace(i);
    if Key(Endpoints[i].0, Endpoints[i].1) == Key(Endpoints[j].0, Endpoints[j].1) {
      SplitAtOnlySpace(Endpoints[j].0, Endpoints[j].1, Endpoints[i].0, Endpoints[i].1);
      assert false;
    }
  }

  /** No two properties of the literal share a key, so none overrides another. */
  lemma EndpointKeysAllDistinct()
    ensures forall i, j :: 0 <= i < j < |Endpoints| ==>
      Key(Endpoints[i].0, Endpoints[i].1) != Key(Endpoints[j].0, Endpoints[j].1)
  {
    forall i, j | 0 <= i < j < |Endpoints|
      ensures Key(Endpoints[i].0, Endpoints[i].1) != Key(Endpoints[j].0, Endpoints[j].1)
    {
      EndpointKeysDistinct(i, j);
    }
  }

  /** The intended table. */
  function IntendedRoutes(cfg: Config, idp: AuthRequest -> AuthOutcome, hs: Handlers): Routes
  {
    BuildRoutes(IntendedEntries(cfg, idp, hs))
  }

  /** The intended table is built and binds exactly the seven keys of the literal. */
  lemma IntendedKeys(cfg: Config, idp: AuthRequest -> AuthOutcome, hs: Handlers)
    ensures IntendedRoutes(cfg, idp, hs).Built?
    ensures forall k :: k in IntendedRoutes(cfg, idp, hs).table <==> k in RouteKeys()
  {
    var entries := IntendedEntries(cfg, idp, hs);
    var routes := IntendedRoutes(cfg, idp, hs);
    assert forall i :: 0 <= i < |entries| ==> entries[i].binding.Defined?;
    assert routes.Built?;
    BuiltKeys(entries);
    forall k ensures k in routes.table <==> k in RouteKeys() {
      if k in routes.table {
        var e :| e in entries && e.key == k;
        var i :| 0 <= i < |entries| && entries[i] == e;
        assert RouteKeys()[i] in RouteKeys();
      }
      if k in RouteKeys() {
        var i :| 0 <= i < |RouteKeys()| && RouteKeys()[i] == k;
        assert entries[i] in entries;
      }
    }
  }

  /** Each key of the intended table is bound to the handler written beside it. */
  lemma IntendedTable(cfg: Config, idp: AuthRequest -> AuthOutcome, hs: Handlers, i: int)
    requires 0 <= i < |RouteKeys()|
    ensures IntendedRoutes(cfg, idp, hs).Built?
    ensures RouteKeys()[i] in IntendedRoutes(cfg, idp, hs).table
    ensures IntendedRoutes(cfg, idp, hs).table[RouteKeys()[i]] == IntendedHandlers(cfg, idp, hs)[i]
  {
    var entries := IntendedEntries(cfg, idp, hs);
    IntendedKeys(cfg, idp, hs);
    BuiltBinding(entries, i);
  }

  /** The endpoint a request asks for, as its route key spells it. */
  function Endpoint(req: Request): (string, string)
  {
    (Interpolate(req.httpMethod), Interpolate(req.resource))
  }

  /** A request's key equals a key of the literal exactly when it asks for that key's endpoint. */
  lemma KeyMatchesEndpoint(req: Request, i: int)
    requires 0 <= i < |Endpoints|
    ensures |RouteKeys()| == |Endpoints|
    ensures RouteKey(req) == RouteKeys()[i] <==> Endpoint(req) == Endpoints[i]
  {
    EndpointHasNoSpace(i);
    if RouteKey(req) == RouteKeys()[i] {
      SplitAtOnlySpace(Endpoint(req).0, Endpoint(req).1, Endpoints[i].0, Endpoints[i].1);
    }
  }

  /** Intended dispatch: a request reaches the table exactly when its (method, resource) pair is one of the seven endpoints. */
  lemma IntendedMatches(cfg: Config, idp: AuthRequest -> AuthOutcome, hs: Handlers, req: Request)
    ensures IntendedRoutes(cfg, idp, hs).Built?
    ensures RouteKey(req) in IntendedRoutes(cfg, idp, hs).table <==> Endpoint(req) in Endpoints
  {
    var routes := IntendedRoutes(cfg, idp, hs);
    IntendedKeys(cfg, idp, hs);
    if RouteKey(req) in routes.table {
      var i :| 0 <= i < |RouteKeys()| && RouteKeys()[i] == RouteKey(req);
      KeyMatchesEndpoint(req, i);
      assert Endpoints[i] in Endpoints;
    }
    if Endpoint(req) in Endpoints {
      var i :| 0 <= i < |Endpoints| && Endpoints[i] == Endpoint(req);
      KeyMatchesEndpoint(req, i);
      assert RouteKeys()[i] in RouteKeys();
    }
  }

  /** A request for the i-th endpoint invokes the handler written beside it, and nothing else. */
  lemma IntendedDispatch(cfg: Config, idp: AuthRequest -> AuthOutcome, hs: Handlers, req: Request, i: int)
    requires 0 <= i < |Endpoints| && Endpoint(req) == Endpoints[i]
    ensures Handle(IntendedRoutes(cfg, idp, hs), req) == Settle(IntendedHandlers(cfg, idp, hs)[i](req))
  {
    KeyMatchesEndpoint(req, i);
    IntendedTable(cfg, idp, hs, i);
  }

  /** A request for any other (method, resource) pair is answered 404. */
  lemma IntendedNotFound(cfg: Config, idp: AuthRequest -> AuthOutcome, hs: Handlers, req: Request)
    requires Endpoint(req) !in Endpoints
    ensures Handle(IntendedRoutes(cfg, idp, hs), req) == NotFound()
  {
    IntendedMatches(cfg, idp, hs, req);
  }

  /** Intended dispatch of `POST /signin` runs the signin handler. */
  lemma IntendedSignin(cfg: Config, idp: AuthRequest -> AuthOutcome, hs: Handlers, req: Request)
    requires req.httpMethod == Some("POST") && req.resource == Some("/signin")
    ensures Handle(IntendedRoutes(cfg, idp, hs), req) == Signin(cfg, req.body, idp).response
  {
    assert Endpoint(req) == Endpoints[1];
    IntendedDispatch(cfg, idp, hs, req, 1);
    SigninBinding(cfg, idp, hs, req);
  }

  /** The second property of the intended table is the sign-in handler. */
  lemma SigninBinding(cfg: Config, idp: AuthRequest -> AuthOutcome, hs: Handlers, req: Request)
    ensures Settle(IntendedHandlers(cfg, idp, hs)[1](req)) == Signin(cfg, req.body, idp).response
  {
    var handler := IntendedHandlers(cfg, idp, hs)[1];
    assert handler == SigninHandler(cfg, idp);
  }

  /** A CORS preflight (OPTIONS) and a request without a method are not routed: they get 404. */
  lemma IntendedUnroutedMethods(cfg: Config, idp: AuthRequest -> AuthOutcome, hs: Handlers, req: Request)
    requires req.httpMethod == Some("OPTIONS") || req.httpMethod == None
    ensures Handle(IntendedRoutes(cfg, idp, hs), req) == NotFound()
  {
    assert Endpoint(req).0 in {"OPTIONS", "undefined"};
    forall i | 0 <= i < |Endpoints| ensures Endpoints[i] != Endpoint(req) {
      assert Endpoints[i].0 in {"GET", "POST"};
    }
    IntendedNotFound(cfg, idp, hs, req);
  }

  /** A route handler that answers with the CORS headers whenever it returns. */
  ghost predicate CorsOnReturn(h: Request -> Completion)
  {
    forall q :: h(q).Returned? ==> h(q).response.headers == CorsHeaders()
  }

  /** The signin route never throws, and it always answers with the CORS headers. */
  lemma SigninHandlerKeepsCors(cfg: Config, idp: AuthRequest -> AuthOutcome)
    ensures forall q :: SigninHandler(cfg, idp)(q).Returned?
    ensures CorsOnReturn(SigninHandler(cfg, idp))
  {
    forall q ensures SigninHandler(cfg, idp)(q).Returned? && SigninHandler(cfg, idp)(q).response.headers == CorsHeaders() {
      assert SigninHandler(cfg, idp)(q) == Returned(Signin(cfg, q.body, idp).response);
    }
  }

  /** The handlers written in the intended table keep the CORS headers if the six other handlers do. */
  lemma IntendedHandlersKeepCors(cfg: Config, idp: AuthRequest -> AuthOutcome, hs: Handlers, i: int)
    requires CorsOnReturn(hs.signup) && CorsOnReturn(hs.getTables) && CorsOnReturn(hs.createTable)
    requires CorsOnReturn(hs.getTableById) && CorsOnReturn(hs.getReservations) && CorsOnReturn(hs.createReservation)
    requires 0 <= i < |Endpoints|
    ensures CorsOnReturn(IntendedHandlers(cfg, idp, hs)[i])
  {
    var handlers := IntendedHandlers(cfg, idp, hs);
    if i == 1 {
      SigninHandlerKeepsCors(cfg, idp);
      assert handlers[1] == SigninHandler(cfg, idp);
    } else if i == 0 { assert handlers[0] == hs.signup; }
    else if i == 2 { assert handlers[2] == hs.getTables; }
    else if i == 3 { assert handlers[3] == hs.createTable; }
    else if i == 4 { assert handlers[4] == hs.getTableById; }
    else if i == 5 { assert handlers[5] == hs.getReservations; }
    else { assert handlers[6] == hs.createReservation; }
  }

  /** With the intended table, every response carries the CORS headers, provided the six other handlers' do. */
  lemma IntendedKeepsCors(cfg: Config, idp: AuthRequest -> AuthOutcome, hs: Handlers, req: Request)
    requires CorsOnReturn(hs.signup) && CorsOnReturn(hs.getTables) && CorsOnReturn(hs.createTable)
    requires CorsOnReturn(hs.getTableById) && CorsOnReturn(hs.getReservations) && CorsOnReturn(hs.createReservation)
    ensures Handle(IntendedRoutes(cfg, idp, hs), req).headers == CorsHeaders()
  {
    if Endpoint(req) in Endpoints {
      var i :| 0 <= i < |Endpoints| && Endpoint(req) == Endpoints[i];
      IntendedDispatch(cfg, idp, hs, req, i);
      IntendedHandlersKeepCors(cfg, idp, hs, i);
      var c := IntendedHandlers(cfg, idp, hs)[i](req);
      assert c.Returned? ==> c.response.headers == CorsHeaders();
    } else {
      IntendedNotFound(cfg, idp, hs, req);
    }
  }

  // ---------------------------------------------------------------------------
  // Worked examples
  // ---------------------------------------------------------------------------

  /** An empty email is answered 400 without calling the identity provider. */
  lemma SigninEmptyEmailExample(cfg: Config, idp: AuthRequest -> AuthOutcome)
    ensures var run := Signin(cfg, Parsed(Some(String("")), Some(String("x"))), idp);
      run.calls == [] && run.response.statusCode == 400
      && run.response.body == [Member("error", String(MissingCredentials))]
  {
  }

  /** Tokens "a", "b" and 3600 from the identity provider come back as accessToken, refreshToken and expiresIn. */
  lemma SigninTokensExample(cfg: Config, idp: AuthRequest -> AuthOutcome)
    requires idp(CognitoRequest(cfg, String("user@example.com"), String("pw"))) ==
      Authenticated(Some(AuthenticationResult(Some("a"), Some("b"), Some(3600))))
    ensures var r := Signin(cfg, Parsed(Some(String("user@example.com")), Some(String("pw"))), idp).response;
      r.statusCode == 200
      && r.body == [Member("accessToken", String("a")), Member("refreshToken", String("b")), Member("expiresIn", Number(3600))]
  {
    var body := Parsed(Some(String("user@example.com")), Some(String("pw")));
    var result := Some(AuthenticationResult(Some("a"), Some("b"), Some(3600)));
    var props := [Property("accessToken", Some(String("a"))), Property("refreshToken", Some(String("b"))),
                  Property("expiresIn", Some(Number(3600)))];
    assert Accepted(body);
    assert Signin(cfg, body, idp).response == FormatResponse(200, TokenProperties(result));
    assert TokenProperties(result) == props;
    assert Serialize(props[2..]) == [Member("expiresIn", Number(3600))];
    assert Serialize(props[1..]) == [Member("refreshToken", String("b"))] + Serialize(props[2..]);
  }
}
