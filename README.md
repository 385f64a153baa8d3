# API handler of the reservation service, in Dafny

This project models the HTTP handler of the API Lambda function in
`task11/app/lambdas/api_handler/index.js`. The handler does four things:

- It evaluates a route table literal keyed by `"<httpMethod> <resource>"`.
- It dispatches the request to the handler bound to its key, or answers 404 `{message: "Not Found"}`.
- It turns any error thrown inside its `try` block into a 500 `{message: "Internal Server Error", error: <message>}`.
- It always attaches the four CORS headers.

The only route handler defined in the file is `handleSignin`. It parses the body and checks the email and password. It then calls the identity provider's adminInitiateAuth, answers with the tokens, and maps the provider's errors to fixed messages.

Everything is a pure function:

- A request is a `Request` value whose body arrives already parsed (`Body`).
- The environment variables are a `Config`.
- The identity provider is a function parameter `AuthRequest -> AuthOutcome`.
- A run of the signin handler reports its response and the list of provider calls it made (`SigninRun`).
- A route handler is a function `Request -> Completion`. It either returns a response or throws a `Fault`.
- `JSON.stringify` is `Json.Serialize`. It turns an object literal into the sequence of its members and drops every property whose value is `undefined` (ECMA-262, JSON.stringify / SerializeJSONObject). The exact text of the JSON is not modelled.

The route table is modelled as the literal it is. It is a sequence of `(key, right-hand side)` entries, evaluated in order by `BuildRoutes`. The right-hand side is either a declared handler or an undeclared name.

- **As shipped** (`ShippedEntries`), six of the seven names are not declared anywhere in the file. Evaluating the literal throws a ReferenceError on its first property. Every request, to any path, is therefore answered 500 with `error: "handleSignup is not defined"` (see Findings).
- **As intended** (`IntendedEntries`), the six missing handlers are parameters (`Handlers`). The lemmas show that each of the seven endpoints reaches the handler written beside it, and that every other method/resource pair gets 404.

Some behaviours of the code are easy to miss:

- The credential check is JavaScript truthiness (`!email || !password`), not "non-empty strings". `0`, `false`, `null` and `""` are rejected, while any array or object (even `[]` or `{}`) and any non-zero number is accepted and passed on to the identity provider (`Truthy`, `SigninRejectsMissingCredentials`).
- A body that is not JSON, or that parses to `null` (including a missing body), faults inside the signin handler. It is answered 500 `{error: "Internal Server Error"}`, not 400 (`SigninBodyFaults`).
- The CORS headers advertise `OPTIONS`, but no `OPTIONS` route exists. With the intended table, a preflight that reaches this function is answered 404 (`IntendedUnroutedMethods`). As shipped, it gets 500 like every other request.

A route key always contains a space, and no inherited property of a JavaScript object has a space in its name. Looking a key up in the literal is therefore exactly map membership (`Handle`).

## Model

| member | source | states |
|---|---|---|
| Json.Serialize | task11/app/lambdas/api_handler/index.js:108-114 | JSON.stringify of an object literal: a member k:v appears iff the literal has property k with defined value v; it never has more members than the literal has properties |
| Json.SerializeDefined | task11/app/lambdas/api_handler/index.js:108-114 | with no `undefined` property, every property becomes a member, in the literal's order |
| ApiHandler.CorsHeaders | task11/app/lambdas/api_handler/index.js:98-105 | the CORS header set has exactly four distinct headers |
| ApiHandler.FormatResponse | task11/app/lambdas/api_handler/index.js:108-114 | the status is the one given, the headers are the CORS headers, and the body holds exactly the defined properties given |
| ApiHandler.NotFound | task11/app/lambdas/api_handler/index.js:36-40 | 404 with CORS headers and body `{message: "Not Found"}` |
| ApiHandler.InternalError | task11/app/lambdas/api_handler/index.js:42-52 | 500 with CORS headers and body `{message: "Internal Server Error", error: <fault message>}` |
| ApiHandler.ErrorResponse | task11/app/lambdas/api_handler/index.js:60 | `{error: text}` with the given status and the CORS headers |
| ApiHandler.Truthy | task11/app/lambdas/api_handler/index.js:59 | a property value is falsy exactly when it is undefined, null, false, 0 or "" |
| ApiHandler.SigninFault | task11/app/lambdas/api_handler/index.js:84-94 | the catch block answers with the CORS headers, 400 exactly for NotAuthorizedException and UserNotFoundException, and otherwise 500 `{error: "Internal Server Error"}` |
| ApiHandler.Signin | task11/app/lambdas/api_handler/index.js:56-95 | signin never throws; it answers 200, 400 or 500, always with the CORS headers, after at most one identity-provider call |
| ApiHandler.SigninRejectsMissingCredentials | task11/app/lambdas/api_handler/index.js:58-61 | a parsed body with a falsy or missing email or password is answered 400 "Email and password are required." without calling the provider, and that is the only way to get a 400 with no call |
| ApiHandler.SigninBodyFaults | task11/app/lambdas/api_handler/index.js:57-93 | a body that does not parse or parses to null makes no provider call and is answered 500 `{error: "Internal Server Error"}` |
| ApiHandler.SigninCallsIdentityProvider | task11/app/lambdas/api_handler/index.js:59-75 | the provider is called iff the credentials are truthy, exactly once, with ADMIN_USER_PASSWORD_AUTH, the configured pool and client, and the email and password as given |
| ApiHandler.TokenBodyValues | task11/app/lambdas/api_handler/index.js:79-83 | the success body holds accessToken = IdToken, refreshToken = RefreshToken and expiresIn = ExpiresIn exactly when the authentication result has them |
| ApiHandler.TokenBodyShape | task11/app/lambdas/api_handler/index.js:79-83 | the success body holds nothing but those three members, with string tokens and a numeric expiry |
| ApiHandler.SigninPassesTokensThrough | task11/app/lambdas/api_handler/index.js:75-83 | when the provider authenticates, signin answers 200 with exactly the tokens of its result; absent ones are omitted |
| ApiHandler.SigninMapsFaults | task11/app/lambdas/api_handler/index.js:84-94 | a provider error with code NotAuthorizedException gives 400 "Invalid email or password.", UserNotFoundException gives 400 "User does not exist.", and any other gives 500 "Internal Server Error" |
| ApiHandler.SigninNeverLeaksFaultDetail | task11/app/lambdas/api_handler/index.js:84-94 | every 500 from signin carries only the fixed text, never a fault's message |
| ApiHandler.SigninHandlerKeepsCors | task11/app/lambdas/api_handler/index.js:56-95 | the signin route handler never throws, and it always returns the CORS headers |
| ApiHandler.RouteKey | task11/app/lambdas/api_handler/index.js:33 | the key splits, at the length of the method's text, into that text, one space and the resource's text, each as a template literal renders it (`Interpolate`: a missing field is "undefined") |
| ApiHandler.Handle | task11/app/lambdas/api_handler/index.js:15-53 | the exported handler: when the table throws or the key is unknown it answers 404 or 500 with the CORS headers itself; any other status is the response of the handler bound to the request's key |
| ApiHandler.BuildRoutes | task11/app/lambdas/api_handler/index.js:24-32 | the literal evaluates to a table iff every right-hand side is declared; otherwise it throws "<name> is not defined" for the first undeclared name |
| ApiHandler.BuiltKeys | task11/app/lambdas/api_handler/index.js:24-32 | an evaluated table holds exactly the keys the literal writes |
| ApiHandler.BuiltBinding | task11/app/lambdas/api_handler/index.js:24-32 | a key written once in an evaluated table is bound to the handler written beside it |
| ApiHandler.RouteKeys | task11/app/lambdas/api_handler/index.js:24-32 | the literal has one key per endpoint, and no two of its keys are equal |
| ApiHandler.RouteLiteral | task11/app/lambdas/api_handler/index.js:24-32 | the i-th property of the literal pairs the i-th route key with the i-th right-hand side, and no property's key repeats another's, so none overrides another |
| ApiHandler.ShippedEntries | task11/app/lambdas/api_handler/index.js:24-32 | as shipped, only the second property (`POST /signin`) is bound to a declared handler; the other six name undeclared handlers, `handleSignup` first |
| ApiHandler.UnknownRouteNotFound | task11/app/lambdas/api_handler/index.js:33-40 | a request whose key is not in the table is answered 404 `{message: "Not Found"}` with the CORS headers |
| ApiHandler.DispatchPassesResponse | task11/app/lambdas/api_handler/index.js:33-41 | a request whose key is in the table gets the response of the handler bound to that key, unchanged |
| ApiHandler.FaultsBecomeInternalErrors | task11/app/lambdas/api_handler/index.js:22-52 | a fault while evaluating the table, or thrown by the dispatched handler, becomes a 500 carrying the fault's message |
| ApiHandler.HandleKeepsCors | task11/app/lambdas/api_handler/index.js:22-52 | if every handler in the table returns the CORS headers, every response of the router does |
| ApiHandler.FirstUndeclaredFails | task11/app/lambdas/api_handler/index.js:24-25 | a literal whose first right-hand side is undeclared throws the ReferenceError naming it |
| ApiHandler.ShippedAlwaysFails | task11/app/lambdas/api_handler/index.js:22-52 | as shipped, every request is answered 500 with CORS headers and `{message: "Internal Server Error", error: "handleSignup is not defined"}` |
| ApiHandler.SplitAtOnlySpace | task11/app/lambdas/api_handler/index.js:33 | a route key determines its method and resource when neither of the table's parts contains a space |
| ApiHandler.EndpointKeysDistinct | task11/app/lambdas/api_handler/index.js:24-32 | two different endpoints of the literal have different keys |
| ApiHandler.EndpointKeysAllDistinct | task11/app/lambdas/api_handler/index.js:24-32 | all seven keys of the literal are pairwise distinct |
| ApiHandler.KeyMatchesEndpoint | task11/app/lambdas/api_handler/index.js:33 | a request's key equals the i-th key of the literal iff its method and resource are the i-th endpoint |
| ApiHandler.IntendedKeys | task11/app/lambdas/api_handler/index.js:24-32 | with every handler declared, the table is built and holds exactly the seven keys |
| ApiHandler.IntendedTable | task11/app/lambdas/api_handler/index.js:24-32 | with every handler declared, each key is bound to the handler written beside it |
| ApiHandler.IntendedMatches | task11/app/lambdas/api_handler/index.js:33-34 | a request's key is in the intended table iff its (method, resource) pair is one of the seven endpoints |
| ApiHandler.IntendedDispatch | task11/app/lambdas/api_handler/index.js:24-41 | a request for the i-th endpoint is answered by the i-th handler, a thrown fault becoming the router's 500 |
| ApiHandler.IntendedNotFound | task11/app/lambdas/api_handler/index.js:34-40 | any other request is answered 404 |
| ApiHandler.IntendedSignin | task11/app/lambdas/api_handler/index.js:26 | `POST /signin` is answered exactly as the signin handler answers |
| ApiHandler.SigninBinding | task11/app/lambdas/api_handler/index.js:26 | the second property of the literal runs handleSignin on the request's body |
| ApiHandler.IntendedUnroutedMethods | task11/app/lambdas/api_handler/index.js:33-40 | an OPTIONS request, or one without a method, is answered 404 |
| ApiHandler.IntendedHandlersKeepCors | task11/app/lambdas/api_handler/index.js:24-32 | each handler of the intended table returns the CORS headers, given that the six unmodelled ones do |
| ApiHandler.IntendedKeepsCors | task11/app/lambdas/api_handler/index.js:22-52 | with the intended table, every response carries the CORS headers, given that the six unmodelled handlers' responses do |
| ApiHandler.SigninEmptyEmailExample | task11/app/lambdas/api_handler/index.js:59-61 | `{email: "", password: "x"}` is answered 400 "Email and password are required." without a provider call |
| ApiHandler.SigninTokensExample | task11/app/lambdas/api_handler/index.js:79-83 | tokens "a", "b" and expiry 3600 come back as `{accessToken: "a", refreshToken: "b", expiresIn: 3600}`, in that order |

## Left out

- The six other route handlers (signup, table listing/creation/lookup, reservation listing/creation) are not in the file. In the shipped table they are undeclared names. In the intended table they are opaque parameters (`Handlers`) whose behaviour is not modelled.
- The AWS SDK calls are not modelled. Cognito's adminInitiateAuth is the parameter `idp`. The DynamoDB client and `uuid` are never used by the modelled code.
- The environment is not read. `cup_id` and `cup_client_id` are the `Config` value, and `tables_table` and `reservations_table` are used only by the missing handlers.
- `console.log` / `console.error` output is left out, including the event fields (`path`, `headers.Authorization`, `body`) that are read only for logging.
- `async`/`await` is not modelled: a rejected promise is a thrown fault, and each call completes before the next step.
- JSON text is not modelled. `JSON.parse` is represented by its outcome (`Body`) and `JSON.stringify` by the member sequence (`Json.Serialize`). Escaping, whitespace and the exact text of a SyntaxError message are not modelled.
- `Json.Value` numbers are integers; fractional numbers are not modelled. Arrays and nested objects are one `Composite` value, because the handler only tests them for truthiness and passes them on.
- An event that is `null` or `undefined` is not modelled. The logging at index.js:16-21 runs before the `try` block, so such an event throws a TypeError that nothing in the handler catches. `Request` always has its three fields.
- Json.Serialize: it assumes the literal's keys are distinct. A JavaScript object literal that repeats a key keeps only the last value, while `Serialize` would keep both. No literal in the handler repeats a key.
- A thrown value that is not an Error object is not modelled. Such a value, for example a thrown string, has no `message` or `code`, and `Fault` always has a message.
- ApiHandler.CorsHeaders: its contract states only that there are four distinct headers. The header values are written in its body and are not restated in the contract.

## Findings

| source | as written | input that shows it | evidently intended | confidence | as-written member | corrected member |
|---|---|---|---|---|---|---|
| task11/app/lambdas/api_handler/index.js:24-32 | The route table names `handleSignup`, `handleGetTables`, `handleCreateTable`, `handleGetTableById`, `handleGetReservations` and `handleCreateReservation`, none of which is declared. Evaluating the literal throws a ReferenceError before any lookup. | any request, e.g. `POST /signin` with a valid body: 500 `{message: "Internal Server Error", error: "handleSignup is not defined"}` | every listed endpoint is dispatched to its handler, e.g. `POST /signin` runs handleSignin, and other requests get 404 | high; not executed | ApiHandler.ShippedAlwaysFails | ApiHandler.IntendedDispatch |
