# Verified model of the user API's request gate, error replies and broadcast registry

The user-management API (Fastify over Prisma) has three small pieces of logic
with behaviour that can be stated exactly. This project models them in Dafny and
proves their properties:

- **The authorization gate** (`authenticate(roles)` in the API middleware). It
  builds a request handler. The handler takes the second space-separated field
  of the `Authorization` header as the token. It asks the token verifier
  (`jwt.verify`) for the `{id, role}` the token carries, attaches that identity
  to the request, and then applies the optional role allow-list. Each call ends
  with a 401 reply, a 403 reply, or no reply; when the handler is registered as
  a route's hook, no reply means the route runs. No route in the repository
  registers it yet. Files: `auth_middleware.dfy`, with the header split in `js_split.dfy`.
- **The error classifier** (`getErrorMessage(error, reply)`). Controllers call it
  on any caught error. It picks one status and one JSON body from the error's
  `name`, `code`, `statusCode`, `meta.cause` and `message`, trying them in a fixed
  order. File: `errors.dfy`.
- **The broadcast registry** (`WebSocketClient`). It is a set of connected clients
  with add, remove and broadcast. File: `web_socket_client.dfy`.

How the model is built:

- The gate is a pure function, `Decide`. It returns the outcome and the identity
  attached to the request.
- The handler itself is the method `Authenticate`. It works on a `Request` object
  whose `user` field it assigns, and its contract ties it to `Decide`.
- The verifier is a parameter: any function from token text to `Valid(identity)`
  or `Invalid`. "The verifier is not consulted" is stated as "the decision is the
  same for every verifier".
- The classifier is a function over an `AppError` whose fields are JavaScript
  values. JavaScript truthiness is `Truthy`, and `a || b` is `Or`. It has a
  partner: the same precedence written as an ordered list of rules, where the
  first rule that applies answers (`Priority`, `FirstApplicable`,
  `FollowsPriority`).
- The registry is a class with a `set` field. `Broadcast` returns the sends it
  performs (`Delivery(to, message)`) instead of doing the socket I/O.

Two places where the code does less than a reader might expect; the model
follows the code:

- Section 2.1 of RFC 6750 expects the `Bearer` scheme in the `Authorization`
  header, but the code never checks the first word (`SchemeNotChecked`).
- The gate answers 403 "Forbidden" whether `jwt.verify` fails on an expired or on
  a malformed token (`VerifyFailureForbidden`), while `getErrorMessage` answers
  401 for `TokenExpiredError` and 400 for `JsonWebTokenError`.

## Model

| member | source | states |
|---|---|---|
| `JsSplit.Split` | packages/api/middleware/authMiddleware.ts:14 | `split(" ")` gives at least one piece, no piece contains a space, and joining the pieces with single spaces gives the header back |
| `JsSplit.SplitJoin` | packages/api/middleware/authMiddleware.ts:14 | splitting the space-join of space-free pieces gives back exactly those pieces, so the split is the unique such cutting |
| `AuthMiddleware.ExtractToken` | packages/api/middleware/authMiddleware.ts:13-14 | a token exists exactly when the header is present and contains a space; the token never contains a space |
| `AuthMiddleware.HasToken` | packages/api/middleware/authMiddleware.ts:16 | the negation of `!token`: a token was extracted and it is not the empty string |
| `AuthMiddleware.RoleAllowed` | packages/api/middleware/authMiddleware.ts:25 | the negation of `roles.length && !roles.includes(decoded.role)`: the list is empty or holds the role |
| `AuthMiddleware.Request.constructor` | packages/api/middleware/authMiddleware.ts:12-23 | a request carries its `authorization` header and the `user` slot that the gate assigns, set as given |
| `AuthMiddleware.Decide` | packages/api/middleware/authMiddleware.ts:11-34 | every call ends in exactly one of 401 "Unauthorized", 403 "Forbidden", 403 "Access denied for this role" or pass; 401 happens exactly when the extracted token is absent or empty; an identity is attached exactly when the token verifies |
| `AuthMiddleware.Authenticate` | packages/api/middleware/authMiddleware.ts:11-34 | the handler (roles default to the empty list) returns the outcome of `Decide`; `request.user` becomes the decoded identity whenever the token verifies, even when the role is then denied, and is left untouched otherwise |
| `AuthMiddleware.TokenIsSecondField` | packages/api/middleware/authMiddleware.ts:14 | for a header `w t` or `w t rest` with space-free `w` and `t`, the token is exactly `t` |
| `AuthMiddleware.SchemeNotChecked` | packages/api/middleware/authMiddleware.ts:14 | any space-free first word gives the same decision as `Bearer`, for headers with two fields and for headers with further fields after the token |
| `AuthMiddleware.MalformedHeadersUnauthorized` | packages/api/middleware/authMiddleware.ts:13-16 | no header, an empty header, `"Bearer"` and `"Bearer  x"` all give 401 with nothing attached |
| `AuthMiddleware.NoTokenIgnoresVerifier` | packages/api/middleware/authMiddleware.ts:16 | without a usable token every verifier gives the same decision (401, nothing attached), so the verifier is not consulted |
| `AuthMiddleware.VerifierSeesOnlyToken` | packages/api/middleware/authMiddleware.ts:14-19 | two verifiers that agree on the extracted token give the same decision, so the verifier is asked about that token only |
| `AuthMiddleware.VerifyFailureForbidden` | packages/api/middleware/authMiddleware.ts:18-32 | any verifier failure gives 403 "Forbidden" and leaves `request.user` untouched |
| `AuthMiddleware.EmptyRolesAllowEveryone` | packages/api/middleware/authMiddleware.ts:11-29 | with the default empty allow-list every verified token passes, whatever its role, with its identity attached |
| `AuthMiddleware.VerifiedDecidedByRole` | packages/api/middleware/authMiddleware.ts:23-29 | for a verified token the identity is always attached; it passes exactly when the list is empty or holds the role, and gets 403 "Access denied for this role" exactly otherwise |
| `AuthMiddleware.ProceedMeansAuthorized` | packages/api/middleware/authMiddleware.ts:16-29 | passing implies a token, a successful verification, a permitted role and that identity attached |
| `Errors.Truthy` | packages/utils/errors.ts:22-32 | JavaScript truthiness of a field: `false`, `0`, `""`, `null` and `undefined` are falsy, every other value is truthy |
| `Errors.Or` | packages/utils/errors.ts:24-32 | `a \|\| b`: the first operand when it is truthy, otherwise the second |
| `Errors.CauseOf` | packages/utils/errors.ts:27 | `error.meta?.cause`: `undefined` when `meta` is absent, else its `cause` |
| `Errors.GetErrorMessage` | packages/utils/errors.ts:7-43 | exactly one reply; its status is truthy and is 401, 400, 500 or the error's own `statusCode`; a `{code, message}` body's code equals the status; the message is never falsy; the `{errorCode, message}` shape is used exactly when neither token name matches and `code` is truthy |
| `Errors.FirstApplicable` | packages/utils/errors.ts:8-42 | the rule chosen applies, comes from the list, and no rule before it in the list applies; when none is chosen, none applies |
| `Errors.FollowsPriority` | packages/utils/errors.ts:8-42 | the reply is the answer of the first rule, in the order expired token, invalid token, code, message, fallback, whose guard holds |
| `Errors.ExpiredTokenWins` | packages/utils/errors.ts:8-13 | `name == "TokenExpiredError"` gives 401 "Token has expired, please log in again." whatever the other fields |
| `Errors.InvalidTokenWins` | packages/utils/errors.ts:15-20 | `name == "JsonWebTokenError"` gives 400 "Invalid token, please provide a valid token." whatever the other fields |
| `Errors.CodedError` | packages/utils/errors.ts:22-29 | otherwise a truthy `code` gives status `statusCode`, or 400 when that is falsy, and body `{errorCode: code, message: meta.cause or "An error occurred"}`; `message` plays no part |
| `Errors.MessageError` | packages/utils/errors.ts:31-37 | otherwise a truthy `message` gives status `statusCode`, or 500 when that is falsy, and body `{code: status, message}`; `meta` plays no part |
| `Errors.UnknownError` | packages/utils/errors.ts:39-42 | with none of the fields set: 500 "An unknown error occurred." |
| `Errors.PlainErrorIs500` | packages/api/test/userController.test.ts:69-78 | `new Error("Error creating user")` gives 500 `{code: 500, message: "Error creating user"}` |
| `WebSocket.WebSocketClient.constructor` | packages/utils/webSocketClient.ts:2 | the registry starts empty |
| `WebSocket.WebSocketClient.AddClient` | packages/utils/webSocketClient.ts:4-6 | the client is registered afterwards and no other client is added or removed |
| `WebSocket.WebSocketClient.RemoveClient` | packages/utils/webSocketClient.ts:8-10 | exactly that client leaves and every other client stays; removing an unregistered client changes nothing |
| `WebSocket.WebSocketClient.Broadcast` | packages/utils/webSocketClient.ts:12-16 | every send carries the message, each registered client is sent to exactly once and no other client is sent to; the registry is outside its frame, so it is unchanged |
| `WebSocket.AddTwice` | packages/utils/webSocketClient.ts:4-6 | adding an already registered client leaves the registry unchanged |
| `WebSocket.AddThenRemove` | packages/utils/webSocketClient.ts:4-10 | adding and then removing a client that was not registered restores the registry |

## Left out

- Token verification itself (signature and expiry checks under RFC 7519, and the secret read from `JWT_SECRET`) is a cryptographic library call. The model takes the verifier as a parameter.
- AuthMiddleware.Authenticate: does not model a verified payload that is not an object `{id, role}` (for example a string payload); the verifier parameter always yields an `Identity`.
- AuthMiddleware.Authenticate: does not model a failure of `reply.code(403).send(...)` inside the `try` block, which the `catch` would turn into 403 "Forbidden"; sending a reply is not modelled as something that can fail.
- The `reply` objects of both the gate and the classifier become returned values (`Outcome`, `Reply`). Fastify's own handling of a sent reply and of the async handler's result is not modelled.
- Errors.GetErrorMessage: does not model a thrown `null` or `undefined`, whose `error.name` would throw a `TypeError`. Numbers are integers only, so `NaN` and fractional status codes are not modelled. Fastify's checking of the value passed to `reply.code` is not modelled.
- WebSocket.WebSocketClient.Broadcast: does not model the insertion order in which a JavaScript `Set` is iterated; any order is allowed. A `send` that throws and stops the loop part-way is not modelled.
- The registry is a single static field in the source. Here it is an object, so the model does not capture that the registry is shared by the whole process.
- Sign-up, sign-in, password hashing, token issuance and refresh-token rotation are not part of this model. The service module `packages/services/userService.ts` is four plain Prisma calls with no such logic.
- The controllers, routes, request schemas, the image upload service and server start-up are framework and third-party plumbing, and are not part of this model.
