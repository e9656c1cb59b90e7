/**
  The authorization gate meant for protected routes. `authenticate(roles)`
  builds a request handler that reads the `Authorization` header, takes its second
  space-separated field as the token, asks the token verifier for the identity
  `{id, role}` it carries, attaches that identity to the request and then applies
  the optional role allow-list. Each call ends with a 401 reply, a 403 reply, or
  no reply at all; registered as a route's hook, no reply means the route runs
  (no route in the repository registers it yet).

  The verifier (`jwt.verify` with the process secret) is an oracle here: any
  function from token text to `Valid(identity)` or `Invalid` (it throws).
*/
module AuthMiddleware {
  import opened Wrappers
  import JsSplit

  /** The decoded token payload `{id, role}`. */
  datatype Identity = Identity(id: int, role: string)

  /** What the verifier makes of a token: the payload, or a thrown error of any kind. */
  datatype Verified = Valid(decoded: Identity) | Invalid

  /** A reply sent by the gate (status and `{message}`), or no reply: the route proceeds. */
  datatype Outcome = Reject(status: int, message: string) | Proceed

  /** The outcome and the identity the gate attaches to the request (`None`: left untouched). */
  datatype Decision = Decision(outcome: Outcome, attached: Option<Identity>)

  const Unauthorized: Outcome := Reject(401, "Unauthorized")
  const Forbidden: Outcome := Reject(403, "Forbidden")
  const RoleDenied: Outcome := Reject(403, "Access denied for this role")

  /** The default allow-list of `authenticate`: empty, meaning every role. */
  const DefaultRoles: seq<string> := []

  /**
    `authHeader && authHeader.split(" ")[1]`: element 1 of the header split on
    single spaces, when the header is present and has that element. The first
    field (the scheme word) is not looked at.
  */
  function ExtractToken(header: Option<string>): (token: Option<string>)
    ensures token.Some? <==> header.Some? && ' ' in header.value
    ensures token.Some? ==> ' ' !in token.value
  {
    match header
    case None => None
    case Some(h) =>
      var fields := JsSplit.Split(h, ' ');
      if |fields| >= 2 then Some(fields[1])
      else
        assert h == fields[0];
        None
  }

  /** `!token` is false: a token was extracted and it is not the empty string. */
  predicate HasToken(header: Option<string>) {
    var token := ExtractToken(header);
    token.Some? && token.value != ""
  }

  /** `!(roles.length && !roles.includes(role))`. */
  predicate RoleAllowed(roles: seq<string>, role: string) {
    !(|roles| != 0 && role !in roles)
  }

  /** What one call of the handler built by `authenticate(roles)` does. */
  function Decide(roles: seq<string>, header: Option<string>, verify: string -> Verified): (d: Decision)
    ensures d.outcome == Unauthorized || d.outcome == Forbidden || d.outcome == RoleDenied || d.outcome == Proceed
    ensures d.outcome == Unauthorized <==> !HasToken(header)
    ensures d.attached.Some? <==> HasToken(header) && verify(ExtractToken(header).value).Valid?
  {
    var token := ExtractToken(header);
    if token.None? || token.value == "" then Decision(Unauthorized, None)
    else
      match verify(token.value)
      case Invalid => Decision(Forbidden, None)
      case Valid(decoded) =>
        Decision(if RoleAllowed(roles, decoded.role) then Proceed else RoleDenied, Some(decoded))
  }

  /** The request as the gate sees it: its `authorization` header and its mutable `user` slot. */
  class Request {
    const authorization: Option<string>
    var user: Option<Identity>

    constructor (authorization: Option<string>, user: Option<Identity>)
      ensures this.authorization == authorization && this.user == user
    {
      this.authorization := authorization;
      this.user := user;
    }
  }

  /**
    The handler returned by `authenticate(roles)`, run on one request. It assigns
    `request.user` as soon as the token verifies, before the role test.
  */
  method Authenticate(request: Request, verify: string -> Verified, roles: seq<string> := DefaultRoles)
    returns (outcome: Outcome)
    modifies request`user
    ensures outcome == Decide(roles, request.authorization, verify).outcome
    ensures request.user ==
      match Decide(roles, request.authorization, verify).attached
      case Some(who) => Some(who)
      case None => old(request.user)
  {
    var token := ExtractToken(request.authorization);
    if token.None? || token.value == "" {
      return Unauthorized;
    }
    var verdict := verify(token.value);
    if verdict.Invalid? {
      return Forbidden;
    }
    request.user := Some(verdict.decoded);
    if |roles| != 0 && verdict.decoded.role !in roles {
      return RoleDenied;
    }
    return Proceed;
  }

  /** The token is exactly the second space-separated field, whatever the first one says. */
  lemma TokenIsSecondField(scheme: string, token: string, rest: string)
    requires ' ' !in scheme && ' ' !in token
    ensures ExtractToken(Some(scheme + " " + token)) == Some(token)
    ensures ExtractToken(Some(scheme + " " + token + " " + rest)) == Some(token)
  {
    var two := scheme + " " + token;
    assert two == scheme + [' '] + token;
    JsSplit.SplitPrefix(scheme, token, ' ');
    JsSplit.SplitPiece(token, ' ');
    assert JsSplit.Split(two, ' ')[1] == token;

    var more := scheme + " " + token + " " + rest;
    assert more == scheme + [' '] + (token + [' '] + rest);
    JsSplit.SplitPrefix(scheme, token + [' '] + rest, ' ');
    JsSplit.SplitPrefix(token, rest, ' ');
    assert JsSplit.Split(more, ' ')[1] == token;
  }

  /**
    The scheme word is never checked against `Bearer`: any word in its place
    decides the same, with or without further fields after the token.
  */
  lemma SchemeNotChecked(roles: seq<string>, scheme: string, token: string, rest: string, verify: string -> Verified)
    requires ' ' !in scheme && ' ' !in token
    ensures Decide(roles, Some(scheme + " " + token), verify) == Decide(roles, Some("Bearer " + token), verify)
    ensures Decide(roles, Some(scheme + " " + token + " " + rest), verify)
         == Decide(roles, Some("Bearer " + token + " " + rest), verify)
  {
    TokenIsSecondField(scheme, token, rest);
    TokenIsSecondField("Bearer", token, rest);
    assert "Bearer" + " " + token == "Bearer " + token;
    assert "Bearer" + " " + token + " " + rest == "Bearer " + token + " " + rest;
  }

  /** A missing header, a header without a second field and an empty second field all give 401. */
  lemma MalformedHeadersUnauthorized(roles: seq<string>, verify: string -> Verified)
    ensures Decide(roles, None, verify) == Decision(Unauthorized, None)
    ensures Decide(roles, Some(""), verify) == Decision(Unauthorized, None)
    ensures Decide(roles, Some("Bearer"), verify) == Decision(Unauthorized, None)
    ensures Decide(roles, Some("Bearer  x"), verify) == Decision(Unauthorized, None)
  {
  }

  /** Without a token the verifier is never consulted: the decision is the same for every verifier. */
  lemma NoTokenIgnoresVerifier(roles: seq<string>, header: Option<string>, verify: string -> Verified, other: string -> Verified)
    requires !HasToken(header)
    ensures Decide(roles, header, verify) == Decide(roles, header, other) == Decision(Unauthorized, None)
  {
  }

  /** The verifier is consulted on the extracted token and on nothing else. */
  lemma VerifierSeesOnlyToken(roles: seq<string>, header: Option<string>, verify: string -> Verified, other: string -> Verified)
    requires HasToken(header) ==> verify(ExtractToken(header).value) == other(ExtractToken(header).value)
    ensures Decide(roles, header, verify) == Decide(roles, header, other)
  {
  }

  /** Any verifier failure gives 403 "Forbidden" and leaves `request.user` untouched. */
  lemma VerifyFailureForbidden(roles: seq<string>, header: Option<string>, verify: string -> Verified)
    requires HasToken(header) && verify(ExtractToken(header).value) == Invalid
    ensures Decide(roles, header, verify) == Decision(Forbidden, None)
  {
  }

  /** With the default empty allow-list every verified token passes, whatever its role. */
  lemma EmptyRolesAllowEveryone(header: Option<string>, verify: string -> Verified, who: Identity)
    requires HasToken(header) && verify(ExtractToken(header).value) == Valid(who)
    ensures Decide(DefaultRoles, header, verify) == Decision(Proceed, Some(who))
  {
  }

  /**
    A verified token is decided by the allow-list alone: a role outside a non-empty
    list gives 403 "Access denied for this role", any other passes; in both cases
    the decoded identity is attached.
  */
  lemma VerifiedDecidedByRole(roles: seq<string>, header: Option<string>, verify: string -> Verified, who: Identity)
    requires HasToken(header) && verify(ExtractToken(header).value) == Valid(who)
    ensures Decide(roles, header, verify).attached == Some(who)
    ensures Decide(roles, header, verify).outcome == Proceed <==> |roles| == 0 || who.role in roles
    ensures Decide(roles, header, verify).outcome == RoleDenied <==> |roles| != 0 && who.role !in roles
  {
  }

  /** Passing means: a token, a verified identity with a permitted role, and that identity attached. */
  lemma ProceedMeansAuthorized(roles: seq<string>, header: Option<string>, verify: string -> Verified)
    requires Decide(roles, header, verify).outcome == Proceed
    ensures HasToken(header)
    ensures verify(ExtractToken(header).value).Valid?
    ensures Decide(roles, header, verify).attached == Some(verify(ExtractToken(header).value).decoded)
    ensures RoleAllowed(roles, verify(ExtractToken(header).value).decoded.role)
  {
  }
}
