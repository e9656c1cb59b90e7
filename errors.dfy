/**
  The error classifier every user route falls back on: `getErrorMessage(error, reply)`
  looks at the shape of a caught error (`name`, `code`, `statusCode`, `meta.cause`,
  `message`) and sends exactly one reply, a status and a JSON body. The checks run
  in a fixed order (token expired, invalid token, error code, message, fallback) and
  the first that holds decides the reply.

  The error is untyped in the source, so its fields are JavaScript values and the
  tests on them are JavaScript truthiness; `a || b` is `Or(a, b)`.
*/
module Errors {
  import opened Wrappers

  /** The JavaScript values an error field can hold (numbers restricted to integers). */
  datatype JsValue = Undefined | Null | Bool(b: bool) | Num(n: int) | Str(s: string)

  /** JavaScript truthiness: `false`, `0`, `""`, `null` and `undefined` are falsy. */
  predicate Truthy(v: JsValue) {
    match v
    case Undefined => false
    case Null => false
    case Bool(b) => b
    case Num(n) => n != 0
    case Str(s) => s != ""
  }

  /** `a || b`. */
  function Or(a: JsValue, b: JsValue): JsValue {
    if Truthy(a) then a else b
  }

  /** `error.meta`: absent (`undefined`/`null`) or an object with a `cause` field. */
  datatype Meta = NoMeta | Meta(cause: JsValue)

  /** `error.meta?.cause`. */
  function CauseOf(meta: Meta): (r: JsValue) {
    match meta
    case NoMeta => Undefined
    case Meta(cause) => cause
  }

  /** The fields of a caught error that the classifier reads. */
  datatype AppError = AppError(name: JsValue, code: JsValue, statusCode: JsValue, meta: Meta, message: JsValue)

  /** The two body shapes sent: `{code, message}` and `{errorCode, message}`. */
  datatype Body = Coded(code: JsValue, message: JsValue) | Tagged(errorCode: JsValue, message: JsValue)

  /** One reply: the argument of `reply.code(...)` and the argument of `send(...)`. */
  datatype Reply = Reply(status: JsValue, body: Body)

  const TokenExpiredName := "TokenExpiredError"
  const InvalidTokenName := "JsonWebTokenError"
  const TokenExpiredText := "Token has expired, please log in again."
  const InvalidTokenText := "Invalid token, please provide a valid token."
  const CodeFallbackText := "An error occurred"
  const UnknownErrorText := "An unknown error occurred."

  const ExpiredReply := Reply(Num(401), Coded(Num(401), Str(TokenExpiredText)))
  const InvalidTokenReply := Reply(Num(400), Coded(Num(400), Str(InvalidTokenText)))
  const UnknownReply := Reply(Num(500), Coded(Num(500), Str(UnknownErrorText)))

  /** `getErrorMessage(error, reply)`: the one reply sent for `error`. */
  function GetErrorMessage(e: AppError): (r: Reply)
    ensures Truthy(r.status)
    ensures r.status in {Num(401), Num(400), Num(500), e.statusCode}
    ensures r.body.Coded? ==> r.body.code == r.status
    ensures Truthy(r.body.message)
    ensures r.body.Tagged? <==>
      e.name != Str(TokenExpiredName) && e.name != Str(InvalidTokenName) && Truthy(e.code)
  {
    if e.name == Str(TokenExpiredName) then ExpiredReply
    else if e.name == Str(InvalidTokenName) then InvalidTokenReply
    else if Truthy(e.code) then
      Reply(Or(e.statusCode, Num(400)), Tagged(e.code, Or(CauseOf(e.meta), Str(CodeFallbackText))))
    else if Truthy(e.message) then
      var status := Or(e.statusCode, Num(500));
      Reply(status, Coded(status, e.message))
    else UnknownReply
  }

  // An independent statement of the precedence: an ordered list of rules, each
  // with its own guard and its own reply, where the first rule whose guard holds
  // answers.

  datatype Rule = ExpiredToken | InvalidToken | ErrorCode | ErrorMessage | Fallback

  /** The order in which the classifier tries its rules. */
  const Priority: seq<Rule> := [ExpiredToken, InvalidToken, ErrorCode, ErrorMessage, Fallback]

  /** The guard of each rule, looked at on its own. */
  predicate Applies(rule: Rule, e: AppError) {
    match rule
    case ExpiredToken => e.name == Str(TokenExpiredName)
    case InvalidToken => e.name == Str(InvalidTokenName)
    case ErrorCode => Truthy(e.code)
    case ErrorMessage => Truthy(e.message)
    case Fallback => true
  }

  /** The reply of each rule, looked at on its own. */
  function Answer(rule: Rule, e: AppError): (r: Reply) {
    match rule
    case ExpiredToken => ExpiredReply
    case InvalidToken => InvalidTokenReply
    case ErrorCode =>
      Reply(Or(e.statusCode, Num(400)), Tagged(e.code, Or(CauseOf(e.meta), Str(CodeFallbackText))))
    case ErrorMessage => Reply(Or(e.statusCode, Num(500)), Coded(Or(e.statusCode, Num(500)), e.message))
    case Fallback => UnknownReply
  }

  /** The first rule of `rules` that applies to `e`, if any. */
  function FirstApplicable(rules: seq<Rule>, e: AppError): (r: Option<Rule>)
    ensures r.Some? ==> r.value in rules && Applies(r.value, e)
    ensures r.Some? ==> exists k :: 0 <= k < |rules| && rules[k] == r.value && forall j :: 0 <= j < k ==> !Applies(rules[j], e)
    ensures r.None? ==> forall i :: 0 <= i < |rules| ==> !Applies(rules[i], e)
  {
    if rules == [] then None
    else if Applies(rules[0], e) then Some(rules[0])
    else FirstApplicable(rules[1..], e)
  }

  /** The classifier answers with the first rule, in priority order, whose guard holds. */
  lemma {:induction false} FollowsPriority(e: AppError)
    ensures FirstApplicable(Priority, e).Some?
    ensures GetErrorMessage(e) == Answer(FirstApplicable(Priority, e).value, e)
  {
    var rules := Priority;
    if !Applies(ExpiredToken, e) && !Applies(InvalidToken, e) {
      assert rules[1..][1..] == [ErrorCode, ErrorMessage, Fallback];
      if !Applies(ErrorCode, e) && !Applies(ErrorMessage, e) {
        assert rules[1..][1..][1..][1..] == [Fallback];
        calc {
          FirstApplicable(rules, e);
          FirstApplicable(rules[1..][1..], e);
          FirstApplicable(rules[1..][1..][1..][1..], e);
          Some(Fallback);
        }
      } else if Applies(ErrorCode, e) {
        calc {
          FirstApplicable(rules, e);
          FirstApplicable(rules[1..][1..], e);
          Some(ErrorCode);
        }
      } else {
        calc {
          FirstApplicable(rules, e);
          FirstApplicable(rules[1..][1..], e);
          { assert rules[1..][1..][0] == ErrorCode; }
          FirstApplicable(rules[1..][1..][1..], e);
          Some(ErrorMessage);
        }
      }
    }
  }

  /** An expired token wins over every other field. */
  lemma ExpiredTokenWins(e: AppError)
    requires e.name == Str(TokenExpiredName)
    ensures GetErrorMessage(e) == ExpiredReply
  {
  }

  /** An invalid token gives 400 with the fixed text, whatever the other fields. */
  lemma InvalidTokenWins(e: AppError)
    requires e.name == Str(InvalidTokenName)
    ensures GetErrorMessage(e) == InvalidTokenReply
  {
  }

  /**
    A truthy `code` (and neither token name): status `statusCode`, or 400 when it
    is falsy; body `{errorCode: code, message: meta.cause or the fixed text}`. The
    `message` field plays no part.
  */
  lemma CodedError(e: AppError)
    requires e.name != Str(TokenExpiredName) && e.name != Str(InvalidTokenName) && Truthy(e.code)
    ensures GetErrorMessage(e).status == (if Truthy(e.statusCode) then e.statusCode else Num(400))
    ensures GetErrorMessage(e).body == Tagged(e.code,
      if Truthy(CauseOf(e.meta)) then CauseOf(e.meta) else Str(CodeFallbackText))
    ensures forall m :: GetErrorMessage(e.(message := m)) == GetErrorMessage(e)
  {
  }

  /**
    A truthy `message` and no code: status `statusCode`, or 500 when it is falsy,
    and the body's `code` is that same status. `meta` plays no part.
  */
  lemma MessageError(e: AppError)
    requires e.name != Str(TokenExpiredName) && e.name != Str(InvalidTokenName)
    requires !Truthy(e.code) && Truthy(e.message)
    ensures var status := if Truthy(e.statusCode) then e.statusCode else Num(500);
      GetErrorMessage(e) == Reply(status, Coded(status, e.message))
    ensures forall m :: GetErrorMessage(e.(meta := m)) == GetErrorMessage(e)
  {
  }

  /** None of the fields the classifier looks at: 500 "An unknown error occurred." */
  lemma UnknownError(e: AppError)
    requires e.name != Str(TokenExpiredName) && e.name != Str(InvalidTokenName)
    requires !Truthy(e.code) && !Truthy(e.message)
    ensures GetErrorMessage(e) == UnknownReply
  {
  }

  /** `new Error("Error creating user")`, as the controller tests throw it: 500 with that message. */
  lemma PlainErrorIs500()
    ensures GetErrorMessage(AppError(Str("Error"), Undefined, Undefined, NoMeta, Str("Error creating user")))
      == Reply(Num(500), Coded(Num(500), Str("Error creating user")))
  {
  }
}
