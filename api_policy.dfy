/**
 * The request policy of the API base classes: the `require*` permission checks
 * of `ApiServlet`, and how `ApiServlet.service` and `ApiHandler.handle` turn an
 * HTTP method and the outcome of a subclass's handler into a status code and a
 * JSON body.
 *
 * The subclass handlers are a parameter: for each method name and parsed query
 * they either return a response text or throw, and what they throw is either an
 * `IllegalAccessException` or any other exception, each with a possibly null
 * message. The session a check sees is the result of `SessionManager.getSession`
 * for the request's `X-Session-Id` header.
 */
module ApiPolicy {
  import opened JavaText
  import opened JsonText
  import opened Sessions

  // ---------------------------------------------------------------------
  // Permission checks
  // ---------------------------------------------------------------------

  const LoginRequired: string := "로그인이 필요합니다."
  const AdminRequired: string := "관리자 권한이 필요합니다."
  const InsufficientRole: string := "권한이 부족합니다."

  /** A check either lets the request through or throws `IllegalAccessException` with
      the message. */
  datatype Access = Allowed | Denied(message: string)

  /** The roles `requireAdmin` and `requireSelfOrAdmin` accept. */
  predicate IsAdminRole(role: Option<string>)
  {
    role == Some("admin") || role == Some("manager")
  }

  /** `requireAdmin(req)`. */
  function RequireAdmin(session: Option<Session>): (r: Access)
    ensures r == Allowed <==> session.Some? && IsAdminRole(session.value.role)
    ensures session.None? ==> r == Denied(LoginRequired)
    ensures session.Some? && !IsAdminRole(session.value.role) ==> r == Denied(AdminRequired)
  {
    if session.None? then Denied(LoginRequired)
    else if session.value.role != Some("admin") && session.value.role != Some("manager") then Denied(AdminRequired)
    else Allowed
  }

  /** What `requireRole(req, allowedRoles...)` decides: a role matches when it is one of
      the allowed ones; a null role matches none. */
  function RoleCheck(session: Option<Session>, allowedRoles: seq<string>): Access
  {
    if session.None? then Denied(LoginRequired)
    else if session.value.role.Some? && session.value.role.value in allowedRoles then Allowed
    else Denied(InsufficientRole)
  }

  /** The loop of `requireRole`, returning at the first allowed role equal to the
      session's. */
  method RequireRole(session: Option<Session>, allowedRoles: seq<string>) returns (r: Access)
    ensures r == RoleCheck(session, allowedRoles)
  {
    if session.None? {
      return Denied(LoginRequired);
    }
    var role := session.value.role;
    var i := 0;
    while i < |allowedRoles|
      invariant 0 <= i <= |allowedRoles|
      invariant role.None? || role.value !in allowedRoles[..i]
    {
      if role == Some(allowedRoles[i]) {
        return Allowed;
      }
      i := i + 1;
    }
    assert allowedRoles[..i] == allowedRoles;
    return Denied(InsufficientRole);
  }

  /** `requireSelfOrAdmin(req, targetCustid)`. */
  function RequireSelfOrAdmin(session: Option<Session>, targetCustid: int): (r: Access)
    ensures r == Allowed <==>
              session.Some? && (IsAdminRole(session.value.role) || session.value.custid == targetCustid)
    ensures r != Allowed ==> r == Denied(if session.None? then LoginRequired else InsufficientRole)
  {
    if session.None? then Denied(LoginRequired)
    else if session.value.role == Some("admin") || session.value.role == Some("manager")
         || session.value.custid == targetCustid then Allowed
    else Denied(InsufficientRole)
  }

  /** `requireAdmin` lets through exactly the sessions `requireRole(req, "admin", "manager")`
      lets through; the two differ only in the message of a refusal to a logged-in user. */
  lemma RequireAdminIsRoleCheck(session: Option<Session>)
    ensures RequireAdmin(session) == Allowed <==> RoleCheck(session, ["admin", "manager"]) == Allowed
    ensures session.None? ==> RequireAdmin(session) == RoleCheck(session, ["admin", "manager"])
  {
    if session.Some? && session.value.role.Some? {
      var role := session.value.role.value;
      assert role in ["admin", "manager"] <==> role == "admin" || role == "manager";
    }
  }

  /** With no allowed roles `requireRole` refuses everyone. */
  lemma NoRoleAllowsNobody(session: Option<Session>)
    ensures RoleCheck(session, []) != Allowed
  {
  }

  /** A session without a role passes `requireRole` for no list of roles, and fails
      `requireAdmin`. */
  lemma NullRoleIsRefused(session: Session, allowedRoles: seq<string>)
    requires session.role.None?
    ensures RoleCheck(Some(session), allowedRoles) == Denied(InsufficientRole)
    ensures RequireAdmin(Some(session)) == Denied(AdminRequired)
  {
  }

  /** Anyone `requireAdmin` lets through, `requireSelfOrAdmin` lets through for every
      target; and a user always may act on their own record. */
  lemma AdminMayActOnAnyone(session: Option<Session>, targetCustid: int)
    ensures RequireAdmin(session) == Allowed ==> RequireSelfOrAdmin(session, targetCustid) == Allowed
    ensures session.Some? ==> RequireSelfOrAdmin(session, session.value.custid) == Allowed
  {
  }

  /** Adding roles to the list never turns a permitted session away. */
  lemma RoleCheckMonotone(session: Option<Session>, allowedRoles: seq<string>, more: seq<string>)
    requires RoleCheck(session, allowedRoles) == Allowed
    ensures RoleCheck(session, allowedRoles + more) == Allowed
  {
    var role := session.value.role.value;
    var k :| 0 <= k < |allowedRoles| && allowedRoles[k] == role;
    assert (allowedRoles + more)[k] == role;
  }

  /** A session that has expired is refused as not logged in: `getSession` returns null
      for it. */
  lemma ExpiredSessionMustLogIn(store: map<string, Session>, id: string, now: int)
    requires id in store && Expired(store[id], now, SessionTimeout)
    ensures RequireAdmin(Lookup(store, Some(id), now)) == Denied(LoginRequired)
    ensures RequireSelfOrAdmin(Lookup(store, Some(id), now), store[id].custid) == Denied(LoginRequired)
  {
  }

  // ---------------------------------------------------------------------
  // Status mapping
  // ---------------------------------------------------------------------

  const UnsupportedMethod: string := "지원하지 않는 HTTP 메서드입니다."
  const UnknownError: string := "알 수 없는 오류가 발생했습니다."

  /** The two kinds of exception the servlet tells apart. */
  datatype Fault = IllegalAccess | OtherFault

  /** What the body of the `try` block comes to: a response text, or an exception. */
  datatype Outcome = Returned(text: string) | Threw(fault: Fault, message: Option<string>)

  /** The status code and the JSON body sent; `None` is a response without a body. */
  datatype Reply = Reply(status: int, body: Option<string>)

  /** What `readRequestBody` comes to: the body's text, or an `IOException` with its message. */
  datatype BodyRead = Body(text: string) | ReadFailed(message: Option<string>)

  /** The methods with a handler of their own. */
  predicate Handled(verb: string)
  {
    verb == "GET" || verb == "POST" || verb == "PUT" || verb == "DELETE"
  }

  /** The `try` block: a failed query parse throws first, then a failed body read, both
      before the method is looked at; a handled method runs its handler on the parameters
      and the body; any other method gets an error response as its text. */
  function Dispatch(verb: string, params: Option<map<string, string>>, parseFailure: Option<string>,
                    body: BodyRead, handler: (string, map<string, string>, string) -> Outcome): Outcome
  {
    if params.None? then Threw(OtherFault, parseFailure)
    else if body.ReadFailed? then Threw(OtherFault, body.message)
    else if verb == "GET" || verb == "POST" || verb == "PUT" || verb == "DELETE" then
      handler(verb, params.value, body.text)
    else Returned(ErrorResponse(Some(UnsupportedMethod)))
  }

  /** The message of a caught exception, with the fixed text standing in for null. */
  function OrUnknown(message: Option<string>): string
  {
    if message.None? then UnknownError else message.value
  }

  /** `ApiServlet.service`: a preflight gets 204 without a body; a returned text 200; an
      `IllegalAccessException` 403 with its message (null included); any other exception
      500, with a fixed text for a null message. */
  function ServletService(verb: string, params: Option<map<string, string>>, parseFailure: Option<string>,
                          body: BodyRead, handler: (string, map<string, string>, string) -> Outcome): (r: Reply)
    ensures verb == "OPTIONS" <==> r == Reply(204, None)
    ensures verb != "OPTIONS" && (params.None? || body.ReadFailed?) ==> r.status == 500
  {
    if verb == "OPTIONS" then Reply(204, None)
    else
      match Dispatch(verb, params, parseFailure, body, handler)
      case Returned(text) => Reply(200, Some(text))
      case Threw(IllegalAccess, m) => Reply(403, Some(ErrorResponse(m)))
      case Threw(OtherFault, m) => Reply(500, Some(ErrorResponse(Some(OrUnknown(m)))))
  }

  /** `ApiHandler.handle`: the same, except that every exception is a 500. */
  function HandlerHandle(verb: string, params: Option<map<string, string>>, parseFailure: Option<string>,
                         body: BodyRead, handler: (string, map<string, string>, string) -> Outcome): (r: Reply)
    ensures verb == "OPTIONS" <==> r == Reply(204, None)
    ensures verb != "OPTIONS" && (params.None? || body.ReadFailed?) ==> r.status == 500
  {
    if verb == "OPTIONS" then Reply(204, None)
    else
      match Dispatch(verb, params, parseFailure, body, handler)
      case Returned(text) => Reply(200, Some(text))
      case Threw(_, m) => Reply(500, Some(ErrorResponse(Some(OrUnknown(m)))))
  }

  /** The statuses either entry point can send, and which of them carry a body. */
  lemma StatusesSent(verb: string, params: Option<map<string, string>>, parseFailure: Option<string>,
                     body: BodyRead, handler: (string, map<string, string>, string) -> Outcome)
    ensures ServletService(verb, params, parseFailure, body, handler).status in {200, 204, 403, 500}
    ensures HandlerHandle(verb, params, parseFailure, body, handler).status in {200, 204, 500}
    ensures ServletService(verb, params, parseFailure, body, handler).body.None?
            <==> ServletService(verb, params, parseFailure, body, handler).status == 204
    ensures HandlerHandle(verb, params, parseFailure, body, handler).body.None?
            <==> HandlerHandle(verb, params, parseFailure, body, handler).status == 204
  {
  }

  /** Past the preflight, the status says how the request went: 200 exactly when the
      `try` block produced a text, 403 in the servlet exactly when it threw a permission
      failure, and 500 in the plain handler exactly when it threw anything. A returned
      text is sent unchanged. */
  lemma StatusTellsOutcome(verb: string, params: Option<map<string, string>>, parseFailure: Option<string>,
                           body: BodyRead, handler: (string, map<string, string>, string) -> Outcome)
    requires verb != "OPTIONS"
    ensures var o := Dispatch(verb, params, parseFailure, body, handler);
            && (ServletService(verb, params, parseFailure, body, handler).status == 200 <==> o.Returned?)
            && (ServletService(verb, params, parseFailure, body, handler).status == 403 <==> o.Threw? && o.fault == IllegalAccess)
            && (HandlerHandle(verb, params, parseFailure, body, handler).status == 500 <==> o.Threw?)
            && (o.Returned? ==> ServletService(verb, params, parseFailure, body, handler).body == Some(o.text)
                                && HandlerHandle(verb, params, parseFailure, body, handler).body == Some(o.text))
  {
  }

  /** The two entry points answer alike, except that a permission failure is a 403 in
      the servlet and a 500 in the plain handler. */
  lemma EntryPointsDifferOnlyOnPermission(verb: string, params: Option<map<string, string>>,
                                          parseFailure: Option<string>,
                                          body: BodyRead, handler: (string, map<string, string>, string) -> Outcome)
    ensures ServletService(verb, params, parseFailure, body, handler) != HandlerHandle(verb, params, parseFailure, body, handler)
            <==> verb != "OPTIONS" && Dispatch(verb, params, parseFailure, body, handler).Threw?
                 && Dispatch(verb, params, parseFailure, body, handler).fault == IllegalAccess
  {
  }

  /** An unsupported method whose body could be read is answered with status 200 and an
      error body, not with 405. */
  lemma UnsupportedMethodIsOk(verb: string, params: map<string, string>, parseFailure: Option<string>,
                              body: BodyRead, handler: (string, map<string, string>, string) -> Outcome)
    requires verb != "OPTIONS" && !Handled(verb) && body.Body?
    ensures ServletService(verb, Some(params), parseFailure, body, handler)
         == Reply(200, Some(ErrorResponse(Some(UnsupportedMethod))))
    ensures SuccessResponse("") != ErrorResponse(Some(UnsupportedMethod))
  {
    ResponsesDistinguishable("", Some(UnsupportedMethod));
  }

  /** A query that fails to decode ends in a 500 carrying the decoder's message. */
  lemma MalformedQueryIsServerError(verb: string, parseFailure: Option<string>,
                                    body: BodyRead, handler: (string, map<string, string>, string) -> Outcome)
    requires verb != "OPTIONS"
    ensures ServletService(verb, None, parseFailure, body, handler)
         == Reply(500, Some(ErrorResponse(Some(OrUnknown(parseFailure)))))
  {
  }

  /** A body that cannot be read ends in a 500 carrying the exception's message at both
      entry points, whatever the method: the body is read before the method is looked at,
      so even a method without a handler is a server error then, and no handler runs. */
  lemma BodyReadFailureIsServerError(verb: string, params: map<string, string>, parseFailure: Option<string>,
                                     message: Option<string>, handler: (string, map<string, string>, string) -> Outcome)
    requires verb != "OPTIONS"
    ensures Dispatch(verb, Some(params), parseFailure, ReadFailed(message), handler) == Threw(OtherFault, message)
    ensures ServletService(verb, Some(params), parseFailure, ReadFailed(message), handler)
         == Reply(500, Some(ErrorResponse(Some(OrUnknown(message)))))
    ensures HandlerHandle(verb, Some(params), parseFailure, ReadFailed(message), handler)
         == ServletService(verb, Some(params), parseFailure, ReadFailed(message), handler)
  {
  }

  /** A handler that throws the refusal of a permission check sends a 403 whose "error"
      string reads back as the check's message. */
  lemma RefusalIsForbidden(verb: string, params: map<string, string>, parseFailure: Option<string>,
                           body: BodyRead, handler: (string, map<string, string>, string) -> Outcome, message: string)
    requires Handled(verb) && body.Body? && handler(verb, params, body.text) == Threw(IllegalAccess, Some(message))
    ensures ServletService(verb, Some(params), parseFailure, body, handler) == Reply(403, Some(ErrorResponse(Some(message))))
    ensures var body := ErrorResponse(Some(message))[|ErrorPrefix|..];
            && ClosingQuote(body).Some?
            && Unescape(body[..ClosingQuote(body).value]) == message
  {
    ErrorResponseCarriesMessage(Some(message));
  }

  /** A permission failure without a message is reported by the servlet with an empty
      "error" string, while any other exception without one gets the fixed text. */
  lemma NullMessageDefaultsOnlyOn500(verb: string, params: map<string, string>, parseFailure: Option<string>,
                                     body: BodyRead, handler: (string, map<string, string>, string) -> Outcome)
    requires Handled(verb) && body.Body?
    ensures handler(verb, params, body.text) == Threw(IllegalAccess, None) ==>
              ServletService(verb, Some(params), parseFailure, body, handler) == Reply(403, Some(ErrorPrefix + ErrorSuffix))
    ensures handler(verb, params, body.text) == Threw(OtherFault, None) ==>
              ServletService(verb, Some(params), parseFailure, body, handler)
              == Reply(500, Some(ErrorResponse(Some(UnknownError))))
  {
  }
}
