/**
 * What `route` promises, stated over every router (either collaborator may be absent,
 * and each may answer or throw) and every request (absent, without a body, or with any
 * combination of email and password).
 */
module LoginProperties {
  import opened Wrappers
  import Errors
  import opened HttpResponse
  import opened LoginRouting

  /** The request carries a body. */
  predicate HasBody(httpRequest: Option<HttpRequest>)
  {
    httpRequest.Some? && httpRequest.value.body.Some?
  }

  /** The router's validator exists and answers true for `email`. */
  predicate EmailAccepted(router: LoginRouter, email: string)
  {
    router.emailValidator.Some? && router.emailValidator.value.isValid(email) == Returned(true)
  }

  /** The router's validator exists and answers false for `email`. */
  predicate EmailRejected(router: LoginRouter, email: string)
  {
    router.emailValidator.Some? && router.emailValidator.value.isValid(email) == Returned(false)
  }

  /** The request passes all three checks: email present, email accepted, password present. */
  predicate ChecksPass(router: LoginRouter, httpRequest: Option<HttpRequest>)
  {
    && HasBody(httpRequest)
    && Truthy(httpRequest.value.body.value.email)
    && EmailAccepted(router, httpRequest.value.body.value.email.value)
    && Truthy(httpRequest.value.body.value.password)
  }

  /** The checks pass and there is an auth use case to ask. */
  predicate ReachesAuth(router: LoginRouter, httpRequest: Option<HttpRequest>)
  {
    ChecksPass(router, httpRequest) && router.authUseCase.Some?
  }

  /** What `auth` does when asked with the request's own email and password. */
  function AuthAnswer(router: LoginRouter, httpRequest: Option<HttpRequest>): Completion<Option<string>>
    requires ReachesAuth(router, httpRequest)
  {
    var body := httpRequest.value.body.value;
    router.authUseCase.value.auth(body.email.value, body.password.value)
  }

  /**
   * Something the try block cannot get past: no request or no body to destructure, no
   * validator or a throwing one once there is an email, no auth use case or a throwing
   * one once the checks pass.
   */
  predicate Fault(router: LoginRouter, httpRequest: Option<HttpRequest>)
  {
    || !HasBody(httpRequest)
    || (&& Truthy(httpRequest.value.body.value.email)
        && (|| router.emailValidator.None?
            || router.emailValidator.value.isValid(httpRequest.value.body.value.email.value).Threw?))
    || (ChecksPass(router, httpRequest) && router.authUseCase.None?)
    || (ReachesAuth(router, httpRequest) && AuthAnswer(router, httpRequest).Threw?)
  }

  /** No request, or a request without a body, is answered 500 and no collaborator is called. */
  lemma NoRequestOrNoBody(router: LoginRouter, httpRequest: Option<HttpRequest>)
    requires !HasBody(httpRequest)
    ensures router.Route(httpRequest) == ServerError()
    ensures router.TryBlock(httpRequest).calls == []
  {
  }

  /**
   * A falsy email is answered 400 with a MissingParamError wrapped around
   * MissingParamError('email'), before either collaborator is consulted, so it does not
   * matter whether they exist.
   */
  lemma FalsyEmailIsBadRequest(router: LoginRouter, body: RequestBody)
    requires !Truthy(body.email)
    ensures router.Route(Some(HttpRequest(Some(body)))).statusCode == 400
    ensures router.Route(Some(HttpRequest(Some(body)))).body
         == ErrorBody(Errors.MissingParamError(Errors.ErrorObject(Errors.MissingParamError(Errors.ParamName("email")))))
    ensures router.TryBlock(Some(HttpRequest(Some(body)))).calls == []
  {
  }

  /**
   * An email the validator rejects is answered 400, whatever the password: the body is a
   * MissingParamError wrapped around InvalidParamError('email'), and auth is not called.
   */
  lemma RejectedEmailIsBadRequest(router: LoginRouter, body: RequestBody)
    requires Truthy(body.email) && EmailRejected(router, body.email.value)
    ensures router.Route(Some(HttpRequest(Some(body)))).statusCode == 400
    ensures router.Route(Some(HttpRequest(Some(body)))).body
         == ErrorBody(Errors.MissingParamError(Errors.ErrorObject(Errors.InvalidParamError("email"))))
    ensures router.TryBlock(Some(HttpRequest(Some(body)))).calls == [IsValidCall(body.email.value)]
  {
  }

  /**
   * An accepted email with a falsy password is answered 400 with a MissingParamError wrapped
   * around MissingParamError('password'); only the validator was called.
   */
  lemma FalsyPasswordIsBadRequest(router: LoginRouter, body: RequestBody)
    requires Truthy(body.email) && EmailAccepted(router, body.email.value) && !Truthy(body.password)
    ensures router.Route(Some(HttpRequest(Some(body)))).statusCode == 400
    ensures router.Route(Some(HttpRequest(Some(body)))).body
         == ErrorBody(Errors.MissingParamError(Errors.ErrorObject(Errors.MissingParamError(Errors.ParamName("password")))))
    ensures router.TryBlock(Some(HttpRequest(Some(body)))).calls == [IsValidCall(body.email.value)]
  {
  }

  /**
   * The collaborators are called in a fixed order, each at most once: the validator
   * first, with the body's email, and `auth` only when every check has passed, with exactly
   * the body's email and password. A request that does not reach auth never calls it.
   */
  lemma CollaboratorCalls(router: LoginRouter, httpRequest: Option<HttpRequest>)
    ensures var calls := router.TryBlock(httpRequest).calls;
      && (calls != [] ==> HasBody(httpRequest) && Truthy(httpRequest.value.body.value.email))
      && (HasBody(httpRequest) && Truthy(httpRequest.value.body.value.email) ==>
            var body := httpRequest.value.body.value;
            || calls == []
            || calls == [IsValidCall(body.email.value)]
            || calls == [IsValidCall(body.email.value), AuthCall(body.email.value, body.password.value)])
      && (HasBody(httpRequest) && Truthy(httpRequest.value.body.value.email) && router.emailValidator.Some? ==> |calls| >= 1)
      && (ReachesAuth(router, httpRequest) ==>
            var body := httpRequest.value.body.value;
            calls == [IsValidCall(body.email.value), AuthCall(body.email.value, body.password.value)])
      && (!ReachesAuth(router, httpRequest) ==> forall i | 0 <= i < |calls| :: !calls[i].AuthCall?)
  {
  }

  /** When auth resolves to a falsy token the answer is 401 with an UnauthorizedError body. */
  lemma FalsyTokenIsUnauthorized(router: LoginRouter, httpRequest: Option<HttpRequest>)
    requires ReachesAuth(router, httpRequest)
    requires AuthAnswer(router, httpRequest).Returned? && !Truthy(AuthAnswer(router, httpRequest).value)
    ensures router.Route(httpRequest).statusCode == 401
    ensures router.Route(httpRequest).body == ErrorBody(Errors.UnauthorizedError)
  {
  }

  /** When auth resolves to a truthy token `t` the answer is 200 with body `{ acessToken: t }`, `t` unchanged. */
  lemma TruthyTokenIsOk(router: LoginRouter, httpRequest: Option<HttpRequest>, t: string)
    requires ReachesAuth(router, httpRequest)
    requires AuthAnswer(router, httpRequest) == Returned(Some(t)) && t != ""
    ensures router.Route(httpRequest).statusCode == 200
    ensures router.Route(httpRequest).body == DataBody(AccessTokenBody(t))
  {
  }

  /**
   * Every fault gives the very same answer, 500 with a ServerError body, and a 500 is
   * given for nothing but a fault: the kind of fault is not told apart.
   */
  lemma ServerErrorIffFault(router: LoginRouter, httpRequest: Option<HttpRequest>)
    ensures Fault(router, httpRequest) ==> router.Route(httpRequest) == ServerError()
    ensures router.Route(httpRequest).statusCode == 500 <==> Fault(router, httpRequest)
  {
  }

  /**
   * Each status code names exactly one outcome of the chain: 400 a failed check, 401 a
   * falsy token, 200 a truthy one; together with ServerErrorIffFault this covers every request.
   */
  lemma StatusExplainsOutcome(router: LoginRouter, httpRequest: Option<HttpRequest>)
    ensures router.Route(httpRequest).statusCode == 400 <==>
      && HasBody(httpRequest)
      && var body := httpRequest.value.body.value;
         || !Truthy(body.email)
         || EmailRejected(router, body.email.value)
         || (EmailAccepted(router, body.email.value) && !Truthy(body.password))
    ensures router.Route(httpRequest).statusCode == 401 <==>
      ReachesAuth(router, httpRequest) && AuthAnswer(router, httpRequest).Returned? && !Truthy(AuthAnswer(router, httpRequest).value)
    ensures router.Route(httpRequest).statusCode == 200 <==>
      ReachesAuth(router, httpRequest) && AuthAnswer(router, httpRequest).Returned? && Truthy(AuthAnswer(router, httpRequest).value)
  {
  }

  /**
   * The scenarios of the router's unit tests, played against this router built with no
   * collaborators: no email is a 400, no request and an empty request are 500s. The
   * email-only request is a 500 here, not the 400 the test expects of its stand-in router,
   * because the absent validator is consulted before the password is looked at.
   */
  lemma UnitTestScenarios()
    ensures var router := LoginRouter(None, None);
      && router.Route(Some(HttpRequest(Some(RequestBody(None, Some("any_password")))))).statusCode == 400
      && router.Route(Some(HttpRequest(Some(RequestBody(Some("any_email"), None))))) == ServerError()
      && router.Route(None).statusCode == 500
      && router.Route(Some(HttpRequest(None))).statusCode == 500
  {
  }

  /**
   * Whole requests against a router whose validator accepts every email and whose auth
   * use case issues "tok123" for the password "correct" only.
   */
  lemma EndToEndScenarios()
    ensures var router := LoginRouter(
        Some(AuthUseCase((email, password) => Returned(if password == "correct" then Some("tok123") else None))),
        Some(EmailValidator(email => Returned(true))));
      && router.Route(Some(HttpRequest(Some(RequestBody(Some("valid@mail.com"), Some("correct"))))))
         == Response(200, DataBody(AccessTokenBody("tok123")))
      && router.Route(Some(HttpRequest(Some(RequestBody(Some("valid@mail.com"), Some("wrong"))))))
         == Response(401, ErrorBody(Errors.UnauthorizedError))
      && router.Route(Some(HttpRequest(Some(RequestBody(Some("valid@mail.com"), None))))).statusCode == 400
      && router.Route(Some(HttpRequest(Some(RequestBody(None, Some("x")))))).statusCode == 400
      && LoginRouter(None, router.emailValidator).Route(Some(HttpRequest(Some(RequestBody(Some("valid@mail.com"), Some("correct"))))))
         == Response(500, ErrorBody(Errors.ServerError))
  {
  }
}
