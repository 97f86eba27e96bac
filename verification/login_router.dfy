/**
 * The login router (src/presentation/routers/login-router.js).
 *
 * A router holds two collaborators, either of which may be absent (`undefined`).
 * `route` reads `email` and `password` from the request body, rejects a missing email,
 * an email the validator calls invalid and a missing password, in that order, then
 * asks the auth use case for a token once; whatever throws on the way is caught and
 * answered with a 500.
 */
module LoginRouting {
  import opened Wrappers
  import Errors
  import opened HttpResponse

  /** JavaScript truthiness of a string-or-absent value: absent and "" are falsy. */
  predicate Truthy(v: Option<string>)
  {
    v.Some? && v.value != ""
  }

  /** The request body; a field the client did not send is `None`. */
  datatype RequestBody = RequestBody(email: Option<string>, password: Option<string>)

  /** The request object; `body` is `None` when the request has no body. */
  datatype HttpRequest = HttpRequest(body: Option<RequestBody>)

  /** The email validator collaborator: `isValid(email)` answers, or throws. */
  datatype EmailValidator = EmailValidator(isValid: string -> Completion<bool>)

  /** The auth use case collaborator: `auth(email, password)` resolves to a token, possibly falsy, or rejects. */
  datatype AuthUseCase = AuthUseCase(auth: (string, string) -> Completion<Option<string>>)

  /** The 200 body `{ acessToken }`, with the key spelled as the router spells it. */
  datatype AccessTokenBody = AccessTokenBody(acessToken: string)

  /** A call the router makes into one of its collaborators, with its arguments. */
  datatype Invocation =
    | IsValidCall(email: string)
    | AuthCall(email: string, password: string)

  /** What the try block of `route` does: how it completes, and the collaborator calls it made. */
  datatype Execution = Execution(completion: Completion<Response<AccessTokenBody>>, calls: seq<Invocation>)

  /** The 400 answer for a missing email. */
  function MissingEmail(): Response<AccessTokenBody>
  {
    BadRequest(Errors.ErrorObject(Errors.MissingParamError(Errors.ParamName("email"))))
  }

  /** The 400 answer for an email the validator rejects. */
  function InvalidEmail(): Response<AccessTokenBody>
  {
    BadRequest(Errors.ErrorObject(Errors.InvalidParamError("email")))
  }

  /** The 400 answer for a missing password. */
  function MissingPassword(): Response<AccessTokenBody>
  {
    BadRequest(Errors.ErrorObject(Errors.MissingParamError(Errors.ParamName("password"))))
  }

  /** The router; its constructor stores the two collaborators, which are only read afterwards. */
  datatype LoginRouter = LoginRouter(authUseCase: Option<AuthUseCase>, emailValidator: Option<EmailValidator>)
  {
    /**
     * The try block of `route`. Destructuring an absent request or an absent body throws,
     * and so does calling a method on an absent collaborator. Every call made is logged.
     */
    function TryBlock(httpRequest: Option<HttpRequest>): (x: Execution)
      ensures |x.calls| <= 2
      ensures x.completion.Returned? ==> x.completion.value.statusCode in {200, 400, 401}
    {
      if httpRequest.None? || httpRequest.value.body.None? then
        Execution(Threw, [])
      else
        var email, password := httpRequest.value.body.value.email, httpRequest.value.body.value.password;
        if !Truthy(email) then
          Execution(Returned(MissingEmail()), [])
        else if emailValidator.None? then
          Execution(Threw, [])
        else
          var validated := [IsValidCall(email.value)];
          match emailValidator.value.isValid(email.value)
          case Threw => Execution(Threw, validated)
          case Returned(valid) =>
            if !valid then
              Execution(Returned(InvalidEmail()), validated)
            else if !Truthy(password) then
              Execution(Returned(MissingPassword()), validated)
            else if authUseCase.None? then
              Execution(Threw, validated)
            else
              var authenticated := validated + [AuthCall(email.value, password.value)];
              match authUseCase.value.auth(email.value, password.value)
              case Threw => Execution(Threw, authenticated)
              case Returned(acessToken) =>
                if !Truthy(acessToken) then
                  Execution(Returned(UnauthorizedError()), authenticated)
                else
                  Execution(Returned(Ok(AccessTokenBody(acessToken.value))), authenticated)
    }

    /**
     * `route(httpRequest)`: the try block, with every exception caught and answered by
     * `serverError()`. It never throws, and it answers with one of four status codes.
     */
    function Route(httpRequest: Option<HttpRequest>): (r: Response<AccessTokenBody>)
      ensures r.statusCode in {200, 400, 401, 500}
      ensures r.statusCode == 500 ==> r == ServerError()
      ensures r.statusCode == 401 ==> r == UnauthorizedError()
      ensures r.statusCode == 400 ==> r.body.ErrorBody? && r.body.error.MissingParamError? && r.body.error.param.ErrorObject?
      ensures r.statusCode == 200 <==> r.body.DataBody?
    {
      match TryBlock(httpRequest).completion
      case Returned(response) => response
      case Threw => ServerError()
    }
  }
}
