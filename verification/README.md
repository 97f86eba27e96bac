# Login request pipeline — a Dafny model

This project models the presentation layer's login request handling in a small
Node.js "clean architecture" sign-up/login service:

- `LoginRouter.route(httpRequest)` reads `email` and `password` from the request body.
  It rejects a missing email, then an email the injected email validator calls
  invalid, then a missing password. Only then does it ask the injected auth use case
  for an access token, once. A falsy token is answered 401 and a truthy one 200. Every
  exception is caught and answered 500. That includes an absent request, an absent body
  and an absent collaborator.
- `HttpResponse` holds the four response builders the router uses: `badRequest`,
  `serverError`, `unauthorizedError` and `ok`.

Both source files are pure, so the model is made of datatypes, functions and lemmas:

- `wrappers.dfy`: `Option` (JavaScript `undefined`/`null`) and `Completion` (a call
  that returns a value or throws).
- `errors.dfy`: the four error classes, as constructors of `HttpError`.
- `http_response.dfy`: the response type and the four builders.
- `login_router.dfy`: the router as a datatype holding its two optional collaborators.
  Each collaborator is an oracle whose calls return or throw. `TryBlock` is the `try`
  body: it yields a completion (a response or a throw) and the log of collaborator
  calls it made. `Route` adds the `catch`.
- `login_machine.dfy`: an independent, stage-by-stage reading of the same request
  handling as a state machine: Received, CheckingEmail, ValidatingEmail,
  CheckingPassword, Authenticating, then Faulted (the catch) or Responding. It is
  proved to agree with `Route` on every router and request, down to the calls made.
- `login_properties.dfy`: what `route` promises, over every router and request.

Behaviour kept as the code has it:

- `badRequest(x)` always builds a NEW `MissingParamError` from `x`
  (src/presentation/helpers/http-response.js:9). The router already hands it a built
  error object, so every 400 body is a fresh `MissingParamError` wrapped around the error
  the router built. For an invalid email it wraps an `InvalidParamError`; the body is not
  that `InvalidParamError` itself.
- The 200 body key is spelled `acessToken` (src/presentation/routers/login-router.js:26),
  modelled as `AccessTokenBody.acessToken`.
- The router consults the email validator before it looks at the password. A router
  built without a validator therefore answers 500, not 400, to a body holding only an
  email (`UnitTestScenarios`). The router's unit tests expect 400 there, but they
  exercise a stand-in router defined inside the test file, not this one.

JavaScript truthiness is modelled for strings only. A field is `None` (undefined, null
or any other non-string falsy value) or `Some(s)`, and it is falsy when `None` or
`Some("")`. `isValid` answers a boolean; `auth` resolves to an optional string.

## Model

| member | source | states |
|---|---|---|
| `HttpResponse.BadRequest` | src/presentation/helpers/http-response.js:6-11 | status 400; the body is a MissingParamError whose argument is exactly `params` |
| `HttpResponse.BadRequestWrapsErrorObject` | src/presentation/helpers/http-response.js:6-11 | given an already-built error object, badRequest never answers with that object; it wraps it in a new MissingParamError |
| `HttpResponse.ServerError` | src/presentation/helpers/http-response.js:12-17 | takes no argument; status 500 with a ServerError body |
| `HttpResponse.UnauthorizedError` | src/presentation/helpers/http-response.js:18-23 | status 401 with an UnauthorizedError body |
| `HttpResponse.Ok` | src/presentation/helpers/http-response.js:24-29 | status 200; the body is `data`, nothing added or changed |
| `HttpResponse.StatusIdentifiesBuilder` | src/presentation/helpers/http-response.js:5-30 | the four builders use four distinct status codes: the status alone recovers the builder, whatever the arguments, and two responses share a status only if one builder made both |
| `LoginRouting.LoginRouter.TryBlock` | src/presentation/routers/login-router.js:12-26 | the try body makes at most two collaborator calls, and when it returns normally (does not throw) its status is 200, 400 or 401 |
| `LoginRouting.LoginRouter.Route` | src/presentation/routers/login-router.js:10-30 | route is total and never throws: every router and request get status 200, 400, 401 or 500; a 500 is exactly serverError(), a 401 exactly unauthorizedError(), a 400 a MissingParamError wrapped around an error object, and the body carries data exactly when the status is 200 |
| `LoginMachine.Step` | src/presentation/routers/login-router.js:12-29 | every step strictly lowers the rank, so no stage is visited twice, and logs at most one collaborator call |
| `LoginMachine.Run` | src/presentation/routers/login-router.js:10-30 | from any stage the machine always ends in Responding, with at most as many collaborator calls as stages left |
| `LoginMachine.RunAgreesWithRoute` | src/presentation/routers/login-router.js:10-30 | for every router and request, the stage machine responds exactly as route does, after exactly the collaborator calls route's try block makes |
| `LoginProperties.NoRequestOrNoBody` | src/presentation/routers/login-router.js:12-29 | no request, or a request without a body, is answered serverError() (500) and no collaborator is called |
| `LoginProperties.FalsyEmailIsBadRequest` | src/presentation/routers/login-router.js:13-15 | a falsy email gets 400 with MissingParamError(MissingParamError('email')), and no collaborator is called, whether or not they exist |
| `LoginProperties.RejectedEmailIsBadRequest` | src/presentation/routers/login-router.js:16-18 | an email the validator rejects gets 400 with MissingParamError(InvalidParamError('email')) whatever the password; only isValid(email) was called, auth was not |
| `LoginProperties.FalsyPasswordIsBadRequest` | src/presentation/routers/login-router.js:19-21 | an accepted email with a falsy password gets 400 with MissingParamError(MissingParamError('password')); auth is not called |
| `LoginProperties.CollaboratorCalls` | src/presentation/routers/login-router.js:16-22 | the call log is empty, [isValid(email)] or [isValid(email), auth(email, password)] with the body's own email and password: the validator is called at most once and only with the body's truthy email, and always once a truthy email meets a present validator; auth is called once, last, exactly when all checks pass and an auth use case exists, and otherwise never |
| `LoginProperties.FalsyTokenIsUnauthorized` | src/presentation/routers/login-router.js:22-25 | when auth resolves to a falsy token the answer is 401 with an UnauthorizedError body |
| `LoginProperties.TruthyTokenIsOk` | src/presentation/routers/login-router.js:22-26 | when auth resolves to a truthy token t the answer is 200 with body { acessToken: t }, t unchanged |
| `LoginProperties.ServerErrorIffFault` | src/presentation/routers/login-router.js:11-29 | no request or no body; once the email is truthy, an absent or throwing validator; once all three checks pass, an absent or throwing auth use case: all give the identical serverError(), and a 500 arises from nothing else |
| `LoginProperties.StatusExplainsOutcome` | src/presentation/routers/login-router.js:13-26 | 400 iff a check fails (email falsy, rejected, or accepted with falsy password); 401 iff auth resolves falsy; 200 iff auth resolves truthy |
| `LoginProperties.UnitTestScenarios` | src/presentation/routers/login-router.spec.js:39-74 | against a router with no collaborators: no email is 400; no request and an empty request are 500; email only is 500, because the absent validator is consulted first |
| `LoginProperties.EndToEndScenarios` | src/presentation/routers/login-router.js:10-30 | with an accepting validator and an auth use case that issues "tok123" for "correct": the right password gets 200 { acessToken: "tok123" }, a wrong one 401, a missing field 400, and no auth use case 500 |

## Left out

- Email syntax: `isValid` is an opaque oracle. The wrapper over the `validator` package is not part of this model.
- The auth use case internals (account lookup, password comparison, token issuance): no implementation of them is part of this model. `auth` is an oracle that resolves to a token or throws.
- The error classes' message texts and `name` fields: their class files are not part of this model. Errors are told apart by class and construction argument only.
- async/await: each awaited call is a synchronous call that returns or throws. A validator whose `isValid` returns a promise (always truthy) is not modelled.
- JavaScript values other than strings in `email`, `password`, `isValid`'s answer and the token. Non-string falsy values collapse into `None`; non-string truthy values are not modelled.
- A validator or use case object that lacks its method: calling it throws, which gives the same response as an oracle that throws, so it is not a separate case.
- Express wiring (`ExpressRouterAdapter`), `SignUpRouter`, `SignUpUseCase` and `AddAccountRepository` in login.js, sign-up.js and repository/index.js: framework and database plumbing outside the login pipeline.
- The `LoginRouter` constructor is the datatype constructor `LoginRouting.LoginRouter`: it only stores its two arguments, which are never reassigned.
