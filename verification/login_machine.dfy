/**
 * The login request as a state machine that moves one check at a time:
 * Received -> CheckingEmail -> ValidatingEmail -> CheckingPassword -> Authenticating
 * -> Responding, where any check can answer early and any fault goes through Faulted
 * (the catch) to a 500. It is an independent, stage-by-stage reading of
 * LoginRouter.Route; RunAgreesWithRoute proves the two give the same response and the
 * same collaborator calls for every router and every request.
 */
module LoginMachine {
  import opened Wrappers
  import Errors
  import opened HttpResponse
  import opened LoginRouting

  datatype Stage =
    | Received(httpRequest: Option<HttpRequest>)
    | CheckingEmail(sentEmail: Option<string>, sentPassword: Option<string>)
    | ValidatingEmail(email: string, sentPassword: Option<string>)
    | CheckingPassword(email: string, sentPassword: Option<string>)
    | Authenticating(email: string, password: string)
    | Faulted
    | Responding(response: Response<AccessTokenBody>)

  /** The stage reached, and the collaborator calls made on the way. */
  datatype Transition = Transition(stage: Stage, calls: seq<Invocation>)

  /** How many stages are still ahead at most; every step lowers it, so no stage is visited twice. */
  function Rank(s: Stage): nat
  {
    match s
    case Received(_) => 6
    case CheckingEmail(_, _) => 5
    case ValidatingEmail(_, _) => 4
    case CheckingPassword(_, _) => 3
    case Authenticating(_, _) => 2
    case Faulted => 1
    case Responding(_) => 0
  }

  /** One step of the machine: each stage performs one check or one collaborator call. */
  function Step(router: LoginRouter, s: Stage): (t: Transition)
    requires !s.Responding?
    ensures Rank(t.stage) < Rank(s)
    ensures |t.calls| <= 1
  {
    match s
    case Received(httpRequest) =>
      if httpRequest.None? || httpRequest.value.body.None? then Transition(Faulted, [])
      else Transition(CheckingEmail(httpRequest.value.body.value.email, httpRequest.value.body.value.password), [])
    case CheckingEmail(email, password) =>
      if !Truthy(email) then Transition(Responding(MissingEmail()), [])
      else Transition(ValidatingEmail(email.value, password), [])
    case ValidatingEmail(email, password) =>
      if router.emailValidator.None? then Transition(Faulted, [])
      else
        (match router.emailValidator.value.isValid(email)
         case Threw => Transition(Faulted, [IsValidCall(email)])
         case Returned(valid) =>
           if valid then Transition(CheckingPassword(email, password), [IsValidCall(email)])
           else Transition(Responding(InvalidEmail()), [IsValidCall(email)]))
    case CheckingPassword(email, password) =>
      if !Truthy(password) then Transition(Responding(MissingPassword()), [])
      else Transition(Authenticating(email, password.value), [])
    case Authenticating(email, password) =>
      if router.authUseCase.None? then Transition(Faulted, [])
      else
        (match router.authUseCase.value.auth(email, password)
         case Threw => Transition(Faulted, [AuthCall(email, password)])
         case Returned(token) =>
           var response := if Truthy(token) then Ok(AccessTokenBody(token.value)) else UnauthorizedError();
           Transition(Responding(response), [AuthCall(email, password)]))
    case Faulted =>
      Transition(Responding(ServerError()), [])
  }

  /** Runs the machine from `s` until it responds, collecting every collaborator call. */
  function Run(router: LoginRouter, s: Stage): (t: Transition)
    ensures t.stage.Responding?
    ensures |t.calls| <= Rank(s)
    decreases Rank(s)
  {
    if s.Responding? then Transition(s, [])
    else
      var first := Step(router, s);
      var rest := Run(router, first.stage);
      Transition(rest.stage, first.calls + rest.calls)
  }

  /** A step that answers ends the run: its calls are the run's calls. */
  lemma RunEndsWithAnswer(router: LoginRouter, s: Stage)
    requires !s.Responding? && Step(router, s).stage.Responding?
    ensures Run(router, s) == Step(router, s)
  {
    var first := Step(router, s);
    assert Run(router, first.stage) == Transition(first.stage, []);
    assert first.calls + [] == first.calls;
  }

  /** A step that faults ends the run with `serverError()`, after the step's own calls. */
  lemma RunEndsWithFault(router: LoginRouter, s: Stage)
    requires !s.Responding? && Step(router, s).stage == Faulted
    ensures Run(router, s) == Transition(Responding(ServerError()), Step(router, s).calls)
  {
    var first := Step(router, s);
    RunEndsWithAnswer(router, Faulted);
    assert first.calls + [] == first.calls;
  }

  /**
   * The machine and the router agree: started on any request, the machine responds with
   * exactly what `route` answers, after exactly the collaborator calls `route` makes.
   */
  lemma RunAgreesWithRoute(router: LoginRouter, httpRequest: Option<HttpRequest>)
    ensures Run(router, Received(httpRequest)) == Transition(Responding(router.Route(httpRequest)), router.TryBlock(httpRequest).calls)
  {
    if httpRequest.None? || httpRequest.value.body.None? {
      RunEndsWithFault(router, Received(httpRequest));
    } else {
      var email, password := httpRequest.value.body.value.email, httpRequest.value.body.value.password;
      assert Run(router, Received(httpRequest)) == Run(router, CheckingEmail(email, password));
      if !Truthy(email) {
        RunEndsWithAnswer(router, CheckingEmail(email, password));
      } else {
        var validating := ValidatingEmail(email.value, password);
        assert Run(router, CheckingEmail(email, password)) == Run(router, validating);
        var next := Step(router, validating);
        if next.stage == Faulted {
          RunEndsWithFault(router, validating);
        } else if next.stage.Responding? {
          RunEndsWithAnswer(router, validating);
        } else {
          var checking := CheckingPassword(email.value, password);
          assert next == Transition(checking, [IsValidCall(email.value)]);
          if !Truthy(password) {
            RunEndsWithAnswer(router, checking);
          } else {
            var authenticating := Authenticating(email.value, password.value);
            assert Run(router, checking) == Run(router, authenticating);
            if Step(router, authenticating).stage == Faulted {
              RunEndsWithFault(router, authenticating);
            } else {
              RunEndsWithAnswer(router, authenticating);
            }
          }
        }
      }
    }
  }
}
