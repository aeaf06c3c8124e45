/** The final SignUpController: an injected Validation, then AddAccount, then the response. */
module FinalSignUp {
  import opened Wrappers
  import opened Values
  import opened Errors
  import opened Accounts
  import opened Http
  import opened Validation

  /** AddAccountModel as built from the body: name, email and password; the confirmation is dropped. */
  datatype SignUpData = SignUpData(name: Option<Value>, email: Option<Value>, password: Option<Value>)

  datatype Call = Validate(input: Body) | Add(data: SignUpData)

  datatype Run = Run(response: Response, calls: seq<Call>)

  function SignUpDataOf(body: Body): SignUpData {
    SignUpData(Lookup(body, "name"), Lookup(body, "email"), Lookup(body, "password"))
  }

  /** `handle(httpRequest)`. Validation is called with the body; a validation error is a bad
      request carrying it and AddAccount is not called; otherwise AddAccount gets
      `{name, email, password}`; its failure is a server error carrying a fresh ServerError
      (the original error is not exposed); its account is returned in an ok response. */
  function Handle(validation: Body -> Option<Error>,
                  addAccount: SignUpData -> Result<Account, Error>,
                  body: Body): (run: Run)
    ensures |run.calls| >= 1 && run.calls[0] == Validate(body)
    ensures Add(SignUpDataOf(body)) in run.calls <==> validation(body).None?
    ensures forall c :: c in run.calls ==> c == Validate(body) || c == Add(SignUpDataOf(body))
    ensures forall e :: run.response == BadRequest(e) <==> validation(body) == Some(e)
    ensures run.response.ServerError? <==> validation(body).None? && addAccount(SignUpDataOf(body)).Failure?
    ensures run.response.ServerError? ==> run.response.error == Internal
    ensures forall a :: run.response == Ok(AccountBody(a)) <==>
              validation(body).None? && addAccount(SignUpDataOf(body)) == Success(a)
    ensures !run.response.NoResponse? && !run.response.Unauthorized? && !(run.response.Ok? && run.response.body.AccessTokenBody?)
  {
    match validation(body)
    case Some(e) => Run(BadRequest(e), [Validate(body)])
    case None =>
      var data := SignUpDataOf(body);
      var calls := [Validate(body), Add(data)];
      match addAccount(data)
      case Failure(_) => Run(ServerError(Internal), calls)
      case Success(account) => Run(Ok(AccountBody(account)), calls)
  }

  /** The password confirmation never reaches AddAccount: two bodies that differ only in it
      make the same AddAccount call. */
  lemma ConfirmationIsDropped(body: Body, confirmation: Value)
    ensures SignUpDataOf(body["passwordConfirmation" := confirmation]) == SignUpDataOf(body)
  {
  }

  /** With validation `CompareFields('password', 'passwordConfirmation')`, mismatched passwords
      are refused with InvalidParam("passwordConfirmation") and AddAccount is never reached. */
  lemma MismatchedConfirmationIsBadRequest(addAccount: SignUpData -> Result<Account, Error>, body: Body)
    requires Lookup(body, "password") != Lookup(body, "passwordConfirmation")
    ensures var validation := (input: Body) => ErrorOf(Compare("password", "passwordConfirmation"), input);
            Handle(validation, addAccount, body) == Run(BadRequest(InvalidParam("passwordConfirmation")), [Validate(body)])
  {
  }
}
