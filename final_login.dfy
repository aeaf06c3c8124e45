/** The final LoginController: an injected Validation, then Authentication, then the response. */
module FinalLogin {
  import opened Wrappers
  import opened Values
  import opened Errors
  import opened Http
  import opened Validation

  /** AuthenticationModel as built from the body: the raw email and password values. */
  datatype Credentials = Credentials(email: Option<Value>, password: Option<Value>)

  datatype Call = Validate(input: Body) | Auth(credentials: Credentials)

  datatype Run = Run(response: Response, calls: seq<Call>)

  function CredentialsOf(body: Body): Credentials {
    Credentials(Lookup(body, "email"), Lookup(body, "password"))
  }

  /** `handle(httpRequest)`. Validation is called with the body; a validation error is a bad
      request carrying that same error and authentication is then not called; otherwise auth gets
      the `{email, password}` record from the body and its answer decides the response: a throw
      is a server error, a null (falsy) token is unauthorized, a token `t` is ok `{accessToken: t}`. */
  function Handle(validation: Body -> Option<Error>,
                  authentication: Credentials -> Result<Option<string>, Error>,
                  body: Body): (run: Run)
    ensures |run.calls| >= 1 && run.calls[0] == Validate(body)
    ensures Auth(CredentialsOf(body)) in run.calls <==> validation(body).None?
    ensures forall c :: c in run.calls ==> c == Validate(body) || c == Auth(CredentialsOf(body))
    ensures forall e :: run.response == BadRequest(e) <==> validation(body) == Some(e)
    ensures forall e :: run.response == ServerError(e) <==>
              validation(body).None? && authentication(CredentialsOf(body)) == Failure(e)
    ensures run.response == Unauthorized <==>
              validation(body).None? && authentication(CredentialsOf(body)).Success?
              && !TruthyString(authentication(CredentialsOf(body)).value)
    ensures forall t :: run.response == Ok(AccessTokenBody(t)) <==>
              validation(body).None? && authentication(CredentialsOf(body)) == Success(Some(t)) && t != ""
    ensures !run.response.NoResponse? && !(run.response.Ok? && run.response.body.AccountBody?)
  {
    match validation(body)
    case Some(e) => Run(BadRequest(e), [Validate(body)])
    case None =>
      var credentials := CredentialsOf(body);
      var calls := [Validate(body), Auth(credentials)];
      match authentication(credentials)
      case Failure(e) => Run(ServerError(e), calls)
      case Success(token) =>
        if !TruthyString(token) then Run(Unauthorized, calls)
        else Run(Ok(AccessTokenBody(token.value)), calls)
  }

  /** With a composite of required-field validators for email and password, a body missing
      the email is refused with MissingParam("email") and authentication is never reached. */
  lemma MissingEmailIsBadRequest(authentication: Credentials -> Result<Option<string>, Error>, body: Body)
    requires !Truthy(Lookup(body, "email"))
    ensures var validation := (input: Body) => ErrorOf(Composite(RequiredAll(["email", "password"])), input);
            Handle(validation, authentication, body) == Run(BadRequest(MissingParam("email")), [Validate(body)])
  {
  }

  /** The success case of the login tests: valid credentials and the token 'any_token' give
      ok({accessToken: 'any_token'}) after validating the body and calling auth with it. */
  lemma SuccessCaseAnswersToken()
    ensures var body := map["email" := Str("any_email@email.com"), "password" := Str("any_password")];
            Handle((input: Body) => None, (c: Credentials) => Success(Some("any_token")), body)
              == Run(Ok(AccessTokenBody("any_token")), [Validate(body), Auth(CredentialsOf(body))])
  {
  }
}
