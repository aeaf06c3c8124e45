/** The first LoginController: inline required fields, an EmailValidator, then Authentication. */
module EarlyLogin {
  import opened Wrappers
  import opened Values
  import opened Errors
  import opened Http
  import opened Validation

  const LoginFields: seq<string> := ["email", "password"]

  /** Collaborator calls, in the order they happen. */
  datatype Call = IsValid(email: Value) | Auth(email: Value, password: Value)

  class LoginController {
    /** EmailValidator.isValid; a throw is a Failure. */
    const emailValidator: Value -> Result<bool, Error>
    /** Authentication.auth(email, password): the access token, or null. */
    const authentication: (Value, Value) -> Result<Option<string>, Error>

    constructor (emailValidator: Value -> Result<bool, Error>,
                 authentication: (Value, Value) -> Result<Option<string>, Error>)
      ensures this.emailValidator == emailValidator && this.authentication == authentication
    {
      this.emailValidator := emailValidator;
      this.authentication := authentication;
    }

    /** `handle` inside its try/catch. Email is checked before password; the email validator
        runs only when both are truthy; auth runs only when the email is valid. Any throw
        becomes ServerError carrying the thrown error. A truthy token falls off the end:
        nothing is returned. */
    method Handle(body: Body) returns (response: Response, ghost calls: seq<Call>)
      ensures !Truthy(Lookup(body, "email")) ==>
                response == BadRequest(MissingParam("email")) && calls == []
      ensures Truthy(Lookup(body, "email")) && !Truthy(Lookup(body, "password")) ==>
                response == BadRequest(MissingParam("password")) && calls == []
      ensures !(Truthy(Lookup(body, "email")) && Truthy(Lookup(body, "password"))) ==>
                response.BadRequest? && FirstError(RequiredAll(LoginFields), body) == Some(response.error)
      ensures Truthy(Lookup(body, "email")) && Truthy(Lookup(body, "password")) ==>
                var email, password := body["email"], body["password"];
                |calls| >= 1 && calls[0] == IsValid(email)
                && match emailValidator(email)
                   case Failure(e) => response == ServerError(e) && calls == [IsValid(email)]
                   case Success(false) => response == BadRequest(InvalidParam("email")) && calls == [IsValid(email)]
                   case Success(true) =>
                     calls == [IsValid(email), Auth(email, password)]
                     && match authentication(email, password)
                        case Failure(e) => response == ServerError(e)
                        case Success(token) => response == if TruthyString(token) then NoResponse else Unauthorized
    {
      calls := [];
      var validators := RequiredAll(LoginFields);
      for i := 0 to |LoginFields|
        invariant forall j :: 0 <= j < i ==> Truthy(Lookup(body, LoginFields[j]))
      {
        var field := LoginFields[i];
        if !Truthy(Lookup(body, field)) {
          FirstErrorAt(validators, body, i);
          return BadRequest(MissingParam(field)), calls;
        }
      }
      assert Truthy(Lookup(body, LoginFields[0])) && Truthy(Lookup(body, LoginFields[1]));
      var email, password := body["email"], body["password"];
      var isValid := emailValidator(email);
      calls := calls + [IsValid(email)];
      if isValid.Failure? {
        return ServerError(isValid.error), calls;
      }
      if !isValid.value {
        return BadRequest(InvalidParam("email")), calls;
      }
      var accessToken := authentication(email, password);
      calls := calls + [Auth(email, password)];
      if accessToken.Failure? {
        return ServerError(accessToken.error), calls;
      }
      if !TruthyString(accessToken.value) {
        return Unauthorized, calls;
      }
      return NoResponse, calls;
    }
  }

  /** The success case of the first controller: the credentials are accepted and a token is
      issued, yet `handle` answers nothing where its test expects ok({accessToken}). */
  method SuccessCaseAnswersNothing() returns (response: Response)
    ensures response == NoResponse && response != Ok(AccessTokenBody("any_token"))
  {
    var controller := new LoginController(
      (email: Value) => Success(true),
      (email: Value, password: Value) => Success(Some("any_token")));
    var body := map["email" := Str("any_email@email.com"), "password" := Str("any_password")];
    ghost var calls;
    response, calls := controller.Handle(body);
    assert calls == [IsValid(Str("any_email@email.com")), Auth(Str("any_email@email.com"), Str("any_password"))];
  }
}
