/** The first SignUpController: an inline required-field loop and nothing else. */
module EarlySignUp {
  import opened Wrappers
  import opened Values
  import opened Errors
  import opened Http
  import opened Validation

  const SignUpFields: seq<string> := ["name", "email", "password", "passwordConfirmation"]

  /** `handle`: the first absent or falsy field, in the order above, gives a bad request
      carrying MissingParam of that field; if all four are truthy `handle` returns nothing.
      `inspected` is the fields read, which stop at the first failing one. */
  method Handle(body: Body) returns (response: Response, ghost inspected: seq<string>)
    ensures response.BadRequest? || response.NoResponse?
    ensures response.NoResponse? <==> forall f :: f in SignUpFields ==> Truthy(Lookup(body, f))
    ensures |inspected| <= |SignUpFields| && inspected == SignUpFields[..|inspected|]
    ensures forall j :: 0 <= j < |inspected| - 1 ==> Truthy(Lookup(body, inspected[j]))
    ensures response.NoResponse? ==> inspected == SignUpFields
    ensures response.BadRequest? ==>
              |inspected| > 0 && response.error == MissingParam(inspected[|inspected| - 1])
              && !Truthy(Lookup(body, inspected[|inspected| - 1]))
    ensures response == (match FirstError(RequiredAll(SignUpFields), body)
                         case Some(e) => BadRequest(e)
                         case None => NoResponse)
  {
    var validators := RequiredAll(SignUpFields);
    inspected := [];
    for i := 0 to |SignUpFields|
      invariant inspected == SignUpFields[..i]
      invariant forall j :: 0 <= j < i ==> Truthy(Lookup(body, SignUpFields[j]))
    {
      var field := SignUpFields[i];
      inspected := inspected + [field];
      if !Truthy(Lookup(body, field)) {
        assert inspected == SignUpFields[..i + 1];
        FirstErrorAt(validators, body, i);
        return BadRequest(MissingParam(field)), inspected;
      }
    }
    FirstErrorNone(validators, body);
    return NoResponse, inspected;
  }

  /** Only the four listed keys affect how the first SignUpController answers. */
  lemma OnlySignUpFieldsMatter(x: Body, y: Body)
    requires forall f :: f in SignUpFields ==> Lookup(x, f) == Lookup(y, f)
    ensures FirstError(RequiredAll(SignUpFields), x) == FirstError(RequiredAll(SignUpFields), y)
  {
    RequiredAllFields(SignUpFields);
    FirstErrorLocal(RequiredAll(SignUpFields), x, y);
  }
}
