# Input validation and the authenticate / register pipeline of clean-node-api

This project models, in Dafny, the core of a Node.js user-authentication backend:

- the **field validators** `RequireFieldValidation` (a field must be present and truthy) and
  `CompareFieldsValidation` (two fields must be strictly equal), and `ValidationComposite`, which runs
  an ordered list of validators and returns the first error;
- the two **early controllers** (`signup.ts`, `login/login.ts`), which check required fields inline;
- the **use cases** `DbAuthentication.auth` (load the account by email, compare the password with the
  stored hash, encrypt the id into an access token, persist the token) and `DbAddAccount.add` (hash
  the password, store the account), whose behaviour the repository pins by its test files;
- the **final controllers** `LoginController` and `SignUpController`, again pinned by their tests:
  validate, call the use case, map its outcome to a response.

Request bodies are maps from field names to JavaScript primitive values (`Values.Value`); an absent key
is `undefined`. `Values.Truthy` is JavaScript truthiness: `undefined`, `""`, `0`, `false` and `null` are
falsy. Errors are one datatype (`Errors.Error`): `MissingParam`, `InvalidParam`, `Internal` (the
`ServerError` class) and `Plain` for any other thrown error. Responses (`Http.Response`) are
`BadRequest` (400), `Unauthorized` (401), `ServerError` (500), `Ok` (200), and `NoResponse` for a
`handle` that returns `undefined`.

Collaborators (email validator, authentication, repositories, hasher, comparer, encrypter) are
function-valued parameters or constructor fields returning `Result`: a throw or a rejected promise
is a `Failure`. "Called with" properties are stated over call traces: a ghost out-parameter of the
methods, a `calls` component of the `Run` value the pure models return, and the ghost `trace` field
of `DbAuthentication`.

`ValidationComposite`, the two early controllers and `DbAuthentication` are imperative: the composite
and the early controllers loop over a list with early return, `DbAuthentication.Auth` is a
straight-line sequence of port calls that writes the issued token into its `tokens` map. Each is
proved against a specification function (`FirstError`, `Authenticate`) or states its outcome case by
case. `DbAddAccount` and the final controllers are pure outcome mappings.

The first `LoginController` (`src/presentation/controllers/login/login.ts`) returns nothing when
authentication yields a truthy token, although its test at
`src/presentation/controllers/login/login.spec.ts:163-167` expects `ok({accessToken})`. The model
follows the code (`EarlyLogin.LoginController.Handle`, and `SuccessCaseAnswersNothing` shows the case);
the final controller, `FinalLogin.Handle`, answers `Ok(AccessTokenBody(t))` (see "## Findings").

In the repository's authentication test the account the repository returns carries a different email
from the one requested (`src/data/usecases/authentication/db-authentication.spec.ts:15` and `:20`) and
authentication still succeeds: the use case trusts the repository to return the matching account.
`Authentication.LoadedEmailIsNotChecked` states this.

## Model

| member | source | states |
|---|---|---|
| `Values.Truthy` | src/presentation/helpers/validators/required-field-validation.ts:13 | a value is truthy exactly when it is not one of undefined, "", 0, false, null |
| `Values.TruthyString` | src/presentation/controllers/login/login.ts:40 | a token is truthy exactly when, read as a JavaScript string-or-null, it is truthy (not null, not "") |
| `Errors.Message` | src/presentation/errors/missing-param-error.ts:2-4 | the `super(...)` messages: MissingParamError starts with "Missing param: ", InvalidParamError with "Invalid param: " (invalid-param-error.ts:4), each followed by exactly the parameter name; ServerError's is "Internal server error" (server-error.ts:4) |
| `Errors.ParamMessageRoundTrip` | src/presentation/errors/missing-param-error.ts:2-4 | the message "Missing param: n" / "Invalid param: n" determines the error kind and parameter name: parsing it gives back the error |
| `Errors.ParamMessageInjective` | src/presentation/errors/invalid-param-error.ts:2-4 | two parameter errors with the same message are equal |
| `Validation.ErrorOf` | src/presentation/helpers/validators/required-field-validation.ts:12-16 | every validator (including nested composites) reports only MissingParam/InvalidParam errors, naming one of its configured fields |
| `Validation.FirstError` | src/presentation/helpers/validators/validation-composite.ts:11-19 | the composite's error is a parameter error naming a field of one of its validators |
| `Validation.RequiredSpec` | src/presentation/helpers/validators/required-field-validation.ts:12-16 | fails with MissingParam(field) iff the field is absent or falsy; no error iff it is truthy |
| `Validation.RequiredMissingExample` | src/presentation/helpers/validators/required-field-validation.spec.ts:5-9 | with field 'field' and body {name: 'any_name'} the error is MissingParam('field'), message "Missing param: field" |
| `Validation.CompareSpec` | src/presentation/helpers/validators/compare-fields-validation.ts:15-19 | fails with InvalidParam of the second field iff the two values are strictly unequal; no error iff equal |
| `Validation.CompareSymmetric` | src/presentation/helpers/validators/compare-fields-validation.ts:16-17 | swapping the two names keeps whether an error occurs; the reported name is always the second one |
| `Validation.CompareStrictExamples` | src/presentation/helpers/validators/compare-fields-validation.ts:16 | "1" and 1 differ (no coercion); both absent is no error; one absent or null vs undefined is an error; the test's equal values pass |
| `Validation.CompareOneAbsent` | src/presentation/helpers/validators/compare-fields-validation.ts:16 | exactly one of the two fields absent always yields InvalidParam of the second |
| `Validation.MissingEmailScenario` | src/presentation/helpers/validators/validation-composite.ts:13-18 | a composite of Required("email") over {password: "x"} reports MissingParam("email") |
| `Validation.FirstErrorNone` | src/presentation/helpers/validators/validation-composite.spec.ts:61-65 | the composite reports nothing iff every validator reports nothing (so the empty list reports nothing) |
| `Validation.FirstErrorAt` | src/presentation/helpers/validators/validation-composite.spec.ts:47-55 | if validator k is the first to fail, the composite reports exactly its error, not a later one |
| `Validation.FirstErrorWitness` | src/presentation/helpers/validators/validation-composite.spec.ts:34-41 | any error the composite reports is the error of some validator all of whose predecessors passed |
| `Validation.FirstErrorAppend` | src/presentation/helpers/validators/validation-composite.ts:13-18 | running a ++ b equals running a if it fails, else running b |
| `Validation.NestingIsFlattening` | src/presentation/helpers/validators/validation-composite.ts:3 | a composite of two composites behaves as one composite over the concatenated lists |
| `Validation.ErrorOfLocal` | src/presentation/helpers/validators/required-field-validation.ts:13 | a validator's result depends only on the values of its configured fields; other keys never change it |
| `Validation.FirstErrorLocal` | src/presentation/helpers/validators/validation-composite.ts:14 | the composite's result depends only on the fields of its validators |
| `Validation.ValidationComposite.constructor` | src/presentation/helpers/validators/validation-composite.ts:6-8 | the validator list is the one given; it is a constant and never modified |
| `Validation.ValidationComposite.Validate` | src/presentation/helpers/validators/validation-composite.ts:11-19 | the loop returns FirstError of the list; the validators run form a prefix of the list, all but the last passed, and the run stops at the failing one (none run after it) or covers the whole list |
| `EarlySignUp.Handle` | src/presentation/controllers/signup.ts:8-21 | fields are read in the order name, email, password, passwordConfirmation; the first falsy one gives BadRequest(MissingParam(it)) and later ones are not read; all truthy gives no response; only bad requests or no response occur; the outcome equals a composite of Required validators over the same fields |
| `EarlySignUp.OnlySignUpFieldsMatter` | src/presentation/controllers/signup.ts:9-17 | bodies that agree on the four required keys get the same outcome |
| `EarlyLogin.LoginController.constructor` | src/presentation/controllers/login/login.ts:16-19 | the email validator and authentication are the ones injected |
| `EarlyLogin.LoginController.Handle` | src/presentation/controllers/login/login.ts:22-46 | falsy email gives MissingParam('email') even if password is also missing; then falsy password gives MissingParam('password'); only then the email validator is called with the email; false gives InvalidParam('email') without calling auth; auth gets (email, password); a falsy token is Unauthorized; any throw is ServerError(that error); a truthy token returns nothing |
| `EarlyLogin.SuccessCaseAnswersNothing` | src/presentation/controllers/login/login.ts:39-46 | with the success-case stubs of the first login test (valid email, token 'any_token') the first controller answers nothing, not ok({accessToken: 'any_token'}) |
| `Authentication.Authenticate` | src/data/usecases/authentication/db-authentication.spec.ts:90-221 | calls follow load, compare, encrypt, update in order, each only after the previous succeeded (compare only after an account was found, encrypt only after compare returned true); load gets the email, compare (password, stored hash), encrypt the account id, update (id, that token); the run ends early only with null for an unknown account or a false compare, or with the very error of the port that rejected; a returned token is the one persisted |
| `Authentication.FailurePropagates` | src/data/usecases/authentication/db-authentication.spec.ts:106-220 | a rejection of loadByEmail, of compare, of encrypt or of updateAccessToken, each once its step is reached, makes `auth` reject with that same error and return no token |
| `Authentication.UnknownEmailIsRejected` | src/data/usecases/authentication/db-authentication.spec.ts:121-128 | a null account gives null (not a failure) and nothing but the lookup is called |
| `Authentication.WrongPasswordIsRejected` | src/data/usecases/authentication/db-authentication.spec.ts:156-163 | compare false gives null; no token is issued or persisted |
| `Authentication.RejectionsLookAlike` | src/data/usecases/authentication/db-authentication.spec.ts:121-163 | unknown email and wrong password give the same outcome to the caller |
| `Authentication.SuccessIffAllStepsSucceed` | src/data/usecases/authentication/db-authentication.spec.ts:190-208 | a token t is returned iff the account is found, compare is true, encrypt(id) gives t and update(id, t) succeeds; the calls are then exactly the four protocol calls |
| `Authentication.LoadedEmailIsNotChecked` | src/data/usecases/authentication/db-authentication.spec.ts:12-22 | with the test's stubs (account email differing from the requested one) auth returns 'any_token' after the four expected calls |
| `Authentication.DbAuthentication.constructor` | src/data/usecases/authentication/db-authentication.spec.ts:75-80 | the ports are the injected ones; no token written, no call made |
| `Authentication.DbAuthentication.Auth` | src/data/usecases/authentication/db-authentication.spec.ts:200-208 | returns Authenticate's outcome and appends its calls to the trace; a returned token is written once under the loaded account's id, and nothing is written otherwise |
| `Registration.AddAccount` | src/data/usecases/add-account/db-add-account.spec.ts:59-99 | the hasher gets the plaintext password first; a hasher failure propagates and the repository is not called; otherwise the repository gets name and email unchanged and the hash as password, and its answer (account or failure) is the result |
| `Registration.AddAccountExample` | src/data/usecases/add-account/db-add-account.spec.ts:75-99 | with the test's stubs the repository receives the hashed password and its account is returned |
| `FinalLogin.Handle` | src/presentation/controllers/login/login-controller.spec.ts:64-137 | validation is called with the body; a validation error e gives BadRequest(e) and auth is not called; auth gets {email, password} from the body; a failure e gives ServerError(e); a null token Unauthorized; a token t Ok({accessToken: t}); each response kind in both directions |
| `FinalLogin.SuccessCaseAnswersToken` | src/presentation/controllers/login/login-controller.spec.ts:104-108 | with valid credentials and the token 'any_token', the final controller answers ok({accessToken: 'any_token'}) after validating the body and calling auth with its email and password |
| `FinalLogin.MissingEmailIsBadRequest` | src/presentation/controllers/login/login-controller.spec.ts:128-137 | composed with required-field validation of email and password, a body without email is a bad request and auth is never called |
| `FinalSignUp.Handle` | src/presentation/controllers/signup/signup-controller.spec.ts:64-127 | validation is called with the body; a validation error e gives BadRequest(e) without calling AddAccount; AddAccount gets {name, email, password}; its failure gives ServerError(ServerError()) without exposing the original; an account a gives Ok(a); each response kind in both directions |
| `FinalSignUp.ConfirmationIsDropped` | src/presentation/controllers/signup/signup-controller.spec.ts:76-89 | changing passwordConfirmation does not change what AddAccount receives |
| `FinalSignUp.MismatchedConfirmationIsBadRequest` | src/presentation/controllers/signup/signup-controller.spec.ts:118-127 | composed with CompareFields('password', 'passwordConfirmation'), mismatched passwords are a bad request with InvalidParam('passwordConfirmation') and AddAccount is never called |

## Left out

- Hashing, comparing and token signing (the bcrypt and jsonwebtoken adapters): abstract ports, because they are calls into foreign libraries.
- EmailValidator's email syntax check: an uninterpreted function of the email value, because its adapter is a library call.
- Environment configuration (`src/main/config/env.ts`): configuration, not logic.
- Promises and `await`: each awaited call is a sequential step returning `Result`; Jest spies become call traces.
- The `name` field and stack traces of the error classes: errors are only a tagged datatype with a message.
- HTTP helper internals (`badRequest`, `ok`, `serverError`, `unauthorized`) are not part of this model; responses are an abstract datatype.
- The intermediate SignUpController pinned by `signup/signup.spec.ts`: the final controller supersedes it.
- The final LoginController's server error carries the error thrown by authentication, as its test expects; the final
  SignUpController's carries a fresh ServerError, as its test expects. Whether the unseen `serverError` helper wraps either one
  is not part of this model.
- Persistence, email uniqueness and NaN: storage-layer concerns or floating point. Objects and arrays in a body are not modelled.
- A request whose body is undefined: bodies are always maps. In the source, `httpRequest.body[field]` then throws a TypeError; the
  first SignUpController has no try/catch, so its `handle` throws, while the first LoginController catches it and answers
  `serverError` with that TypeError.
- Values.Lookup: a body is read by its own keys only. JavaScript's `input[name]` also finds members inherited from
  `Object.prototype` (`constructor`, `toString`, `valueOf`, ...), so a field with such a name reads as absent here but as a truthy
  function in the source; none of the field names the source configures is one of them. Numbers are unbounded integers:
  fractions, and integers beyond 2^53 that `JSON.parse` rounds, are not represented.
- Validation.FirstError: validators are restricted to the three implementations in the source (Required, Compare, Composite),
  because the composite is modelled over a closed datatype. The source's composite accepts any `Validation`, including the test
  stubs that return a plain `Error`; for those, the first-failure lemmas (`FirstErrorAt`, `FirstErrorWitness`, `FirstErrorAppend`)
  would carry over unchanged, but the promise that every reported error is a parameter error naming a configured field would not.
- The controllers pass raw body values to the use cases while the use cases are modelled at their declared string types, so the
  model proves no end-to-end property across a controller and a use case.

## Findings

| source | as written | input that shows it | evidently intended | confidence | as-written member | corrected member |
|---|---|---|---|---|---|---|
| src/presentation/controllers/login/login.ts:39-46 | after a truthy token `handle` falls off its end and returns undefined | body {email: 'any_email@email.com', password: 'any_password'}, email validator true, auth 'any_token' (login.spec.ts:163-167) | answer ok({accessToken}) | not executed | `EarlyLogin.SuccessCaseAnswersNothing` | `FinalLogin.SuccessCaseAnswersToken` |
