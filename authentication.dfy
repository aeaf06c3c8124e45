/** DbAuthentication: load the account by email, compare the password with the stored hash,
    encrypt the account id into an access token, persist the token, return it. */
module Authentication {
  import opened Wrappers
  import opened Errors
  import opened Accounts

  /** The four ports DbAuthentication is constructed with. A throw is a Failure. */
  datatype Ports = Ports(
    loadByEmail: string -> Result<Option<Account>, Error>,        // LoadAccountByEmailRepository
    compare: (string, string) -> Result<bool, Error>,             // HashComparer(value, hash)
    encrypt: string -> Result<string, Error>,                     // Encrypter(id)
    updateAccessToken: (string, string) -> Result<(), Error>)     // UpdateAccessTokenRepository(id, token)

  datatype Call =
    | LoadByEmail(email: string)
    | Compare(value: string, hash: string)
    | Encrypt(id: string)
    | UpdateAccessToken(id: string, token: string)

  /** What `auth` resolves to (a token, or null) or rejects with, and the port calls it made. */
  datatype Run = Run(outcome: Result<Option<string>, Error>, calls: seq<Call>)

  /** Position of a call in the protocol. */
  function Step(c: Call): nat {
    match c
    case LoadByEmail(_) => 0
    case Compare(_, _) => 1
    case Encrypt(_) => 2
    case UpdateAccessToken(_, _) => 3
  }

  /** The port a call went to rejected with `e`. */
  predicate Rejected(ports: Ports, c: Call, e: Error) {
    match c
    case LoadByEmail(m) => ports.loadByEmail(m) == Failure(e)
    case Compare(v, h) => ports.compare(v, h) == Failure(e)
    case Encrypt(id) => ports.encrypt(id) == Failure(e)
    case UpdateAccessToken(id, t) => ports.updateAccessToken(id, t) == Failure(e)
  }

  predicate Issued(r: Result<Option<string>, Error>) {
    r.Success? && r.value.Some?
  }

  /** The account the repository returned for `email`, if it returned one. */
  predicate Found(ports: Ports, email: string) {
    ports.loadByEmail(email).Success? && ports.loadByEmail(email).value.Some?
  }

  /** The gated protocol of `auth`. Calls happen in protocol order, one per step, each only
      after the previous step succeeded; a rejection ends the run with that very error. */
  function Authenticate(ports: Ports, email: string, password: string): (run: Run)
    ensures 1 <= |run.calls| <= 4 && run.calls[0] == LoadByEmail(email)
    ensures forall i :: 0 <= i < |run.calls| ==> Step(run.calls[i]) == i
    ensures forall e :: run.outcome == Failure(e) <==> Rejected(ports, run.calls[|run.calls| - 1], e)
    ensures forall i, e :: 0 <= i < |run.calls| - 1 ==> !Rejected(ports, run.calls[i], e)
    ensures |run.calls| >= 2 ==>
              Found(ports, email) && run.calls[1] == Compare(password, ports.loadByEmail(email).value.value.password)
    ensures |run.calls| >= 3 ==>
              ports.compare(password, ports.loadByEmail(email).value.value.password) == Success(true)
              && run.calls[2] == Encrypt(ports.loadByEmail(email).value.value.id)
    ensures |run.calls| == 4 ==>
              ports.encrypt(run.calls[2].id).Success?
              && run.calls[3] == UpdateAccessToken(run.calls[2].id, ports.encrypt(run.calls[2].id).value)
    ensures Issued(run.outcome) ==> |run.calls| == 4 && run.outcome.value.value == run.calls[3].token
    ensures run.outcome == Success(None) ==>
              (|run.calls| == 1 && ports.loadByEmail(email) == Success(None))
              || (|run.calls| == 2 && ports.compare(password, ports.loadByEmail(email).value.value.password) == Success(false))
  {
    var loaded := ports.loadByEmail(email);
    var load := [LoadByEmail(email)];
    match loaded
    case Failure(e) => Run(Failure(e), load)
    case Success(None) => Run(Success(None), load)
    case Success(Some(account)) =>
      var compare := load + [Compare(password, account.password)];
      match ports.compare(password, account.password)
      case Failure(e) => Run(Failure(e), compare)
      case Success(false) => Run(Success(None), compare)
      case Success(true) =>
        var encrypt := compare + [Encrypt(account.id)];
        match ports.encrypt(account.id)
        case Failure(e) => Run(Failure(e), encrypt)
        case Success(token) =>
          var update := encrypt + [UpdateAccessToken(account.id, token)];
          match ports.updateAccessToken(account.id, token)
          case Failure(e) => Run(Failure(e), update)
          case Success(_) => Run(Success(Some(token)), update)
  }

  /** An unknown email resolves to null, not to an error, and the comparer is never called. */
  lemma UnknownEmailIsRejected(ports: Ports, email: string, password: string)
    requires ports.loadByEmail(email) == Success(None)
    ensures Authenticate(ports, email, password) == Run(Success(None), [LoadByEmail(email)])
  {
  }

  /** A wrong password resolves to null; no token is issued or persisted. */
  lemma WrongPasswordIsRejected(ports: Ports, email: string, password: string)
    requires Found(ports, email)
    requires ports.compare(password, ports.loadByEmail(email).value.value.password) == Success(false)
    ensures Authenticate(ports, email, password).outcome == Success(None)
    ensures forall c :: c in Authenticate(ports, email, password).calls ==> Step(c) <= 1
  {
  }

  /** Every port rejection propagates: whichever of loadByEmail, compare, encrypt or
      updateAccessToken rejects with `e` first, `auth` rejects with `e` and returns no token. */
  lemma FailurePropagates(ports: Ports, email: string, password: string, e: Error)
    ensures ports.loadByEmail(email) == Failure(e) ==>
              Authenticate(ports, email, password).outcome == Failure(e)
    ensures Found(ports, email) ==>
              var account := ports.loadByEmail(email).value.value;
              && (ports.compare(password, account.password) == Failure(e) ==>
                    Authenticate(ports, email, password).outcome == Failure(e))
              && (ports.compare(password, account.password) == Success(true) ==>
                    && (ports.encrypt(account.id) == Failure(e) ==>
                          Authenticate(ports, email, password).outcome == Failure(e))
                    && (ports.encrypt(account.id).Success? &&
                        ports.updateAccessToken(account.id, ports.encrypt(account.id).value) == Failure(e) ==>
                          Authenticate(ports, email, password).outcome == Failure(e)))
  {
  }

  /** Unknown email and wrong password are indistinguishable to the caller. */
  lemma RejectionsLookAlike(ports: Ports, email: string, password: string, ports': Ports, email': string, password': string)
    requires ports.loadByEmail(email) == Success(None)
    requires Found(ports', email')
    requires ports'.compare(password', ports'.loadByEmail(email').value.value.password) == Success(false)
    ensures Authenticate(ports, email, password).outcome == Authenticate(ports', email', password').outcome
  {
  }

  /** `auth` yields a token exactly when all four steps succeed, and the token is the one
      `encrypt` produced for the loaded account's id; the calls are then exactly the protocol. */
  lemma SuccessIffAllStepsSucceed(ports: Ports, email: string, password: string, token: string)
    ensures Authenticate(ports, email, password).outcome == Success(Some(token)) <==>
              Found(ports, email)
              && var account := ports.loadByEmail(email).value.value;
                 ports.compare(password, account.password) == Success(true)
                 && ports.encrypt(account.id) == Success(token)
                 && ports.updateAccessToken(account.id, token).Success?
    ensures Authenticate(ports, email, password).outcome == Success(Some(token)) ==>
              var account := ports.loadByEmail(email).value.value;
              Authenticate(ports, email, password).calls ==
                [LoadByEmail(email), Compare(password, account.password), Encrypt(account.id), UpdateAccessToken(account.id, token)]
  {
  }

  /** The test's stubs: the repository's account carries a different email from the one asked for,
      and `auth` still succeeds; the loaded email is never checked against the requested one. */
  lemma LoadedEmailIsNotChecked()
    ensures var account := Account("any_id", "any_name", "any_email@mail.com", "hashed_password");
            var ports := Ports(
              (m: string) => Success(Some(account)),
              (v: string, h: string) => Success(true),
              (id: string) => Success("any_token"),
              (id: string, t: string) => Success(()));
            var run := Authenticate(ports, "any_email@email.com", "any_password");
            account.email != "any_email@email.com"
            && run.outcome == Success(Some("any_token"))
            && run.calls == [LoadByEmail("any_email@email.com"), Compare("any_password", "hashed_password"),
                             Encrypt("any_id"), UpdateAccessToken("any_id", "any_token")]
  {
  }

  /** `new DbAuthentication(...)`. `tokens` is what successful updateAccessToken calls have
      written: account id to access token. `trace` is every port call made so far. */
  class DbAuthentication {
    const ports: Ports
    var tokens: map<string, string>
    ghost var trace: seq<Call>

    constructor (ports: Ports)
      ensures this.ports == ports && tokens == map[] && trace == []
    {
      this.ports := ports;
      tokens := map[];
      trace := [];
    }

    /** `auth(email, password)`: exactly one token is written, under the loaded account's id,
        if and only if a token is returned; nothing is written otherwise. */
    method Auth(email: string, password: string) returns (accessToken: Result<Option<string>, Error>)
      modifies this
      ensures accessToken == Authenticate(ports, email, password).outcome
      ensures trace == old(trace) + Authenticate(ports, email, password).calls
      ensures Issued(accessToken) ==>
                Found(ports, email)
                && tokens == old(tokens)[ports.loadByEmail(email).value.value.id := accessToken.value.value]
      ensures !Issued(accessToken) ==> tokens == old(tokens)
    {
      var loaded := ports.loadByEmail(email);
      trace := trace + [LoadByEmail(email)];
      if loaded.Failure? {
        return Failure(loaded.error);
      }
      if loaded.value.None? {
        return Success(None);
      }
      var account := loaded.value.value;
      var isValid := ports.compare(password, account.password);
      trace := trace + [Compare(password, account.password)];
      if isValid.Failure? {
        return Failure(isValid.error);
      }
      if !isValid.value {
        return Success(None);
      }
      var token := ports.encrypt(account.id);
      trace := trace + [Encrypt(account.id)];
      if token.Failure? {
        return Failure(token.error);
      }
      var updated := ports.updateAccessToken(account.id, token.value);
      trace := trace + [UpdateAccessToken(account.id, token.value)];
      if updated.Failure? {
        return Failure(updated.error);
      }
      tokens := tokens[account.id := token.value];
      return Success(Some(token.value));
    }
  }
}
