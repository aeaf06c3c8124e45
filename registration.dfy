/** DbAddAccount: hash the plaintext password, then store the account with the hash in its place. */
module Registration {
  import opened Wrappers
  import opened Errors
  import opened Accounts

  /** The two ports DbAddAccount is constructed with. A throw is a Failure. */
  datatype Ports = Ports(
    hash: string -> Result<string, Error>,              // Hasher
    add: AccountData -> Result<Account, Error>)         // AddAccountRepository

  datatype Call = Hash(plaintext: string) | Add(data: AccountData)

  /** What `add` resolves to or rejects with, and the port calls it made. */
  datatype Run = Run(outcome: Result<Account, Error>, calls: seq<Call>)

  /** `add(accountData)`. The hasher sees the plaintext password first; the repository is called
      only if hashing succeeded, with name and email unchanged and the hash in place of the
      plaintext; the account returned is the repository's; either rejection propagates. */
  function AddAccount(ports: Ports, data: AccountData): (run: Run)
    ensures 1 <= |run.calls| <= 2 && run.calls[0] == Hash(data.password)
    ensures ports.hash(data.password).Failure? ==>
              run.calls == [Hash(data.password)] && run.outcome == Failure(ports.hash(data.password).error)
    ensures ports.hash(data.password).Success? ==>
              |run.calls| == 2 && run.calls[1].Add?
              && run.outcome == ports.add(run.calls[1].data)
    ensures forall d :: Add(d) in run.calls ==>
              d.name == data.name && d.email == data.email && ports.hash(data.password) == Success(d.password)
  {
    match ports.hash(data.password)
    case Failure(e) => Run(Failure(e), [Hash(data.password)])
    case Success(hashed) =>
      var stored := AccountData(data.name, data.email, hashed);
      Run(ports.add(stored), [Hash(data.password), Add(stored)])
  }

  /** The test's stubs: the repository receives the hashed password and its account is returned. */
  lemma AddAccountExample()
    ensures var stored := Account("valid_id", "valid_name", "valid_email", "hashed_password");
            var ports := Ports((p: string) => Success("hashed_password"), (d: AccountData) => Success(stored));
            var run := AddAccount(ports, AccountData("valid_name", "valid_email", "valid_password"));
            run.outcome == Success(stored)
            && run.calls == [Hash("valid_password"), Add(AccountData("valid_name", "valid_email", "hashed_password"))]
  {
  }
}
