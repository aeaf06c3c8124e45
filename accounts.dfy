/** The account records exchanged between the use cases and their repositories. */
module Accounts {

  /** AccountModel: a stored account; `password` is the stored hash. */
  datatype Account = Account(id: string, name: string, email: string, password: string)

  /** AddAccountModel: the data of an account to create. */
  datatype AccountData = AccountData(name: string, email: string, password: string)
}
