/** Transport-neutral controller responses (400, 401, 500, 200, or no response at all). */
module Http {
  import opened Errors
  import opened Accounts

  datatype Payload = AccessTokenBody(accessToken: string) | AccountBody(account: Account)

  datatype Response =
    | BadRequest(error: Error)    // 400
    | Unauthorized                // 401
    | ServerError(error: Error)   // 500
    | Ok(body: Payload)           // 200
    | NoResponse                  // `handle` fell off its end and returned undefined
}
