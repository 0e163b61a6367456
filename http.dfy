/**
 * What an Express handler of the server hands back: the JSON body of
 * `res.json(...)`, the `token` cookie it sets or clears, and the outcome of
 * `jwt.verify` on a presented token (the signature check itself is not modelled).
 */
module Http {

  /**
   * `{ success, message, isUnverified }`. An absent `message` is "" and an
   * absent `isUnverified` is false.
   */
  datatype Reply = Reply(success: bool, message: string, isUnverified: bool)

  /**
   * The session cookie: left alone, set to a token signed over `{ id: userId }`
   * that lives `maxAge` milliseconds, or cleared.
   */
  datatype Cookie = NoCookie | SetToken(userId: string, maxAge: int) | ClearToken

  /** `jwt.verify(token, secret)`: the decoded claims (an `id` of "" when it has none) or the error it threw. */
  datatype TokenCheck = Decoded(id: string) | Threw(message: string)

  const NOT_AUTHORIZED: string := "Not Authorized. Please Login Again."

  /** The `maxAge` of every session cookie: seven days in milliseconds, the token's own `expiresIn`. */
  const SESSION_MAX_AGE: int := 7 * 24 * 60 * 60 * 1000
}
