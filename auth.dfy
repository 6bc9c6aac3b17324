/** The `checkSubscription` middleware of server/middleware/auth.js. The
    JWT-based `auth` middleware that sets `req.user` is not part of this
    model; its outcome is the possibly-null `user` argument. */
module Auth {
  import opened UserModel
  import opened Http

  /** What the middleware does with a request: answer it (with the status
      `Status(reason)`), or call `next()`. */
  datatype Decision = Next | Reject(reason: Reason)

  /** The early-return chain: no user, then an inactive subscription, then
      no credits. It only reads the user. */
  function CheckSubscription(user: User?, now: int): (d: Decision)
    reads user
    ensures d == Next <==>
      user != null && user.HasActiveSubscription(now) && user.HasCredits()
    ensures d == Reject(AuthenticationRequired) <==> user == null
    ensures d == Reject(SubscriptionRequired) <==>
      user != null && !user.HasActiveSubscription(now)
    ensures d == Reject(CreditsRequired) <==>
      user != null && user.HasActiveSubscription(now) && !user.HasCredits()
  {
    if user == null then Reject(AuthenticationRequired)
    else if !user.HasActiveSubscription(now) then Reject(SubscriptionRequired)
    else if !user.HasCredits() then Reject(CreditsRequired)
    else Next
  }
}
