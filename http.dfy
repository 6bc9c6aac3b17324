/** The rejection bodies the server sends on the calculate path. */
module Http {

  /** Which flag the JSON body of a rejection carries. */
  datatype Reason =
    | AuthenticationRequired   // 401, message 'Authentication required'
    | SubscriptionRequired     // 403, `subscriptionRequired: true`
    | CreditsRequired          // 403, `creditsRequired: true`

  /** The HTTP status sent with each rejection. */
  function Status(r: Reason): (code: int)
    ensures code == 401 <==> r == AuthenticationRequired
    ensures code == 401 || code == 403
  {
    match r
    case AuthenticationRequired => 401
    case SubscriptionRequired => 403
    case CreditsRequired => 403
  }
}
