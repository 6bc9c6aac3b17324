/** The calculate path as server/server.js mounts it: `checkSubscription`
    runs before the calculate handler. The `auth` middleware is not part of
    this model; its result is the possibly-null `user`. */
module Server {
  import opened Wrappers
  import opened UserModel
  import opened Http
  import opened Auth
  import opened CalculateRoutes

  /** One POST to /api/calculate at time `now`. A quote is produced exactly
      when the gate lets the request through; it then costs exactly one
      credit, and a rejected request changes nothing. */
  method HandleCalculate(user: User?, now: int, q: QuoteRequest, cfg: RateConfig)
    returns (resp: Response)
    modifies user
    ensures user == null ==> resp == Rejected(AuthenticationRequired)
    ensures user != null && !old(user.HasActiveSubscription(now)) ==>
      resp == Rejected(SubscriptionRequired)
    ensures user != null && old(user.HasActiveSubscription(now)) && !old(user.HasCredits()) ==>
      resp == Rejected(CreditsRequired)
    ensures resp.Quote? <==> old(CheckSubscription(user, now)) == Next
    ensures resp.Rejected? ==> user == null || user.subscription == old(user.subscription)
    ensures resp.Quote? ==>
      && user != null
      && resp.costs == Calculate(q, cfg)
      && user.subscription == Deduct(old(user.subscription))
      && resp.creditsRemaining == user.subscription.credits == old(user.subscription.credits) - 1
  {
    var d := CheckSubscription(user, now);
    if d.Reject? {
      return Rejected(d.reason);
    }
    resp := CalculateRoute(user, q, cfg);
  }

  /** A user who has just registered is turned away for want of a
      subscription, whatever the request. */
  method FreshUserIsTurnedAway(now: int, q: QuoteRequest, cfg: RateConfig)
    returns (resp: Response)
    ensures resp == Rejected(SubscriptionRequired)
  {
    var u := new User();
    resp := HandleCalculate(u, now, q, cfg);
  }

  /** A subscriber with one credit left gets one quote, after which zero
      credits remain and the next request is refused for lack of credits. */
  method LastCreditScenario(now: int, end: int, q: QuoteRequest, cfg: RateConfig)
    returns (first: Response, second: Response)
    requires now < end
    ensures first == Quote(Calculate(q, cfg), 0)
    ensures second == Rejected(CreditsRequired)
  {
    var u := new User();
    u.subscription := Subscription(Basic, Some(now), Some(end), 1, Monthly);
    first := HandleCalculate(u, now, q, cfg);
    second := HandleCalculate(u, now, q, cfg);
  }
}
