/** The user record of server/models/User.js: the embedded subscription
    document and the three methods the calculate path uses. Timestamps are
    integers (milliseconds); "now" is passed in instead of read from a clock. */
module UserModel {
  import opened Wrappers

  /** `subscription.type`: 'none', 'basic' or 'premium'. */
  datatype PlanType = NoPlan | Basic | Premium

  /** `subscription.interval`: 'monthly' or 'yearly'. */
  datatype Interval = Monthly | Yearly

  /** The `subscription` sub-document. JavaScript numbers are not bounded
      to the naturals, so `credits` is an `int`. */
  datatype Subscription = Subscription(
    plan: PlanType,
    startDate: Option<int>,
    endDate: Option<int>,
    credits: int,
    interval: Interval)

  /** The schema defaults of a freshly created user. */
  const DefaultSubscription := Subscription(NoPlan, None, None, 0, Monthly)

  /** The state change of one `deductCredit()` call: a guarded decrement of
      `credits` that touches no other field. */
  function Deduct(s: Subscription): (r: Subscription)
    ensures s.credits > 0 ==> r.credits == s.credits - 1
    ensures s.credits <= 0 ==> r == s
    ensures r.(credits := s.credits) == s
    ensures s.credits >= 0 ==> r.credits >= 0
  {
    if s.credits > 0 then s.(credits := s.credits - 1) else s
  }

  /** The subscription after `n` consecutive `deductCredit()` calls. */
  function DeductTimes(s: Subscription, n: nat): Subscription
    decreases n
  {
    if n == 0 then s else DeductTimes(Deduct(s), n - 1)
  }

  /** How many of `n` consecutive `deductCredit()` calls return true. */
  function SucceededCalls(s: Subscription, n: nat): nat
    decreases n
  {
    if n == 0 then 0
    else (if s.credits > 0 then 1 else 0) + SucceededCalls(Deduct(s), n - 1)
  }

  /** Starting from a non-negative balance, any number of `deductCredit()`
      calls never takes `credits` below zero: exactly min(n, credits) of them
      succeed, each takes exactly one credit, and no other field changes. */
  lemma {:induction false} DeductTimesBounds(s: Subscription, n: nat)
    requires s.credits >= 0
    ensures SucceededCalls(s, n) == if n <= s.credits then n else s.credits
    ensures DeductTimes(s, n).credits == s.credits - SucceededCalls(s, n)
    ensures DeductTimes(s, n).credits >= 0
    ensures DeductTimes(s, n).(credits := s.credits) == s
    decreases n
  {
    if n > 0 {
      DeductTimesBounds(Deduct(s), n - 1);
    }
  }

  /** A mongoose user document; only its `subscription` is modelled. */
  class User {
    var subscription: Subscription

    /** A new user gets the schema defaults. */
    constructor ()
      ensures subscription == DefaultSubscription
      ensures !HasCredits()
    {
      subscription := DefaultSubscription;
    }

    /** `hasActiveSubscription()`: false without an end date, otherwise
        whether the end date lies after `now`. */
    function HasActiveSubscription(now: int): (active: bool)
      reads this
      ensures subscription.endDate == None ==> !active
      ensures active ==> subscription.endDate.value > now
      ensures subscription.endDate.Some? && subscription.endDate.value > now ==> active
    {
      match subscription.endDate
      case None => false
      case Some(end) => end > now
    }

    /** `hasCredits()`: exactly when a `deductCredit()` call would take a
        credit. */
    function HasCredits(): (b: bool)
      reads this
      ensures b <==> Deduct(subscription) != subscription
      ensures b <==> Deduct(subscription).credits == subscription.credits - 1
    {
      subscription.credits > 0
    }

    /** `deductCredit()`: takes one credit in place when one is left and
        reports whether it did. */
    method DeductCredit() returns (ok: bool)
      modifies this
      ensures ok == old(HasCredits())
      ensures subscription == Deduct(old(subscription))
      ensures ok ==> subscription.credits == old(subscription.credits) - 1
      ensures !ok ==> subscription == old(subscription)
    {
      if subscription.credits > 0 {
        subscription := subscription.(credits := subscription.credits - 1);
        return true;
      }
      return false;
    }
  }

  /** An end date that has passed stays passed, and a subscription that is
      active now was active at every earlier moment. */
  lemma ActiveIsAntitone(u: User, earlier: int, later: int)
    requires earlier <= later
    ensures u.HasActiveSubscription(later) ==> u.HasActiveSubscription(earlier)
    ensures u.subscription.endDate == None ==> !u.HasActiveSubscription(later)
  {
  }

  /** A freshly created user can neither pass the subscription test nor
      spend a credit. */
  method FreshUserCannotSpend(now: int) returns (active: bool, ok: bool)
    ensures !active && !ok
  {
    var u := new User();
    active := u.HasActiveSubscription(now);
    ok := u.DeductCredit();
  }
}
