# Printing calculator: quote formula and credit gate

A Dafny model of the server side of the printing-cost calculator. When a user
asks for a quote (POST `/api/calculate`), three things happen in order:

1. `checkSubscription` runs an early-return check. A request with no user gets
   401. A lapsed or missing subscription gets 403 `subscriptionRequired`. A
   user with no credits left gets 403 `creditsRequired`. Anything else goes on.
2. The calculate handler spends one credit through `deductCredit()`. If that
   fails it answers 403 `creditsRequired` and computes nothing.
3. The handler prices the flyer job from the request body and the rate
   configuration. The line items are paper, printing, lamination (with a
   minimum per lamination family), spot UV (per sheet plus a fixed cost per
   plate) and coating (with a minimum). They are added into `totalCost`, and
   the reply also carries the remaining credit count.

Files:

- `wrappers.dfy`: Option and Result.
- `http.dfy`: the rejection reasons and their status codes.
- `user.dfy` (module `UserModel`): the subscription sub-document as a value, and
  `User` as a class whose `subscription` field `DeductCredit` updates in place.
  It also holds the value-level step `Deduct` and its n-call behaviour.
- `auth.dfy` (module `Auth`): `CheckSubscription`, a function that returns a
  `Decision`.
- `calculate_routes.dfy` (module `CalculateRoutes`): the rate configuration,
  the line-item functions, `Calculate`, the lemmas about them, and the handler
  method `CalculateRoute`.
- `server.dfy` (module `Server`): the mounted pipeline, with the gate in front
  of the handler, and two client scenarios.

The model records what the code does, including these points a reader might
not expect:

- `totalCost` does not include `paperCost`.
- The lamination side multiplier follows `doubleSided`.
- `sheetSize` is read but never used.
- No GST is computed on the server.
- The credit is spent before anything is priced. A quote that cannot be priced
  (a missing lamination key) has still cost a credit.
- Amounts are exact `real`s.
- "now" is an integer timestamp passed in.
- An absent `laminationType` or `coatingOption` is the empty string, because
  both are falsy in JavaScript.

## Model

| member | source | states |
|---|---|---|
| `Http.Status` | server/middleware/auth.js:32-50 | a missing user is answered with 401; both 403 rejections carry status 403 |
| `UserModel.Deduct` | server/models/User.js:74-80 | with credits > 0 one credit is taken; otherwise the subscription is unchanged; no field other than `credits` ever changes; a non-negative balance stays non-negative |
| `UserModel.DeductTimesBounds` | server/models/User.js:74-80 | from a non-negative balance, n calls succeed exactly min(n, credits) times; credits drop by exactly that count and never go below zero; every other subscription field is untouched |
| `UserModel.User.constructor` | server/models/User.js:16-33 | a new user has type 'none', no dates, 0 credits and a monthly interval, so `hasCredits()` is false |
| `UserModel.User.DeductCredit` | server/models/User.js:74-80 | returns true exactly when `hasCredits()` held before; the new subscription is `Deduct` of the old one (one credit fewer on success, unchanged on failure) |
| `UserModel.User.HasActiveSubscription` | server/models/User.js:64-67 | false without an end date; otherwise true exactly when the end date lies after `now` |
| `UserModel.User.HasCredits` | server/models/User.js:70-72 | true exactly when a `deductCredit()` would take a credit, i.e. when `Deduct` would change the subscription |
| `UserModel.ActiveIsAntitone` | server/models/User.js:64-67 | with no end date the subscription is never active; one active at a later time was active at every earlier time |
| `UserModel.FreshUserCannotSpend` | server/models/User.js:16-33 | a freshly created user has no active subscription, and `deductCredit()` on it returns false |
| `Auth.CheckSubscription` | server/middleware/auth.js:28-56 | 401 iff there is no user; 403 `subscriptionRequired` iff the user's subscription is inactive, whatever the credits; 403 `creditsRequired` iff active with no credits; `next()` iff user present, active and credits > 0; the user is only read |
| `CalculateRoutes.Max` | server/routes/calculateRoutes.js:34-37 | `Math.max`: the result is at least both arguments and equal to one of them |
| `CalculateRoutes.FirstWord` | server/routes/calculateRoutes.js:32 | `split(" ")[0]`: a prefix of the type with no space, followed by a space or the end of the string |
| `CalculateRoutes.FirstWordUnique` | server/routes/calculateRoutes.js:32 | those three properties determine the family key uniquely |
| `CalculateRoutes.FirstWordOfFamily` | server/routes/calculateRoutes.js:32 | "Gloss BOPP"-style types use the word before the first space as their minimum-cost key; a one-word type is its own key |
| `CalculateRoutes.SideFactor` | server/routes/calculateRoutes.js:35 | the `doubleSided ? 2 : 1` multiplier is 2 exactly when double-sided, else 1 |
| `CalculateRoutes.PaperCost` | server/routes/calculateRoutes.js:23 | paper cost times 3.22 equals paperRate × gsm × totalSheets |
| `CalculateRoutes.PrintingCost` | server/routes/calculateRoutes.js:26 | printing is twice the paper cost when double-sided, the paper cost otherwise |
| `CalculateRoutes.LaminationSelected` | server/routes/calculateRoutes.js:30 | lamination is priced only when `lamination` is set and `laminationType` is non-empty; an empty or absent type never selects it |
| `CalculateRoutes.LaminationCost` | server/routes/calculateRoutes.js:29-38 | 0 unless `lamination` and a non-empty `laminationType`; otherwise priced iff both the type and its first-word family are configured, and then it is the larger of sheets × rate × side factor and the family minimum |
| `CalculateRoutes.SpotUVCost` | server/routes/calculateRoutes.js:40-48 | 0 when spot UV is off; otherwise, beyond sheets × rate, exactly one fixed plate cost, or two when the side is "double" |
| `CalculateRoutes.CoatingSelected` | server/routes/calculateRoutes.js:52 | coating is priced exactly when the option is neither absent/empty nor "None" |
| `CalculateRoutes.CoatingCost` | server/routes/calculateRoutes.js:51-60 | 0 for an absent or "None" option; otherwise the larger of sheets × rate (doubled for "Both Sides") and the coating minimum |
| `CalculateRoutes.Calculate` | server/routes/calculateRoutes.js:22-73 | a breakdown is produced iff lamination can be priced; each field is its line item; `totalCost` = printing + lamination + spot UV + coating, with paper cost not added |
| `CalculateRoutes.SheetSizeIgnored` | server/routes/calculateRoutes.js:6 | changing `sheetSize` never changes the result |
| `CalculateRoutes.TotalBoundsItems` | server/routes/calculateRoutes.js:63 | with non-negative rates and inputs every item is non-negative and the total is at least each item it adds |
| `CalculateRoutes.LaminationAtLeastFamilyMinimum` | server/routes/calculateRoutes.js:31-37 | a priced lamination line is never below the minimum of its type's family |
| `CalculateRoutes.MissingLaminationTypeFails` | server/routes/calculateRoutes.js:31-35 | a selected lamination type missing from `laminationRates` yields no breakdown |
| `CalculateRoutes.NoFinishingIsPrintingOnly` | server/routes/calculateRoutes.js:29-63 | with no finishing selected, lamination, spot UV and coating are 0 and the total is the printing cost |
| `CalculateRoutes.PaperMonotone` | server/routes/calculateRoutes.js:23-26 | more sheets never lower paper or printing cost |
| `CalculateRoutes.LaminationMonotone` | server/routes/calculateRoutes.js:29-38 | more sheets never lower the lamination line, and a priceable lamination stays priceable |
| `CalculateRoutes.SpotUVMonotone` | server/routes/calculateRoutes.js:40-48 | more sheets never lower the spot-UV line |
| `CalculateRoutes.CoatingMonotone` | server/routes/calculateRoutes.js:51-60 | more sheets never lower the coating line |
| `CalculateRoutes.MoreSheetsNeverCheaper` | server/routes/calculateRoutes.js:23-63 | with non-negative rates and inputs, raising `totalSheets` never lowers any line item or the total |
| `CalculateRoutes.PaperScalesWithSheets` | server/routes/calculateRoutes.js:23-26 | k times the sheets costs k times as much paper and printing |
| `CalculateRoutes.DoubleSidedDoubles` | server/routes/calculateRoutes.js:26-35 | `doubleSided` doubles printing, leaves paper alone, and doubles only the per-sheet part of lamination, not its minimum |
| `CalculateRoutes.FlyerExample` | server/routes/calculateRoutes.js:23-63 | 130 gsm, rate 100, 1000 sheets, no finishing: paper = 13000000/3.22; single-sided printing and total equal it; double-sided they are twice it |
| `CalculateRoutes.CalculateRoute` | server/routes/calculateRoutes.js:4-78 | the credit is spent first; without a credit the answer is 403 `creditsRequired`, nothing is priced and the user is unchanged; otherwise the reply is `Calculate`'s result and `creditsRemaining` is the balance after exactly one decrement |
| `Server.HandleCalculate` | server/server.js:57 | the gate runs before the handler: a quote comes back iff `checkSubscription` calls `next()`; it then costs exactly one credit, and every rejection leaves the user unchanged |
| `Server.FreshUserIsTurnedAway` | server/server.js:57 | a just-registered user is refused with 403 `subscriptionRequired` whatever the request |
| `Server.LastCreditScenario` | server/server.js:57 | with one credit and an active subscription, the first request is quoted with 0 credits remaining and the second gets 403 `creditsRequired` |

## Left out

- `CalculateRoutes.Calculate`: a missing lamination key fails the whole breakdown. In the source, the missing key makes only the lamination cost and the total NaN, and the reply is still a 200 with those fields as null. The other line items are still sent.
- Missing scalar rates (`spotUVRateVal`, `spotUVFixedPerPlate`, `coatingRate`, `coatingMinimum`) are not modelled; the configuration always has them. In the source they would make the matching line item NaN.
- JavaScript floating-point rounding of the `/ 3.22` division and of the sums is not modelled, because amounts are exact reals. The client's `toFixed` display rounding is left out for the same reason.
- The rate configuration is always present: the handler receives it as `cfg`. Nothing in server/server.js assigns `app.locals.config`. Without it, any request that selects lamination, spot UV or coating throws a TypeError at the first config read (calculateRoutes.js:31, 43 or 53). That gives a 500 from the `catch` block, after the credit was already taken and saved (lines 10-20).
- A truthy `laminationType` that is not a string is not modelled, because the field is a string. In the source it throws at `.split` (line 32) and gets a 500 after the credit was spent.
- Request fields that are not numbers are not modelled, because the numeric fields are reals. A numeric string (`"100" * 130`) is coerced to a number. An absent `paperRate`, `gsm` or `totalSheets` makes paper, printing and total NaN, which the reply sends as null. An absent `totalSheets` also makes every selected lamination, spot-UV and coating line NaN (calculateRoutes.js:35, 46, 56).
- Non-boolean values of `doubleSided`, `lamination` and `spotUV` are not modelled, because these fields are booleans. In the source any truthy value counts as true, including the string `"false"`.
- The model uses the field names the server reads (`doubleSided`, `lamination`, `sheetSize`). The bundled client sends `isDoubleSided`, `isLamination` and `selectedSize` instead (client/src/FlyerCalculator.jsx:39-40). So requests from that client are never priced double-sided and never laminated. The client is not part of this model.
- Persistence is not modelled: `user.save()`, mongoose, and the 500 answers when a save fails. The other 500 answers from the `catch` block come from the thrown errors listed above.
- Credit updates from concurrent requests (read-modify-write on the stored user) are not modelled. The model is sequential.
- The JWT `auth` middleware, bcrypt password hashing and `comparePassword` are not modelled. The gate receives the user that `auth` would have attached, or null.
- Stripe checkout and webhooks, the default subscription plans, and the configuration read/write routes are external services or file I/O.
- Configuration keys the calculate route never reads are not modelled: `baseFixedCost`, `baseCostPerExtra`, `dripOffRateVal` and `dripOffFixedPerPlate`.
- GST, book, brochure and binding costs are not modelled. No server code computes them; the client only displays GST.
- The client-side copies of `hasCredits` and `hasActiveSubscription`, and all React UI, are not modelled.
- The user's email, password, `stripeCustomerId` and `createdAt` fields are not modelled, because the calculate path never reads them.
