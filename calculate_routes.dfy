/** The POST `/` handler of server/routes/calculateRoutes.js: it spends one
    credit, then prices a flyer job from the request fields and the rate
    configuration. Amounts are exact reals. */
module CalculateRoutes {
  import opened Wrappers
  import opened UserModel
  import opened Http

  /** The part of the rate configuration (`req.app.locals.config`) that the
      handler reads. */
  datatype RateConfig = RateConfig(
    laminationRates: map<string, real>,
    minimumLaminationCosts: map<string, real>,
    spotUVRateVal: real,
    spotUVFixedPerPlate: real,
    coatingRate: real,
    coatingMinimum: real)

  /** The request body fields. A missing or empty `laminationType` or
      `coatingOption` is the empty string: JavaScript treats both as false. */
  datatype QuoteRequest = QuoteRequest(
    sheetSize: string,
    paperRate: real,
    gsm: real,
    totalSheets: real,
    doubleSided: bool,
    lamination: bool,
    laminationType: string,
    spotUV: bool,
    spotUVSide: string,
    coatingOption: string)

  /** The cost fields of the JSON reply. The server computes no GST. */
  datatype Breakdown = Breakdown(
    paperCost: real,
    printingCost: real,
    laminationCost: real,
    spotUVCost: real,
    coatingCost: real,
    totalCost: real)

  datatype RateTable = LaminationRates | MinimumLaminationCosts

  /** A lamination key absent from its table. In the source the lookup gives
      `undefined` and the lamination cost and the total become NaN; here the
      whole quote is a failure instead. */
  datatype CalcError = MissingRate(table: RateTable, key: string)

  /** What the handler sends back; a rejection goes out with the status
      `Status(reason)`. */
  datatype Response =
    | Rejected(reason: Reason)
    | Quote(costs: Result<Breakdown, CalcError>, creditsRemaining: int)

  predicate NonNegativeRates(cfg: RateConfig)
  {
    && (forall t :: t in cfg.laminationRates ==> cfg.laminationRates[t] >= 0.0)
    && (forall f :: f in cfg.minimumLaminationCosts ==> cfg.minimumLaminationCosts[f] >= 0.0)
    && cfg.spotUVRateVal >= 0.0 && cfg.spotUVFixedPerPlate >= 0.0
    && cfg.coatingRate >= 0.0 && cfg.coatingMinimum >= 0.0
  }

  predicate NonNegativeInputs(q: QuoteRequest)
  {
    q.paperRate >= 0.0 && q.gsm >= 0.0 && q.totalSheets >= 0.0
  }

  /** `Math.max` on two numbers. */
  function Max(a: real, b: real): (m: real)
    ensures m >= a && m >= b
    ensures m == a || m == b
  {
    if a >= b then a else b
  }

  /** `s.split(" ")[0]`: the part of `s` before its first space, or all of
      `s` when it has none. */
  function FirstWord(s: string): (w: string)
    ensures w <= s
    ensures ' ' !in w
    ensures |w| < |s| ==> s[|w|] == ' '
  {
    if s == [] || s[0] == ' ' then [] else [s[0]] + FirstWord(s[1..])
  }

  /** The three properties of FirstWord pin it down: any prefix without a
      space that ends at a space or at the end of `s` is FirstWord(s). */
  lemma FirstWordUnique(s: string, w: string)
    requires w <= s && ' ' !in w
    requires |w| < |s| ==> s[|w|] == ' '
    ensures FirstWord(s) == w
  {
  }

  /** The minimum-cost family of "Gloss BOPP" is "Gloss"; a type written as
      a single word is its own family. */
  lemma FirstWordOfFamily(family: string, rest: string)
    requires ' ' !in family
    ensures FirstWord(family + " " + rest) == family
    ensures FirstWord(family) == family
  {
    FirstWordUnique(family + " " + rest, family);
    FirstWordUnique(family, family);
  }

  /** The side multiplier of `doubleSided ? 2 : 1`. */
  function SideFactor(doubleSided: bool): (k: real)
    ensures k == 1.0 || k == 2.0
    ensures k == 2.0 <==> doubleSided
  {
    if doubleSided then 2.0 else 1.0
  }

  /** `paperRate * gsm * totalSheets / 3.22`. */
  function PaperCost(q: QuoteRequest): (c: real)
    ensures c * 3.22 == q.paperRate * q.gsm * q.totalSheets
  {
    q.paperRate * q.gsm * q.totalSheets / 3.22
  }

  /** Printing costs the paper cost once, or twice when double sided. */
  function PrintingCost(q: QuoteRequest): (c: real)
    ensures q.doubleSided ==> c == 2.0 * PaperCost(q)
    ensures !q.doubleSided ==> c == PaperCost(q)
  {
    if q.doubleSided then PaperCost(q) * 2.0 else PaperCost(q)
  }

  /** Lamination is priced only when `lamination` and `laminationType` are
      both truthy. */
  predicate LaminationSelected(q: QuoteRequest): (b: bool)
    ensures b ==> q.lamination && |q.laminationType| >= 1
    ensures !q.lamination || q.laminationType == "" ==> !b
  {
    q.lamination && q.laminationType != ""
  }

  /** The lamination line: per-sheet rate of the type times the sheets and
      the side multiplier of `doubleSided`, raised to the minimum of the
      type's family (its first word). */
  function LaminationCost(q: QuoteRequest, cfg: RateConfig): (r: Result<real, CalcError>)
    ensures !LaminationSelected(q) ==> r == Success(0.0)
    ensures LaminationSelected(q) ==>
      (r.Success? <==> q.laminationType in cfg.laminationRates
                       && FirstWord(q.laminationType) in cfg.minimumLaminationCosts)
    ensures LaminationSelected(q) && r.Success? ==>
      var perSheet := q.totalSheets * cfg.laminationRates[q.laminationType] * SideFactor(q.doubleSided);
      var floor := cfg.minimumLaminationCosts[FirstWord(q.laminationType)];
      r.value >= floor && r.value >= perSheet && (r.value == floor || r.value == perSheet)
  {
    if !LaminationSelected(q) then Success(0.0)
    else
      var t := q.laminationType;
      var family := FirstWord(t);
      if t !in cfg.laminationRates then Failure(MissingRate(LaminationRates, t))
      else if family !in cfg.minimumLaminationCosts then Failure(MissingRate(MinimumLaminationCosts, family))
      else Success(Max(q.totalSheets * cfg.laminationRates[t] * SideFactor(q.doubleSided),
                       cfg.minimumLaminationCosts[family]))
  }

  /** The spot-UV line: a per-sheet rate plus a fixed cost per plate, with
      two plates when `spotUVSide` is "double". */
  function SpotUVCost(q: QuoteRequest, cfg: RateConfig): (c: real)
    ensures !q.spotUV ==> c == 0.0
    ensures q.spotUV ==>
      c - q.totalSheets * cfg.spotUVRateVal
        == (if q.spotUVSide == "double" then 2.0 else 1.0) * cfg.spotUVFixedPerPlate
  {
    if !q.spotUV then 0.0
    else q.totalSheets * cfg.spotUVRateVal
         + (if q.spotUVSide == "double" then cfg.spotUVFixedPerPlate * 2.0 else cfg.spotUVFixedPerPlate)
  }

  /** Coating is priced when an option other than "None" is given. */
  predicate CoatingSelected(q: QuoteRequest): (b: bool)
    ensures b <==> q.coatingOption !in {"", "None"}
  {
    q.coatingOption != "" && q.coatingOption != "None"
  }

  /** The coating line: per-sheet rate, doubled for "Both Sides", raised to
      the coating minimum. */
  function CoatingCost(q: QuoteRequest, cfg: RateConfig): (c: real)
    ensures !CoatingSelected(q) ==> c == 0.0
    ensures CoatingSelected(q) ==>
      var perSheet := q.totalSheets * cfg.coatingRate * (if q.coatingOption == "Both Sides" then 2.0 else 1.0);
      c >= cfg.coatingMinimum && c >= perSheet && (c == cfg.coatingMinimum || c == perSheet)
  {
    if !CoatingSelected(q) then 0.0
    else Max(q.totalSheets * cfg.coatingRate * (if q.coatingOption == "Both Sides" then 2.0 else 1.0),
             cfg.coatingMinimum)
  }

  /** The whole breakdown. `totalCost` adds printing, lamination, spot UV and
      coating; the paper cost is reported but not added. */
  function Calculate(q: QuoteRequest, cfg: RateConfig): (r: Result<Breakdown, CalcError>)
    ensures r.Success? <==> LaminationCost(q, cfg).Success?
    ensures r.Failure? ==> r.error == LaminationCost(q, cfg).error
    ensures r.Success? ==>
      && r.value.paperCost == PaperCost(q)
      && r.value.printingCost == PrintingCost(q)
      && r.value.laminationCost == LaminationCost(q, cfg).value
      && r.value.spotUVCost == SpotUVCost(q, cfg)
      && r.value.coatingCost == CoatingCost(q, cfg)
    ensures r.Success? ==>
      r.value.totalCost
        == r.value.printingCost + r.value.laminationCost + r.value.spotUVCost + r.value.coatingCost
  {
    match LaminationCost(q, cfg)
    case Failure(e) => Failure(e)
    case Success(laminationCost) =>
      var printingCost := PrintingCost(q);
      var spotUVCost := SpotUVCost(q, cfg);
      var coatingCost := CoatingCost(q, cfg);
      Success(Breakdown(PaperCost(q), printingCost, laminationCost, spotUVCost, coatingCost,
                        printingCost + laminationCost + spotUVCost + coatingCost))
  }

  /** `sheetSize` is read from the body but never used. */
  lemma SheetSizeIgnored(q: QuoteRequest, cfg: RateConfig, size: string)
    ensures Calculate(q.(sheetSize := size), cfg) == Calculate(q, cfg)
  {
    var q' := q.(sheetSize := size);
    assert q'.(sheetSize := q.sheetSize) == q;
    assert q'.lamination == q.lamination && q'.laminationType == q.laminationType;
    assert q'.totalSheets == q.totalSheets && q'.doubleSided == q.doubleSided;
    assert PaperCost(q') == PaperCost(q);
    assert LaminationCost(q', cfg) == LaminationCost(q, cfg);
    assert SpotUVCost(q', cfg) == SpotUVCost(q, cfg);
    assert CoatingCost(q', cfg) == CoatingCost(q, cfg);
  }

  /** Multiplying by a non-negative factor keeps the order. */
  lemma MulMonotone(a: real, b: real, c: real)
    requires a <= b && c >= 0.0
    ensures a * c <= b * c
  {
  }

  /** With non-negative rates and inputs every line item is non-negative,
      and the total is at least each of the four items it adds. */
  lemma TotalBoundsItems(q: QuoteRequest, cfg: RateConfig)
    requires NonNegativeRates(cfg) && NonNegativeInputs(q)
    requires Calculate(q, cfg).Success?
    ensures var b := Calculate(q, cfg).value;
      && b.paperCost >= 0.0 && b.printingCost >= 0.0 && b.laminationCost >= 0.0
      && b.spotUVCost >= 0.0 && b.coatingCost >= 0.0
      && b.totalCost >= b.printingCost && b.totalCost >= b.laminationCost
      && b.totalCost >= b.spotUVCost && b.totalCost >= b.coatingCost
  {
    MulMonotone(0.0, q.paperRate, q.gsm);
    MulMonotone(0.0, q.paperRate * q.gsm, q.totalSheets);
    MulMonotone(0.0, q.totalSheets, cfg.spotUVRateVal);
    assert SpotUVCost(q, cfg) >= 0.0;
  }

  /** The lamination line never falls below the minimum of the type's
      family. */
  lemma LaminationAtLeastFamilyMinimum(q: QuoteRequest, cfg: RateConfig)
    requires LaminationSelected(q) && Calculate(q, cfg).Success?
    ensures FirstWord(q.laminationType) in cfg.minimumLaminationCosts
    ensures Calculate(q, cfg).value.laminationCost
              >= cfg.minimumLaminationCosts[FirstWord(q.laminationType)]
  {
  }

  /** A lamination type missing from the rate table yields no breakdown. */
  lemma MissingLaminationTypeFails(q: QuoteRequest, cfg: RateConfig)
    requires LaminationSelected(q) && q.laminationType !in cfg.laminationRates
    ensures Calculate(q, cfg) == Failure(MissingRate(LaminationRates, q.laminationType))
  {
  }

  /** Without finishing options every finishing line is zero and the total
      is the printing cost alone. */
  lemma NoFinishingIsPrintingOnly(q: QuoteRequest, cfg: RateConfig)
    requires !LaminationSelected(q) && !q.spotUV && !CoatingSelected(q)
    ensures Calculate(q, cfg).Success?
    ensures var b := Calculate(q, cfg).value;
      b.laminationCost == 0.0 && b.spotUVCost == 0.0 && b.coatingCost == 0.0
      && b.totalCost == b.printingCost
  {
  }

  /** More sheets never lower the paper or printing cost. */
  lemma PaperMonotone(q: QuoteRequest, sheets: real)
    requires NonNegativeInputs(q) && q.totalSheets <= sheets
    ensures PaperCost(q) <= PaperCost(q.(totalSheets := sheets))
    ensures PrintingCost(q) <= PrintingCost(q.(totalSheets := sheets))
  {
    MulMonotone(0.0, q.paperRate, q.gsm);
    MulMonotone(q.totalSheets, sheets, q.paperRate * q.gsm);
  }

  /** More sheets never lower the lamination line, and a lamination that
      can be priced still can. */
  lemma LaminationMonotone(q: QuoteRequest, cfg: RateConfig, sheets: real)
    requires NonNegativeRates(cfg) && q.totalSheets <= sheets
    requires LaminationCost(q, cfg).Success?
    ensures LaminationCost(q.(totalSheets := sheets), cfg).Success?
    ensures LaminationCost(q, cfg).value <= LaminationCost(q.(totalSheets := sheets), cfg).value
  {
    if LaminationSelected(q) {
      var rate := cfg.laminationRates[q.laminationType];
      assert rate >= 0.0;
      MulMonotone(q.totalSheets, sheets, rate);
      MulMonotone(q.totalSheets * rate, sheets * rate, SideFactor(q.doubleSided));
    }
  }

  /** More sheets never lower the spot-UV line. */
  lemma SpotUVMonotone(q: QuoteRequest, cfg: RateConfig, sheets: real)
    requires NonNegativeRates(cfg) && q.totalSheets <= sheets
    ensures SpotUVCost(q, cfg) <= SpotUVCost(q.(totalSheets := sheets), cfg)
  {
    var q' := q.(totalSheets := sheets);
    assert q'.spotUV == q.spotUV && q'.spotUVSide == q.spotUVSide;
    MulMonotone(q.totalSheets, sheets, cfg.spotUVRateVal);
  }

  /** More sheets never lower the coating line. */
  lemma CoatingMonotone(q: QuoteRequest, cfg: RateConfig, sheets: real)
    requires NonNegativeRates(cfg) && q.totalSheets <= sheets
    ensures CoatingCost(q, cfg) <= CoatingCost(q.(totalSheets := sheets), cfg)
  {
    if CoatingSelected(q) {
      var k := if q.coatingOption == "Both Sides" then 2.0 else 1.0;
      MulMonotone(q.totalSheets, sheets, cfg.coatingRate);
      MulMonotone(q.totalSheets * cfg.coatingRate, sheets * cfg.coatingRate, k);
    }
  }

  /** Printing more sheets never makes a quote cheaper, line by line. */
  lemma MoreSheetsNeverCheaper(q: QuoteRequest, cfg: RateConfig, sheets: real)
    requires NonNegativeRates(cfg) && NonNegativeInputs(q)
    requires q.totalSheets <= sheets
    requires Calculate(q, cfg).Success?
    ensures Calculate(q.(totalSheets := sheets), cfg).Success?
    ensures var b, b' := Calculate(q, cfg).value, Calculate(q.(totalSheets := sheets), cfg).value;
      && b.paperCost <= b'.paperCost && b.printingCost <= b'.printingCost
      && b.laminationCost <= b'.laminationCost && b.spotUVCost <= b'.spotUVCost
      && b.coatingCost <= b'.coatingCost && b.totalCost <= b'.totalCost
  {
    PaperMonotone(q, sheets);
    LaminationMonotone(q, cfg, sheets);
    SpotUVMonotone(q, cfg, sheets);
    CoatingMonotone(q, cfg, sheets);
  }

  /** Paper and printing are linear in the number of sheets: k times the
      sheets costs k times as much. */
  lemma PaperScalesWithSheets(q: QuoteRequest, k: real)
    ensures PaperCost(q.(totalSheets := k * q.totalSheets)) == k * PaperCost(q)
    ensures PrintingCost(q.(totalSheets := k * q.totalSheets)) == k * PrintingCost(q)
  {
  }

  /** Turning `doubleSided` on doubles printing and the per-sheet part of
      lamination; the lamination minimum is unaffected. */
  lemma DoubleSidedDoubles(q: QuoteRequest, cfg: RateConfig)
    requires !q.doubleSided
    ensures PrintingCost(q.(doubleSided := true)) == 2.0 * PrintingCost(q)
    ensures PaperCost(q.(doubleSided := true)) == PaperCost(q)
    ensures LaminationSelected(q) && LaminationCost(q, cfg).Success? ==>
      var rate := cfg.laminationRates[q.laminationType];
      var floor := cfg.minimumLaminationCosts[FirstWord(q.laminationType)];
      LaminationCost(q.(doubleSided := true), cfg).value == Max(2.0 * (q.totalSheets * rate), floor)
  {
  }

  /** A worked example: an A4 flyer, 130 gsm, paper rate 100, 1000 sheets,
      single sided, no finishing. Printing equals paper, and so does the
      total; double sided, printing and total are twice the paper cost. */
  lemma FlyerExample(cfg: RateConfig)
    ensures var q := QuoteRequest("A4", 100.0, 130.0, 1000.0, false, false, "", false, "", "");
      && Calculate(q, cfg).Success?
      && Calculate(q, cfg).value.paperCost == 13000000.0 / 3.22
      && Calculate(q, cfg).value.printingCost == 13000000.0 / 3.22
      && Calculate(q, cfg).value.totalCost == 13000000.0 / 3.22
    ensures var q := QuoteRequest("A4", 100.0, 130.0, 1000.0, true, false, "", false, "", "");
      && Calculate(q, cfg).Success?
      && Calculate(q, cfg).value.printingCost == 2.0 * (13000000.0 / 3.22)
      && Calculate(q, cfg).value.totalCost == 2.0 * Calculate(q, cfg).value.paperCost
  {
  }

  /** The handler: spend one credit or answer 403 before computing
      anything; otherwise price the job and report the remaining credits.
      `user.save()` is persistence and is not modelled. */
  method CalculateRoute(user: User, q: QuoteRequest, cfg: RateConfig) returns (resp: Response)
    modifies user
    ensures user.subscription == Deduct(old(user.subscription))
    ensures resp.Rejected? <==> !old(user.HasCredits())
    ensures resp.Rejected? ==>
      resp == Rejected(CreditsRequired) && user.subscription == old(user.subscription)
    ensures resp.Quote? ==>
      && resp.costs == Calculate(q, cfg)
      && resp.creditsRemaining == user.subscription.credits == old(user.subscription.credits) - 1
  {
    var creditDeducted := user.DeductCredit();
    if !creditDeducted {
      return Rejected(CreditsRequired);
    }
    var costs := Calculate(q, cfg);
    resp := Quote(costs, user.subscription.credits);
  }
}
