/** The calculation block of app.py: the desired-payout normalisation, the
    effective corporate rate, scenario A (everything paid as salary),
    scenario B (everything paid as a dividend) and the verdict comparing
    the owner's net amounts. */
module Scenarios {
  import opened PyValues
  import opened FederalTariff
  import opened CantonalTariff
  import opened Steuerfuesse
  import SocialSecurity

  /** The tables loaded at start-up, as immutable inputs. */
  datatype AppConfig = AppConfig(
    social: SocialSecurity.SocialConfig,
    federalRows: seq<FederalBracket>,               // as stored; sorted when loaded
    cantonTables: map<string, seq<CantonBracket>>,
    multipliers: seq<MultiplierRow>,
    corporateConfederation: Option<real>,           // corporate_tax["Confederation"], if present
    corporateCantons: map<string, Value>,           // corporate_tax[<canton>]
    dividendInclusion: map<string, real>)           // Teilbesteuerung per canton

  /** The form's inputs. */
  datatype Inputs = Inputs(
    profit: real,
    desiredIncome: real,
    ahvSubject: bool,       // "Yes" / "No"
    canton: string,
    commune: string,
    otherIncome: real)

  /** The federal table in the order the tariff walks it. */
  function FederalTable(cfg: AppConfig): (t: seq<FederalBracket>)
    ensures SortedByThreshold(t)
    ensures multiset(t) == multiset(cfg.federalRows)
    ensures t == [] <==> cfg.federalRows == []
  {
    var t := SortByThreshold(cfg.federalRows);
    assert |t| == |multiset(t)| == |cfg.federalRows|;
    t
  }

  /** A desired payout of 0 means "none"; one above the profit is capped
      to the profit. */
  function DesiredPayout(desired: real, profit: real): (d: Option<real>)
    ensures d.None? <==> desired == 0.0
    ensures d.Some? ==> d.value == Min(desired, profit)
  {
    if desired == 0.0 then None
    else if desired > profit then Some(profit)
    else Some(desired)
  }

  /** Python truthiness of the normalised payout: None and 0 are false. */
  predicate Truthy(d: Option<real>)
  {
    d.Some? && d.value != 0.0
  }

  /** `corporate_tax.get("Confederation", 0.085)`. */
  function FederalCorporateRate(cfg: AppConfig): (r: real)
    ensures cfg.corporateConfederation.None? ==> r == 0.085
    ensures cfg.corporateConfederation.Some? ==> r == cfg.corporateConfederation.value
  {
    match cfg.corporateConfederation
    case None => 0.085
    case Some(x) => x
  }

  /** `nan_to_zero(corporate_tax.get(canton, 0.0))`. */
  function CantonCorporateBase(cfg: AppConfig, canton: string): (r: real)
    ensures canton !in cfg.corporateCantons ==> r == 0.0
    ensures canton in cfg.corporateCantons && cfg.corporateCantons[canton].Num?
            ==> r == cfg.corporateCantons[canton].v
    ensures canton in cfg.corporateCantons && !cfg.corporateCantons[canton].Num? ==> r == 0.0
  {
    NanToZero(if canton in cfg.corporateCantons then cfg.corporateCantons[canton] else Num(0.0))
  }

  /** The effective corporate rate: the federal rate plus the cantonal base
      rate scaled by the sum of the canton and commune profit multipliers
      of the first matching row (1.0 and 0.0 when none matches). */
  function CorporateRate(cfg: AppConfig, canton: string, commune: string): real
  {
    FederalCorporateRate(cfg)
    + LocalCorporateRate(CantonCorporateBase(cfg, canton), Multipliers(cfg.multipliers, canton, commune, Profit))
  }

  /** `local_corp`: the cantonal base rate times the sum of the canton and
      commune profit multipliers. */
  function LocalCorporateRate(cantBase: real, m: (real, real)): real
  {
    cantBase * (m.0 + m.1)
  }

  /** Without a row for the commune the cantonal base rate counts once. */
  lemma CorporateRateNoMatch(cfg: AppConfig, canton: string, commune: string)
    requires forall row <- cfg.multipliers :: !Matching(canton, commune)(row)
    ensures CorporateRate(cfg, canton, commune) == FederalCorporateRate(cfg) + CantonCorporateBase(cfg, canton)
  {
    MultipliersNoMatch(cfg.multipliers, canton, commune, Profit);
  }

  /** Without a cantonal rate only the federal rate applies, whatever the
      multipliers. */
  lemma CorporateRateNoCanton(cfg: AppConfig, canton: string, commune: string)
    requires canton !in cfg.corporateCantons
    ensures CorporateRate(cfg, canton, commune) == FederalCorporateRate(cfg)
  {
    var m := Multipliers(cfg.multipliers, canton, commune, Profit);
    assert LocalCorporateRate(CantonCorporateBase(cfg, canton), m) == 0.0 * (m.0 + m.1);
  }

  /** The rate lookup as the script runs it: the multiplier loop, then the
      sum. */
  method EffectiveCorporateRate(cfg: AppConfig, canton: string, commune: string) returns (rate: real)
    ensures rate == CorporateRate(cfg, canton, commune)
  {
    var fedCorp := match cfg.corporateConfederation case None => 0.085 case Some(x) => x;
    var cantCorpBase := NanToZero(if canton in cfg.corporateCantons then cfg.corporateCantons[canton] else Num(0.0));
    var cantonMult, commMult := LookupMultipliers(cfg.multipliers, canton, commune, Profit);
    var localCorp := LocalCorporateRate(cantCorpBase, (cantonMult, commMult));
    rate := fedCorp + localCorp;
  }

  /** The share of a dividend that is taxed: the canton's entry, or 70 %. */
  function Inclusion(cfg: AppConfig, canton: string): (r: real)
    ensures canton !in cfg.dividendInclusion ==> r == 0.70
    ensures canton in cfg.dividendInclusion ==> r == cfg.dividendInclusion[canton]
  {
    if canton in cfg.dividendInclusion then cfg.dividendInclusion[canton] else 0.70
  }

  /** Federal plus cantonal income tax; the federal tariff fails on an
      empty table, and that failure is what the sum raises. */
  function IncomeTax(cfg: AppConfig, taxable: real, canton: string, commune: string): (r: Result<real>)
    ensures r.Err? <==> cfg.federalRows == []
    ensures r.Err? ==> r.error == IndexError
    ensures r.Ok? ==> r.value == FederalTax(FederalTable(cfg), taxable).value
                                 + CantonalTax(cfg.cantonTables, cfg.multipliers, taxable, canton, commune)
  {
    var fed := FederalTax(FederalTable(cfg), taxable);
    if fed.Err? then Err(fed.error)
    else Ok(fed.value + CantonalTax(cfg.cantonTables, cfg.multipliers, taxable, canton, commune))
  }

  method IncomeTaxOf(cfg: AppConfig, taxable: real, canton: string, commune: string) returns (r: Result<real>)
    ensures r == IncomeTax(cfg, taxable, canton, commune)
  {
    var fed := FederalIncomeTax(FederalTable(cfg), taxable);
    if fed.Err? {
      return Err(fed.error);
    }
    var cant := CantonalIncomeTax(cfg.cantonTables, cfg.multipliers, taxable, canton, commune);
    r := Ok(fed.value + cant);
  }

  /** The salary paid in scenario A: the desired payout, or the whole
      profit, and never more than the profit. */
  function SalaryOf(profit: real, desired: Option<real>): (s: real)
    ensures s <= profit
    ensures desired.None? ==> s == profit
    ensures desired.Some? ==> s == Min(desired.value, profit)
  {
    var s := if desired.Some? then desired.value else profit;
    Min(s, profit)
  }

  datatype SalaryScenario = SalaryScenario(
    salary: real,
    employerCost: real,
    employeeDeductions: real,
    residualProfit: real,     // profit_after_salary
    corporateTax: real,
    taxable: real,
    incomeTax: real,
    net: real)

  /** The amount scenario A's income tax is charged on: the salary plus
      the other income. */
  function SalaryTaxable(inp: Inputs, desired: Option<real>): real
  {
    SalaryOf(inp.profit, desired) + inp.otherIncome
  }

  /** Scenario A: the salary and its contributions come out of the profit,
      the rest is taxed at the corporate rate, and the owner keeps the
      salary less deductions and `tax`, the income tax on SalaryTaxable. */
  function ScenarioA(social: SocialSecurity.SocialConfig, inp: Inputs, desired: Option<real>, rate: real,
                     tax: Result<real>): (r: Result<SalaryScenario>)
    ensures r.Ok? <==> tax.Ok?
    ensures r.Err? ==> r.error == tax.error
    ensures r.Ok? ==> r.value.salary == SalaryOf(inp.profit, desired)
    ensures r.Ok? ==> r.value.employerCost
                      == SocialSecurity.SocialContributions(social, r.value.salary, inp.ahvSubject).employerCost
    ensures r.Ok? ==> r.value.employeeDeductions
                      == SocialSecurity.SocialContributions(social, r.value.salary, inp.ahvSubject).employeeDeductions
    ensures r.Ok? ==> r.value.residualProfit == Max(0.0, inp.profit - r.value.salary - r.value.employerCost)
    ensures r.Ok? ==> r.value.corporateTax == r.value.residualProfit * rate
    ensures r.Ok? ==> r.value.taxable == r.value.salary + inp.otherIncome
    ensures r.Ok? ==> r.value.incomeTax == tax.value
    ensures r.Ok? ==> r.value.net + r.value.employeeDeductions + r.value.incomeTax == r.value.salary
    ensures r.Ok? && !inp.ahvSubject ==> r.value.employerCost == 0.0 && r.value.employeeDeductions == 0.0
  {
    var salary := SalaryOf(inp.profit, desired);
    var k := SocialSecurity.SocialContributions(social, salary, inp.ahvSubject);
    var residual := Max(0.0, inp.profit - salary - k.employerCost);
    match tax
    case Err(e) => Err(e)
    case Ok(t) =>
      Ok(SalaryScenario(salary, k.employerCost, k.employeeDeductions, residual, residual * rate,
                        SalaryTaxable(inp, desired), t, salary - k.employeeDeductions - t))
  }

  datatype DividendScenario = DividendScenario(
    corporateTax: real,
    afterCorp: real,
    dividend: real,
    inclusion: real,
    taxable: real,
    incomeTax: real,
    net: real)

  /** What is left for a dividend once the whole profit has borne the
      corporate tax. */
  function AfterCorporateTax(profit: real, rate: real): (r: real)
    ensures r >= 0.0 && r >= profit - profit * rate
    ensures r == 0.0 || r == profit - profit * rate
    ensures 0.0 <= profit && 0.0 <= rate ==> r <= profit
  {
    var c := profit * rate;
    MulNonNegative(profit, rate);
    Max(0.0, profit - c)
  }

  /** The dividend paid: the pool left after corporate tax, capped by a
      (truthy) desired payout. */
  function Dividend(afterCorp: real, desired: Option<real>): (d: real)
    ensures d <= afterCorp
    ensures Truthy(desired) ==> d <= desired.value
    ensures Truthy(desired) ==> d == afterCorp || d == desired.value
    ensures !Truthy(desired) ==> d == afterCorp
  {
    if Truthy(desired) then Min(afterCorp, desired.value) else afterCorp
  }

  /** The amount scenario B's income tax is charged on: the included share
      of the dividend plus the other income. */
  function DividendTaxable(inp: Inputs, desired: Option<real>, rate: real, incl: real): real
  {
    Dividend(AfterCorporateTax(inp.profit, rate), desired) * incl + inp.otherIncome
  }

  /** Scenario B: the whole profit is taxed at the corporate rate, the
      dividend comes out of what is left (up to the desired payout), and
      the owner keeps it less `tax`, the income tax on DividendTaxable. */
  function ScenarioB(inp: Inputs, desired: Option<real>, rate: real, incl: real,
                     tax: Result<real>): (r: Result<DividendScenario>)
    ensures r.Ok? <==> tax.Ok?
    ensures r.Err? ==> r.error == tax.error
    ensures r.Ok? ==> r.value.corporateTax == inp.profit * rate
    ensures r.Ok? ==> r.value.afterCorp >= 0.0 && r.value.afterCorp >= inp.profit - r.value.corporateTax
    ensures r.Ok? ==> r.value.afterCorp == AfterCorporateTax(inp.profit, rate)
    ensures r.Ok? ==> r.value.dividend == Dividend(r.value.afterCorp, desired)
    ensures r.Ok? ==> r.value.inclusion == incl
    ensures r.Ok? ==> r.value.dividend <= r.value.afterCorp
    ensures r.Ok? && Truthy(desired) ==> r.value.dividend <= desired.value
    ensures r.Ok? && !Truthy(desired) ==> r.value.dividend == r.value.afterCorp
    ensures r.Ok? ==> r.value.taxable == r.value.dividend * incl + inp.otherIncome
    ensures r.Ok? ==> r.value.incomeTax == tax.value
    ensures r.Ok? ==> r.value.net + r.value.incomeTax == r.value.dividend
  {
    var afterCorp := AfterCorporateTax(inp.profit, rate);
    var dividend := Dividend(afterCorp, desired);
    match tax
    case Err(e) => Err(e)
    case Ok(t) =>
      Ok(DividendScenario(inp.profit * rate, afterCorp, dividend, incl,
                          DividendTaxable(inp, desired, rate, incl), t, dividend - t))
  }

  /** The three-way verdict and the margin it reports. */
  datatype Verdict = SalaryBetter(margin: real) | DividendBetter(margin: real) | BothEqual

  function Judge(netA: real, netB: real): (v: Verdict)
    ensures v.SalaryBetter? <==> netA > netB
    ensures v.DividendBetter? <==> netB > netA
    ensures v.BothEqual? <==> netA == netB
    ensures v.SalaryBetter? ==> v.margin > 0.0 && netA == netB + v.margin
    ensures v.DividendBetter? ==> v.margin > 0.0 && netB == netA + v.margin
  {
    if netA > netB then SalaryBetter(netA - netB)
    else if netB > netA then DividendBetter(netB - netA)
    else BothEqual
  }

  /** What the page shows: a prompt for a positive profit, or both
      scenarios and the verdict. */
  datatype Outcome =
    | NoProfit
    | Compared(a: SalaryScenario, b: DividendScenario, verdict: Verdict)

  function Comparison(cfg: AppConfig, inp: Inputs): (r: Result<Outcome>)
    ensures inp.profit <= 0.0 ==> r == Ok(NoProfit)
    ensures inp.profit > 0.0 ==> (r.Err? <==> cfg.federalRows == [])
    ensures r.Err? ==> r.error == IndexError
    ensures r.Ok? && r.value.Compared? ==> (r.value.verdict.SalaryBetter? <==> r.value.a.net > r.value.b.net)
    ensures r.Ok? && r.value.Compared? ==> (r.value.verdict.DividendBetter? <==> r.value.b.net > r.value.a.net)
    ensures r.Ok? && r.value.Compared? ==> (r.value.verdict.BothEqual? <==> r.value.a.net == r.value.b.net)
    ensures inp.profit > 0.0 && r.Ok? ==> r.value.Compared?
  {
    var desired := DesiredPayout(inp.desiredIncome, inp.profit);
    if inp.profit <= 0.0 then Ok(NoProfit)
    else
      var rate := CorporateRate(cfg, inp.canton, inp.commune);
      var incl := Inclusion(cfg, inp.canton);
      var a := ScenarioA(cfg.social, inp, desired, rate,
                         IncomeTax(cfg, SalaryTaxable(inp, desired), inp.canton, inp.commune));
      var b := ScenarioB(inp, desired, rate, incl,
                         IncomeTax(cfg, DividendTaxable(inp, desired, rate, incl), inp.canton, inp.commune));
      match (a, b)
      case (Err(e), _) => Err(e)
      case (_, Err(e)) => Err(e)
      case (Ok(x), Ok(y)) => Ok(Compared(x, y, Judge(x.net, y.net)))
  }

  /** Each compared scenario is charged the income tax on its own taxable
      amount. */
  lemma ComparedScenarios(cfg: AppConfig, inp: Inputs)
    requires inp.profit > 0.0
    requires cfg.federalRows != []
    ensures var r := Comparison(cfg, inp);
            r.Ok? && r.value.Compared?
            && r.value.a.incomeTax == IncomeTax(cfg, r.value.a.taxable, inp.canton, inp.commune).value
            && r.value.b.incomeTax == IncomeTax(cfg, r.value.b.taxable, inp.canton, inp.commune).value
  {
    var desired := DesiredPayout(inp.desiredIncome, inp.profit);
    var rate := CorporateRate(cfg, inp.canton, inp.commune);
    var incl := Inclusion(cfg, inp.canton);
    ComparedUnfold(cfg, inp);
    ScenarioAWith(cfg.social, inp, desired, rate, IncomeTax(cfg, SalaryTaxable(inp, desired), inp.canton, inp.commune));
    ScenarioBWith(inp, desired, rate, incl,
                  IncomeTax(cfg, DividendTaxable(inp, desired, rate, incl), inp.canton, inp.commune));
  }

  /** The compared scenarios are scenario A and scenario B at the effective
      corporate rate, with the normalised payout and, for B, the canton's
      inclusion share; so their contracts give the corporate taxes (the
      residual profit, respectively the whole profit, at that rate). */
  lemma ComparedAtEffectiveRate(cfg: AppConfig, inp: Inputs)
    requires inp.profit > 0.0
    requires cfg.federalRows != []
    ensures var r := Comparison(cfg, inp);
            var desired := DesiredPayout(inp.desiredIncome, inp.profit);
            var rate := CorporateRate(cfg, inp.canton, inp.commune);
            r.Ok? && r.value.Compared?
            && r.value.a == ScenarioA(cfg.social, inp, desired, rate,
                                      IncomeTax(cfg, SalaryTaxable(inp, desired), inp.canton, inp.commune)).value
            && r.value.b == ScenarioB(inp, desired, rate, Inclusion(cfg, inp.canton),
                                      IncomeTax(cfg, r.value.b.taxable, inp.canton, inp.commune)).value
  {
    var desired := DesiredPayout(inp.desiredIncome, inp.profit);
    var rate := CorporateRate(cfg, inp.canton, inp.commune);
    var incl := Inclusion(cfg, inp.canton);
    ComparedUnfold(cfg, inp);
    ScenarioAWith(cfg.social, inp, desired, rate, IncomeTax(cfg, SalaryTaxable(inp, desired), inp.canton, inp.commune));
    ScenarioBWith(inp, desired, rate, incl,
                  IncomeTax(cfg, DividendTaxable(inp, desired, rate, incl), inp.canton, inp.commune));
  }

  /** Comparison with both scenarios named. */
  lemma ComparedUnfold(cfg: AppConfig, inp: Inputs)
    requires inp.profit > 0.0
    requires cfg.federalRows != []
    ensures var desired := DesiredPayout(inp.desiredIncome, inp.profit);
            var rate := CorporateRate(cfg, inp.canton, inp.commune);
            var incl := Inclusion(cfg, inp.canton);
            var a := ScenarioA(cfg.social, inp, desired, rate,
                               IncomeTax(cfg, SalaryTaxable(inp, desired), inp.canton, inp.commune));
            var b := ScenarioB(inp, desired, rate, incl,
                               IncomeTax(cfg, DividendTaxable(inp, desired, rate, incl), inp.canton, inp.commune));
            a.Ok? && b.Ok? && Comparison(cfg, inp) == Ok(Compared(a.value, b.value, Judge(a.value.net, b.value.net)))
  {
  }

  lemma ScenarioAWith(social: SocialSecurity.SocialConfig, inp: Inputs, desired: Option<real>, rate: real,
                      tax: Result<real>)
    requires tax.Ok?
    ensures var a := ScenarioA(social, inp, desired, rate, tax);
            a.Ok? && a.value.incomeTax == tax.value && a.value.taxable == SalaryTaxable(inp, desired)
  {
  }

  lemma ScenarioBWith(inp: Inputs, desired: Option<real>, rate: real, incl: real, tax: Result<real>)
    requires tax.Ok?
    ensures var b := ScenarioB(inp, desired, rate, incl, tax);
            b.Ok? && b.value.incomeTax == tax.value && b.value.taxable == DividendTaxable(inp, desired, rate, incl)
            && b.value.corporateTax == inp.profit * rate && b.value.inclusion == incl
  {
  }

  /** The script's calculation block, in order: normalise the payout, look
      up the rates, then each scenario with its income tax computed by the
      tariff loops. */
  method Compare(cfg: AppConfig, inp: Inputs) returns (r: Result<Outcome>)
    ensures r == Comparison(cfg, inp)
  {
    var desired := DesiredPayout(inp.desiredIncome, inp.profit);
    if inp.profit <= 0.0 {
      return Ok(NoProfit);
    }
    var totalCorp := EffectiveCorporateRate(cfg, inp.canton, inp.commune);
    var incl := Inclusion(cfg, inp.canton);
    var taxA := IncomeTaxOf(cfg, SalaryTaxable(inp, desired), inp.canton, inp.commune);
    var a := ScenarioA(cfg.social, inp, desired, totalCorp, taxA);
    if a.Err? {
      return Err(a.error);
    }
    var taxB := IncomeTaxOf(cfg, DividendTaxable(inp, desired, totalCorp, incl), inp.canton, inp.commune);
    var b := ScenarioB(inp, desired, totalCorp, incl, taxB);
    match b
    case Err(e) =>
      r := Err(e);
    case Ok(y) =>
      r := Ok(Compared(a.value, y, Judge(a.value.net, y.net)));
  }

  /** For the non-negative amounts the form accepts and a positive profit,
      "a payout was given" (`is not None`) and "the payout is truthy" agree,
      so both scenarios read the same payout. */
  lemma PayoutTestsAgree(desired: real, profit: real)
    requires desired >= 0.0 && profit > 0.0
    ensures Truthy(DesiredPayout(desired, profit)) <==> DesiredPayout(desired, profit).Some?
    ensures DesiredPayout(desired, profit).Some? ==> 0.0 < DesiredPayout(desired, profit).value <= profit
  {
  }

  /** Without a Confederation entry and without a cantonal rate the
      effective corporate rate is the 8.5 % default. */
  lemma CorporateRateDefault(cfg: AppConfig, canton: string, commune: string)
    requires cfg.corporateConfederation.None?
    requires canton !in cfg.corporateCantons
    ensures CorporateRate(cfg, canton, commune) == 0.085
  {
    CorporateRateNoCanton(cfg, canton, commune);
  }

  /** A canton without a tariff adds no income tax: the federal part is
      all there is. */
  lemma CantonWithoutTariff(cfg: AppConfig, taxable: real, canton: string, commune: string)
    requires canton !in cfg.cantonTables
    requires cfg.federalRows != []
    ensures IncomeTax(cfg, taxable, canton, commune) == FederalTax(FederalTable(cfg), taxable)
  {
    CantonalTaxNoTable(cfg.cantonTables, cfg.multipliers, taxable, canton, commune);
  }

  /** With non-negative contribution rates, the profit left after the
      salary never exceeds the profit. */
  lemma ResidualWithinProfit(social: SocialSecurity.SocialConfig, inp: Inputs, desired: Option<real>, rate: real,
                             taxA: Result<real>)
    requires SocialSecurity.RatesNonNegative(social)
    requires inp.profit >= 0.0
    requires desired.None? || desired.value >= 0.0
    requires taxA.Ok?
    ensures ScenarioA(social, inp, desired, rate, taxA).value.residualProfit <= inp.profit
  {
    SocialSecurity.ContributionsNonNegative(social, SalaryOf(inp.profit, desired), inp.ahvSubject);
  }

  /** Paying a salary never raises the corporate tax: with non-negative
      contribution rates and a non-negative corporate rate, scenario A's
      corporate tax is at most profit x rate, scenario B's corporate tax. */
  lemma SalaryLowersCorporateTax(social: SocialSecurity.SocialConfig, inp: Inputs, desired: Option<real>, rate: real,
                            taxA: Result<real>)
    requires SocialSecurity.RatesNonNegative(social)
    requires rate >= 0.0 && inp.profit >= 0.0
    requires desired.None? || desired.value >= 0.0
    requires taxA.Ok?
    ensures ScenarioA(social, inp, desired, rate, taxA).value.corporateTax <= inp.profit * rate
  {
    var a := ScenarioA(social, inp, desired, rate, taxA).value;
    ResidualWithinProfit(social, inp, desired, rate, taxA);
    MulMonotone(a.residualProfit, inp.profit, rate);
  }

  /** With no social contributions and no desired payout the whole profit
      is paid as salary and no corporate tax remains. */
  lemma WholeProfitAsSalary(cfg: AppConfig, inp: Inputs, rate: real, taxA: Result<real>)
    requires !inp.ahvSubject
    requires taxA.Ok?
    ensures ScenarioA(cfg.social, inp, None, rate, taxA).value.salary == inp.profit
    ensures ScenarioA(cfg.social, inp, None, rate, taxA).value.residualProfit == 0.0
    ensures ScenarioA(cfg.social, inp, None, rate, taxA).value.corporateTax == 0.0
  {
  }

  /** Without a payout cap, a corporate rate between 0 and 1 leaves the
      owner a dividend of exactly profit x (1 - rate). */
  lemma FullDividend(inp: Inputs, desired: Option<real>, rate: real, incl: real, taxB: Result<real>)
    requires !Truthy(desired)
    requires inp.profit >= 0.0 && 0.0 <= rate <= 1.0
    requires taxB.Ok?
    ensures ScenarioB(inp, desired, rate, incl, taxB).value.dividend == inp.profit * (1.0 - rate)
  {
    MulMonotone(rate, 1.0, inp.profit);
    assert inp.profit * (1.0 - rate) == inp.profit - inp.profit * rate;
  }

  /** A non-negative corporate rate never lets the dividend exceed the
      profit. */
  lemma DividendWithinProfit(inp: Inputs, desired: Option<real>, rate: real, incl: real, taxB: Result<real>)
    requires inp.profit >= 0.0 && rate >= 0.0
    requires taxB.Ok?
    ensures 0.0 <= ScenarioB(inp, desired, rate, incl, taxB).value.afterCorp <= inp.profit
    ensures ScenarioB(inp, desired, rate, incl, taxB).value.dividend <= inp.profit
  {
  }
}
