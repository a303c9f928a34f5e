/**
 The arithmetic of one planning run, as performed when the user asks for a
 plan: derive the portfolio and per-trade risk from the entered parameters,
 solve for the required win rate, project the trade counts and the maximum
 loss, stop if there are no companies, split the portfolio risk evenly over
 the companies, build the plan rows, total their profits and classify the
 win rate.

 Reading the entry fields, loading the company list and rendering the
 report are outside the model: the parameters arrive as reals and the
 companies as a sequence.
 */
module Planner {
  import opened Outcomes
  import opened RiskModel
  import opened TradePlan

  /** The six figures the user enters. `tradesEstimate` is entered as a decimal. */
  datatype Parameters = Parameters(
    startingBalance: real,
    monthlyBills: real,
    tradesEstimate: real,
    maxPortfolioRiskPct: real,
    riskPerTradePct: real,
    rewardToRisk: real)

  /** The values the entry form starts with. */
  const DefaultParameters := Parameters(35000.0, 3500.0, 50.0, 0.25, 0.02, 3.0)

  /**
   Conversion of a decimal to an integer by dropping its fraction, that is,
   rounding toward zero. Only an estimate of at least one trade becomes a
   positive count.
   */
  function TruncateToInt(x: real): (n: int)
    ensures 0.0 <= x ==> 0 <= n && n as real <= x < n as real + 1.0
    ensures x < 0.0 ==> n <= 0 && n as real - 1.0 < x <= n as real
    ensures n > 0 <==> x >= 1.0
  {
    if x >= 0.0 then x.Floor else -((-x).Floor)
  }

  /** The part of the balance that may be at risk at all. */
  function MaxPortfolioRisk(p: Parameters): real
  {
    p.startingBalance * p.maxPortfolioRiskPct
  }

  /** The amount risked on a single trade: a share of the portfolio risk. */
  function RiskPerTrade(p: Parameters): real
  {
    MaxPortfolioRisk(p) * p.riskPerTradePct
  }

  /** The parameters pass the win-rate solver's guard. */
  predicate Accepted(p: Parameters)
  {
    SolverAccepts(TruncateToInt(p.tradesEstimate), RiskPerTrade(p), p.rewardToRisk)
  }

  /** The figures derived from the parameters before any company is looked at. */
  datatype DerivedFigures = DerivedFigures(
    maxPortfolioRisk: real,
    riskPerTrade: real,
    tradesPerMonth: int,
    requiredWinRate: real,
    projection: TradeProjection,
    maxLoss: real)

  /**
   Derives the risk figures. Fails with `InvalidParameter` exactly when the
   truncated trade count, the risk per trade or the reward:risk ratio is not
   positive. Otherwise the win rate breaks even on the bills, the portfolio
   risk buys one trade per `1 / riskPerTradePct`, and the maximum loss is
   the losing share of the portfolio risk.
   */
  function DeriveFigures(p: Parameters): (r: Result<DerivedFigures>)
    ensures r.Err? <==> !Accepted(p)
    ensures r.Err? ==> r.error == InvalidParameter
    ensures r.Ok? ==>
      var f := r.value;
      && f.maxPortfolioRisk == p.startingBalance * p.maxPortfolioRiskPct
      && f.riskPerTrade == p.startingBalance * p.maxPortfolioRiskPct * p.riskPerTradePct
      && f.riskPerTrade > 0.0
      && 1 <= f.tradesPerMonth && f.tradesPerMonth as real <= p.tradesEstimate < f.tradesPerMonth as real + 1.0
      && ExpectedMonthlyProfit(f.tradesPerMonth, f.riskPerTrade, p.rewardToRisk, f.requiredWinRate) == p.monthlyBills
      && f.projection.tradesNeeded * p.riskPerTradePct == 1.0
      && f.projection.winningTrades * p.riskPerTradePct == f.requiredWinRate
      && f.maxLoss == f.maxPortfolioRisk * (1.0 - f.requiredWinRate)
  {
    var maxRisk := MaxPortfolioRisk(p);
    var perTrade := maxRisk * p.riskPerTradePct;
    var trades := TruncateToInt(p.tradesEstimate);
    var w :- RequiredWinRate(p.monthlyBills, trades, perTrade, p.rewardToRisk);
    var projection := TradesToGoal(maxRisk, perTrade, w);
    ProjectionPerRiskShare(maxRisk, p.riskPerTradePct, perTrade, w);
    Ok(DerivedFigures(maxRisk, perTrade, trades, w, projection, MaxLoss(projection, perTrade)))
  }

  /**
   When each trade risks the share `pct` of the budget, the budget pays for
   `1 / pct` trades, `w / pct` of them winners, and losing all the others
   loses the losing share of the budget.
   */
  lemma ProjectionPerRiskShare(budget: real, pct: real, perTrade: real, w: real)
    requires perTrade == budget * pct && perTrade > 0.0
    ensures TradesToGoal(budget, perTrade, w).tradesNeeded * pct == 1.0
    ensures TradesToGoal(budget, perTrade, w).winningTrades * pct == w
    ensures MaxLoss(TradesToGoal(budget, perTrade, w), perTrade) == budget * (1.0 - w)
  {
    var t := TradesToGoal(budget, perTrade, w).tradesNeeded;
    assert budget != 0.0;
    calc {
      (t * pct) * budget;
      t * (budget * pct);
      t * perTrade;
      budget;
    }
    assert (t * pct - 1.0) * budget == 0.0;
    MaxLossIsLosingShareOfBudget(budget, perTrade, w);
  }

  /**
   The even split of the portfolio risk across the companies. An empty list
   stops the run with `NoCompanies` before anything is divided.
   */
  function RiskPerCompany(maxPortfolioRisk: real, companies: seq<Company>): (r: Result<real>)
    ensures r.Err? <==> |companies| == 0
    ensures r.Err? ==> r.error == NoCompanies
    ensures r.Ok? ==> r.value * |companies| as real == maxPortfolioRisk
  {
    if |companies| == 0 then Err(NoCompanies)
    else Ok(maxPortfolioRisk / |companies| as real)
  }

  /** Everything a successful run computes, ready for rendering. */
  datatype PlanReport = PlanReport(
    figures: DerivedFigures,
    rewardTiers: map<string, real>,
    numberOfCompanies: nat,
    riskPerCompany: real,
    rows: seq<PlanRow>,
    totalPotentialProfit: real,
    feasibility: Feasibility)

  /**
   One planning run. The solver guard is checked before the company list,
   so bad parameters are reported as `InvalidParameter` even when the list
   is also empty; valid parameters with no companies give `NoCompanies`.
   A successful run has one row per company in input order, each sized from
   an even share of the portfolio risk and priced at the required win rate,
   a total equal to the sum of the rows' profits, the reward tiers of the
   risk per trade and the verdict on the win rate. Prices are divided only
   once the guard has passed, so only then must they be non-zero.
   */
  function CalculatePlan(p: Parameters, companies: seq<Company>): (r: Result<PlanReport>)
    requires Accepted(p) ==> AllPriced(companies)
    ensures r == Err(InvalidParameter) <==> !Accepted(p)
    ensures r == Err(NoCompanies) <==> Accepted(p) && |companies| == 0
    ensures r.Ok? ==>
      var rep := r.value;
      var w := rep.figures.requiredWinRate;
      && DeriveFigures(p) == Ok(rep.figures)
      && rep.numberOfCompanies == |companies| > 0
      && rep.riskPerCompany * rep.numberOfCompanies as real == rep.figures.maxPortfolioRisk
      && |rep.rows| == |companies|
      && (forall i :: 0 <= i < |companies| ==> IsRowOf(rep.rows[i], companies[i], rep.riskPerCompany, w))
      && rep.totalPotentialProfit == SumProfits(rep.rows)
      && rep.rewardTiers == RewardTiers(rep.figures.riskPerTrade)
      && (rep.feasibility == WithinRange <==> 0.0 <= w <= 1.0)
      && (rep.feasibility == OverOneHundredPercent <==> w > 1.0)
  {
    var figures :- DeriveFigures(p);
    var perCompany :- RiskPerCompany(figures.maxPortfolioRisk, companies);
    var rows := BuildTradePlan(companies, perCompany, figures.requiredWinRate);
    var tiers := RewardTiers(figures.riskPerTrade);
    Ok(PlanReport(figures, tiers, |companies|, perCompany, rows, SumProfits(rows), Classify(figures.requiredWinRate)))
  }

  /**
   With a positive per-trade share and a feasible win rate, the portfolio
   risk is positive and the maximum loss lies between nothing and it.
   */
  lemma FeasibleLossIsBounded(f: DerivedFigures, riskPerTradePct: real)
    requires riskPerTradePct > 0.0
    requires f.riskPerTrade == f.maxPortfolioRisk * riskPerTradePct && f.riskPerTrade > 0.0
    requires f.maxLoss == f.maxPortfolioRisk * (1.0 - f.requiredWinRate)
    requires 0.0 <= f.requiredWinRate <= 1.0
    ensures f.maxPortfolioRisk > 0.0
    ensures 0.0 <= f.maxLoss <= f.maxPortfolioRisk
  {
    assert f.maxPortfolioRisk == f.riskPerTrade / riskPerTradePct;
    assert f.maxPortfolioRisk * (1.0 - f.requiredWinRate) <= f.maxPortfolioRisk * 1.0;
  }

  /**
   When the required win rate is feasible and the per-trade share of the
   portfolio risk is positive, the run risks nothing it cannot afford: the
   maximum loss lies between nothing and the portfolio risk, and the plan
   projects no loss.
   */
  lemma FeasiblePlanIsSafe(p: Parameters, companies: seq<Company>, rep: PlanReport)
    requires AllPriced(companies)
    requires p.riskPerTradePct > 0.0
    requires CalculatePlan(p, companies) == Ok(rep)
    requires rep.feasibility == WithinRange
    ensures 0.0 <= rep.figures.maxLoss <= rep.figures.maxPortfolioRisk
    ensures rep.totalPotentialProfit >= 0.0
  {
    var f := rep.figures;
    var w := f.requiredWinRate;
    assert DeriveFigures(p) == Ok(f);
    FeasibleLossIsBounded(f, p.riskPerTradePct);
    var n := rep.numberOfCompanies as real;
    assert rep.riskPerCompany == f.maxPortfolioRisk / n;
    RowsProfitNonNegative(companies, rep.rows, rep.riskPerCompany, w);
  }

  /**
   The default parameters: 8750 of the 35000 balance at risk, 175 per
   trade, 50 trades a month, and a required win rate of 35%, which is
   feasible; the budget pays for 50 trades and at most 5687.5 can be lost.
   */
  lemma DefaultParametersPlan()
    ensures DeriveFigures(DefaultParameters).Ok?
    ensures var f := DeriveFigures(DefaultParameters).value;
      && f.maxPortfolioRisk == 8750.0
      && f.riskPerTrade == 175.0
      && f.tradesPerMonth == 50
      && f.requiredWinRate == 0.35
      && f.projection.tradesNeeded == 50.0
      && f.maxLoss == 5687.5
      && Classify(f.requiredWinRate) == WithinRange
  {
    var p := DefaultParameters;
    assert TruncateToInt(p.tradesEstimate) == 50;
    assert RiskPerTrade(p) == 175.0;
    RequiredWinRateIsUnique(p.monthlyBills, 50, 175.0, p.rewardToRisk, 0.35);
  }
}
