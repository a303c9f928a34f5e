/**
 The risk model: trade-count projections, the fixed reward-tier table, the
 solver for the win rate that covers the monthly bills, and the three-way
 feasibility classification of that win rate.

 All amounts are exact reals; tradeplan.py computes in binary floating point.
 */
module RiskModel {
  import opened Outcomes

  /** How many trades a risk budget pays for, and how many of them are winners. */
  datatype TradeProjection = TradeProjection(tradesNeeded: real, winningTrades: real)

  /**
   Splits a balance into trades of `riskPerTrade` each and projects the
   winners at `winRate`. Continuous projections: nothing is rounded.
   */
  function TradesToGoal(startingBalance: real, riskPerTrade: real, winRate: real): (p: TradeProjection)
    requires riskPerTrade != 0.0
    ensures p.tradesNeeded * riskPerTrade == startingBalance
    ensures p.winningTrades * riskPerTrade == startingBalance * winRate
  {
    var tradesNeeded := startingBalance / riskPerTrade;
    TradeProjection(tradesNeeded, tradesNeeded * winRate)
  }

  /** The loss if every projected losing trade loses its full risk. */
  function MaxLoss(p: TradeProjection, riskPerTrade: real): real
  {
    (p.tradesNeeded - p.winningTrades) * riskPerTrade
  }

  /**
   Spending a budget on trades and losing all the non-winners loses exactly
   the non-winning fraction of the budget; for a non-negative budget and a
   win rate in [0, 1] the winners never outnumber the trades and the loss
   lies between nothing and the whole budget.
   */
  lemma MaxLossIsLosingShareOfBudget(budget: real, riskPerTrade: real, winRate: real)
    requires riskPerTrade > 0.0
    ensures MaxLoss(TradesToGoal(budget, riskPerTrade, winRate), riskPerTrade) == budget * (1.0 - winRate)
    ensures budget >= 0.0 && 0.0 <= winRate <= 1.0 ==>
      && TradesToGoal(budget, riskPerTrade, winRate).winningTrades <= TradesToGoal(budget, riskPerTrade, winRate).tradesNeeded
      && 0.0 <= MaxLoss(TradesToGoal(budget, riskPerTrade, winRate), riskPerTrade) <= budget
  {
    var p := TradesToGoal(budget, riskPerTrade, winRate);
    calc {
      MaxLoss(p, riskPerTrade);
      (p.tradesNeeded - p.winningTrades) * riskPerTrade;
      p.tradesNeeded * riskPerTrade - p.winningTrades * riskPerTrade;
      budget - budget * winRate;
    }
    if budget >= 0.0 && 0.0 <= winRate <= 1.0 {
      assert p.tradesNeeded >= 0.0;
      assert p.tradesNeeded * winRate <= p.tradesNeeded * 1.0;
    }
  }

  // ---------------------------------------------------------------------
  // Reward tiers
  // ---------------------------------------------------------------------

  /** The label of the reward tier "k:1" for a one-digit multiplier k. */
  function RewardTierLabel(k: int): (tag: string)
    requires 1 <= k <= 9
    ensures |tag| == 3 && tag[1..] == ":1"
    ensures tag[0] as int - '0' as int == k
  {
    [('0' as int + k) as char, ':', '1']
  }

  /**
   The fixed table of four reward tiers: risking `riskAmount` at k:1 aims
   for a reward of k times the risk, for k = 1 .. 4, and there is no other tier.
   */
  function RewardTiers(riskAmount: real): (tiers: map<string, real>)
    ensures tiers.Keys == {"1:1", "2:1", "3:1", "4:1"}
    ensures forall k :: 1 <= k <= 4 ==>
      RewardTierLabel(k) in tiers && tiers[RewardTierLabel(k)] == riskAmount * k as real
  {
    assert RewardTierLabel(1) == "1:1" && RewardTierLabel(2) == "2:1";
    assert RewardTierLabel(3) == "3:1" && RewardTierLabel(4) == "4:1";
    map["1:1" := riskAmount * 1.0, "2:1" := riskAmount * 2.0,
        "3:1" := riskAmount * 3.0, "4:1" := riskAmount * 4.0]
  }

  // ---------------------------------------------------------------------
  // Required win rate
  // ---------------------------------------------------------------------

  /**
   The expected profit of a month of `tradesPerMonth` trades, each risking
   `riskPerTrade`: a winner earns `rewardToRisk` times the risk, a loser
   loses the risk, and a trade wins with probability `winRate`.
   */
  function ExpectedMonthlyProfit(tradesPerMonth: int, riskPerTrade: real, rewardToRisk: real, winRate: real): real
  {
    tradesPerMonth as real * (winRate * rewardToRisk * riskPerTrade - (1.0 - winRate) * riskPerTrade)
  }

  /** The solver's parameter guard: all three must be strictly positive. */
  predicate SolverAccepts(tradesPerMonth: int, riskPerTrade: real, rewardToRisk: real)
  {
    tradesPerMonth > 0 && riskPerTrade > 0.0 && rewardToRisk > 0.0
  }

  /**
   The win rate at which the expected monthly profit exactly covers the
   bills. A non-positive trade count, risk or reward:risk ratio is rejected
   with `InvalidParameter`. The result is not clamped to [0, 1].
   */
  function RequiredWinRate(monthlyBills: real, tradesPerMonth: int, riskPerTrade: real, rewardToRisk: real): (r: Result<real>)
    ensures r.Err? <==> !SolverAccepts(tradesPerMonth, riskPerTrade, rewardToRisk)
    ensures r.Err? ==> r.error == InvalidParameter
    ensures r.Ok? ==> ExpectedMonthlyProfit(tradesPerMonth, riskPerTrade, rewardToRisk, r.value) == monthlyBills
  {
    if tradesPerMonth <= 0 || riskPerTrade <= 0.0 || rewardToRisk <= 0.0 then
      Err(InvalidParameter)
    else
      var monthlyRisk := tradesPerMonth as real * riskPerTrade;
      var w := (monthlyBills / monthlyRisk + 1.0) / (rewardToRisk + 1.0);
      BreakEvenAt(monthlyBills, monthlyRisk, rewardToRisk, w);
      assert ExpectedMonthlyProfit(tradesPerMonth, riskPerTrade, rewardToRisk, w)
          == monthlyRisk * (w * (rewardToRisk + 1.0) - 1.0);
      Ok(w)
  }

  /** Algebra behind the solver: the closed form is a root of the break-even equation. */
  lemma BreakEvenAt(bills: real, monthlyRisk: real, rewardToRisk: real, w: real)
    requires monthlyRisk > 0.0 && rewardToRisk > 0.0
    requires w == (bills / monthlyRisk + 1.0) / (rewardToRisk + 1.0)
    ensures monthlyRisk * (w * (rewardToRisk + 1.0) - 1.0) == bills
  {
    assert w * (rewardToRisk + 1.0) == bills / monthlyRisk + 1.0;
  }

  /**
   The solver's answer is the only win rate that breaks even: any rate at
   which the expected monthly profit equals the bills is the one returned.
   */
  lemma RequiredWinRateIsUnique(monthlyBills: real, tradesPerMonth: int, riskPerTrade: real, rewardToRisk: real, w: real)
    requires SolverAccepts(tradesPerMonth, riskPerTrade, rewardToRisk)
    requires ExpectedMonthlyProfit(tradesPerMonth, riskPerTrade, rewardToRisk, w) == monthlyBills
    ensures RequiredWinRate(monthlyBills, tradesPerMonth, riskPerTrade, rewardToRisk) == Ok(w)
  {
    var monthlyRisk := tradesPerMonth as real * riskPerTrade;
    assert monthlyRisk > 0.0;
    var excess := w * (rewardToRisk + 1.0) - 1.0;
    assert monthlyRisk * excess == monthlyBills;
    assert excess == (monthlyRisk * excess) / monthlyRisk;
    assert excess == monthlyBills / monthlyRisk;
    assert w == (monthlyBills / monthlyRisk + 1.0) / (rewardToRisk + 1.0);
  }

  // ---------------------------------------------------------------------
  // Feasibility of the required win rate
  // ---------------------------------------------------------------------

  /** The advisory verdict on a required win rate; never an error. */
  datatype Feasibility = OverOneHundredPercent | Negative | WithinRange

  /**
   A rate above 1 is unrealistic, a rate below 0 signals odd inputs, and
   every other rate (0 and 1 included) is feasible.
   */
  function Classify(rate: real): (f: Feasibility)
    ensures f == OverOneHundredPercent <==> rate > 1.0
    ensures f == Negative <==> rate < 0.0
    ensures f == WithinRange <==> 0.0 <= rate <= 1.0
  {
    if rate > 1.0 then OverOneHundredPercent
    else if rate < 0.0 then Negative
    else WithinRange
  }

  /**
   Feasibility in terms of the inputs: the plan needs more than a 100% win
   rate exactly when the bills exceed what winning every trade would earn,
   and a negative rate exactly when the bills are below minus the month's
   total risk.
   */
  lemma ClassifyRequiredWinRate(monthlyBills: real, tradesPerMonth: int, riskPerTrade: real, rewardToRisk: real)
    requires SolverAccepts(tradesPerMonth, riskPerTrade, rewardToRisk)
    ensures var f := Classify(RequiredWinRate(monthlyBills, tradesPerMonth, riskPerTrade, rewardToRisk).value);
      && (f == OverOneHundredPercent <==> monthlyBills > tradesPerMonth as real * riskPerTrade * rewardToRisk)
      && (f == Negative <==> monthlyBills < -(tradesPerMonth as real * riskPerTrade))
      && (f == WithinRange <==>
            -(tradesPerMonth as real * riskPerTrade) <= monthlyBills <= tradesPerMonth as real * riskPerTrade * rewardToRisk)
  {
    var monthlyRisk := tradesPerMonth as real * riskPerTrade;
    var w := RequiredWinRate(monthlyBills, tradesPerMonth, riskPerTrade, rewardToRisk).value;
    var q := monthlyBills / monthlyRisk;
    assert monthlyRisk > 0.0;
    assert w * (rewardToRisk + 1.0) == q + 1.0;
    assert monthlyBills == q * monthlyRisk;
    assert w > 1.0 <==> q > rewardToRisk;
    assert q > rewardToRisk <==> monthlyBills > monthlyRisk * rewardToRisk;
    assert w < 0.0 <==> q < -1.0;
    assert q < -1.0 <==> monthlyBills < -monthlyRisk;
  }
}
