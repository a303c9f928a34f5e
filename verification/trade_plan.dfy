/**
 The trade plan builder: whole-share position sizing from a risk amount,
 the sell target, one plan row per company in input order, and the total
 potential profit of a plan.

 Row values are kept exact; tradeplan.py rounds the sell price and the
 profit of each row to cents for display.
 */
module TradePlan {

  /** A tradable company and the reference price it would be bought at. */
  datatype Company = Company(ticker: string, buyPrice: real)

  /** One proposed trade. */
  datatype PlanRow = PlanRow(ticker: string, buyPrice: real, positionSize: int, sellPrice: real, profit: real)

  // ---------------------------------------------------------------------
  // Position size and sell target
  // ---------------------------------------------------------------------

  /**
   Whole shares bought with `riskAmount` at `sharePrice`: the quotient
   rounded down to an integer (floor division, so a negative quotient rounds
   away from zero). A zero price is a division error in tradeplan.py.
   */
  function PositionSize(riskAmount: real, sharePrice: real): (shares: int)
    requires sharePrice != 0.0
    ensures shares as real <= riskAmount / sharePrice < shares as real + 1.0
  {
    (riskAmount / sharePrice).Floor
  }

  /**
   For a non-negative risk and a positive price, the position is the number
   of shares that fit in the risk: `shares` of them cost at most the risk and
   one more share would cost more.
   */
  lemma PositionSizeFitsRisk(riskAmount: real, sharePrice: real)
    requires riskAmount >= 0.0 && sharePrice > 0.0
    ensures var shares := PositionSize(riskAmount, sharePrice);
      && shares >= 0
      && shares as real * sharePrice <= riskAmount < (shares + 1) as real * sharePrice
  {
    var shares := PositionSize(riskAmount, sharePrice);
    var q := riskAmount / sharePrice;
    assert q * sharePrice == riskAmount;
    assert shares as real * sharePrice <= q * sharePrice;
    var next := (shares + 1) as real;
    assert next - q > 0.0;
    assert next * sharePrice - riskAmount == (next - q) * sharePrice;
    assert (next - q) * sharePrice > 0.0;
    assert riskAmount < next * sharePrice;
  }

  /** The position is the largest whole number of shares the risk can pay for. */
  lemma PositionSizeIsLargestAffordable(riskAmount: real, sharePrice: real, n: int)
    requires sharePrice > 0.0
    requires n as real * sharePrice <= riskAmount
    ensures n <= PositionSize(riskAmount, sharePrice)
  {
    var q := riskAmount / sharePrice;
    assert n as real * sharePrice <= q * sharePrice;
    assert n as real <= q;
  }

  /** Boundaries: a risk equal to the price buys one share, a smaller one buys none. */
  lemma PositionSizeBoundaries(riskAmount: real, sharePrice: real)
    requires sharePrice > 0.0
    ensures riskAmount == sharePrice ==> PositionSize(riskAmount, sharePrice) == 1
    ensures 0.0 <= riskAmount < sharePrice ==> PositionSize(riskAmount, sharePrice) == 0
  {
    if riskAmount == sharePrice {
      assert riskAmount / sharePrice == 1.0;
    }
    if 0.0 <= riskAmount < sharePrice {
      var q := riskAmount / sharePrice;
      assert q * sharePrice == riskAmount;
      assert q < sharePrice / sharePrice == 1.0;
    }
  }

  /** 875 of risk at 145.32 a share buys 6 shares (6.02 before flooring). */
  lemma PositionSizeExample()
    ensures PositionSize(875.0, 145.32) == 6
  {
    var q := 875.0 / 145.32;
    assert q * 145.32 == 875.0;
    assert 6.0 <= q < 7.0;
  }

  /** More risk never buys fewer shares at the same positive price. */
  lemma PositionSizeMonotone(risk1: real, risk2: real, sharePrice: real)
    requires sharePrice > 0.0 && risk1 <= risk2
    ensures PositionSize(risk1, sharePrice) <= PositionSize(risk2, sharePrice)
  {
    assert risk1 / sharePrice <= risk2 / sharePrice;
  }

  /**
   The target sell price: the buy price raised by the win rate used as a
   price-appreciation factor.
   */
  function SellPrice(buyPrice: real, winRate: real): (sell: real)
    ensures sell == buyPrice * (1.0 + winRate)
    ensures buyPrice >= 0.0 && winRate >= 0.0 ==> sell >= buyPrice
  {
    buyPrice + buyPrice * winRate
  }

  // ---------------------------------------------------------------------
  // Building the plan
  // ---------------------------------------------------------------------

  /** Every company has a price the floor division can divide by. */
  predicate AllPriced(companies: seq<Company>)
  {
    forall i :: 0 <= i < |companies| ==> companies[i].buyPrice != 0.0
  }

  /** The row proposed for one company. */
  function RowFor(c: Company, riskPerCompany: real, winRate: real): PlanRow
    requires c.buyPrice != 0.0
  {
    var shares := PositionSize(riskPerCompany, c.buyPrice);
    var sell := SellPrice(c.buyPrice, winRate);
    PlanRow(c.ticker, c.buyPrice, shares, sell, (sell - c.buyPrice) * shares as real)
  }

  /**
   A row is `c`'s row: it copies the ticker and buy price, sizes the position
   from the company's risk, and its profit is the gain per share times the shares.
   */
  ghost predicate IsRowOf(row: PlanRow, c: Company, riskPerCompany: real, winRate: real)
    requires c.buyPrice != 0.0
  {
    && row.ticker == c.ticker
    && row.buyPrice == c.buyPrice
    && row.positionSize == PositionSize(riskPerCompany, c.buyPrice)
    && row.sellPrice == SellPrice(c.buyPrice, winRate)
    && row.profit == (row.sellPrice - row.buyPrice) * row.positionSize as real
  }

  /**
   One row per company, appended in input order, every company given the
   same risk allocation and win rate.
   */
  function BuildTradePlan(companies: seq<Company>, riskPerCompany: real, winRate: real): (plan: seq<PlanRow>)
    requires AllPriced(companies)
    ensures |plan| == |companies|
    ensures forall i :: 0 <= i < |plan| ==> IsRowOf(plan[i], companies[i], riskPerCompany, winRate)
  {
    if |companies| == 0 then []
    else
      var last := |companies| - 1;
      BuildTradePlan(companies[..last], riskPerCompany, winRate) + [RowFor(companies[last], riskPerCompany, winRate)]
  }

  /**
   The profit of a row is the buy price times the win rate per share; a row
   with no shares earns nothing, and with a non-negative risk and win rate
   no row loses money.
   */
  lemma RowProfit(c: Company, riskPerCompany: real, winRate: real, row: PlanRow)
    requires c.buyPrice != 0.0
    requires IsRowOf(row, c, riskPerCompany, winRate)
    ensures row.profit == c.buyPrice * winRate * row.positionSize as real
    ensures row.positionSize == 0 ==> row.profit == 0.0
    ensures riskPerCompany >= 0.0 && winRate >= 0.0 ==> row.profit >= 0.0
  {
    assert row.sellPrice - row.buyPrice == c.buyPrice * winRate;
    if riskPerCompany >= 0.0 && winRate >= 0.0 {
      var q := riskPerCompany / c.buyPrice;
      if c.buyPrice > 0.0 {
        assert q >= 0.0;
        assert row.positionSize >= 0;
      } else {
        assert q <= 0.0;
        assert row.positionSize <= 0;
        assert c.buyPrice * row.positionSize as real >= 0.0;
      }
      assert c.buyPrice * row.positionSize as real >= 0.0;
    }
  }

  /** Planning a concatenation plans each part independently. */
  lemma {:induction false} BuildTradePlanAppend(a: seq<Company>, b: seq<Company>, riskPerCompany: real, winRate: real)
    requires AllPriced(a) && AllPriced(b)
    ensures AllPriced(a + b)
    ensures BuildTradePlan(a + b, riskPerCompany, winRate)
         == BuildTradePlan(a, riskPerCompany, winRate) + BuildTradePlan(b, riskPerCompany, winRate)
  {
    var ab := a + b;
    assert AllPriced(ab) by {
      forall i | 0 <= i < |ab|
        ensures ab[i].buyPrice != 0.0
      {
        if i < |a| { assert ab[i] == a[i]; } else { assert ab[i] == b[i - |a|]; }
      }
    }
    if |b| == 0 {
      assert ab == a;
    } else {
      var last := |b| - 1;
      assert ab[..|ab| - 1] == a + b[..last];
      assert ab[|ab| - 1] == b[last];
      assert AllPriced(b[..last]) by {
        forall i | 0 <= i < last
          ensures b[..last][i].buyPrice != 0.0
        {
          assert b[..last][i] == b[i];
        }
      }
      BuildTradePlanAppend(a, b[..last], riskPerCompany, winRate);
    }
  }

  // ---------------------------------------------------------------------
  // Total potential profit
  // ---------------------------------------------------------------------

  /** The sum of the rows' profits. */
  function SumProfits(plan: seq<PlanRow>): real
  {
    if |plan| == 0 then 0.0 else SumProfits(plan[..|plan| - 1]) + plan[|plan| - 1].profit
  }

  /** The total of two plans side by side is the sum of their totals. */
  lemma {:induction false} SumProfitsAppend(a: seq<PlanRow>, b: seq<PlanRow>)
    ensures SumProfits(a + b) == SumProfits(a) + SumProfits(b)
  {
    if |b| == 0 {
      assert a + b == a;
    } else {
      var last := |b| - 1;
      assert (a + b)[..|a + b| - 1] == a + b[..last];
      assert (a + b)[|a + b| - 1] == b[last];
      SumProfitsAppend(a, b[..last]);
    }
  }

  /** A plan with no losing row has a non-negative total. */
  lemma {:induction false} SumProfitsNonNegative(plan: seq<PlanRow>)
    requires forall i :: 0 <= i < |plan| ==> plan[i].profit >= 0.0
    ensures SumProfits(plan) >= 0.0
  {
    if |plan| > 0 {
      SumProfitsNonNegative(plan[..|plan| - 1]);
    }
  }

  /**
   The total potential profit of a plan, accumulated row by row in plan
   order, equals the sum of the rows' profits.
   */
  method TotalPotentialProfit(plan: seq<PlanRow>) returns (total: real)
    ensures total == SumProfits(plan)
  {
    total := 0.0;
    var i := 0;
    while i < |plan|
      invariant 0 <= i <= |plan|
      invariant total == SumProfits(plan[..i])
    {
      assert plan[..i + 1][..i] == plan[..i];
      total := total + plan[i].profit;
      i := i + 1;
    }
    assert plan[..i] == plan;
  }

  /**
   With a non-negative risk allocation and win rate, rows built from the
   companies never add up to a projected loss.
   */
  lemma RowsProfitNonNegative(companies: seq<Company>, plan: seq<PlanRow>, riskPerCompany: real, winRate: real)
    requires AllPriced(companies) && |plan| == |companies|
    requires forall i :: 0 <= i < |plan| ==> IsRowOf(plan[i], companies[i], riskPerCompany, winRate)
    requires riskPerCompany >= 0.0 && winRate >= 0.0
    ensures SumProfits(plan) >= 0.0
  {
    forall i | 0 <= i < |plan|
      ensures plan[i].profit >= 0.0
    {
      RowProfit(companies[i], riskPerCompany, winRate, plan[i]);
    }
    SumProfitsNonNegative(plan);
  }
}
