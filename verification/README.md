# Monthly bill trade plan — a Dafny model of the planning arithmetic

The program helps a retail trader turn a balance, monthly bills and a list
of companies with buy prices into a trade plan. It works out how much of the
balance to risk overall and per trade, and the win rate needed for trading
profits to cover the bills. It also gives each company a whole-share
position, a sell target and a potential profit, and totals those profits.

This project models that arithmetic from `Team/tradeplan.py` as pure Dafny
functions over exact `real`s, with `int` share counts, and proves how the
pieces fit together:

- `outcomes.dfy` (module `Outcomes`): the `Result` type and the two ways a
  run can stop. `InvalidParameter` is the solver's `ValueError`.
  `NoCompanies` is the empty-list warning.
- `risk_model.dfy` (module `RiskModel`): the trade projection, the maximum
  loss, the fixed reward-tier table, the required-win-rate solver and the
  three-way feasibility verdict.
- `trade_plan.dfy` (module `TradePlan`): position sizing by floor
  division, the sell target, the plan builder (one row per company, in input
  order) and the total potential profit.
- `planner.dfy` (module `Planner`): the glue of `calculate_plan`. It covers
  the derived risk figures, the `int(...)` truncation of the trade estimate,
  the empty-list guard, the even split of risk across companies, and the
  whole run with its error order.

The required win rate is not specified by its closed form. It is
characterised as the root of the break-even equation: over `T` trades of
risk `R`, a winner earns `rr·R` and a loser loses `R`. `RequiredWinRate`
proves that its answer makes the expected monthly profit equal the bills.
`RequiredWinRateIsUnique` proves that no other rate does. The "over 100%"
and "negative" verdicts are then restated in the inputs. The rate is over
100% exactly when the bills exceed `T·R·rr`. It is negative exactly when the
bills are below `-T·R`.

Two details of `Team/tradeplan.py` are easy to misread:

- `position_size_by_risk` is `int(risk // price)`, which is floor division.
  It is not a truncation toward zero. The two differ only for a negative
  quotient.
- An empty company list is not an invalid parameter. The code shows a
  separate "No Companies" warning and stops. This happens only after the
  win-rate solver has accepted the parameters. So bad parameters together
  with an empty list report `InvalidParameter`.

## Model

| member | source | states |
|---|---|---|
| RiskModel.TradesToGoal | Team/tradeplan.py:18-21 | the projected trade count times the risk per trade gives back the balance; the projected winners times the risk give back the balance times the win rate |
| RiskModel.MaxLossIsLosingShareOfBudget | Team/tradeplan.py:161-166 | the maximum loss `(trades - winners)·risk` equals `budget·(1 - winRate)`; for a non-negative budget and a win rate in [0, 1] the winners never exceed the trades and the loss lies between 0 and the budget |
| RiskModel.RewardTierLabel | Team/tradeplan.py:23-29 | the tier key for multiplier k is the three characters "k:1" |
| RiskModel.RewardTiers | Team/tradeplan.py:23-29 | the table has exactly the keys "1:1", "2:1", "3:1", "4:1", and key "k:1" maps to the risk amount times k |
| RiskModel.RequiredWinRate | Team/tradeplan.py:65-74 | fails with `InvalidParameter` exactly when trades per month, risk per trade or reward:risk is not positive; otherwise the returned rate, which is not clamped, makes the expected monthly profit equal the bills |
| RiskModel.BreakEvenAt | Team/tradeplan.py:73 | the closed form `((bills/monthlyRisk) + 1)/(rr + 1)` solves `monthlyRisk·(w·(rr+1) - 1) = bills` |
| RiskModel.RequiredWinRateIsUnique | Team/tradeplan.py:71-74 | any win rate at which the expected monthly profit equals the bills is exactly the rate the solver returns |
| RiskModel.Classify | Team/tradeplan.py:234-239 | "over 100%" exactly when the rate is above 1, "negative" exactly when it is below 0, "within range" exactly when it is in [0, 1]; exactly one verdict holds |
| RiskModel.ClassifyRequiredWinRate | Team/tradeplan.py:234-239 | for the solver's rate, "over 100%" holds exactly when bills > trades·risk·rr, "negative" exactly when bills < -(trades·risk), and "within range" exactly between the two |
| TradePlan.PositionSize | Team/tradeplan.py:31-32 | the share count is the integer with `shares <= risk/price < shares + 1` (floor division) |
| TradePlan.PositionSizeFitsRisk | Team/tradeplan.py:31-32 | for risk >= 0 and price > 0 the count is non-negative and `shares·price <= risk < (shares+1)·price` |
| TradePlan.PositionSizeIsLargestAffordable | Team/tradeplan.py:31-32 | every whole number of shares whose cost is within the risk is at most the position size |
| TradePlan.PositionSizeBoundaries | Team/tradeplan.py:31-32 | a risk equal to the price buys exactly one share; a non-negative risk below the price buys none |
| TradePlan.PositionSizeExample | Team/tradeplan.py:31-32 | 875 of risk at a price of 145.32 buys 6 shares |
| TradePlan.PositionSizeMonotone | Team/tradeplan.py:31-32 | at a fixed positive price, more risk never buys fewer shares |
| TradePlan.SellPrice | Team/tradeplan.py:34-35 | the sell target is `buy·(1 + winRate)` and is at least the buy price when both are non-negative |
| TradePlan.BuildTradePlan | Team/tradeplan.py:46-63 | one row per company; row i copies company i's ticker and buy price, sizes its position from the shared risk allocation, prices it at the sell target and records `(sell - buy)·shares` as profit |
| TradePlan.RowProfit | Team/tradeplan.py:52-54 | a row's profit is `buy·winRate·shares`; it is 0 when the position is 0 and non-negative for a non-negative risk and win rate |
| TradePlan.BuildTradePlanAppend | Team/tradeplan.py:46-63 | planning two lists one after the other gives the two plans one after the other: rows are independent and keep input order |
| TradePlan.SumProfitsAppend | Team/tradeplan.py:210-212 | the total of two plans side by side is the sum of their totals |
| TradePlan.SumProfitsNonNegative | Team/tradeplan.py:210-212 | a plan with no losing row has a non-negative total |
| TradePlan.TotalPotentialProfit | Team/tradeplan.py:210-212 | accumulating the profits row by row gives the sum of the rows' profits |
| TradePlan.RowsProfitNonNegative | Team/tradeplan.py:46-63 | rows built with a non-negative risk allocation and win rate total to a non-negative profit |
| Planner.TruncateToInt | Team/tradeplan.py:156 | `int(...)` rounds toward zero: the result is never of the opposite sign to the input and differs from it by less than 1; it is positive exactly when the estimate is at least 1 |
| Planner.DeriveFigures | Team/tradeplan.py:150-166 | fails with `InvalidParameter` exactly when the solver guard rejects the truncated trade count, the risk per trade or the ratio; otherwise portfolio risk = balance·maxPct, risk per trade = that·tradePct > 0, the win rate breaks even on the bills, the projection is `1/tradePct` trades, `w/tradePct` of them winners, and the maximum loss is `portfolioRisk·(1 - w)` |
| Planner.ProjectionPerRiskShare | Team/tradeplan.py:161-166 | when each trade risks the share `pct` of the budget, the budget pays for `1/pct` trades with `w/pct` winners, and the maximum loss is `budget·(1 - w)` |
| Planner.RiskPerCompany | Team/tradeplan.py:170-178 | an empty list stops with `NoCompanies` before any division; otherwise the per-company risk times the number of companies is the portfolio risk |
| Planner.CalculatePlan | Team/tradeplan.py:150-239 | `InvalidParameter` exactly when the solver guard fails (even with an empty list, and whatever prices the list holds); `NoCompanies` exactly when the guard passes and the list is empty; otherwise one row per company in order, all sized from an even risk split, with a total equal to the sum of the row profits, the reward-tier table of the risk per trade and the feasibility verdict on the win rate |
| Planner.FeasibleLossIsBounded | Team/tradeplan.py:166 | with a positive per-trade share and a feasible win rate, the portfolio risk is positive and the maximum loss lies between 0 and it |
| Planner.FeasiblePlanIsSafe | Team/tradeplan.py:166-239 | a successful run with a feasible win rate and a positive per-trade share has a maximum loss between 0 and the portfolio risk and a non-negative total potential profit |
| Planner.DefaultParametersPlan | Team/tradeplan.py:93-115 | the form's starting values (35000, 3500, 50, 0.25, 0.02, 3) give a portfolio risk of 8750, 175 per trade, a required win rate of 0.35 (feasible), 50 projected trades and a maximum loss of 5687.5 |

## Left out

- `import_from_csv` (Team/tradeplan.py:37-44) and all of `Team/closingprice.py`: file I/O and a market-data fetch. The company list enters the model as a sequence.
- The window, the entry fields, the file picker, the text output, the message boxes and `main` (Team/tradeplan.py:80-136, 243-270). This is presentation and start-up. Only `DefaultParameters` keeps the form's starting values.
- Parsing the entries with `float(...)`: parameters enter as reals, so the `ValueError` a non-numeric entry raises is not modelled.
- `round(x, 2)` on each row's sell price and profit (Team/tradeplan.py:60-61). Rows carry exact values, so the modelled total is the sum of unrounded profits, not of rounded ones.
- IEEE-754 floating point: every amount is an exact real, so there is no overflow, infinity or NaN.
- The order of the reward tiers (Team/tradeplan.py:24-29, printed at line 194): `RiskModel.RewardTiers` is an unordered `map`, and the order matters only for display.
- `wins_per_trade` (Team/tradeplan.py:179): a display-only figure that feeds nothing else.
- The catch-all `except Exception` (Team/tradeplan.py:249-250). Its one reachable arithmetic cause is a zero buy price in `//`. `TradePlan.PositionSize` and `TradePlan.BuildTradePlan` require a non-zero price instead, and `Planner.CalculatePlan` requires one only of runs whose parameters pass the solver guard, since no price is divided before that.
