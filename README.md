# Climate-insurance agent simulation, modelled in Dafny

This project models the simulation engine of a climate-insurance agent-based
model. The model covers:

- grid cells whose per-hazard risk probabilities grow every step and can be
  shocked from outside;
- households that file claims against their insurer when a hazard strikes;
- insurers that collect premiums, retune their risk premium from recent
  profits and close a settlement window every step;
- the orchestrating model. It builds the grid, the insurers and the
  households, runs one scheduler round over a given activation order, applies
  climate shocks and computes the mean climate risk.

Three modules follow the three source files:

- `Types` (`types.dfy`) models `model/types.py`: the hazard kinds, the risk
  dict and its in-place growth and shock, the policy and its premium, the claim
  record, and the insurer's ledger with `record_profit`.
- `Agents` (`agents.dfy`) models `model/agents.py`: `GridCell`, `Household`
  and `Insurer` as classes whose methods update their fields in place.
- `Model` (`model.dfy`) models `model/model.py`: `ClimateInsuranceModel` as a
  class holding the grid, the scheduler's agent list, the insurer list and the
  step count.

Modelling choices:

- A Python dict of hazard probabilities is a sequence of entries in iteration
  order. Claims are filed in that order.
- The mesa `MultiGrid` is a map from position to the agents placed there, in
  placement order.
- The mesa `RandomActivation` scheduler is the list of agents in the order
  they were added. The shuffled order of one round is an input.
- Money and probabilities are `real`, so arithmetic is exact.
- Every random draw is a parameter:
  - the position, house value and insurer choice of each household
    (`HouseholdDraw`);
  - one uniform draw per hazard for each household activation (`Draws`).
- `randrange(n)` and `choice` over `n` items are `raw % n`, which lands in
  `[0, n)` for every raw draw and reaches every value.
- A household reads the first occupant of its position, as
  model/agents.py:53-55 does, and files nothing when that occupant is not a
  grid cell.
- Agents do not hold a back-reference to the model. The three values they read
  through it are parameters: the climate-change rate, the grid, and
  `schedule.steps`.

The invariant `ClimateInsuranceModel.Valid` holds from construction on. It
says:

- the scheduler holds each agent once;
- every grid position holds its own cell first, and households standing there
  after it;
- every household is in the insured set of exactly the insurer it stores;
- every ledger balances: capital equals the initial capital, plus the sum of
  the recorded profits, plus the open window's premiums minus its claims.

A second invariant, `ClimateInsuranceModel.KindsDistinct`, holds from
construction on as well: every cell's risk dict holds each hazard once, as a
Python dict does. `Step` and `ApplyClimateShock` keep it.

## Model

| member | source | states |
|---|---|---|
| `Types.Scaled` | model/types.py:20-28 | scaling a risk dict keeps its length, keys and order, and multiplies each probability by the factor |
| `Types.ScaledAsMap` | model/types.py:20-28 | seen as a dict, scaling keeps the key set and multiplies the value under every key by the factor |
| `Types.ClimateRisks.MultiplyAll` | model/types.py:22-23 | the in-place loop over the dict leaves it equal to the old dict scaled by the factor |
| `Types.ClimateRisks.UpdateRisks` | model/types.py:20-23 | `update_risks(rate)`: every probability becomes old × (1 + rate); keys and order are unchanged |
| `Types.ClimateRisks.ApplyShock` | model/types.py:25-28 | `apply_shock(m)`: every probability becomes old × (1 + m); keys and order are unchanged |
| `Types.ScaledKeepsKinds` | model/types.py:20-28 | scaling keeps a dict's keys in order, so a dict holding each hazard once still does |
| `Types.ScaledTwice` | model/types.py:20-28 | two scalings in a row are one scaling by the product of the factors |
| `Types.GrowthAndShockCommute` | model/types.py:20-28 | growth then shock equals shock then growth; both give old × (1 + r)(1 + m) |
| `Types.ScalingNeverDecreases` | model/types.py:20-28 | with a non-negative rate and non-negative probabilities, no probability decreases; nothing caps a probability at 1 |
| `Types.InsurancePolicy.CalculatePremium` | model/types.py:48-52 | the premium is house_value × (premium_rate + risk_premium) |
| `Types.PremiumExample` | model/types.py:48-52 | a house worth 2,000,000 at rates 0.001 and 0.005 pays 12,000 |
| `Types.PremiumMonotoneInHouseValue` | model/types.py:48-52 | with non-negative rates, a dearer house never pays a smaller premium |
| `Types.InsuranceMetrics.constructor` | model/types.py:55-62 | a new ledger holds the given capital, zero accumulators and no profit history |
| `Types.InsuranceMetrics.RecordProfit` | model/types.py:64-69 | appends exactly premiums_collected − claims_paid, keeps earlier profits, resets both accumulators to 0 and leaves capital unchanged |
| `Types.SettleRecordsWindow` | model/types.py:64-69 | from an empty window, collecting p, paying a and settling appends p − a, moves capital by p − a and ends with both accumulators at 0 |
| `Types.LedgerStaysBalanced` | model/types.py:64-69 | collecting a premium, paying a claim and settling each keep capital = initial capital + recorded profits + open premiums − open claims |
| `Agents.TriggeredHazards` | model/agents.py:57-60 | the hazards one activation claims, in dict iteration order; at most one per dict entry |
| `Agents.TriggeredHazardsExactly` | model/agents.py:57-60 | a hazard is claimed if and only if its draw is below the probability of its entry |
| `Agents.TriggeredOncePerHazard` | model/agents.py:57-60 | with one entry per hazard, no hazard is claimed twice in one activation |
| `Agents.ClaimsTotalIsProduct` | model/agents.py:57-60 | the insurer pays the number of claims times the claim amount |
| `Agents.ClaimAmountIgnoresHazard` | model/agents.py:62-64 | the claim amount is a tenth of the house value for every hazard, 200,000 for a house worth 2,000,000 |
| `Agents.GridCell.constructor` | model/agents.py:15-24 | a new cell holds exactly the given risk dict and position |
| `Agents.GridCell.Step` | model/agents.py:26-28 | the cell's risks are scaled by 1 + climate_change_rate, and only its risk dict may change |
| `Agents.Household.constructor` | model/agents.py:34-46 | a new household has the given position and house value, no insurer, no policy and no claims |
| `Agents.Household.CalculateClaimAmount` | model/agents.py:62-64 | the amount times 10 is the house value, whatever the hazard; for a non-negative house value it lies in [0, house value] |
| `Agents.Household.Step` | model/agents.py:48-60 | the claims history grows by exactly the claims of `Filing`, each for a tenth of the house value and stamped with the step count: none when uninsured or when the first occupant of its position is not a grid cell, otherwise one per hazard whose draw falls below its probability, in iteration order; the insurer's ledger is charged their total |
| `Agents.Household.FileTriggeredClaims` | model/agents.py:57-60 | the loop over the cell's dict appends one record per triggered hazard and charges their total to the insurer |
| `Agents.Household.FileClaim` | model/agents.py:66-76 | with an insurer: its capital falls and its claims paid rise by the amount, and one record stamped with the step count is appended; without an insurer nothing is recorded |
| `Agents.RecentProfits` | model/agents.py:107-111 | the window is the last five profits, or the whole history when it is shorter |
| `Agents.OnlyLastFiveProfitsCount` | model/agents.py:105-116 | profits older than the last five never change the risk-premium decision |
| `Agents.RiskPremiumKeepsSign` | model/agents.py:113-116 | any sequence of updates keeps a positive risk premium positive (and a negative one negative, a zero one zero) |
| `Agents.Insurer.constructor` | model/agents.py:82-89 | a new insurer has the initial capital, base rate 0.001, risk premium 0.005 and no insured households |
| `Agents.Insurer.CollectPremiums` | model/agents.py:97-103 | capital and premiums collected both grow by the sum of the premiums of the insured households' own policies; a household without a policy pays nothing |
| `Agents.Insurer.UpdateRiskPremium` | model/agents.py:105-116 | risk premium ×1.1 when the last ≤5 profits sum below 0, ×0.95 otherwise, the empty history included |
| `Agents.Insurer.ReceiveClaim` | model/agents.py:118-121 | capital falls and claims paid rise by the amount, with no lower bound on capital |
| `Agents.Insurer.Step` | model/agents.py:91-95 | profit history grows by exactly one and keeps earlier entries; both accumulators end at 0; capital ends at old capital + this step's premiums; risk premium retuned on the history before the step |
| `Model.RandBelow` | model/model.py:74-79 | a draw for `randrange(n)` or `choice` lies in [0, n) |
| `Model.RandomValidPosition` | model/model.py:74-79 | a generated position lies in [0, width) × [0, height) |
| `Model.EveryPositionReachable` | model/model.py:74-79 | every position of the grid can be generated |
| `Model.CellOrderCoversGrid` | model/model.py:29-30 | the nested loops visit width × height positions, exactly the grid, each once |
| `Model.Place` | model/model.py:39 | placing an agent appends it to the occupants of its position and changes no other position |
| `Model.FirstCell` | model/model.py:97-99 | the first grid cell among a position's occupants, or none when there is no grid cell there |
| `Model.ClimateInsuranceModel.constructor` | model/model.py:12-25 | the grid is exactly the width × height positions; the scheduler holds the cells in visiting order, then the insurers in id order, then the households built from their draws; the model invariant holds; given base risk levels with distinct keys, every cell's dict holds each hazard once |
| `Model.ClimateInsuranceModel.InitialKinds` | model/model.py:29-38 | every cell that __init__ creates holds a copy of the base risk dict, so it holds each hazard once |
| `Model.ClimateInsuranceModel.CreateGridCells` | model/model.py:27-40 | one cell at every (x, y) of the grid, alone there, each with its own copy of the base risk levels |
| `Model.ClimateInsuranceModel.OneCellPerPosition` | model/model.py:27-40 | two scheduled cells at the same position are the same cell |
| `Model.ClimateInsuranceModel.CreateInsurers` | model/model.py:42-51 | insurers 0 … n_insurers − 1 are listed and scheduled, each with the initial capital and no insured households |
| `Model.ClimateInsuranceModel.Enlist` | model/model.py:59-69 | the household gets the drawn position and house value; it is added to its insurer's insured set; its policy snapshots that insurer's base rate and risk premium |
| `Model.ClimateInsuranceModel.CreateHouseholds` | model/model.py:53-72 | every household is built from its draws, placed on the grid and scheduled, and is in the insured set of exactly the insurer it stores |
| `Model.ClimateInsuranceModel.CalculateMeanClimateRisk` | model/model.py:81-89 | the mean of every value of every scheduled cell's risk dict, or 0.0 when there are none |
| `Model.MeanBounds` | model/model.py:81-89 | the mean of values in [lo, hi] lies in [lo, hi] |
| `Model.MeanOfScaledTables` | model/model.py:81-89 | scaling every cell's risks by one factor scales the mean risk by it |
| `Model.ClimateInsuranceModel.ShockPosition` | model/model.py:93-100 | the cell at the position, if any, has its risks scaled by 1 + magnitude; every other cell is untouched; no cell is not an error |
| `Model.ClimateInsuranceModel.ApplyClimateShock` | model/model.py:91-102 | each cell's risks are scaled by (1 + magnitude) once per occurrence of its position in the list; unlisted cells and positions without a cell are unchanged; duration is ignored; every cell's dict still holds each hazard once |
| `Model.ClimateInsuranceModel.ActivateCell` | model/agents.py:26-28 | the cell's risks grow by 1 + climate_change_rate; no other cell and no household changes; every insurer's ledger is `Charged` 0, i.e. left as it was |
| `Model.ClimateInsuranceModel.ActivateHousehold` | model/agents.py:48-76 | the household's claims grow by exactly the claims of `Filing`, stamped with the step count; its own insurer's ledger is charged their total (`PaidOut`: capital falls and claims paid rise); every insurer's whole ledger is `Charged` exactly `ClaimCharge`, which is that total for its own insurer and 0 for every other; every other household's claims are unchanged |
| `Model.ClimateInsuranceModel.ActivateInsurer` | model/agents.py:91-103 | the insurer's ledger becomes `Settle(Collect(old ledger, premiums of its households))` (`Settled`): exactly one window closed, capital up by the premiums; it retunes its risk premium on the history before the step; every other insurer's ledger is `Charged` 0, i.e. left as it was; no cell and no household changes |
| `Model.ClimateInsuranceModel.Activate` | model/model.py:107 | one activation is that agent's own step, with its callee's effects passed on in full: a cell grows; an insurer's ledger is `Settled` on its households' premiums and its risk premium retuned; a household appends exactly its filed claims and its insurer's ledger is charged their total (`PaidOut`); every insurer other than the agent keeps its profit history and risk premium and has its whole ledger `Charged` exactly `ClaimCharge(agent, filed, i)` (capital down and claims paid up by that amount, premiums collected unchanged), which is 0 unless the agent is a household it insures; every other cell and household is unchanged |
| `Model.ClimateInsuranceModel.ActivateInRound` | model/model.py:107 | activating the k-th agent of the order, not activated before, takes the round from k agents done to k + 1 done |
| `Model.ClimateInsuranceModel.ActivateAll` | model/model.py:107 | every agent of the order is activated exactly once, in that order: every cell has grown once, every insurer settled once, its ledger equal to `RoundLedger`, one `LedgerTurn` per activation (charged by each household it insures, settled on its own turn), with capital = start capital + its premiums − the claims the round charged to it; each household holds exactly the claims of its own turn |
| `Model.ClimateInsuranceModel.RoundComplete` | model/model.py:107 | a round with every scheduled agent done ends in the state `RunRound` promises, each insurer's ledger included |
| `Model.ClimateInsuranceModel.RunRound` | model/model.py:107 | schedule.step over `order`: the household activated k-th appends exactly the claims `ClaimsFiled(order, draws, k)` (its cell's hazards, as already grown when the cell came earlier, whose draw in draws[k] falls below the probability), stamped with the step count; every cell grows once; every insurer settles one window and ends with old capital + `PremiumSum` of its households − `ClaimsCharged`, whatever the order, and with the whole ledger `FinalLedger(order, draws, i)`, which `FinalLedgerAtTurn` puts in closed form; households keep insurer and policy; every dict still holds each hazard once |
| `Model.ClimateInsuranceModel.LedgerBeforeTurn` | model/agents.py:118-121 | until its own turn in a round, an insurer's ledger is its start ledger `Charge`d with exactly the claims the round has charged to it so far |
| `Model.ClimateInsuranceModel.LedgerAfterTurn` | model/agents.py:91-103 | after its own turn j, an insurer's ledger is `RoundEndLedger`: capital = start + premiums − every claim charged so far; premiums collected 0; claims paid = the claims charged since its turn; one profit appended, equal to the start window's premiums + this step's premiums − (start window's claims + the claims charged before its turn) |
| `Model.ClimateInsuranceModel.FinalCapital` | model/model.py:107 | an insurer activated once in a round ends it with start capital + its premiums − all the claims the round charged to it, wherever its turn falls |
| `Model.ClimateInsuranceModel.FinalLedgerAtTurn` | model/model.py:107 | the ledger a round leaves the insurer activated j-th with is `EndLedger(order, draws, j)`: the window it closes holds the claims charged before its turn, the window it leaves open those charged after it |
| `Model.ClimateInsuranceModel.Tick` | model/model.py:107 | the step count advances by one after the round; the invariant is kept |
| `Model.ClimateInsuranceModel.Step` | model/model.py:104-107 | the effects of `RunRound` with the claims stamped with the old step count, then the step count + 1: each insurer's ledger ends as `FinalLedger(order, draws, i)`, each cell grown once, each household holding exactly its turn's claims; every cell's dict still holds each hazard once |
| `Model.ClimateInsuranceModel.ClaimsFiledOncePerHazard` | model/agents.py:57-60 | with every cell's dict holding each hazard once, no activation of a round files two claims for the same hazard |
| `Model.EndToEndRound` | model/agents.py:91-95 | one insurer with capital 100,000, one household worth 1,000,000 and a flood claim: the claim is 100,000 and the premium 6,000; the two `LedgerTurn`s of a round, in either order, give the `RoundEndLedger` of the round contract: household first ends at capital 6,000, claims paid 0 and profit −94,000; insurer first ends at capital 6,000, claims paid 100,000 still open and profit 6,000 |

## Left out

- Data collection (`mesa.DataCollector`, the reporter lambdas of `model/utils.py`), the `print` in `apply_climate_shock`, and the command-line driver `run.py`: I/O and tracing.
- `load_uk_boundaries` and the `uk_boundaries` field: geographic file I/O. The data is loaded but never consulted. `model/utils.py` is not part of this model.
- The distributions of `normalvariate`, `randrange`, `choice`, `random()` and of the scheduler's shuffle: every draw and the activation order are inputs.
- Floating-point rounding: money and probabilities are exact reals.
- The torus wrapping and index errors of mesa's `MultiGrid`: every position the model places lies on the grid, and a position outside the grid simply has no occupants.
- `risk_volatility` and `max_risk_level` are carried in `ModelConfig` but never consulted by model/model.py or model/agents.py.
- `Model.ClimateInsuranceModel.constructor`: with households to create but no insurer or an empty grid, `_create_households` raises (`choice` of an empty list at model/model.py:61, `randrange(0)` at model/model.py:77). The model makes this a precondition instead of modelling the exception.
- `Agents.Household.Step`: an insured household whose position has no occupant raises `IndexError` at model/agents.py:53. The model makes this a precondition. The model invariant guarantees it for every scheduled household.
- `Agents.Household.Step`: model/agents.py:58 draws a fresh number per dict entry; the model takes one draw per hazard. The constructor requires, and `ApplyClimateShock` and `Step` keep, one entry per hazard in every cell's dict (`KindsDistinct`), so the two are the same.
- `Model.ClimateInsuranceModel.Step`: it does not state that the mean climate risk grows by 1 + climate_change_rate. `Model.MeanOfScaledTables` proves that on the risk dicts themselves.
- `Model.ClimateInsuranceModel.constructor`: requires the base risk levels to hold each hazard once. A Python dict cannot hold a key twice; a sequence of entries can, so the model states it.
