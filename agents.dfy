/**
  The three agent kinds of model/agents.py: a grid cell that grows its risks,
  a household that files claims against its insurer, and an insurer that
  collects premiums, retunes its risk premium and closes its settlement window.

  An agent reaches the model only for three values: the climate-change rate,
  the grid and the scheduler's step count. They are passed in as parameters.
  Random draws are parameters too: one uniform draw per hazard for each
  household activation.
*/
module Agents {
  import opened Types

  /** A grid coordinate (x, y). */
  type Pos = (int, int)

  /** The closed set of agent kinds the scheduler activates. */
  datatype Agent =
    | CellAgent(cell: GridCell)
    | HouseholdAgent(household: Household)
    | InsurerAgent(insurer: Insurer)

  /** The multi-occupancy grid: the agents at each position, in placement order. */
  type Grid = map<Pos, seq<Agent>>

  /** get_cell_list_contents for one position: a position never placed on is empty. */
  function Occupants(grid: Grid, pos: Pos): seq<Agent> {
    if pos in grid then grid[pos] else []
  }

  /** The uniform draws in [0, 1) a household makes in one activation, one per hazard. */
  datatype Draws = Draws(flood: real, subsidence: real, storm: real) {
    /** The draw made for `kind`. */
    function For(kind: Hazard): real {
      match kind
      case Flood => flood
      case Subsidence => subsidence
      case Storm => storm
    }
  }

  /**
    The hazards for which one activation files a claim: those whose draw falls
    below their probability, in the table's iteration order.
  */
  function TriggeredHazards(risks: RiskTable, draw: Draws): (filed: seq<Hazard>)
    ensures |filed| <= |risks|
    decreases |risks|
  {
    if risks == [] then []
    else
      var last := risks[|risks| - 1];
      TriggeredHazards(risks[..|risks| - 1], draw)
        + (if draw.For(last.kind) < last.probability then [last.kind] else [])
  }

  /** A hazard is claimed exactly when some entry for it has a draw below its probability. */
  lemma {:induction false} TriggeredHazardsExactly(risks: RiskTable, draw: Draws)
    ensures forall k :: k in TriggeredHazards(risks, draw) <==>
      exists i :: 0 <= i < |risks| && risks[i].kind == k && draw.For(k) < risks[i].probability
    decreases |risks|
  {
    if risks != [] {
      var front := risks[..|risks| - 1];
      TriggeredHazardsExactly(front, draw);
      forall k | k in TriggeredHazards(risks, draw)
        ensures exists i :: 0 <= i < |risks| && risks[i].kind == k && draw.For(k) < risks[i].probability
      {
        if k in TriggeredHazards(front, draw) {
          var i :| 0 <= i < |front| && front[i].kind == k && draw.For(k) < front[i].probability;
          assert risks[i] == front[i];
        } else {
          assert risks[|risks| - 1].kind == k;
        }
      }
      forall k, i | 0 <= i < |risks| && risks[i].kind == k && draw.For(k) < risks[i].probability
        ensures k in TriggeredHazards(risks, draw)
      {
        if i < |front| {
          assert front[i] == risks[i];
        }
      }
    }
  }

  ghost predicate NoRepeats(kinds: seq<Hazard>) {
    forall a, b :: 0 <= a < b < |kinds| ==> kinds[a] != kinds[b]
  }

  /** With one entry per hazard, no hazard is claimed twice in one activation. */
  lemma {:induction false} TriggeredOncePerHazard(risks: RiskTable, draw: Draws)
    requires DistinctKinds(risks)
    ensures NoRepeats(TriggeredHazards(risks, draw))
    decreases |risks|
  {
    if risks != [] {
      var front := risks[..|risks| - 1];
      var last := risks[|risks| - 1];
      var earlier := TriggeredHazards(front, draw);
      var filed := TriggeredHazards(risks, draw);
      TriggeredOncePerHazard(front, draw);
      if draw.For(last.kind) < last.probability {
        assert filed == earlier + [last.kind];
        if last.kind in earlier {
          TriggeredHazardsExactly(front, draw);
          assert false;
        }
        forall a, b | 0 <= a < b < |filed| ensures filed[a] != filed[b] {
          assert filed[a] == earlier[a];
          if b == |earlier| {
            assert filed[a] in earlier;
          } else {
            assert filed[b] == earlier[b];
          }
        }
      } else {
        assert filed == earlier;
      }
    }
  }

  /** The records `_file_claim` appends for the given hazards. */
  function ClaimRecords(kinds: seq<Hazard>, amount: real, timestamp: int): seq<ClaimRecord> {
    seq(|kinds|, j requires 0 <= j < |kinds| => ClaimRecord(amount, kinds[j], timestamp))
  }

  /** What the insurer pays for the given claims, one `amount` each, added up claim by claim. */
  function ClaimsTotal(kinds: seq<Hazard>, amount: real): real
    decreases |kinds|
  {
    if kinds == [] then 0.0 else ClaimsTotal(kinds[..|kinds| - 1], amount) + amount
  }

  /** Claim by claim, the total is the number of claims times the amount. */
  lemma {:induction false} ClaimsTotalIsProduct(kinds: seq<Hazard>, amount: real)
    ensures ClaimsTotal(kinds, amount) == |kinds| as real * amount
    decreases |kinds|
  {
    if kinds != [] {
      var n := |kinds| - 1;
      ClaimsTotalIsProduct(kinds[..n], amount);
      assert (n + 1) as real * amount == n as real * amount + amount;
    }
  }

  /** GridCell: a position and the risk dict it owns. */
  class GridCell {
    const climateRisks: ClimateRisks
    const pos: Pos

    constructor (climateRisks: ClimateRisks, pos: Pos)
      ensures this.climateRisks == climateRisks && this.pos == pos
    {
      this.climateRisks := climateRisks;
      this.pos := pos;
    }

    /** step: grow every risk by the configured climate-change rate; nothing else changes. */
    method Step(climateChangeRate: real)
      modifies climateRisks
      ensures climateRisks.risks == Scaled(old(climateRisks.risks), 1.0 + climateChangeRate)
    {
      climateRisks.UpdateRisks(climateChangeRate);
    }
  }

  /**
    The claims history of `household` grew by exactly one claim of a tenth
    of its house value per hazard in `filed`, in that order, each stamped
    with `stamp`.
  */
  twostate predicate Claimed(household: Household, filed: seq<Hazard>, stamp: int)
    reads household
  {
    household.claimsHistory == old(household.claimsHistory) + ClaimRecords(filed, household.houseValue * 0.1, stamp)
  }

  /** Household: a fixed position and house value, an optional insurer and policy, and its claims. */
  class Household {
    const uniqueId: int
    const pos: Pos
    const houseValue: real
    var insurer: Insurer?
    var claimsHistory: seq<ClaimRecord>
    var policy: Option<InsurancePolicy>

    constructor (uniqueId: int, pos: Pos, houseValue: real)
      ensures this.uniqueId == uniqueId && this.pos == pos && this.houseValue == houseValue
      ensures insurer == null && claimsHistory == [] && policy == None
    {
      this.uniqueId := uniqueId;
      this.pos := pos;
      this.houseValue := houseValue;
      insurer := null;
      claimsHistory := [];
      policy := None;
    }

    /** A household without an insurer or without a policy never files a claim. */
    predicate Insured()
      reads this`insurer, this`policy
    {
      insurer != null && policy.Some?
    }

    /** _calculate_claim_amount: a tenth of the house value, whatever the hazard. */
    function CalculateClaimAmount(riskType: Hazard): (amount: real)
      ensures amount * 10.0 == houseValue
      ensures houseValue >= 0.0 ==> 0.0 <= amount <= houseValue
    {
      houseValue * 0.1
    }

    /**
      The hazards `step` files claims for on `grid` under `draw`: none when
      uninsured or when the first occupant of its position is not a grid
      cell; otherwise each hazard of that cell whose draw falls below its
      probability.
    */
    function Filing(grid: Grid, draw: Draws): seq<Hazard>
      reads this`insurer, this`policy
      reads if Occupants(grid, pos) != [] && Occupants(grid, pos)[0].CellAgent?
            then {Occupants(grid, pos)[0].cell.climateRisks} else {}
    {
      var contents := Occupants(grid, pos);
      if !Insured() || contents == [] || !contents[0].CellAgent? then []
      else TriggeredHazards(contents[0].cell.climateRisks.risks, draw)
    }

    /**
      step: files one claim, stamped with `steps`, for each hazard of Filing
      and charges the insurer their total; any other case changes nothing.
      model/agents.py:53 indexes the position's first occupant, so an insured
      household needs an occupied position.
    */
    method Step(grid: Grid, steps: int, draw: Draws)
      requires !Insured() || |Occupants(grid, pos)| > 0
      modifies this`claimsHistory, if insurer != null then {insurer.metrics} else {}
      ensures Claimed(this, old(Filing(grid, draw)), steps)
      ensures insurer != null ==>
        insurer.metrics.Snapshot()
        == Charge(old(insurer.metrics.Snapshot()), ClaimsTotal(old(Filing(grid, draw)), houseValue * 0.1))
    {
      if insurer == null || policy.None? {
        return;
      }
      var gridCell := Occupants(grid, pos)[0];
      if !gridCell.CellAgent? {
        return;
      }
      FileTriggeredClaims(gridCell.cell.climateRisks.risks, steps, draw);
    }

    /**
      The loop of `step` over the cell's risk dict: one claim of a tenth of the
      house value for each hazard whose draw falls below its probability.
    */
    method FileTriggeredClaims(risks: RiskTable, steps: int, draw: Draws)
      requires insurer != null
      modifies this`claimsHistory, insurer.metrics
      ensures claimsHistory
              == old(claimsHistory) + ClaimRecords(TriggeredHazards(risks, draw), houseValue * 0.1, steps)
      ensures insurer.metrics.Snapshot()
              == Charge(old(insurer.metrics.Snapshot()), ClaimsTotal(TriggeredHazards(risks, draw), houseValue * 0.1))
    {
      var amount := houseValue * 0.1;
      ghost var history := claimsHistory;
      ghost var ledger := insurer.metrics.Snapshot();
      ghost var filed: seq<Hazard> := [];
      assert risks[..0] == [];
      for i := 0 to |risks|
        invariant filed == TriggeredHazards(risks[..i], draw)
        invariant claimsHistory == history + ClaimRecords(filed, amount, steps)
        invariant insurer.metrics.Snapshot() == Charge(ledger, ClaimsTotal(filed, amount))
      {
        assert risks[..i + 1][..i] == risks[..i];
        var riskType, probability := risks[i].kind, risks[i].probability;
        if draw.For(riskType) < probability {
          var claimAmount := CalculateClaimAmount(riskType);
          FileClaim(claimAmount, riskType, steps);
          assert ClaimRecords(filed + [riskType], amount, steps)
                 == ClaimRecords(filed, amount, steps) + [ClaimRecord(amount, riskType, steps)];
          assert (filed + [riskType])[..|filed|] == filed;
          filed := filed + [riskType];
        }
      }
      assert risks[..|risks|] == risks;
    }

    /** _file_claim: charge the insurer and record the claim with the current step count. */
    method FileClaim(amount: real, riskType: Hazard, steps: int)
      modifies this`claimsHistory, if insurer != null then {insurer.metrics} else {}
      ensures insurer == null ==> claimsHistory == old(claimsHistory)
      ensures insurer != null ==>
        && claimsHistory == old(claimsHistory) + [ClaimRecord(amount, riskType, steps)]
        && insurer.metrics.Snapshot() == Charge(old(insurer.metrics.Snapshot()), amount)
    {
      if insurer != null {
        insurer.ReceiveClaim(this, amount);
        claimsHistory := claimsHistory + [ClaimRecord(amount, riskType, steps)];
      }
    }
  }

  /**
    The amount of a claim depends on the house value alone: every hazard
    gives the same tenth of it, 200,000 for a house worth 2,000,000.
  */
  lemma ClaimAmountIgnoresHazard(household: Household, a: Hazard, b: Hazard)
    ensures household.CalculateClaimAmount(a) == household.CalculateClaimAmount(b)
    ensures household.CalculateClaimAmount(a) * 10.0 == household.houseValue
    ensures household.houseValue == 2000000.0 ==> household.CalculateClaimAmount(a) == 200000.0
  {
  }

  /** The premium one household pays: its own policy's, or nothing without a policy. */
  function Premium(household: Household): real
    reads household`policy
  {
    match household.policy
    case Some(policy) => policy.CalculatePremium()
    case None => 0.0
  }

  /** The premiums of a set of households, summed in any order. */
  ghost function PremiumSum(households: set<Household>): real
    reads households`policy
    decreases households
  {
    if households == {} then 0.0
    else
      var h :| h in households;
      Premium(h) + PremiumSum(households - {h})
  }

  /** The sum depends on the households' policies alone. */
  twostate lemma PremiumSumKept(households: set<Household>)
    requires forall h :: h in households ==> h.policy == old(h.policy)
    ensures PremiumSum(households) == old(PremiumSum(households))
  {
  }

  /** Any household can be taken out of the sum first. */
  lemma {:induction false} PremiumSumRemove(households: set<Household>, h: Household)
    requires h in households
    ensures PremiumSum(households) == Premium(h) + PremiumSum(households - {h})
    decreases households
  {
    var g :| g in households && PremiumSum(households) == Premium(g) + PremiumSum(households - {g});
    if g != h {
      PremiumSumRemove(households - {g}, h);
      PremiumSumRemove(households - {h}, g);
      assert households - {g} - {h} == households - {h} - {g};
    }
  }

  /** The trailing window `_update_risk_premium` looks at: the last five profits, or all if fewer. */
  function RecentProfits(history: seq<real>): (recent: seq<real>)
    ensures |recent| == if |history| > 5 then 5 else |history|
    ensures recent == history[|history| - |recent|..]
  {
    if |history| > 5 then history[|history| - 5..] else history
  }

  /** The multiplier `_update_risk_premium` applies: 1.1 after a net loss in the window, else 0.95. */
  function RiskPremiumFactor(history: seq<real>): real {
    if Sum(RecentProfits(history)) < 0.0 then 1.1 else 0.95
  }

  /** Only the last five profits matter: older history never changes the decision. */
  lemma OnlyLastFiveProfitsCount(older: seq<real>, recent: seq<real>)
    requires |recent| >= 5
    ensures RiskPremiumFactor(older + recent) == RiskPremiumFactor(recent)
  {
    var all := older + recent;
    assert all[|all| - 5..] == recent[|recent| - 5..];
  }

  /** The risk premium after one update per profit history in `histories`, in order. */
  function RiskPremiumAfter(riskPremium: real, histories: seq<seq<real>>): real
    decreases |histories|
  {
    if histories == [] then riskPremium
    else RiskPremiumAfter(riskPremium * RiskPremiumFactor(histories[0]), histories[1..])
  }

  /** No sequence of updates changes the sign of the risk premium: a positive premium stays positive. */
  lemma {:induction false} RiskPremiumKeepsSign(riskPremium: real, histories: seq<seq<real>>)
    ensures riskPremium > 0.0 ==> RiskPremiumAfter(riskPremium, histories) > 0.0
    ensures riskPremium < 0.0 ==> RiskPremiumAfter(riskPremium, histories) < 0.0
    ensures riskPremium == 0.0 ==> RiskPremiumAfter(riskPremium, histories) == 0.0
    decreases |histories|
  {
    if histories != [] {
      var factor := RiskPremiumFactor(histories[0]);
      assert factor > 0.0;
      assert riskPremium > 0.0 ==> riskPremium * factor > 0.0;
      assert riskPremium < 0.0 ==> riskPremium * factor < 0.0;
      RiskPremiumKeepsSign(riskPremium * factor, histories[1..]);
    }
  }

  /** Insurer: a ledger, its pricing rates and the households it insures. */
  class Insurer {
    const uniqueId: int
    const metrics: InsuranceMetrics
    var basePremiumRate: real
    var riskPremium: real
    var insuredHouseholds: set<Household>

    constructor (uniqueId: int, initialCapital: real)
      ensures this.uniqueId == uniqueId && fresh(metrics)
      ensures metrics.Snapshot() == Ledger(initialCapital, 0.0, 0.0, [])
      ensures basePremiumRate == 0.001 && riskPremium == 0.005 && insuredHouseholds == {}
    {
      this.uniqueId := uniqueId;
      metrics := new InsuranceMetrics(initialCapital);
      basePremiumRate := 0.001;
      riskPremium := 0.005;
      insuredHouseholds := {};
    }

    /**
      step: collect premiums, retune the risk premium on the history so far,
      then close the window. The history grows by one, both accumulators end
      at zero and capital ends at its old value plus this step's premiums.
    */
    method Step()
      modifies this`riskPremium, metrics
      ensures metrics.Snapshot() == Settle(Collect(old(metrics.Snapshot()), PremiumSum(insuredHouseholds)))
      ensures riskPremium == old(riskPremium) * RiskPremiumFactor(old(metrics.profitHistory))
      ensures |metrics.profitHistory| == |old(metrics.profitHistory)| + 1
      ensures metrics.profitHistory[..|old(metrics.profitHistory)|] == old(metrics.profitHistory)
      ensures metrics.claimsPaid == 0.0 && metrics.premiumsCollected == 0.0
      ensures metrics.capital == old(metrics.capital) + PremiumSum(insuredHouseholds)
    {
      CollectPremiums();
      UpdateRiskPremium();
      metrics.RecordProfit();
    }

    /**
      _collect_premiums: every insured household that holds a policy pays the
      premium of its own policy, at the rates fixed when it was issued; the
      sum goes to capital and to premiums collected.
    */
    method CollectPremiums()
      modifies metrics
      ensures metrics.Snapshot() == Collect(old(metrics.Snapshot()), PremiumSum(insuredHouseholds))
    {
      var remaining := insuredHouseholds;
      while remaining != {}
        invariant remaining <= insuredHouseholds
        invariant metrics.Snapshot()
                  == Collect(old(metrics.Snapshot()), PremiumSum(insuredHouseholds) - PremiumSum(remaining))
        decreases remaining
      {
        var household :| household in remaining;
        if household.policy.Some? {
          var premium := household.policy.value.CalculatePremium();
          metrics.capital := metrics.capital + premium;
          metrics.premiumsCollected := metrics.premiumsCollected + premium;
        }
        PremiumSumRemove(remaining, household);
        remaining := remaining - {household};
      }
    }

    /**
      _update_risk_premium: ×1.1 when the last (up to five) profits sum to a
      loss, ×0.95 otherwise, an empty history included.
    */
    method UpdateRiskPremium()
      modifies this`riskPremium
      ensures riskPremium == old(riskPremium) * RiskPremiumFactor(metrics.profitHistory)
      ensures Sum(RecentProfits(metrics.profitHistory)) < 0.0 ==> riskPremium == old(riskPremium) * 1.1
      ensures Sum(RecentProfits(metrics.profitHistory)) >= 0.0 ==> riskPremium == old(riskPremium) * 0.95
    {
      var history := metrics.profitHistory;
      var recentProfits := if |history| > 5 then history[|history| - 5..] else history;
      if Sum(recentProfits) < 0.0 {
        riskPremium := riskPremium * 1.1;
      } else {
        riskPremium := riskPremium * 0.95;
      }
    }

    /** receive_claim: capital drops and claims paid grows by the amount; capital may go negative. */
    method ReceiveClaim(household: Household, amount: real)
      modifies metrics
      ensures metrics.capital == old(metrics.capital) - amount
      ensures metrics.claimsPaid == old(metrics.claimsPaid) + amount
      ensures metrics.Snapshot() == Charge(old(metrics.Snapshot()), amount)
    {
      metrics.capital := metrics.capital - amount;
      metrics.claimsPaid := metrics.claimsPaid + amount;
    }
  }
}
