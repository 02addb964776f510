/**
  The records of model/types.py: hazard kinds, a cell's risk table and its
  in-place growth and shocks, the insurance policy and its premium, the claim
  record, and an insurer's ledger (InsuranceMetrics) with its settlement window.

  Money and probabilities are `real`: the model uses exact arithmetic where the
  source uses binary floating point.
*/
module Types {

  datatype Option<T> = None | Some(value: T)

  /** ClimateRiskType: the hazards that can hit a household. */
  datatype Hazard = Flood | Subsidence | Storm

  /** One entry of a risk dict: a hazard and the probability that it strikes in one step. */
  datatype RiskEntry = RiskEntry(kind: Hazard, probability: real)

  /**
    A `Dict[ClimateRiskType, float]`, as the list of its entries in iteration
    (insertion) order. Updating a value in place keeps the order.
  */
  type RiskTable = seq<RiskEntry>

  /** A dict holds each key once. */
  ghost predicate DistinctKinds(t: RiskTable) {
    forall i, j :: 0 <= i < j < |t| ==> t[i].kind != t[j].kind
  }

  /** The dict as a map from hazard to probability. */
  function AsMap(t: RiskTable): map<Hazard, real>
    decreases |t|
  {
    if t == [] then map[] else AsMap(t[1..])[t[0].kind := t[0].probability]
  }

  /** One entry with its probability multiplied by `factor`. */
  function ScaleEntry(e: RiskEntry, factor: real): RiskEntry {
    RiskEntry(e.kind, e.probability * factor)
  }

  /** Every probability of the table multiplied by `factor`, keys and order kept. */
  function Scaled(t: RiskTable, factor: real): (s: RiskTable)
    ensures |s| == |t|
    ensures forall i :: 0 <= i < |t| ==>
      s[i].kind == t[i].kind && s[i].probability == t[i].probability * factor
  {
    seq(|t|, i requires 0 <= i < |t| => ScaleEntry(t[i], factor))
  }

  /** Seen as a dict, scaling keeps the key set and multiplies the value under every key. */
  lemma {:induction false} ScaledAsMap(t: RiskTable, factor: real)
    ensures AsMap(Scaled(t, factor)).Keys == AsMap(t).Keys
    ensures forall k :: k in AsMap(t) ==> AsMap(Scaled(t, factor))[k] == AsMap(t)[k] * factor
    decreases |t|
  {
    if t != [] {
      ScaledAsMap(t[1..], factor);
      assert Scaled(t, factor)[1..] == Scaled(t[1..], factor);
    }
  }

  /** Two scalings in a row are one scaling by the product of the factors. */
  lemma {:induction false} ScaledTwice(t: RiskTable, a: real, b: real)
    ensures Scaled(Scaled(t, a), b) == Scaled(t, a * b)
    decreases |t|
  {
    if t != [] {
      ScaledTwice(t[1..], a, b);
      assert Scaled(t, a)[1..] == Scaled(t[1..], a);
      assert (t[0].probability * a) * b == t[0].probability * (a * b);
      assert ScaleEntry(ScaleEntry(t[0], a), b) == ScaleEntry(t[0], a * b);
    }
  }

  /** Scaling keeps the keys, so a dict stays a dict: each key still held once. */
  lemma ScaledKeepsKinds(t: RiskTable, factor: real)
    requires DistinctKinds(t)
    ensures DistinctKinds(Scaled(t, factor))
  {
  }

  /** Scaling by one changes nothing. */
  lemma ScaledByOne(t: RiskTable)
    ensures Scaled(t, 1.0) == t
  {
    assert forall i :: 0 <= i < |t| ==> Scaled(t, 1.0)[i] == t[i];
  }

  /**
    Growth then shock equals shock then growth: with growth = 1 + rate and
    shock = 1 + magnitude, both orders give old * growth * shock.
  */
  lemma GrowthAndShockCommute(t: RiskTable, growth: real, shock: real)
    ensures Scaled(Scaled(t, growth), shock) == Scaled(Scaled(t, shock), growth)
    ensures Scaled(Scaled(t, growth), shock) == Scaled(t, growth * shock)
  {
    ScaledTwice(t, growth, shock);
    ScaledTwice(t, shock, growth);
    assert growth * shock == shock * growth;
  }

  /**
    With a non-negative rate and non-negative probabilities no probability
    decreases; nothing caps a probability at 1.
  */
  lemma ScalingNeverDecreases(t: RiskTable, rate: real)
    requires rate >= 0.0
    requires forall i :: 0 <= i < |t| ==> t[i].probability >= 0.0
    ensures forall i :: 0 <= i < |t| ==> Scaled(t, 1.0 + rate)[i].probability >= t[i].probability
  {
    forall i | 0 <= i < |t| ensures Scaled(t, 1.0 + rate)[i].probability >= t[i].probability {
      var p := t[i].probability;
      assert p * (1.0 + rate) == p + p * rate;
      assert p * rate >= 0.0;
    }
  }

  /** ClimateRisks: the risk dict a grid cell owns, updated in place. */
  class ClimateRisks {
    var risks: RiskTable

    constructor (risks: RiskTable)
      ensures this.risks == risks
    {
      this.risks := risks;
    }

    /** update_risks: every probability becomes old * (1 + change_rate). */
    method UpdateRisks(changeRate: real)
      modifies this
      ensures risks == Scaled(old(risks), 1.0 + changeRate)
    {
      MultiplyAll(1.0 + changeRate);
    }

    /** apply_shock: every probability becomes old * (1 + magnitude). */
    method ApplyShock(magnitude: real)
      modifies this
      ensures risks == Scaled(old(risks), 1.0 + magnitude)
    {
      MultiplyAll(1.0 + magnitude);
    }

    /** The loop both update_risks and apply_shock run over the dict. */
    method MultiplyAll(factor: real)
      modifies this
      ensures risks == Scaled(old(risks), factor)
    {
      ghost var before := risks;
      for i := 0 to |risks|
        invariant |risks| == |before|
        invariant forall j :: 0 <= j < i ==>
          risks[j] == ScaleEntry(before[j], factor)
        invariant forall j :: i <= j < |risks| ==> risks[j] == before[j]
      {
        risks := risks[i := ScaleEntry(risks[i], factor)];
      }
      assert forall j :: 0 <= j < |risks| ==> risks[j] == Scaled(before, factor)[j];
    }
  }

  /** ClaimRecord: what a household keeps of each claim it filed. */
  datatype ClaimRecord = ClaimRecord(amount: real, riskType: Hazard, timestamp: int)

  /** InsurancePolicy: the terms fixed when the policy was issued. */
  datatype InsurancePolicy = InsurancePolicy(premiumRate: real, riskPremium: real, houseValue: real)
  {
    /** calculate_premium: a base premium plus a risk adjustment, both proportional to the house value. */
    function CalculatePremium(): (premium: real)
      ensures premium == houseValue * (premiumRate + riskPremium)
    {
      var basePremium := houseValue * premiumRate;
      var riskAdjustment := houseValue * riskPremium;
      basePremium + riskAdjustment
    }
  }

  /** The premium grows with the house value when both rates are non-negative. */
  lemma PremiumMonotoneInHouseValue(p: InsurancePolicy, q: InsurancePolicy)
    requires p.premiumRate == q.premiumRate && p.riskPremium == q.riskPremium
    requires p.premiumRate >= 0.0 && p.riskPremium >= 0.0
    requires p.houseValue <= q.houseValue
    ensures p.CalculatePremium() <= q.CalculatePremium()
  {
    var rate := p.premiumRate + p.riskPremium;
    assert q.houseValue * rate - p.houseValue * rate == (q.houseValue - p.houseValue) * rate;
  }

  /** A house worth 2,000,000 at rates 0.001 and 0.005 pays 2,000 + 10,000. */
  lemma PremiumExample()
    ensures InsurancePolicy(0.001, 0.005, 2000000.0).CalculatePremium() == 12000.0
  {
  }

  /** Python's `sum`: a left fold from zero. */
  function Sum(xs: seq<real>): real
    decreases |xs|
  {
    if xs == [] then 0.0 else Sum(xs[..|xs| - 1]) + xs[|xs| - 1]
  }

  /** np.mean of a non-empty list, and 0.0 for an empty one. */
  function Mean(vs: seq<real>): real {
    if vs == [] then 0.0 else Sum(vs) / (|vs| as real)
  }

  /** The value of an insurer's ledger (InsuranceMetrics) at one moment. */
  datatype Ledger = Ledger(capital: real, claimsPaid: real, premiumsCollected: real, profitHistory: seq<real>)

  /** A premium received: capital and the premiums-collected accumulator both grow by it. */
  function Collect(l: Ledger, premium: real): Ledger {
    l.(capital := l.capital + premium, premiumsCollected := l.premiumsCollected + premium)
  }

  /** A claim paid: capital shrinks and the claims-paid accumulator grows by it. */
  function Charge(l: Ledger, amount: real): Ledger {
    l.(capital := l.capital - amount, claimsPaid := l.claimsPaid + amount)
  }

  /** record_profit: close the settlement window. */
  function Settle(l: Ledger): Ledger {
    l.(profitHistory := l.profitHistory + [l.premiumsCollected - l.claimsPaid],
       claimsPaid := 0.0, premiumsCollected := 0.0)
  }

  /**
    The ledger accounts for every unit of capital: what the insurer started
    with, the profit of each closed window and the net of the open window.
  */
  ghost predicate Balanced(l: Ledger, initialCapital: real) {
    l.capital == initialCapital + Sum(l.profitHistory) + l.premiumsCollected - l.claimsPaid
  }

  /** Premiums, claims and settlement all keep the ledger balanced. */
  lemma LedgerStaysBalanced(l: Ledger, initialCapital: real, premium: real, amount: real)
    requires Balanced(l, initialCapital)
    ensures Balanced(Collect(l, premium), initialCapital)
    ensures Balanced(Charge(l, amount), initialCapital)
    ensures Balanced(Settle(l), initialCapital)
  {
    var h := Settle(l).profitHistory;
    assert h[..|h| - 1] == l.profitHistory;
  }

  /** Settlement records exactly the window's net and keeps every earlier profit. */
  lemma SettleRecordsWindow(l: Ledger, premium: real, amount: real)
    requires l.claimsPaid == 0.0 && l.premiumsCollected == 0.0
    ensures var s := Settle(Charge(Collect(l, premium), amount));
      && s.profitHistory == l.profitHistory + [premium - amount]
      && s.capital == l.capital + premium - amount
      && s.claimsPaid == 0.0 && s.premiumsCollected == 0.0
  {
  }

  /** InsuranceMetrics: an insurer's ledger, updated in place. */
  class InsuranceMetrics {
    var capital: real
    var claimsPaid: real
    var premiumsCollected: real
    var profitHistory: seq<real>

    function Snapshot(): Ledger
      reads this
    {
      Ledger(capital, claimsPaid, premiumsCollected, profitHistory)
    }

    constructor (capital: real)
      ensures Snapshot() == Ledger(capital, 0.0, 0.0, [])
    {
      this.capital := capital;
      claimsPaid := 0.0;
      premiumsCollected := 0.0;
      profitHistory := [];
    }

    /**
      record_profit: append premiums_collected - claims_paid to the history and
      reset both accumulators; capital is untouched.
    */
    method RecordProfit()
      modifies this
      ensures profitHistory == old(profitHistory) + [old(premiumsCollected) - old(claimsPaid)]
      ensures claimsPaid == 0.0 && premiumsCollected == 0.0 && capital == old(capital)
      ensures Snapshot() == Settle(old(Snapshot()))
    {
      var currentProfit := premiumsCollected - claimsPaid;
      profitHistory := profitHistory + [currentProfit];
      claimsPaid := 0.0;
      premiumsCollected := 0.0;
    }
  }

  /**
    ModelConfig (model/types.py:74-85). The boundary-file path, risk_volatility
    and max_risk_level are carried but never consulted by model/model.py or
    model/agents.py.
  */
  datatype ModelConfig = ModelConfig(
    nHouseholds: int,
    nInsurers: int,
    initialInsurerCapital: real,
    climateChangeRate: real,
    gridWidth: int,
    gridHeight: int,
    ukShapefilePath: string,
    baseRiskLevels: RiskTable,
    riskVolatility: real,
    maxRiskLevel: real)
}
