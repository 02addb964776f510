/**
  ClimateInsuranceModel of model/model.py: the grid of cells, the insurers and
  the households, the scheduler round, climate shocks and the mean-risk query.

  The mesa MultiGrid is a map from position to the agents placed there, in
  placement order; the RandomActivation scheduler is the sequence of agents in
  the order they were added, and the shuffled order of one round is an input.
  Every random draw (positions, house values, insurer choices, hazard draws)
  is an input as well.
*/
module Model {
  import opened Types
  import opened Agents

  /** No element occurs twice. */
  ghost predicate Distinct<T>(s: seq<T>) {
    forall a, b :: 0 <= a < b < |s| ==> s[a] != s[b]
  }

  /** `randrange(n)` and `choice` over n items: the raw draw reduced into [0, n). */
  function RandBelow(n: int, raw: nat): (r: int)
    requires n > 0
    ensures 0 <= r < n
  {
    raw % n
  }

  /** The positions of a width × height grid. */
  predicate InGrid(width: int, height: int, pos: Pos) {
    0 <= pos.0 < width && 0 <= pos.1 < height
  }

  /** _get_random_valid_position: one draw per coordinate. */
  function RandomValidPosition(width: int, height: int, xDraw: nat, yDraw: nat): (pos: Pos)
    requires width > 0 && height > 0
    ensures InGrid(width, height, pos)
  {
    (RandBelow(width, xDraw), RandBelow(height, yDraw))
  }

  /** Every position of the grid can come out of the position draw. */
  lemma EveryPositionReachable(width: int, height: int, pos: Pos)
    requires InGrid(width, height, pos)
    ensures exists xDraw: nat, yDraw: nat :: RandomValidPosition(width, height, xDraw, yDraw) == pos
  {
    assert RandBelow(width, pos.0) == pos.0;
    assert RandBelow(height, pos.1) == pos.1;
    assert RandomValidPosition(width, height, pos.0, pos.1) == pos;
  }

  /** The number of values `range(n)` yields: n, or none when n is negative. */
  function RangeLength(n: int): (count: nat)
    ensures n >= 0 ==> count == n
    ensures n < 0 ==> count == 0
  {
    if n < 0 then 0 else n
  }

  /** One pass of the inner loop of `_create_grid_cells`: the positions (x, 0) … (x, height - 1). */
  function Column(x: int, height: nat): (column: seq<Pos>)
    ensures |column| == height
    ensures forall y :: 0 <= y < height ==> column[y] == (x, y)
  {
    seq(height, y requires 0 <= y < height => (x, y))
  }

  /** The positions `_create_grid_cells` visits: x in the outer loop, y in the inner one. */
  function CellOrder(width: nat, height: nat): (order: seq<Pos>)
    ensures |order| == width * height
    decreases width
  {
    if width == 0 then [] else CellOrder(width - 1, height) + Column(width - 1, height)
  }

  /** The visiting order has width × height entries and covers the grid, each position exactly once. */
  lemma {:induction false} CellOrderCoversGrid(width: nat, height: nat)
    ensures |CellOrder(width, height)| == width * height
    ensures forall p :: p in CellOrder(width, height) <==> InGrid(width, height, p)
    ensures Distinct(CellOrder(width, height))
    decreases width
  {
    if width > 0 {
      CellOrderCoversGrid(width - 1, height);
      var front, column := CellOrder(width - 1, height), Column(width - 1, height);
      var order := front + column;
      assert order == CellOrder(width, height);
      assert (width - 1) * height + height == width * height;
      forall p | InGrid(width, height, p) ensures p in order {
        if p.0 == width - 1 {
          assert column[p.1] == p;
        } else {
          assert p in front;
        }
      }
      forall a, b | 0 <= a < b < |order| ensures order[a] != order[b] {
        if b < |front| {
          assert order[a] == front[a] && order[b] == front[b];
        } else if a < |front| {
          assert order[a] in front;
        } else {
          assert order[a] == column[a - |front|] && order[b] == column[b - |front|];
        }
      }
    }
  }

  /** The draws `_create_households` makes for one household, in the order it makes them. */
  datatype HouseholdDraw = HouseholdDraw(xDraw: nat, yDraw: nat, houseValue: real, insurerDraw: nat)

  /** The scheduler entries of a list of insurers, in list order. */
  function InsurerAgents(insurers: seq<Insurer>): (agents: seq<Agent>)
    ensures |agents| == |insurers|
    ensures forall i :: 0 <= i < |insurers| ==> agents[i] == InsurerAgent(insurers[i])
  {
    seq(|insurers|, i requires 0 <= i < |insurers| => InsurerAgent(insurers[i]))
  }

  /** The scheduler entries of a list of households, in list order. */
  function HouseholdAgents(households: seq<Household>): (agents: seq<Agent>)
    ensures |agents| == |households|
    ensures forall i :: 0 <= i < |households| ==> agents[i] == HouseholdAgent(households[i])
  {
    seq(|households|, i requires 0 <= i < |households| => HouseholdAgent(households[i]))
  }

  /** place_agent: the agent joins the end of the list at `pos`. */
  function Place(grid: Grid, pos: Pos, agent: Agent): (placed: Grid)
    ensures placed.Keys == grid.Keys + {pos}
    ensures placed[pos] == Occupants(grid, pos) + [agent]
    ensures forall p :: p in grid && p != pos ==> placed[p] == grid[p]
  {
    grid[pos := Occupants(grid, pos) + [agent]]
  }

  /** The first grid cell among a position's occupants, as `next(...)` finds it, or None. */
  function FirstCell(contents: seq<Agent>): (found: Option<GridCell>)
    ensures found.None? <==> forall j :: 0 <= j < |contents| ==> !contents[j].CellAgent?
    ensures found.Some? ==>
      exists j :: 0 <= j < |contents| && contents[j] == CellAgent(found.value)
        && (forall k :: 0 <= k < j ==> !contents[k].CellAgent?)
    decreases |contents|
  {
    if contents == [] then None
    else if contents[0].CellAgent? then Some(contents[0].cell)
    else
      var rest := FirstCell(contents[1..]);
      assert forall j :: 1 <= j < |contents| ==> contents[j] == contents[1..][j - 1];
      rest
  }

  /** x raised to the n-th power. */
  function Pow(x: real, n: nat): real
    decreases n
  {
    if n == 0 then 1.0 else x * Pow(x, n - 1)
  }

  /** Scaling n times by a factor and then once more is scaling n + 1 times. */
  lemma ScaledOnceMore(t: RiskTable, factor: real, n: nat)
    ensures Scaled(Scaled(t, Pow(factor, n)), factor) == Scaled(t, Pow(factor, n + 1))
  {
    ScaledTwice(t, Pow(factor, n), factor);
    assert Pow(factor, n + 1) == factor * Pow(factor, n);
  }

  /**
    A dict at position p that has been shocked once per occurrence of p in
    `done`, and is shocked again exactly when the next position is p, has
    been shocked once per occurrence of p in `done + [pos]`.
  */
  lemma ShockCountStep(original: RiskTable, factor: real, done: seq<Pos>, pos: Pos, p: Pos)
    ensures p == pos ==>
      Scaled(Scaled(original, Pow(factor, multiset(done)[p])), factor)
      == Scaled(original, Pow(factor, multiset(done + [pos])[p]))
    ensures p != pos ==> multiset(done + [pos])[p] == multiset(done)[p]
  {
    if p == pos {
      ScaledOnceMore(original, factor, multiset(done)[p]);
    }
  }

  /** The probabilities of one risk dict in iteration order: `risks.values()`. */
  function Probabilities(t: RiskTable): (ps: seq<real>)
    ensures |ps| == |t|
    ensures forall i :: 0 <= i < |t| ==> ps[i] == t[i].probability
  {
    seq(|t|, i requires 0 <= i < |t| => t[i].probability)
  }

  /** The values of several risk dicts, one after the other, as `extend` builds them. */
  function AllProbabilities(tables: seq<RiskTable>): seq<real>
    decreases |tables|
  {
    if tables == [] then []
    else AllProbabilities(tables[..|tables| - 1]) + Probabilities(tables[|tables| - 1])
  }

  /** Every value multiplied by `factor`. */
  function ScaleAll(vs: seq<real>, factor: real): (ws: seq<real>)
    ensures |ws| == |vs|
    ensures forall i :: 0 <= i < |vs| ==> ws[i] == vs[i] * factor
  {
    seq(|vs|, i requires 0 <= i < |vs| => vs[i] * factor)
  }

  /** Scaling distributes over concatenation. */
  lemma ScaleAllAppend(a: seq<real>, b: seq<real>, factor: real)
    ensures ScaleAll(a + b, factor) == ScaleAll(a, factor) + ScaleAll(b, factor)
  {
    var l, r := ScaleAll(a + b, factor), ScaleAll(a, factor) + ScaleAll(b, factor);
    forall i | 0 <= i < |l| ensures l[i] == r[i] {
      if i < |a| {
        assert (a + b)[i] == a[i];
      } else {
        assert (a + b)[i] == b[i - |a|];
      }
    }
  }

  /** A sum of scaled values is the scaled sum. */
  lemma {:induction false} SumScaled(vs: seq<real>, factor: real)
    ensures Sum(ScaleAll(vs, factor)) == Sum(vs) * factor
    decreases |vs|
  {
    if vs != [] {
      var n := |vs| - 1;
      SumScaled(vs[..n], factor);
      forall i | 0 <= i < n ensures ScaleAll(vs, factor)[..n][i] == ScaleAll(vs[..n], factor)[i] {
        assert vs[..n][i] == vs[i];
      }
      assert ScaleAll(vs, factor)[..n] == ScaleAll(vs[..n], factor);
      assert (Sum(vs[..n]) + vs[n]) * factor == Sum(vs[..n]) * factor + vs[n] * factor;
    }
  }

  /** Scaling every value scales the mean by the same factor. */
  lemma MeanScaled(vs: seq<real>, factor: real)
    ensures Mean(ScaleAll(vs, factor)) == Mean(vs) * factor
  {
    if vs != [] {
      SumScaled(vs, factor);
      var n := |vs| as real;
      assert (Sum(vs) * factor) / n == (Sum(vs) / n) * factor;
    }
  }

  /** The sum of n values that each lie in [lo, hi] lies in [n * lo, n * hi]. */
  lemma {:induction false} SumBounds(vs: seq<real>, lo: real, hi: real)
    requires forall i :: 0 <= i < |vs| ==> lo <= vs[i] <= hi
    ensures (|vs| as real) * lo <= Sum(vs) <= (|vs| as real) * hi
    decreases |vs|
  {
    if vs != [] {
      var n := |vs| - 1;
      SumBounds(vs[..n], lo, hi);
      assert (n + 1) as real * lo == n as real * lo + lo;
      assert (n + 1) as real * hi == n as real * hi + hi;
    }
  }

  /** The mean of values in [lo, hi] lies in [lo, hi]: probabilities in [0, 1] give a mean in [0, 1]. */
  lemma MeanBounds(vs: seq<real>, lo: real, hi: real)
    requires vs != []
    requires forall i :: 0 <= i < |vs| ==> lo <= vs[i] <= hi
    ensures lo <= Mean(vs) <= hi
  {
    SumBounds(vs, lo, hi);
    var n := |vs| as real;
    assert Sum(vs) / n >= (n * lo) / n;
    assert Sum(vs) / n <= (n * hi) / n;
  }

  /** Scaling a dict scales its values. */
  lemma ProbabilitiesScaled(t: RiskTable, factor: real)
    ensures Probabilities(Scaled(t, factor)) == ScaleAll(Probabilities(t), factor)
  {
    var ps, qs := Probabilities(Scaled(t, factor)), ScaleAll(Probabilities(t), factor);
    assert |ps| == |t| == |qs|;
    forall i | 0 <= i < |t| ensures ps[i] == qs[i] {
      ProbabilityScaledAt(t, factor, i);
    }
  }

  /** One value of a scaled dict is the scaled value. */
  lemma ProbabilityScaledAt(t: RiskTable, factor: real, i: int)
    requires 0 <= i < |t|
    ensures Probabilities(Scaled(t, factor))[i] == ScaleAll(Probabilities(t), factor)[i]
  {
    assert Probabilities(Scaled(t, factor))[i] == Scaled(t, factor)[i].probability;
    assert ScaleAll(Probabilities(t), factor)[i] == Probabilities(t)[i] * factor;
  }

  /** Scaling each dict scales the list of all their values. */
  lemma {:induction false} AllProbabilitiesScaled(before: seq<RiskTable>, after: seq<RiskTable>, factor: real)
    requires |after| == |before|
    requires forall j :: 0 <= j < |before| ==> after[j] == Scaled(before[j], factor)
    ensures AllProbabilities(after) == ScaleAll(AllProbabilities(before), factor)
    decreases |before|
  {
    if before != [] {
      var n := |before| - 1;
      AllProbabilitiesScaled(before[..n], after[..n], factor);
      ProbabilitiesScaled(before[n], factor);
      ScaleAllAppend(AllProbabilities(before[..n]), Probabilities(before[n]), factor);
    }
  }

  /** Scaling every dict by the same factor scales the mean of all their values by it. */
  lemma {:induction false} MeanOfScaledTables(before: seq<RiskTable>, after: seq<RiskTable>, factor: real)
    requires |after| == |before|
    requires forall j :: 0 <= j < |before| ==> after[j] == Scaled(before[j], factor)
    ensures Mean(AllProbabilities(after)) == Mean(AllProbabilities(before)) * factor
  {
    var vs, ws := AllProbabilities(before), AllProbabilities(after);
    AllProbabilitiesScaled(before, after, factor);
    MeanScaled(vs, factor);
  }

  /**
    An insurer's round: exactly one profit appended after the earlier ones,
    and the risk premium retuned once on the history before the round.
  */
  predicate SettledOnce(history: seq<real>, history': seq<real>, riskPremium: real, riskPremium': real) {
    && |history'| == |history| + 1
    && history'[..|history|] == history
    && riskPremium' == riskPremium * RiskPremiumFactor(history)
  }

  /**
    The state a round starts from, per scheduled agent: each cell's risk dict;
    each insurer's profit history, risk premium, base rate, insured set,
    ledger and the premiums its insured households owe; each household's
    claims, insurer and policy; and the step count that stamps the round's
    claims.
  */
  datatype Round = Round(
    risks: map<Agent, RiskTable>,
    histories: map<Agent, seq<real>>,
    riskPremiums: map<Agent, real>,
    claims: map<Agent, seq<ClaimRecord>>,
    rates: map<Agent, real>,
    insured: map<Agent, set<Household>>,
    insurerOf: map<Agent, Insurer?>,
    policies: map<Agent, Option<InsurancePolicy>>,
    ledgers: map<Agent, Ledger>,
    collected: map<Agent, real>,
    steps: int)

  /**
    One activation within a round: the round's start, the activation order
    with each activation's hazard draws, and the position reached in it.
  */
  datatype Turn = Turn(start: Round, order: seq<Agent>, draws: seq<Draws>, k: nat)

  /** The risk dict of an agent that is a grid cell, and no dict for any other agent. */
  function AgentRisks(agent: Agent): RiskTable
    reads if agent.CellAgent? then {agent.cell.climateRisks} else {}
  {
    if agent.CellAgent? then agent.cell.climateRisks.risks else []
  }

  /**
    What activating `agent`, with `filed` the hazards it files claims for,
    charges to `insurer`: a tenth of the house value per claim when `agent`
    is a household that `insurer` covers, and nothing otherwise.
  */
  ghost function ClaimCharge(agent: Agent, filed: seq<Hazard>, insurer: Insurer): real
    reads if agent.HouseholdAgent? then {agent.household} else {}
  {
    if agent.HouseholdAgent? && agent.household.insurer == insurer
    then ClaimsTotal(filed, agent.household.houseValue * 0.1)
    else 0.0
  }

  /** The ledger `metrics` collected `premiums` and then closed one window. */
  twostate predicate Settled(metrics: InsuranceMetrics, premiums: real)
    reads metrics
  {
    metrics.Snapshot() == Settle(Collect(old(metrics.Snapshot()), premiums))
  }

  /**
    The insurer of `household`, if it has one and kept it, paid out a tenth of
    the house value for each hazard in `filed`.
  */
  twostate predicate PaidOut(household: Household, filed: seq<Hazard>)
    reads household, if household.insurer != null then {household.insurer.metrics} else {}
  {
    household.insurer != null && household.insurer == old(household.insurer) ==>
      var metrics := household.insurer.metrics;
      metrics.Snapshot() == Charge(old(metrics.Snapshot()), ClaimsTotal(filed, household.houseValue * 0.1))
  }

  /** The ledger `metrics` paid `amount` in claims and changed in no other way. */
  twostate predicate Charged(metrics: InsuranceMetrics, amount: real)
    reads metrics
  {
    metrics.Snapshot() == Charge(old(metrics.Snapshot()), amount)
  }

  /**
    One activation of a round seen from one insurer's ledger: the insurer's
    own activation collects `premiums` and closes the window; any other
    activation charges it `charge`.
  */
  function LedgerTurn(ledger: Ledger, own: bool, premiums: real, charge: real): Ledger {
    if own then Settle(Collect(ledger, premiums)) else Charge(ledger, charge)
  }

  /**
    An insurer's ledger at the end of a round, from `ledger` at its start,
    the `premiums` it collects on its own turn, the claims `before` charged
    to it by earlier activations and the claims `after` charged by later
    ones. The window closed on its turn records the open window's net plus
    the premiums less the earlier claims; the window left open holds only
    the later claims.
  */
  function RoundEndLedger(ledger: Ledger, premiums: real, before: real, after: real): Ledger {
    Ledger(ledger.capital + premiums - before - after, after, 0.0,
           ledger.profitHistory + [ledger.premiumsCollected + premiums - (ledger.claimsPaid + before)])
  }

  /** The objects the risk dicts of `agents` live in. */
  function RiskObjectsOf(agents: seq<Agent>): set<ClimateRisks> {
    set a | a in agents && a.CellAgent? :: a.cell.climateRisks
  }

  /** The risk dicts of the grid cells among `agents`, in their order; other agents contribute nothing. */
  function TablesOf(agents: seq<Agent>): (tables: seq<RiskTable>)
    reads RiskObjectsOf(agents)
    ensures |tables| == |agents|
    ensures forall j :: 0 <= j < |agents| ==> tables[j] == AgentRisks(agents[j])
  {
    seq(|agents|, j requires 0 <= j < |agents| reads RiskObjectsOf(agents) => AgentRisks(agents[j]))
  }

  /** The cells of a prefix are among the cells of the whole. */
  lemma RiskObjectsOfPrefix(agents: seq<Agent>, n: nat)
    requires n <= |agents|
    ensures RiskObjectsOf(agents[..n]) <= RiskObjectsOf(agents)
  {
  }

  /** A sequence that extends `s` agrees with it on every slice of `s`. */
  lemma PrefixSlices<T>(s: seq<T>, t: seq<T>, n: nat)
    requires |s| <= |t| && t[..|s|] == s && n <= |s|
    ensures t[..n] == s[..n] && t[n..|s|] == s[n..]
  {
    assert t[..n] == t[..|s|][..n];
    assert t[n..|s|] == t[..|s|][n..];
  }

  /**
    One round with one insurer (capital 100,000, rates 0.001 and 0.005) and
    one household worth 1,000,000 whose flood draw triggers: the claim is
    100,000 and the premium 6,000. Both orders, taken one LedgerTurn at a
    time, give the RoundEndLedger the round's contract states, and end with
    capital 6,000; but a household activated first lands its claim in this
    round's profit (-94,000), while an insurer activated first settles 6,000
    and leaves the claim in the open window.
  */
  lemma EndToEndRound(policy: InsurancePolicy, claim: real)
    requires policy == InsurancePolicy(0.001, 0.005, 1000000.0) && claim == 1000000.0 * 0.1
    ensures var start, premium := Ledger(100000.0, 0.0, 0.0, []), policy.CalculatePremium();
      && claim == 100000.0 && premium == 6000.0
      && LedgerTurn(LedgerTurn(start, false, premium, claim), true, premium, 0.0)
         == RoundEndLedger(start, premium, claim, 0.0)
         == Ledger(6000.0, 0.0, 0.0, [-94000.0])
      && LedgerTurn(LedgerTurn(start, true, premium, 0.0), false, premium, claim)
         == RoundEndLedger(start, premium, 0.0, claim)
         == Ledger(6000.0, 100000.0, 0.0, [6000.0])
  {
    var start := Ledger(100000.0, 0.0, 0.0, []);
    var premium := policy.CalculatePremium();
    assert premium == 6000.0 by {
      assert premium == 1000.0 + 5000.0;
    }
    var afterClaim := LedgerTurn(start, false, premium, claim);
    assert afterClaim == Ledger(0.0, 100000.0, 0.0, []);
    assert Collect(afterClaim, premium) == Ledger(6000.0, 100000.0, 6000.0, []);
    assert LedgerTurn(afterClaim, true, premium, 0.0) == Ledger(6000.0, 0.0, 0.0, [-94000.0]);
    assert RoundEndLedger(start, premium, claim, 0.0) == Ledger(6000.0, 0.0, 0.0, [-94000.0]);
    var afterSettle := LedgerTurn(start, true, premium, 0.0);
    assert Collect(start, premium) == Ledger(106000.0, 0.0, 6000.0, []);
    assert afterSettle == Ledger(106000.0, 0.0, 0.0, [6000.0]);
    assert LedgerTurn(afterSettle, false, premium, claim) == Ledger(6000.0, 100000.0, 0.0, [6000.0]);
    assert RoundEndLedger(start, premium, 0.0, claim) == Ledger(6000.0, 100000.0, 0.0, [6000.0]);
  }

  /** ClimateInsuranceModel: the configuration, the grid, the scheduler and the insurers. */
  class ClimateInsuranceModel {
    const config: ModelConfig
    var grid: Grid
    var scheduled: seq<Agent>
    var insurers: seq<Insurer>
    var steps: nat

    /** The households and insurers the scheduler holds, and the insurers' ledgers. */
    ghost function Households(): set<Household>
      reads this`scheduled
    {
      set a | a in scheduled && a.HouseholdAgent? :: a.household
    }

    ghost function Insurers(): set<Insurer>
      reads this`scheduled
    {
      set a | a in scheduled && a.InsurerAgent? :: a.insurer
    }

    ghost function Ledgers(): set<InsuranceMetrics>
      reads this`scheduled
    {
      set a | a in scheduled && a.InsurerAgent? :: a.insurer.metrics
    }

    /** Every object a scheduler round or a shock may change. */
    ghost function Footprint(): set<object>
      reads this`scheduled
    {
      RiskObjectsOf(scheduled) + Households() + Insurers() + Ledgers()
    }

    /**
      What holds from construction on:
      - the scheduler holds each agent once;
      - no two cells share a risk dict and no two insurers share a ledger;
      - every position of the grid holds a scheduled cell first, placed at that
        position, and every scheduled cell sits first at its own position;
      - behind the cell, a position holds only scheduled households standing
        there, and every household is placed at its own position, which is on the grid;
      - each household is in the insured set of exactly its own insurer, a
        scheduled one, and insured sets hold only scheduled households;
      - every ledger balances against the initial capital.
    */
    ghost predicate Valid()
      reads this`scheduled, this`grid, Households(), Insurers(), Ledgers()
    {
      AgentsDistinct() && GridLaidOut() && CoverConsistent() && LedgersBalanced()
    }

    /** The scheduler holds each agent once; no two cells share a risk dict, no two insurers a ledger. */
    ghost predicate AgentsDistinct()
      reads this`scheduled
    {
      && Distinct(scheduled)
      && (forall a, b :: a in scheduled && b in scheduled && a.CellAgent? && b.CellAgent? && a != b ==>
            a.cell.climateRisks != b.cell.climateRisks)
      && (forall a, b :: a in scheduled && b in scheduled && a.InsurerAgent? && b.InsurerAgent? && a != b ==>
            a.insurer.metrics != b.insurer.metrics)
    }

    /** Each position holds its cell first and then households standing there; every scheduled cell and household is placed. */
    ghost predicate GridLaidOut()
      reads this`scheduled, this`grid
    {
      && (forall p :: p in grid ==>
            |grid[p]| > 0 && grid[p][0].CellAgent? && grid[p][0] in scheduled && grid[p][0].cell.pos == p)
      && (forall a :: a in scheduled && a.CellAgent? ==> a.cell.pos in grid && grid[a.cell.pos][0] == a)
      && (forall p, j :: p in grid && 0 < j < |grid[p]| ==>
            grid[p][j].HouseholdAgent? && grid[p][j] in scheduled && grid[p][j].household.pos == p)
      && (forall a :: a in scheduled && a.HouseholdAgent? ==> a.household.pos in grid && a in grid[a.household.pos])
    }

    /** Each household is in the insured set of exactly its own insurer, a scheduled one; insured sets hold only scheduled households. */
    ghost predicate CoverConsistent()
      reads this`scheduled, Households(), Insurers()
    {
      && (forall a :: a in scheduled && a.HouseholdAgent? && a.household.insurer != null ==>
            InsurerAgent(a.household.insurer) in scheduled)
      && (forall a, b :: a in scheduled && b in scheduled && a.HouseholdAgent? && b.InsurerAgent? ==>
            (a.household in b.insurer.insuredHouseholds <==> a.household.insurer == b.insurer))
      && (forall a, h :: a in scheduled && a.InsurerAgent? && h in a.insurer.insuredHouseholds ==>
            HouseholdAgent(h) in scheduled)
    }

    /** Every ledger balances against the initial capital. */
    ghost predicate LedgersBalanced()
      reads this`scheduled, Ledgers()
    {
      forall a :: a in scheduled && a.InsurerAgent? ==>
        Balanced(a.insurer.metrics.Snapshot(), config.initialInsurerCapital)
    }

    /**
      Each scheduled cell's risk dict holds each hazard once, as a dict does.
      Kept apart from Valid: only the risk dicts' keys matter to it.
    */
    ghost predicate KindsDistinct()
      reads this`scheduled, RiskObjectsOf(scheduled)
    {
      forall a :: a in scheduled && a.CellAgent? ==> DistinctKinds(a.cell.climateRisks.risks)
    }

    /** Valid survives any change that keeps the structure and keeps every ledger balanced. */
    twostate lemma ValidKept()
      requires old(Valid())
      requires scheduled == old(scheduled) && grid == old(grid)
      requires forall h :: HouseholdAgent(h) in scheduled ==> h.insurer == old(h.insurer)
      requires forall i :: InsurerAgent(i) in scheduled ==> i.insuredHouseholds == old(i.insuredHouseholds)
      requires forall i :: InsurerAgent(i) in scheduled ==>
        Balanced(i.metrics.Snapshot(), config.initialInsurerCapital)
      ensures Valid()
    {
    }

    /** A grid position holds at most one cell: two cells at the same position are the same cell. */
    lemma OneCellPerPosition(c: GridCell, d: GridCell)
      requires Valid()
      requires CellAgent(c) in scheduled && CellAgent(d) in scheduled && c.pos == d.pos
      ensures c == d
    {
      assert CellAgent(c) == grid[c.pos][0] == CellAgent(d);
    }

    /** The grid's dimensions: `range` over a negative size visits nothing. */
    function Width(): nat {
      RangeLength(config.gridWidth)
    }

    function Height(): nat {
      RangeLength(config.gridHeight)
    }

    /** The number of grid cells: one per position `_create_grid_cells` visits. */
    function CellCount(): nat {
      |CellOrder(Width(), Height())|
    }

    /**
      __init__: the grid cells, then the insurers, then the households, each
      created, placed and scheduled in turn. `draws` holds what each household
      draws: its position, its house value and its insurer. The scheduler then
      holds the cells in visiting order, the insurers in id order and the
      households in creation order.
    */
    constructor (config: ModelConfig, draws: seq<HouseholdDraw>)
      requires |draws| == RangeLength(config.nHouseholds)
      requires config.nHouseholds > 0 ==> config.nInsurers > 0 && config.gridWidth > 0 && config.gridHeight > 0
      requires DistinctKinds(config.baseRiskLevels)
      ensures this.config == config && steps == 0 && Valid() && KindsDistinct()
      ensures forall p :: p in grid <==> InGrid(Width(), Height(), p)
      ensures |insurers| == RangeLength(config.nInsurers)
      ensures Initialised(draws) && InitialRates()
    {
      this.config := config;
      grid := map[];
      scheduled := [];
      insurers := [];
      steps := 0;
      new;
      Populate(draws);
      InitialKinds(draws);
    }

    /** Every cell __init__ creates holds the base risk dict, whose keys are distinct. */
    lemma InitialKinds(draws: seq<HouseholdDraw>)
      requires Initialised(draws) && DistinctKinds(config.baseRiskLevels)
      ensures KindsDistinct()
    {
      forall k | CellCount() <= k < |scheduled| ensures !scheduled[k].CellAgent? {
        if k < CellCount() + |insurers| {
          assert scheduled[k] == scheduled[CellCount()..CellCount() + |insurers|][k - CellCount()];
        } else {
          assert scheduled[k] == scheduled[CellCount() + |insurers|..][k - CellCount() - |insurers|];
        }
      }
      forall a | a in scheduled && a.CellAgent? ensures DistinctKinds(a.cell.climateRisks.risks) {
        var k :| 0 <= k < |scheduled| && scheduled[k] == a;
        assert scheduled[..CellCount()][k] == a;
      }
    }

    /** The three creation stages of __init__, in order. */
    method Populate(draws: seq<HouseholdDraw>)
      requires scheduled == [] && grid == map[] && insurers == []
      requires |draws| > 0 ==> Width() > 0 && Height() > 0 && RangeLength(config.nInsurers) > 0
      modifies this`grid, this`scheduled, this`insurers
      ensures Valid() && forall p :: p in grid <==> InGrid(Width(), Height(), p)
      ensures |insurers| == RangeLength(config.nInsurers)
      ensures Initialised(draws) && InitialRates()
    {
      CreateCellsAndInsurers();
      CreateHouseholds(draws);
    }

    /**
      The scheduler as __init__ leaves it: the cells in visiting order, then
      the insurers in id order, then the households, the i-th from draws[i].
    */
    ghost predicate Initialised(draws: seq<HouseholdDraw>)
      reads this`scheduled, this`insurers, RiskObjectsOf(scheduled), set i | i in insurers :: i.metrics
      reads set a | a in scheduled && a.HouseholdAgent? :: a.household
    {
      && |scheduled| == CellCount() + |insurers| + |draws|
      && CellsPlaced(scheduled[..CellCount()], CellOrder(Width(), Height()))
      && scheduled[CellCount()..CellCount() + |insurers|] == InsurerAgents(insurers)
      && InsurersOpened(insurers)
      && HouseholdsBuilt(scheduled[CellCount() + |insurers|..], draws)
    }

    /** The scheduler once the cells and insurers are in: the cells in visiting order, then the insurers in id order. */
    ghost predicate Staffed()
      reads this`scheduled, this`insurers, RiskObjectsOf(scheduled), set i | i in insurers :: i.metrics
    {
      && |scheduled| == CellCount() + |insurers|
      && CellsPlaced(scheduled[..CellCount()], CellOrder(Width(), Height()))
      && scheduled[CellCount()..] == InsurerAgents(insurers)
      && InsurersOpened(insurers)
    }

    /** The households join behind the cells and insurers and leave their layout as it was. */
    twostate lemma LayoutKept(draws: seq<HouseholdDraw>)
      requires old(Staffed())
      requires insurers == old(insurers)
      requires unchanged(RiskObjectsOf(old(scheduled))) && unchanged(set i | i in insurers :: i.metrics)
      requires |scheduled| == |old(scheduled)| + |draws| && scheduled[..|old(scheduled)|] == old(scheduled)
      requires HouseholdsBuilt(scheduled[|old(scheduled)|..], draws)
      ensures Initialised(draws)
    {
      RiskObjectsOfPrefix(old(scheduled), CellCount());
      PrefixSlices(old(scheduled), scheduled, CellCount());
    }

    /** The first two stages of __init__: a cell on every position of the grid, then the insurers. */
    method CreateCellsAndInsurers()
      requires scheduled == [] && grid == map[] && insurers == []
      modifies this`grid, this`scheduled, this`insurers
      ensures Valid() && forall p :: p in grid <==> InGrid(Width(), Height(), p)
      ensures |insurers| == RangeLength(config.nInsurers)
      ensures Staffed() && InitialRates()
      ensures forall i :: 0 <= i < |insurers| ==> fresh(insurers[i])
    {
      CreateGridCells();
      CellsReady();
      ghost var cells := scheduled;
      CreateInsurers();
      assert CellsPlaced(cells, CellOrder(Width(), Height()));
      assert scheduled[..|cells|] == cells;
    }

    /** The agents are the cells `_create_grid_cells` makes: one per position of `order`, in that order, each with the base risks. */
    ghost predicate CellsPlaced(agents: seq<Agent>, order: seq<Pos>)
      reads RiskObjectsOf(agents)
    {
      && |agents| == |order|
      && forall k :: 0 <= k < |order| ==>
        && agents[k].CellAgent? && agents[k].cell.pos == order[k]
        && agents[k].cell.climateRisks.risks == config.baseRiskLevels
    }

    /** The insurers `_create_insurers` makes: the i-th has id i and a ledger holding just the initial capital. */
    ghost predicate InsurersOpened(insurers: seq<Insurer>)
      reads set i | i in insurers :: i.metrics
    {
      forall i :: 0 <= i < |insurers| ==>
        && insurers[i].uniqueId == i
        && insurers[i].metrics.Snapshot() == Ledger(config.initialInsurerCapital, 0.0, 0.0, [])
    }

    /** The agents are the households `_create_households` makes, the i-th from draws[i]. */
    ghost predicate HouseholdsBuilt(agents: seq<Agent>, draws: seq<HouseholdDraw>)
      reads this`insurers, set a | a in agents && a.HouseholdAgent? :: a.household
    {
      && |agents| == |draws|
      && forall i :: 0 <= i < |draws| ==> agents[i].HouseholdAgent? && Built(agents[i].household, i, draws[i])
    }

    /**
      The household `_create_households` builds from its i-th draws: id
      i + n_insurers, a drawn position and house value, the drawn insurer, a
      policy at a new insurer's rates (0.001 and 0.005: nothing changes them
      before the first step), and no claims yet.
    */
    ghost predicate Built(h: Household, i: int, d: HouseholdDraw)
      reads this`insurers, h
    {
      && Width() > 0 && Height() > 0 && |insurers| > 0
      && h.uniqueId == i + config.nInsurers
      && h.pos == RandomValidPosition(Width(), Height(), d.xDraw, d.yDraw)
      && h.houseValue == d.houseValue
      && h.insurer == insurers[RandBelow(|insurers|, d.insurerDraw)]
      && h.policy == Some(InsurancePolicy(0.001, 0.005, d.houseValue))
      && h.claimsHistory == []
    }

    /**
      The cells laid out so far: the k-th scheduled agent is a cell at order[k]
      holding its own copy of the base risks, alone on its position, and the
      grid has no other position.
    */
    ghost predicate CellsLaidOut(order: seq<Pos>)
      reads this`scheduled, this`grid, RiskObjectsOf(scheduled)
    {
      && |scheduled| == |order|
      && (forall k :: 0 <= k < |order| ==>
            && scheduled[k].CellAgent? && scheduled[k].cell.pos == order[k]
            && scheduled[k].cell.climateRisks.risks == config.baseRiskLevels
            && order[k] in grid && grid[order[k]] == [scheduled[k]])
      && (forall p :: p in grid <==> p in order)
      && (forall j, k :: 0 <= j < k < |order| ==>
            scheduled[j].cell.climateRisks != scheduled[k].cell.climateRisks)
    }

    /** Cells laid out on distinct positions make a valid model. */
    lemma CellsValid(order: seq<Pos>)
      requires CellsLaidOut(order) && Distinct(order)
      ensures Valid()
    {
      forall a, b | a in scheduled && b in scheduled && a.CellAgent? && b.CellAgent? && a != b
        ensures a.cell.climateRisks != b.cell.climateRisks
      {
        var j :| 0 <= j < |scheduled| && scheduled[j] == a;
        var k :| 0 <= k < |scheduled| && scheduled[k] == b;
        if k < j {
          j, k := k, j;
        }
      }
    }

    /** Once every position has its cell, the model is valid, the grid is exactly the width × height positions, and the cells sit in visiting order. */
    lemma CellsReady()
      requires CellsLaidOut(CellOrder(Width(), Height()))
      ensures Valid()
      ensures forall p :: p in grid <==> InGrid(Width(), Height(), p)
      ensures CellsPlaced(scheduled, CellOrder(Width(), Height()))
    {
      CellOrderCoversGrid(Width(), Height());
      CellsValid(CellOrder(Width(), Height()));
    }

    /** _create_grid_cells: a cell with a fresh copy of the base risks at every position, x outer, y inner. */
    method CreateGridCells()
      requires scheduled == [] && grid == map[]
      modifies this`grid, this`scheduled
      ensures CellsLaidOut(CellOrder(Width(), Height()))
    {
      for x := 0 to Width()
        invariant CellsLaidOut(CellOrder(x, Height()))
      {
        CreateColumn(x);
      }
    }

    /** One pass of the outer loop of `_create_grid_cells`: the cells (x, 0) … (x, height - 1). */
    method CreateColumn(x: nat)
      requires CellsLaidOut(CellOrder(x, Height()))
      modifies this`grid, this`scheduled
      ensures CellsLaidOut(CellOrder(x + 1, Height()))
    {
      ghost var front := CellOrder(x, Height());
      ghost var column := Column(x, Height());
      CellOrderCoversGrid(x, Height());
      for y := 0 to Height()
        invariant CellsLaidOut(front + column[..y])
      {
        assert front + column[..y + 1] == (front + column[..y]) + [(x, y)];
        assert (x, y) !in front;
        AddCell((x, y), front + column[..y]);
      }
      assert column[..Height()] == column;
    }

    /** One pass of the inner loop of `_create_grid_cells`: create the cell at `pos`, place it and schedule it. */
    method AddCell(pos: Pos, ghost order: seq<Pos>)
      requires CellsLaidOut(order) && pos !in order
      modifies this`grid, this`scheduled
      ensures CellsLaidOut(order + [pos])
    {
      var climateRisks := new ClimateRisks(config.baseRiskLevels);
      var cell := new GridCell(climateRisks, pos);
      grid := Place(grid, pos, CellAgent(cell));
      scheduled := scheduled + [CellAgent(cell)];
    }

    /** _create_insurers: insurers 0 … n_insurers - 1, each with the initial capital, listed and scheduled. */
    method CreateInsurers()
      requires Valid() && insurers == []
      modifies this`scheduled, this`insurers
      ensures Valid() && grid == old(grid)
      ensures scheduled == old(scheduled) + InsurerAgents(insurers)
      ensures |insurers| == RangeLength(config.nInsurers)
      ensures InsurersOpened(insurers) && InitialRates()
      ensures forall i :: 0 <= i < |insurers| ==> insurers[i].insuredHouseholds == {} && fresh(insurers[i])
    {
      for i := 0 to RangeLength(config.nInsurers)
        invariant Valid() && grid == old(grid)
        invariant scheduled == old(scheduled) + InsurerAgents(insurers)
        invariant |insurers| == i
        invariant forall j :: 0 <= j < i ==>
          && insurers[j].uniqueId == j
          && insurers[j].metrics.Snapshot() == Ledger(config.initialInsurerCapital, 0.0, 0.0, [])
          && insurers[j].basePremiumRate == 0.001 && insurers[j].riskPremium == 0.005
          && insurers[j].insuredHouseholds == {} && fresh(insurers[j])
      {
        AddInsurer(i);
      }
    }

    /** One pass of the loop of `_create_insurers`. */
    method AddInsurer(i: int)
      requires Valid()
      modifies this`scheduled, this`insurers
      ensures Valid() && grid == old(grid)
      ensures |insurers| == |old(insurers)| + 1 && insurers[..|old(insurers)|] == old(insurers)
      ensures scheduled == old(scheduled) + [InsurerAgent(insurers[|insurers| - 1])]
      ensures fresh(insurers[|insurers| - 1])
      ensures var insurer := insurers[|insurers| - 1];
        && insurer.uniqueId == i
        && insurer.metrics.Snapshot() == Ledger(config.initialInsurerCapital, 0.0, 0.0, [])
        && insurer.basePremiumRate == 0.001 && insurer.riskPremium == 0.005
        && insurer.insuredHouseholds == {}
    {
      var insurer := new Insurer(i, config.initialInsurerCapital);
      insurers := insurers + [insurer];
      scheduled := scheduled + [InsurerAgent(insurer)];
      assert forall a :: a in scheduled <==> a in old(scheduled) || a == InsurerAgent(insurer);
      assert Households() == old(Households());
    }

    /**
      _create_households: n_households households, each on a drawn position,
      with a drawn house value and a drawn insurer whose insured set it joins,
      and a policy at that insurer's current rates; each is placed and scheduled.
    */
    method CreateHouseholds(draws: seq<HouseholdDraw>)
      requires Valid() && Staffed() && InitialRates()
      requires |draws| > 0 ==> Width() > 0 && Height() > 0 && |insurers| > 0
      requires forall p :: InGrid(Width(), Height(), p) ==> p in grid
      modifies this`grid, this`scheduled, insurers
      ensures Valid() && grid.Keys == old(grid.Keys) && InitialRates()
      ensures Initialised(draws)
    {
      forall i | 0 <= i < |insurers| ensures InsurerAgent(insurers[i]) in scheduled {
        assert scheduled[CellCount() + i] == InsurerAgent(insurers[i]);
      }
      ghost var start := scheduled;
      ghost var built: seq<Household> := [];
      assert scheduled == start + HouseholdAgents([]);
      for i := 0 to |draws|
        invariant Valid() && grid.Keys == old(grid.Keys) && InitialRates()
        invariant |built| == i && HouseholdsAdded(start, draws, built)
      {
        built := AddHousehold(i, draws, start, built);
      }
      HouseholdsInOrder(start, draws, built);
      LayoutKept(draws);
    }

    /** Every insurer still has the base rate and risk premium it was created with. */
    ghost predicate InitialRates()
      reads this`insurers, insurers
    {
      forall i :: 0 <= i < |insurers| ==> insurers[i].basePremiumRate == 0.001 && insurers[i].riskPremium == 0.005
    }

    /**
      Part way through `_create_households`: the scheduler holds what it held
      before followed by the households built so far, the i-th from draws[i],
      and every insurer was scheduled before.
    */
    ghost predicate HouseholdsAdded(start: seq<Agent>, draws: seq<HouseholdDraw>, built: seq<Household>)
      reads this`scheduled, this`insurers, built
    {
      && |built| <= |draws|
      && scheduled == start + HouseholdAgents(built)
      && (forall j :: 0 <= j < |insurers| ==> InsurerAgent(insurers[j]) in start)
      && (forall j :: 0 <= j < |built| ==> Built(built[j], j, draws[j]))
    }

    /** Once all are built, the households sit in draw order behind the agents scheduled before. */
    lemma HouseholdsInOrder(start: seq<Agent>, draws: seq<HouseholdDraw>, built: seq<Household>)
      requires HouseholdsAdded(start, draws, built) && |built| == |draws|
      ensures |scheduled| == |start| + |draws| && scheduled[..|start|] == start
      ensures HouseholdsBuilt(scheduled[|start|..], draws)
    {
      assert scheduled[..|start|] == start;
      assert scheduled[|start|..] == HouseholdAgents(built);
    }

    /** One pass of the loop of `_create_households`. */
    method AddHousehold(i: nat, draws: seq<HouseholdDraw>, ghost start: seq<Agent>, ghost built: seq<Household>)
      returns (ghost built': seq<Household>)
      requires Valid() && InitialRates()
      requires HouseholdsAdded(start, draws, built) && i == |built| < |draws|
      requires Width() > 0 && Height() > 0 && |insurers| > 0
      requires forall p :: InGrid(Width(), Height(), p) ==> p in grid
      modifies this`grid, this`scheduled, insurers
      ensures Valid() && InitialRates() && grid.Keys == old(grid.Keys)
      ensures HouseholdsAdded(start, draws, built') && |built'| == |built| + 1
    {
      built' := Admit(i, draws, start, built);
      HouseholdJoined();
    }

    /**
      The body of the loop of `_create_households`: create the household from
      its draws, enroll it with the drawn insurer at that insurer's current
      rates, place it and schedule it.
    */
    method Admit(i: nat, draws: seq<HouseholdDraw>, ghost start: seq<Agent>, ghost built: seq<Household>)
      returns (ghost built': seq<Household>)
      requires InitialRates()
      requires HouseholdsAdded(start, draws, built) && i == |built| < |draws|
      requires Width() > 0 && Height() > 0 && |insurers| > 0
      requires forall p :: InGrid(Width(), Height(), p) ==> p in grid
      modifies this`grid, this`scheduled, insurers
      ensures Joined() && InitialRates() && grid.Keys == old(grid.Keys)
      ensures HouseholdsAdded(start, draws, built') && |built'| == |built| + 1
    {
      var insurer := insurers[RandBelow(|insurers|, draws[i].insurerDraw)];
      var household := Enlist(i, draws[i], insurer);
      grid := Place(grid, household.pos, HouseholdAgent(household));
      scheduled := scheduled + [HouseholdAgent(household)];
      built' := built + [household];
      assert HouseholdAgents(built') == HouseholdAgents(built) + [HouseholdAgent(household)];
      forall j | 0 <= j < |built| ensures Built(built'[j], j, draws[j]) {
        assert built'[j] == built[j] != household;
      }
      assert HouseholdsAdded(start, draws, built');
    }

    /**
      The household `_create_households` creates from its draws `d`: id
      i + n_insurers, the drawn position and house value, enrolled with
      `insurer`, whose insured set it joins, under a policy at that insurer's
      current base rate and risk premium.
    */
    method Enlist(i: nat, d: HouseholdDraw, insurer: Insurer) returns (household: Household)
      requires Width() > 0 && Height() > 0
      modifies insurer`insuredHouseholds
      ensures fresh(household)
      ensures household.uniqueId == i + config.nInsurers && household.houseValue == d.houseValue
      ensures household.pos == RandomValidPosition(Width(), Height(), d.xDraw, d.yDraw)
      ensures household.insurer == insurer && household.claimsHistory == []
      ensures household.policy == Some(InsurancePolicy(insurer.basePremiumRate, insurer.riskPremium, d.houseValue))
      ensures insurer.insuredHouseholds == old(insurer.insuredHouseholds) + {household}
    {
      var pos := RandomValidPosition(Width(), Height(), d.xDraw, d.yDraw);
      household := new Household(i + config.nInsurers, pos, d.houseValue);
      household.insurer := insurer;
      insurer.insuredHouseholds := insurer.insuredHouseholds + {household};
      household.policy := Some(InsurancePolicy(insurer.basePremiumRate, insurer.riskPremium, household.houseValue));
    }

    /**
      The step `_create_households` takes for one household: the scheduler
      gains a household it did not hold before, placed behind the occupants
      of its position, and enrolled with a scheduled insurer; no other
      household, insured set or ledger changes.
    */
    twostate predicate Joined()
      reads this, Households(), Insurers(), Ledgers()
    {
      && |scheduled| == |old(scheduled)| + 1 && scheduled[..|old(scheduled)|] == old(scheduled)
      && scheduled[|old(scheduled)|].HouseholdAgent?
      && var h := scheduled[|old(scheduled)|].household;
        && HouseholdAgent(h) !in old(scheduled)
        && h.pos in old(grid)
        && grid == old(grid)[h.pos := old(grid)[h.pos] + [HouseholdAgent(h)]]
        && h.insurer != null && InsurerAgent(h.insurer) in old(scheduled)
        && (forall a :: a in old(scheduled) && a.InsurerAgent? ==>
              a.insurer.insuredHouseholds
              == old(a.insurer.insuredHouseholds) + (if a.insurer == h.insurer then {h} else {}))
        && (forall a :: a in old(scheduled) && a.HouseholdAgent? ==> a.household.insurer == old(a.household.insurer))
        && (forall a :: a in old(scheduled) && a.InsurerAgent? ==>
              a.insurer.metrics.Snapshot() == old(a.insurer.metrics.Snapshot()))
    }

    /** A household joining keeps the model valid. */
    twostate lemma HouseholdJoined()
      requires old(Valid()) && Joined()
      ensures Valid()
    {
      JoinedKeepsDistinct();
      JoinedKeepsGrid();
      JoinedKeepsCover();
      JoinedKeepsLedgers();
    }

    /** A household joining adds an agent the scheduler did not hold, and no cell or ledger. */
    twostate lemma JoinedKeepsDistinct()
      requires old(Valid()) && Joined()
      ensures AgentsDistinct()
    {
    }

    /** A household joining changes no ledger. */
    twostate lemma JoinedKeepsLedgers()
      requires old(Valid()) && Joined()
      ensures LedgersBalanced()
    {
      var h := scheduled[|old(scheduled)|].household;
      forall a | a in scheduled ==> a in old(scheduled) || a == HouseholdAgent(h) {
      }
    }

    /** A household joining keeps the grid laid out: it stands behind the cell of its own position. */
    twostate lemma JoinedKeepsGrid()
      requires old(Valid()) && Joined()
      ensures GridLaidOut()
    {
      var h := scheduled[|old(scheduled)|].household;
      forall a | a in scheduled ==> a in old(scheduled) || a == HouseholdAgent(h) {
      }
    }

    /** A household joining keeps every household in the insured set of exactly its own insurer. */
    twostate lemma JoinedKeepsCover()
      requires old(Valid()) && Joined()
      ensures CoverConsistent()
    {
      var h := scheduled[|old(scheduled)|].household;
      forall a | a in scheduled ==> a in old(scheduled) || a == HouseholdAgent(h) {
      }
    }

    /** The mean of every risk value of every scheduled cell. */
    ghost function MeanClimateRisk(): real
      reads this`scheduled, RiskObjectsOf(scheduled)
    {
      Mean(AllProbabilities(TablesOf(scheduled)))
    }

    /**
      _calculate_mean_climate_risk: gather the values of every scheduled
      cell's risk dict, in scheduling order, and average them; 0.0 when there
      are none.
    */
    method CalculateMeanClimateRisk() returns (mean: real)
      ensures mean == MeanClimateRisk()
    {
      var riskValues: seq<real> := [];
      for j := 0 to |scheduled|
        invariant riskValues == AllProbabilities(TablesOf(scheduled[..j]))
      {
        assert scheduled[..j + 1][..j] == scheduled[..j];
        assert TablesOf(scheduled[..j + 1])[..j] == TablesOf(scheduled[..j]);
        var agent := scheduled[j];
        if agent.CellAgent? {
          riskValues := riskValues + Probabilities(agent.cell.climateRisks.risks);
        } else {
          assert Probabilities([]) == [];
        }
      }
      assert scheduled[..|scheduled|] == scheduled;
      mean := if riskValues != [] then Sum(riskValues) / (|riskValues| as real) else 0.0;
    }

    /** GridCell.step for a scheduled cell: its risks grow; no other cell's risks and no ledger change. */
    method ActivateCell(cell: GridCell)
      requires Valid() && CellAgent(cell) in scheduled
      modifies cell.climateRisks
      ensures Valid()
      ensures cell.climateRisks.risks == Scaled(old(cell.climateRisks.risks), 1.0 + config.climateChangeRate)
      ensures forall c :: CellAgent(c) in scheduled && c != cell ==> c.climateRisks.risks == old(c.climateRisks.risks)
      ensures forall i :: InsurerAgent(i) in scheduled ==>
        && i.metrics.profitHistory == old(i.metrics.profitHistory) && i.riskPremium == old(i.riskPremium)
        && i.basePremiumRate == old(i.basePremiumRate) && i.insuredHouseholds == old(i.insuredHouseholds)
        && Charged(i.metrics, 0.0)
      ensures forall h :: HouseholdAgent(h) in scheduled ==>
        h.claimsHistory == old(h.claimsHistory) && h.insurer == old(h.insurer) && h.policy == old(h.policy)
    {
      cell.Step(config.climateChangeRate);
    }

    /**
      Household.step for a scheduled household: it appends one claim of a
      tenth of its house value per filed hazard, stamped with the current step
      count, and its insurer's ledger is charged their total; no other
      household's claims and no other insurer's ledger change.
    */
    method ActivateHousehold(household: Household, draw: Draws, ghost filed: seq<Hazard>)
      requires Valid() && HouseholdAgent(household) in scheduled && filed == household.Filing(grid, draw)
      modifies household`claimsHistory, if household.insurer != null then {household.insurer.metrics} else {}
      ensures Valid()
      ensures Claimed(household, filed, steps)
      ensures PaidOut(household, filed)
      ensures forall c :: CellAgent(c) in scheduled ==> c.climateRisks.risks == old(c.climateRisks.risks)
      ensures forall i :: InsurerAgent(i) in scheduled ==>
        && i.metrics.profitHistory == old(i.metrics.profitHistory) && i.riskPremium == old(i.riskPremium)
        && i.basePremiumRate == old(i.basePremiumRate) && i.insuredHouseholds == old(i.insuredHouseholds)
        && Charged(i.metrics, ClaimCharge(HouseholdAgent(household), filed, i))
      ensures forall h :: HouseholdAgent(h) in scheduled && h != household ==> h.claimsHistory == old(h.claimsHistory)
      ensures forall h :: HouseholdAgent(h) in scheduled ==> h.insurer == old(h.insurer) && h.policy == old(h.policy)
    {
      HouseholdStepKeepingLedgers(household, draw, filed);
      forall i | InsurerAgent(i) in scheduled
        ensures i.metrics.profitHistory == old(i.metrics.profitHistory)
        ensures Charged(i.metrics, ClaimCharge(HouseholdAgent(household), filed, i))
      {
        if household.insurer != null && i.metrics == household.insurer.metrics {
          assert InsurerAgent(household.insurer) in scheduled;
        }
      }
    }

    /** Household.step keeps every ledger balanced: a claim charges capital and claims paid alike. */
    method HouseholdStepKeepingLedgers(household: Household, draw: Draws, ghost filed: seq<Hazard>)
      requires Valid() && HouseholdAgent(household) in scheduled && filed == household.Filing(grid, draw)
      modifies household`claimsHistory, if household.insurer != null then {household.insurer.metrics} else {}
      ensures Valid()
      ensures Claimed(household, filed, steps)
      ensures household.insurer != null ==>
        household.insurer.metrics.Snapshot()
        == Charge(old(household.insurer.metrics.Snapshot()), ClaimsTotal(filed, household.houseValue * 0.1))
    {
      ghost var ledger := if household.insurer != null then household.insurer.metrics.Snapshot() else Ledger(0.0, 0.0, 0.0, []);
      household.Step(grid, steps, draw);
      if household.insurer != null {
        LedgerStaysBalanced(ledger, config.initialInsurerCapital, 0.0, ClaimsTotal(filed, household.houseValue * 0.1));
      }
      ValidKept();
    }

    /**
      Insurer.step for a scheduled insurer: it settles exactly one window,
      retunes its risk premium and gains the premiums its households owe; no
      other insurer's ledger changes.
    */
    method ActivateInsurer(insurer: Insurer)
      requires Valid() && InsurerAgent(insurer) in scheduled
      modifies insurer`riskPremium, insurer.metrics
      ensures Valid()
      ensures SettledOnce(old(insurer.metrics.profitHistory), insurer.metrics.profitHistory,
                          old(insurer.riskPremium), insurer.riskPremium)
      ensures insurer.metrics.capital == old(insurer.metrics.capital) + old(PremiumSum(insurer.insuredHouseholds))
      ensures Settled(insurer.metrics, old(PremiumSum(insurer.insuredHouseholds)))
      ensures forall c :: CellAgent(c) in scheduled ==> c.climateRisks.risks == old(c.climateRisks.risks)
      ensures forall i :: InsurerAgent(i) in scheduled && i != insurer ==>
        && i.metrics.profitHistory == old(i.metrics.profitHistory) && i.riskPremium == old(i.riskPremium)
        && Charged(i.metrics, 0.0)
      ensures forall i :: InsurerAgent(i) in scheduled ==>
        i.basePremiumRate == old(i.basePremiumRate) && i.insuredHouseholds == old(i.insuredHouseholds)
      ensures forall h :: HouseholdAgent(h) in scheduled ==>
        h.claimsHistory == old(h.claimsHistory) && h.insurer == old(h.insurer) && h.policy == old(h.policy)
    {
      ghost var ledger := insurer.metrics.Snapshot();
      ghost var premiums := PremiumSum(insurer.insuredHouseholds);
      insurer.Step();
      LedgerStaysBalanced(ledger, config.initialInsurerCapital, premiums, 0.0);
      LedgerStaysBalanced(Collect(ledger, premiums), config.initialInsurerCapital, 0.0, 0.0);
      ValidKept();
    }

    /**
      One activation of the scheduler round: the agent's own step, passed on
      as its callee states it. No other cell's risks, household's claims or
      insurer's profit history and premium change; every other insurer's
      ledger is charged exactly the claims the activation charges to it.
    */
    method Activate(agent: Agent, draw: Draws, ghost filed: seq<Hazard>)
      requires Valid() && agent in scheduled
      requires agent.HouseholdAgent? ==> filed == agent.household.Filing(grid, draw)
      modifies Footprint()
      ensures agent.CellAgent? ==>
        agent.cell.climateRisks.risks == Scaled(old(agent.cell.climateRisks.risks), 1.0 + config.climateChangeRate)
      ensures forall c :: CellAgent(c) in scheduled && CellAgent(c) != agent ==>
        c.climateRisks.risks == old(c.climateRisks.risks)
      ensures agent.InsurerAgent? ==>
        SettledOnce(old(agent.insurer.metrics.profitHistory), agent.insurer.metrics.profitHistory,
                    old(agent.insurer.riskPremium), agent.insurer.riskPremium)
      ensures forall i :: InsurerAgent(i) in scheduled && InsurerAgent(i) != agent ==>
        && i.metrics.profitHistory == old(i.metrics.profitHistory) && i.riskPremium == old(i.riskPremium)
        && Charged(i.metrics, ClaimCharge(agent, filed, i))
      ensures forall i :: InsurerAgent(i) in scheduled ==>
        i.basePremiumRate == old(i.basePremiumRate) && i.insuredHouseholds == old(i.insuredHouseholds)
      ensures agent.HouseholdAgent? ==> Claimed(agent.household, filed, steps)
      ensures forall h :: HouseholdAgent(h) in scheduled && HouseholdAgent(h) != agent ==>
        h.claimsHistory == old(h.claimsHistory)
      ensures forall h :: HouseholdAgent(h) in scheduled ==> h.insurer == old(h.insurer) && h.policy == old(h.policy)
      ensures agent.InsurerAgent? ==> Settled(agent.insurer.metrics, old(PremiumSum(agent.insurer.insuredHouseholds)))
      ensures agent.HouseholdAgent? ==> PaidOut(agent.household, filed)
      ensures Valid()
    {
      match agent
      case CellAgent(cell) =>
        ActivateCell(cell);
      case HouseholdAgent(household) =>
        ActivateHousehold(household, draw, filed);
      case InsurerAgent(insurer) =>
        ActivateInsurer(insurer);
    }

    /** What a round starts from: the state of every scheduled agent that the round may change or must keep. */
    ghost function RoundStart(): (start: Round)
      reads this, Footprint()
      ensures forall a :: a in scheduled && a.CellAgent? ==> a in start.risks
      ensures forall a :: a in scheduled && a.InsurerAgent? ==>
        && a in start.histories && a in start.riskPremiums && a in start.rates && a in start.insured
        && a in start.ledgers && a in start.collected
      ensures forall a :: a in scheduled && a.HouseholdAgent? ==>
        a in start.claims && a in start.insurerOf && a in start.policies
    {
      Round(
        map a | a in scheduled && a.CellAgent? :: a.cell.climateRisks.risks,
        map a | a in scheduled && a.InsurerAgent? :: a.insurer.metrics.profitHistory,
        map a | a in scheduled && a.InsurerAgent? :: a.insurer.riskPremium,
        map a | a in scheduled && a.HouseholdAgent? :: a.household.claimsHistory,
        map a | a in scheduled && a.InsurerAgent? :: a.insurer.basePremiumRate,
        map a | a in scheduled && a.InsurerAgent? :: a.insurer.insuredHouseholds,
        map a | a in scheduled && a.HouseholdAgent? :: a.household.insurer,
        map a | a in scheduled && a.HouseholdAgent? :: a.household.policy,
        map a | a in scheduled && a.InsurerAgent? :: a.insurer.metrics.Snapshot(),
        map a | a in scheduled && a.InsurerAgent? ::
          if a.insurer.insuredHouseholds <= Households() then PremiumSum(a.insurer.insuredHouseholds) else 0.0,
        steps)
    }

    /**
      The hazards the k-th activation of a round from `start` files claims
      for: none unless order[k] is a household that was insured at the start
      and stands on a cell; then those of that cell's hazards whose draw in
      draws[k] falls below the cell's probability, as grown already when the
      cell came earlier in the order and as at the start otherwise.
    */
    ghost function RoundFiled(start: Round, order: seq<Agent>, draws: seq<Draws>, k: nat): seq<Hazard>
      requires k < |order| && |draws| == |order|
      reads this`grid
    {
      var agent := order[k];
      if !agent.HouseholdAgent? || agent !in start.insurerOf || agent !in start.policies
         || start.insurerOf[agent] == null || start.policies[agent].None?
      then []
      else
        var contents := Occupants(grid, agent.household.pos);
        if contents == [] || contents[0] !in start.risks then []
        else
          var risks := start.risks[contents[0]];
          TriggeredHazards(if contents[0] in order[..k] then Scaled(risks, 1.0 + config.climateChangeRate) else risks,
                           draws[k])
    }

    /** The claims the first k activations of a round from `start` charge to `insurer`. */
    ghost function RoundCharged(start: Round, order: seq<Agent>, draws: seq<Draws>, k: nat, insurer: Insurer): real
      requires k <= |order| && |draws| == |order|
      reads this`grid
      decreases k
    {
      if k == 0 then 0.0 else RoundCharged(start, order, draws, k - 1, insurer) + StepCharge(start, order, draws, k - 1, insurer)
    }

    /** The claims the k-th activation of a round from `start` charges to `insurer`. */
    ghost function StepCharge(start: Round, order: seq<Agent>, draws: seq<Draws>, k: nat, insurer: Insurer): real
      requires k < |order| && |draws| == |order|
      reads this`grid
    {
      var agent := order[k];
      if agent.HouseholdAgent? && agent in start.insurerOf && start.insurerOf[agent] == insurer
      then ClaimsTotal(RoundFiled(start, order, draws, k), agent.household.houseValue * 0.1)
      else 0.0
    }

    /**
      The ledger of `insurer` after the first k activations of a round from
      `start`: one LedgerTurn per activation.
    */
    ghost function RoundLedger(start: Round, order: seq<Agent>, draws: seq<Draws>, k: nat, insurer: Insurer): Ledger
      requires k <= |order| && |draws| == |order|
      requires InsurerAgent(insurer) in start.ledgers && InsurerAgent(insurer) in start.collected
      reads this`grid
      decreases k
    {
      var a := InsurerAgent(insurer);
      if k == 0 then start.ledgers[a]
      else
        LedgerTurn(RoundLedger(start, order, draws, k - 1, insurer), order[k - 1] == a, start.collected[a],
                   StepCharge(start, order, draws, k - 1, insurer))
    }

    /** Until its own turn, an insurer's ledger has only been charged the claims of the round so far. */
    lemma {:induction false} LedgerBeforeTurn(start: Round, order: seq<Agent>, draws: seq<Draws>, k: nat, insurer: Insurer)
      requires k <= |order| && |draws| == |order|
      requires InsurerAgent(insurer) in start.ledgers && InsurerAgent(insurer) in start.collected
      requires InsurerAgent(insurer) !in order[..k]
      ensures RoundLedger(start, order, draws, k, insurer)
              == Charge(start.ledgers[InsurerAgent(insurer)], RoundCharged(start, order, draws, k, insurer))
      decreases k
    {
      if k > 0 {
        assert order[..k] == order[..k - 1] + [order[k - 1]];
        LedgerBeforeTurn(start, order, draws, k - 1, insurer);
      }
    }

    /**
      After its own turn j, an insurer's ledger is RoundEndLedger of its
      start ledger, its premiums, the claims charged before its turn and
      those charged since.
    */
    lemma {:induction false} LedgerAfterTurn(start: Round, order: seq<Agent>, draws: seq<Draws>, j: nat, k: nat, insurer: Insurer)
      requires j < k <= |order| && |draws| == |order| && order[j] == InsurerAgent(insurer)
      requires InsurerAgent(insurer) in start.ledgers && InsurerAgent(insurer) in start.collected
      requires InsurerAgent(insurer) !in order[..j] && InsurerAgent(insurer) !in order[j + 1..k]
      ensures RoundLedger(start, order, draws, k, insurer)
              == RoundEndLedger(start.ledgers[InsurerAgent(insurer)], start.collected[InsurerAgent(insurer)],
                                RoundCharged(start, order, draws, j, insurer),
                                RoundCharged(start, order, draws, k, insurer) - RoundCharged(start, order, draws, j, insurer))
      decreases k
    {
      if k == j + 1 {
        LedgerBeforeTurn(start, order, draws, j, insurer);
      } else {
        assert order[j + 1..k] == order[j + 1..k - 1] + [order[k - 1]];
        LedgerAfterTurn(start, order, draws, j, k - 1, insurer);
      }
    }

    /**
      An insurer activated once in a round ends it with its start capital
      plus its premiums less every claim the round charged to it.
    */
    lemma FinalCapital(start: Round, order: seq<Agent>, draws: seq<Draws>, j: nat)
      requires j < |order| && |draws| == |order| && Distinct(order) && order[j].InsurerAgent?
      requires order[j] in start.ledgers && order[j] in start.collected
      ensures RoundLedger(start, order, draws, |order|, order[j].insurer).capital
              == start.ledgers[order[j]].capital + start.collected[order[j]]
                 - RoundCharged(start, order, draws, |order|, order[j].insurer)
    {
      assert order[j] !in order[..j] && order[j] !in order[j + 1..|order|];
      LedgerAfterTurn(start, order, draws, j, |order|, order[j].insurer);
    }

    /** The hazards the k-th activation of a round run now in `order` under `draws` files claims for. */
    ghost function ClaimsFiled(order: seq<Agent>, draws: seq<Draws>, k: nat): seq<Hazard>
      requires k < |order| && |draws| == |order|
      reads this, Footprint()
    {
      RoundFiled(RoundStart(), order, draws, k)
    }

    /** The claims a round run now in `order` under `draws` charges to `insurer`. */
    ghost function ClaimsCharged(order: seq<Agent>, draws: seq<Draws>, insurer: Insurer): real
      requires |draws| == |order|
      reads this, Footprint()
    {
      RoundCharged(RoundStart(), order, draws, |order|, insurer)
    }

    /** The ledger a round run now in `order` under `draws` leaves `insurer` with. */
    ghost function FinalLedger(order: seq<Agent>, draws: seq<Draws>, insurer: Insurer): Ledger
      requires |draws| == |order| && InsurerAgent(insurer) in scheduled
      reads this, Footprint()
    {
      RoundLedger(RoundStart(), order, draws, |order|, insurer)
    }

    /**
      In a round over `order`, activating each agent once, the insurer
      activated j-th ends with the ledger EndLedger gives for its place: the
      window it closes holds the claims charged before its turn, the window
      it leaves open those charged after it.
    */
    lemma FinalLedgerAtTurn(order: seq<Agent>, draws: seq<Draws>, j: nat)
      requires j < |order| && |draws| == |order| && Distinct(order)
      requires order[j].InsurerAgent? && order[j] in scheduled
      ensures FinalLedger(order, draws, order[j].insurer) == EndLedger(order, draws, j)
    {
      var insurer := order[j].insurer;
      assert InsurerAgent(insurer) !in order[..j] && InsurerAgent(insurer) !in order[j + 1..|order|];
      LedgerAfterTurn(RoundStart(), order, draws, j, |order|, insurer);
    }

    /**
      The ledger the insurer activated j-th in a round run now in `order`
      under `draws` ends the round with: the window it closes holds the
      claims charged before its turn, the window it leaves open those
      charged after it.
    */
    ghost function EndLedger(order: seq<Agent>, draws: seq<Draws>, j: nat): Ledger
      requires j < |order| && |draws| == |order| && order[j].InsurerAgent? && order[j] in scheduled
      reads this, Footprint()
    {
      var start := RoundStart();
      var a := order[j];
      var before := RoundCharged(start, order, draws, j, a.insurer);
      RoundEndLedger(start.ledgers[a], start.collected[a], before,
                     RoundCharged(start, order, draws, |order|, a.insurer) - before)
    }

    /** Part way through a round: the cells in `done` have grown once, the others not yet. */
    ghost predicate CellsGrown(start: Round, done: seq<Agent>)
      reads this, RiskObjectsOf(scheduled)
    {
      forall a :: a in scheduled && a.CellAgent? ==>
        && a in start.risks
        && (a in done ==> a.cell.climateRisks.risks == Scaled(start.risks[a], 1.0 + config.climateChangeRate))
        && (a !in done ==> a.cell.climateRisks.risks == start.risks[a])
    }

    /** Part way through a round: the insurers in `done` have settled once, the others not yet. */
    ghost predicate InsurersSettled(start: Round, done: seq<Agent>)
      reads this, Insurers(), Ledgers()
    {
      forall a :: a in scheduled && a.InsurerAgent? ==>
        && a in start.histories && a in start.riskPremiums
        && (a in done ==>
              SettledOnce(start.histories[a], a.insurer.metrics.profitHistory, start.riskPremiums[a], a.insurer.riskPremium))
        && (a !in done ==>
              a.insurer.metrics.profitHistory == start.histories[a] && a.insurer.riskPremium == start.riskPremiums[a])
    }

    /**
      Part way through a round: each insurer's ledger is its start ledger
      taken through the first k activations, one LedgerTurn each.
    */
    ghost predicate InsurersCharged(start: Round, order: seq<Agent>, draws: seq<Draws>, k: nat)
      requires k <= |order| && |draws| == |order|
      reads this, Ledgers()
    {
      forall a :: a in scheduled && a.InsurerAgent? ==> InsurerCharged(start, order, draws, k, a)
    }

    /** The ledger of the insurer `a` after the first k activations of a round from `start`. */
    ghost predicate InsurerCharged(start: Round, order: seq<Agent>, draws: seq<Draws>, k: nat, a: Agent)
      requires k <= |order| && |draws| == |order| && a.InsurerAgent?
      reads this`grid, a.insurer.metrics
    {
      && a in start.ledgers && a in start.collected
      && a.insurer.metrics.Snapshot() == RoundLedger(start, order, draws, k, a.insurer)
    }

    /**
      Part way through a round: each household among the first k activations
      has appended exactly the claims its activation filed, stamped with the
      round's step count.
    */
    ghost predicate HouseholdsClaimed(start: Round, order: seq<Agent>, draws: seq<Draws>, k: nat)
      requires k <= |order| && |draws| == |order|
      reads this, Households()
    {
      forall j :: 0 <= j < k && order[j] in scheduled ==> HouseholdClaimed(start, order, draws, j)
    }

    /** The claims of the j-th activation of a round from `start`, when a household: those it filed, appended. */
    ghost predicate HouseholdClaimed(start: Round, order: seq<Agent>, draws: seq<Draws>, j: nat)
      requires j < |order| && |draws| == |order|
      reads this`grid, if order[j].HouseholdAgent? then {order[j].household} else {}
    {
      order[j].HouseholdAgent? ==>
        && order[j] in start.claims
        && order[j].household.claimsHistory
           == start.claims[order[j]]
              + ClaimRecords(RoundFiled(start, order, draws, j), order[j].household.houseValue * 0.1, start.steps)
    }

    /** Part way through a round: every household not yet activated has appended nothing. */
    ghost predicate HouseholdsWaiting(start: Round, done: seq<Agent>)
      reads this, Households()
    {
      forall a :: a in scheduled && a.HouseholdAgent? && a !in done ==>
        a in start.claims && a.household.claimsHistory == start.claims[a]
    }

    /**
      Throughout a round: no insurer changes its base rate, its insured set or
      what they owe it, and no household changes its insurer or policy.
    */
    ghost predicate Unmoved(start: Round)
      reads this, Households(), Insurers()
    {
      && (forall a :: a in scheduled && a.InsurerAgent? ==>
            && a in start.rates && a in start.insured && a in start.collected
            && a.insurer.basePremiumRate == start.rates[a]
            && a.insurer.insuredHouseholds == start.insured[a]
            && a.insurer.insuredHouseholds <= Households()
            && PremiumSum(a.insurer.insuredHouseholds) == start.collected[a])
      && (forall a :: a in scheduled && a.HouseholdAgent? ==>
            && a in start.insurerOf && a in start.policies
            && a.household.insurer == start.insurerOf[a]
            && a.household.policy == start.policies[a])
    }

    /** Part way through a round: the first k agents of `order` are done, and what they did. */
    ghost predicate InRound(start: Round, order: seq<Agent>, draws: seq<Draws>, k: nat)
      reads this, Footprint()
    {
      && k <= |order| && |draws| == |order|
      && steps == start.steps
      && CellsGrown(start, order[..k])
      && InsurersSettled(start, order[..k])
      && InsurersCharged(start, order, draws, k)
      && HouseholdsClaimed(start, order, draws, k)
      && HouseholdsWaiting(start, order[..k])
      && Unmoved(start)
    }

    /** Every insured set holds only scheduled households. */
    lemma InsuredAreHouseholds()
      requires Valid()
      ensures forall a :: a in scheduled && a.InsurerAgent? ==> a.insurer.insuredHouseholds <= Households()
    {
      forall a, h | a in scheduled && a.InsurerAgent? && h in a.insurer.insuredHouseholds
        ensures h in Households()
      {
        assert HouseholdAgent(h) in scheduled;
      }
    }

    /** Before the k-th activation, the hazards its household would file are the ones the round plans for it. */
    lemma FiledInRound(start: Round, order: seq<Agent>, draws: seq<Draws>, k: nat)
      requires Valid() && InRound(start, order, draws, k) && k < |order|
      requires order[k] in scheduled
      ensures order[k].HouseholdAgent? ==> order[k].household.Filing(grid, draws[k]) == RoundFiled(start, order, draws, k)
    {
      if order[k].HouseholdAgent? {
        var h := order[k].household;
        var contents := Occupants(grid, h.pos);
        assert contents[0] in scheduled && contents[0].CellAgent?;
      }
    }

    /** One more activation keeps the cells' progress. */
    twostate lemma CellsAdvance(turn: Turn)
      requires turn.k < |turn.order| && turn.order[turn.k] !in turn.order[..turn.k]
      requires scheduled == old(scheduled)
      requires old(CellsGrown(turn.start, turn.order[..turn.k]))
      requires turn.order[turn.k].CellAgent? ==>
        turn.order[turn.k].cell.climateRisks.risks
        == Scaled(old(turn.order[turn.k].cell.climateRisks.risks), 1.0 + config.climateChangeRate)
      requires forall c :: CellAgent(c) in scheduled && CellAgent(c) != turn.order[turn.k] ==>
        c.climateRisks.risks == old(c.climateRisks.risks)
      ensures CellsGrown(turn.start, turn.order[..turn.k + 1])
    {
      assert turn.order[..turn.k + 1] == turn.order[..turn.k] + [turn.order[turn.k]];
    }

    /** One more activation keeps the insurers' settlement progress. */
    twostate lemma SettleAdvance(turn: Turn)
      requires turn.k < |turn.order| && turn.order[turn.k] !in turn.order[..turn.k]
      requires scheduled == old(scheduled)
      requires old(InsurersSettled(turn.start, turn.order[..turn.k]))
      requires turn.order[turn.k].InsurerAgent? ==>
        SettledOnce(old(turn.order[turn.k].insurer.metrics.profitHistory), turn.order[turn.k].insurer.metrics.profitHistory,
                    old(turn.order[turn.k].insurer.riskPremium), turn.order[turn.k].insurer.riskPremium)
      requires forall i :: InsurerAgent(i) in scheduled && InsurerAgent(i) != turn.order[turn.k] ==>
        i.metrics.profitHistory == old(i.metrics.profitHistory) && i.riskPremium == old(i.riskPremium)
      ensures InsurersSettled(turn.start, turn.order[..turn.k + 1])
    {
      assert turn.order[..turn.k + 1] == turn.order[..turn.k] + [turn.order[turn.k]];
    }

    /** One more activation keeps every insurer's ledger on the round's account. */
    twostate lemma ChargeAdvance(turn: Turn)
      requires turn.k < |turn.order| == |turn.draws| && turn.order[turn.k] !in turn.order[..turn.k]
      requires turn.order[turn.k] in scheduled
      requires scheduled == old(scheduled) && grid == old(grid)
      requires old(InsurersCharged(turn.start, turn.order, turn.draws, turn.k)) && old(Unmoved(turn.start))
      requires forall h :: HouseholdAgent(h) in scheduled ==> h.insurer == old(h.insurer)
      requires turn.order[turn.k].InsurerAgent? ==>
        Settled(turn.order[turn.k].insurer.metrics, old(PremiumSum(turn.order[turn.k].insurer.insuredHouseholds)))
      requires forall i :: InsurerAgent(i) in scheduled && InsurerAgent(i) != turn.order[turn.k] ==>
        Charged(i.metrics, ClaimCharge(turn.order[turn.k], old(RoundFiled(turn.start, turn.order, turn.draws, turn.k)), i))
      ensures InsurersCharged(turn.start, turn.order, turn.draws, turn.k + 1)
    {
      var start, order, draws, k := turn.start, turn.order, turn.draws, turn.k;
      var agent := order[k];
      assert old(RoundFiled(start, order, draws, k)) == RoundFiled(start, order, draws, k);
      forall a | a in scheduled && a.InsurerAgent?
        ensures InsurerCharged(start, order, draws, k + 1, a)
      {
        assert old(InsurerCharged(start, order, draws, k, a));
        if a == agent {
          assert old(PremiumSum(a.insurer.insuredHouseholds)) == start.collected[a];
        } else if agent.HouseholdAgent? {
          assert agent in start.insurerOf && start.insurerOf[agent] == agent.household.insurer;
        }
      }
    }

    /** One more activation keeps the households' claims on the round's account. */
    twostate lemma ClaimsAdvance(turn: Turn)
      requires turn.k < |turn.order| == |turn.draws| && turn.order[turn.k] !in turn.order[..turn.k]
      requires scheduled == old(scheduled) && grid == old(grid)
      requires old(HouseholdsClaimed(turn.start, turn.order, turn.draws, turn.k))
      requires old(HouseholdsWaiting(turn.start, turn.order[..turn.k]))
      requires steps == turn.start.steps
      requires turn.order[turn.k].HouseholdAgent? ==>
        Claimed(turn.order[turn.k].household, old(RoundFiled(turn.start, turn.order, turn.draws, turn.k)), steps)
      requires forall h :: HouseholdAgent(h) in scheduled && HouseholdAgent(h) != turn.order[turn.k] ==>
        h.claimsHistory == old(h.claimsHistory)
      ensures HouseholdsClaimed(turn.start, turn.order, turn.draws, turn.k + 1)
    {
      var start, order, draws, k := turn.start, turn.order, turn.draws, turn.k;
      forall j | 0 <= j < k + 1 && order[j] in scheduled && order[j].HouseholdAgent?
        ensures HouseholdClaimed(start, order, draws, j)
      {
        var h := order[j].household;
        assert old(RoundFiled(start, order, draws, j)) == RoundFiled(start, order, draws, j);
        if j < k {
          assert order[j] in order[..k] && order[j] != order[k];
          assert old(HouseholdClaimed(start, order, draws, j));
        } else {
          assert order[j] !in order[..k];
          assert old(h.claimsHistory) == start.claims[order[j]];
        }
      }
    }

    /** One more activation leaves every household still waiting untouched. */
    twostate lemma WaitingAdvance(turn: Turn)
      requires turn.k < |turn.order|
      requires scheduled == old(scheduled)
      requires old(HouseholdsWaiting(turn.start, turn.order[..turn.k]))
      requires forall h :: HouseholdAgent(h) in scheduled && HouseholdAgent(h) != turn.order[turn.k] ==>
        h.claimsHistory == old(h.claimsHistory)
      ensures HouseholdsWaiting(turn.start, turn.order[..turn.k + 1])
    {
      assert turn.order[..turn.k + 1] == turn.order[..turn.k] + [turn.order[turn.k]];
    }

    /** What no activation changes stays as the round found it. */
    twostate lemma UnmovedKept(start: Round)
      requires old(Unmoved(start)) && scheduled == old(scheduled)
      requires forall i :: InsurerAgent(i) in scheduled ==>
        i.basePremiumRate == old(i.basePremiumRate) && i.insuredHouseholds == old(i.insuredHouseholds)
      requires forall h :: HouseholdAgent(h) in scheduled ==> h.insurer == old(h.insurer) && h.policy == old(h.policy)
      ensures Unmoved(start)
    {
      forall a | a in scheduled && a.InsurerAgent?
        ensures PremiumSum(a.insurer.insuredHouseholds) == old(PremiumSum(a.insurer.insuredHouseholds))
      {
        forall h | h in a.insurer.insuredHouseholds ensures h.policy == old(h.policy) {
          assert HouseholdAgent(h) in scheduled;
        }
        PremiumSumKept(a.insurer.insuredHouseholds);
      }
    }

    /**
      The k-th activation of a round, doing what Activate states for
      order[k] with the hazards the round plans for it, takes the round from
      k agents done to k + 1.
    */
    twostate lemma TurnAdvance(turn: Turn)
      requires turn.k < |turn.order| == |turn.draws|
      requires turn.order[turn.k] in scheduled && turn.order[turn.k] !in turn.order[..turn.k]
      requires scheduled == old(scheduled) && grid == old(grid) && steps == old(steps)
      requires old(InRound(turn.start, turn.order, turn.draws, turn.k))
      requires turn.order[turn.k].CellAgent? ==>
        turn.order[turn.k].cell.climateRisks.risks
        == Scaled(old(turn.order[turn.k].cell.climateRisks.risks), 1.0 + config.climateChangeRate)
      requires forall c :: CellAgent(c) in scheduled && CellAgent(c) != turn.order[turn.k] ==>
        c.climateRisks.risks == old(c.climateRisks.risks)
      requires turn.order[turn.k].InsurerAgent? ==>
        SettledOnce(old(turn.order[turn.k].insurer.metrics.profitHistory), turn.order[turn.k].insurer.metrics.profitHistory,
                    old(turn.order[turn.k].insurer.riskPremium), turn.order[turn.k].insurer.riskPremium)
      requires turn.order[turn.k].InsurerAgent? ==>
        Settled(turn.order[turn.k].insurer.metrics, old(PremiumSum(turn.order[turn.k].insurer.insuredHouseholds)))
      requires forall i :: InsurerAgent(i) in scheduled && InsurerAgent(i) != turn.order[turn.k] ==>
        && i.metrics.profitHistory == old(i.metrics.profitHistory) && i.riskPremium == old(i.riskPremium)
        && Charged(i.metrics, ClaimCharge(turn.order[turn.k], old(RoundFiled(turn.start, turn.order, turn.draws, turn.k)), i))
      requires forall i :: InsurerAgent(i) in scheduled ==>
        i.basePremiumRate == old(i.basePremiumRate) && i.insuredHouseholds == old(i.insuredHouseholds)
      requires turn.order[turn.k].HouseholdAgent? ==>
        Claimed(turn.order[turn.k].household, old(RoundFiled(turn.start, turn.order, turn.draws, turn.k)), steps)
      requires forall h :: HouseholdAgent(h) in scheduled && HouseholdAgent(h) != turn.order[turn.k] ==>
        h.claimsHistory == old(h.claimsHistory)
      requires forall h :: HouseholdAgent(h) in scheduled ==> h.insurer == old(h.insurer) && h.policy == old(h.policy)
      ensures InRound(turn.start, turn.order, turn.draws, turn.k + 1)
    {
      CellsAdvance(turn);
      SettleAdvance(turn);
      ChargeAdvance(turn);
      ClaimsAdvance(turn);
      WaitingAdvance(turn);
      UnmovedKept(turn.start);
    }

    /** The k-th activation of a round: order[k], not yet activated, acts once with draws[k]. */
    method ActivateInRound(order: seq<Agent>, draws: seq<Draws>, k: nat, ghost turn: Turn)
      requires turn.order == order && turn.draws == draws && turn.k == k
      requires k < |order| && order[k] in scheduled && order[k] !in order[..k]
      requires Valid() && InRound(turn.start, turn.order, turn.draws, turn.k)
      modifies Footprint()
      ensures Valid() && InRound(turn.start, turn.order, turn.draws, turn.k + 1)
    {
      OutsideFootprint();
      FiledInRound(turn.start, turn.order, turn.draws, turn.k);
      Activate(order[k], draws[k], RoundFiled(turn.start, turn.order, turn.draws, turn.k));
      TurnAdvance(turn);
    }

    /** At the end of a round every cell has grown once. */
    twostate lemma CellsComplete(turn: Turn)
      requires turn.start == old(RoundStart())
      requires scheduled == old(scheduled)
      requires turn.k == |turn.order| && forall a :: a in turn.order <==> a in scheduled
      requires CellsGrown(turn.start, turn.order[..turn.k])
      ensures forall c :: CellAgent(c) in scheduled ==>
        c.climateRisks.risks == Scaled(old(c.climateRisks.risks), 1.0 + config.climateChangeRate)
    {
      assert turn.order[..turn.k] == turn.order;
    }

    /**
      At the end of a round every insurer has settled once and holds its
      premiums less its charges, and each ledger is the round's fold of
      LedgerTurns over the order.
    */
    twostate lemma InsurersComplete(turn: Turn)
      requires turn.start == old(RoundStart())
      requires scheduled == old(scheduled) && grid == old(grid)
      requires turn.k == |turn.order| == |turn.draws| && Distinct(turn.order)
      requires forall a :: a in turn.order <==> a in scheduled
      requires InsurersSettled(turn.start, turn.order[..turn.k])
      requires InsurersCharged(turn.start, turn.order, turn.draws, turn.k)
      requires Unmoved(turn.start)
      ensures forall i :: InsurerAgent(i) in scheduled ==>
        && SettledOnce(old(i.metrics.profitHistory), i.metrics.profitHistory, old(i.riskPremium), i.riskPremium)
        && i.basePremiumRate == old(i.basePremiumRate)
        && i.insuredHouseholds == old(i.insuredHouseholds)
        && i.metrics.capital
           == old(i.metrics.capital) + old(PremiumSum(i.insuredHouseholds)) - old(ClaimsCharged(turn.order, turn.draws, i))
        && i.metrics.Snapshot() == old(FinalLedger(turn.order, turn.draws, i))
    {
      assert turn.order[..turn.k] == turn.order;
      InsurerCapitals(turn);
      forall i | InsurerAgent(i) in scheduled
        ensures i.metrics.Snapshot() == old(FinalLedger(turn.order, turn.draws, i))
      {
        assert InsurerCharged(turn.start, turn.order, turn.draws, turn.k, InsurerAgent(i));
      }
    }

    /** At the end of a round each insurer's capital gained its premiums and lost the round's claims against it. */
    twostate lemma InsurerCapitals(turn: Turn)
      requires turn.start == old(RoundStart())
      requires scheduled == old(scheduled) && grid == old(grid)
      requires turn.k == |turn.order| == |turn.draws| && Distinct(turn.order)
      requires forall a :: a in turn.order <==> a in scheduled
      requires InsurersCharged(turn.start, turn.order, turn.draws, turn.k)
      requires Unmoved(turn.start)
      ensures forall i :: InsurerAgent(i) in scheduled ==>
        i.metrics.capital
        == old(i.metrics.capital) + old(PremiumSum(i.insuredHouseholds)) - old(ClaimsCharged(turn.order, turn.draws, i))
    {
      forall i | InsurerAgent(i) in scheduled
        ensures i.metrics.capital
                == old(i.metrics.capital) + old(PremiumSum(i.insuredHouseholds)) - old(ClaimsCharged(turn.order, turn.draws, i))
      {
        var j :| 0 <= j < turn.k && turn.order[j] == InsurerAgent(i);
        InsurerDone(Turn(turn.start, turn.order, turn.draws, j));
      }
    }

    /**
      The insurer activated at turn.k of a finished round ends with its
      capital plus its premiums less all the claims the round charged to it.
    */
    twostate lemma InsurerDone(turn: Turn)
      requires turn.start == old(RoundStart())
      requires scheduled == old(scheduled) && grid == old(grid)
      requires |turn.order| == |turn.draws| && Distinct(turn.order) && turn.k < |turn.order|
      requires turn.order[turn.k].InsurerAgent? && turn.order[turn.k] in scheduled
      requires InsurersCharged(turn.start, turn.order, turn.draws, |turn.order|)
      requires Unmoved(turn.start)
      ensures var i := turn.order[turn.k].insurer;
        i.metrics.capital
        == old(i.metrics.capital) + old(PremiumSum(i.insuredHouseholds)) - old(ClaimsCharged(turn.order, turn.draws, i))
    {
      var start, order, draws, k := turn.start, turn.order, turn.draws, turn.k;
      var a := order[k];
      assert InsurerCharged(start, order, draws, |order|, a);
      FinalCapital(start, order, draws, k);
      assert old(PremiumSum(a.insurer.insuredHouseholds)) == start.collected[a];
    }

    /** At the end of a round each household holds exactly the claims its activation filed. */
    twostate lemma HouseholdsComplete(turn: Turn)
      requires turn.start == old(RoundStart())
      requires scheduled == old(scheduled) && grid == old(grid)
      requires turn.k == |turn.order| == |turn.draws| && forall a :: a in turn.order <==> a in scheduled
      requires HouseholdsClaimed(turn.start, turn.order, turn.draws, turn.k)
      requires Unmoved(turn.start)
      ensures forall j :: 0 <= j < turn.k && turn.order[j].HouseholdAgent? ==>
        Claimed(turn.order[j].household, old(ClaimsFiled(turn.order, turn.draws, j)), old(steps))
      ensures forall h :: HouseholdAgent(h) in scheduled ==> h.insurer == old(h.insurer) && h.policy == old(h.policy)
    {
      forall j | 0 <= j < turn.k && turn.order[j].HouseholdAgent?
        ensures Claimed(turn.order[j].household, old(ClaimsFiled(turn.order, turn.draws, j)), old(steps))
      {
        assert turn.order[j] in turn.order;
        HouseholdDone(Turn(turn.start, turn.order, turn.draws, j));
      }
    }

    /** The household activated at turn.k of a finished round holds exactly the claims it filed. */
    twostate lemma HouseholdDone(turn: Turn)
      requires turn.start == old(RoundStart())
      requires scheduled == old(scheduled) && grid == old(grid)
      requires turn.k < |turn.order| == |turn.draws| && turn.order[turn.k] in scheduled
      requires HouseholdClaimed(turn.start, turn.order, turn.draws, turn.k)
      ensures turn.order[turn.k].HouseholdAgent? ==>
        Claimed(turn.order[turn.k].household, old(ClaimsFiled(turn.order, turn.draws, turn.k)), old(steps))
    {
      if turn.order[turn.k].HouseholdAgent? {
        assert turn.start.claims[turn.order[turn.k]] == old(turn.order[turn.k].household.claimsHistory);
        assert old(ClaimsFiled(turn.order, turn.draws, turn.k)) == RoundFiled(turn.start, turn.order, turn.draws, turn.k);
      }
    }

    /**
      A round in which every scheduled agent is done has grown every cell
      once, settled every insurer once, charged each insurer its households'
      claims and given each household exactly the claims its activation filed.
    */
    twostate lemma RoundComplete(turn: Turn)
      requires turn.start == old(RoundStart())
      requires scheduled == old(scheduled) && grid == old(grid)
      requires turn.k == |turn.order| && Distinct(turn.order) && forall a :: a in turn.order <==> a in scheduled
      requires InRound(turn.start, turn.order, turn.draws, turn.k)
      ensures forall c :: CellAgent(c) in scheduled ==>
        c.climateRisks.risks == Scaled(old(c.climateRisks.risks), 1.0 + config.climateChangeRate)
      ensures forall i :: InsurerAgent(i) in scheduled ==>
        && SettledOnce(old(i.metrics.profitHistory), i.metrics.profitHistory, old(i.riskPremium), i.riskPremium)
        && i.basePremiumRate == old(i.basePremiumRate)
        && i.insuredHouseholds == old(i.insuredHouseholds)
        && i.metrics.capital
           == old(i.metrics.capital) + old(PremiumSum(i.insuredHouseholds)) - old(ClaimsCharged(turn.order, turn.draws, i))
        && i.metrics.Snapshot() == old(FinalLedger(turn.order, turn.draws, i))
      ensures forall j :: 0 <= j < turn.k && turn.order[j].HouseholdAgent? ==>
        Claimed(turn.order[j].household, old(ClaimsFiled(turn.order, turn.draws, j)), old(steps))
      ensures forall h :: HouseholdAgent(h) in scheduled ==> h.insurer == old(h.insurer) && h.policy == old(h.policy)
    {
      CellsComplete(turn);
      InsurersComplete(turn);
      HouseholdsComplete(turn);
    }

    /**
      The scheduler's step: every agent of `order` (the scheduler's shuffle
      of its agents) is activated exactly once, in that order; the agent
      activated k-th, if a household, draws its hazards from draws[k].
    */
    method ActivateAll(order: seq<Agent>, draws: seq<Draws>, ghost start: Round)
      requires Valid() && InRound(start, order, draws, 0)
      requires Distinct(order) && forall a :: a in order ==> a in scheduled
      modifies Footprint()
      ensures Valid() && InRound(start, order, draws, |order|)
    {
      OutsideFootprint();
      for k := 0 to |order|
        invariant scheduled == old(scheduled)
        invariant Valid() && InRound(start, order, draws, k)
      {
        assert order[k] !in order[..k] && order[k] in scheduled;
        assert Footprint() == old(Footprint());
        ghost var turn := Turn(start, order, draws, k);
        ActivateInRound(order, draws, k, turn);
      }
    }

    /**
      schedule.step: one scheduler round over `order`. Each cell grows its
      risks once; each insurer settles exactly one window and ends with its
      capital plus its households' premiums minus the claims this round
      charged to it, whatever the order, and with the ledger FinalLedger
      folds over the order (in closed form, FinalLedgerAtTurn); the
      household activated k-th appends exactly the claims it files under
      draws[k], stamped with the current step count.
    */
    method RunRound(order: seq<Agent>, draws: seq<Draws>)
      requires Valid() && KindsDistinct()
      requires Distinct(order) && (forall a :: a in order <==> a in scheduled)
      requires |draws| == |order|
      modifies Footprint()
      ensures forall k :: 0 <= k < |order| && order[k].HouseholdAgent? ==>
        order[k].household.claimsHistory
        == old(order[k].household.claimsHistory)
           + ClaimRecords(old(ClaimsFiled(order, draws, k)), order[k].household.houseValue * 0.1, old(steps))
      ensures Valid() && KindsDistinct()
      ensures forall c :: CellAgent(c) in scheduled ==>
        c.climateRisks.risks == Scaled(old(c.climateRisks.risks), 1.0 + config.climateChangeRate)
      ensures forall i :: InsurerAgent(i) in scheduled ==>
        && SettledOnce(old(i.metrics.profitHistory), i.metrics.profitHistory, old(i.riskPremium), i.riskPremium)
        && i.basePremiumRate == old(i.basePremiumRate)
        && i.insuredHouseholds == old(i.insuredHouseholds)
        && i.metrics.capital
           == old(i.metrics.capital) + old(PremiumSum(i.insuredHouseholds)) - old(ClaimsCharged(order, draws, i))
        && i.metrics.Snapshot() == old(FinalLedger(order, draws, i))
      ensures forall h :: HouseholdAgent(h) in scheduled ==> h.insurer == old(h.insurer) && h.policy == old(h.policy)
    {
      OutsideFootprint();
      ghost var start := RoundStart();
      RoundBegins(start, order, draws);
      ActivateAll(order, draws, start);
      RoundComplete(Turn(start, order, draws, |order|));
      KindsKept();
    }

    /**
      step: one scheduler round, then the step count advances. Each cell's
      dict still holds each hazard once.
    */
    method Step(order: seq<Agent>, draws: seq<Draws>)
      requires Valid() && KindsDistinct()
      requires Distinct(order) && (forall a :: a in order <==> a in scheduled)
      requires |draws| == |order|
      modifies this`steps, Footprint()
      ensures steps == old(steps) + 1
      ensures forall c :: CellAgent(c) in scheduled ==>
        c.climateRisks.risks == Scaled(old(c.climateRisks.risks), 1.0 + config.climateChangeRate)
      ensures forall i :: InsurerAgent(i) in scheduled ==>
        && SettledOnce(old(i.metrics.profitHistory), i.metrics.profitHistory, old(i.riskPremium), i.riskPremium)
        && i.basePremiumRate == old(i.basePremiumRate)
        && i.insuredHouseholds == old(i.insuredHouseholds)
        && i.metrics.capital
           == old(i.metrics.capital) + old(PremiumSum(i.insuredHouseholds)) - old(ClaimsCharged(order, draws, i))
        && i.metrics.Snapshot() == old(FinalLedger(order, draws, i))
      ensures forall h :: HouseholdAgent(h) in scheduled ==> h.insurer == old(h.insurer) && h.policy == old(h.policy)
      ensures forall k :: 0 <= k < |order| && order[k].HouseholdAgent? ==>
        order[k].household.claimsHistory
        == old(order[k].household.claimsHistory)
           + ClaimRecords(old(ClaimsFiled(order, draws, k)), order[k].household.houseValue * 0.1, old(steps))
      ensures Valid() && KindsDistinct()
    {
      OutsideFootprint();
      RunRound(order, draws);
      Tick();
    }

    /** Growing every cell's risks keeps each dict's keys, so each hazard stays once in each dict. */
    twostate lemma KindsKept()
      requires old(KindsDistinct()) && scheduled == old(scheduled)
      requires forall c :: CellAgent(c) in scheduled ==>
        c.climateRisks.risks == Scaled(old(c.climateRisks.risks), 1.0 + config.climateChangeRate)
      ensures KindsDistinct()
    {
      forall c | CellAgent(c) in scheduled ensures DistinctKinds(c.climateRisks.risks) {
        ScaledKeepsKinds(old(c.climateRisks.risks), 1.0 + config.climateChangeRate);
      }
    }

    /** The step counter advances by one; nothing the invariant speaks of changes. */
    method Tick()
      requires Valid()
      modifies this`steps
      ensures Valid() && steps == old(steps) + 1
    {
      steps := steps + 1;
    }

    /** The model object itself is none of the objects a round changes. */
    lemma OutsideFootprint()
      ensures this !in Footprint()
    {
    }

    /** Before any activation the round's progress holds: nothing is done yet. */
    lemma RoundBegins(start: Round, order: seq<Agent>, draws: seq<Draws>)
      requires Valid() && start == RoundStart() && |draws| == |order|
      ensures InRound(start, order, draws, 0)
    {
      UnmovedAtStart(start);
    }

    /** At the start of a round each insurer is owed the premiums of its insured set, all of them scheduled households. */
    lemma UnmovedAtStart(start: Round)
      requires Valid() && start == RoundStart()
      ensures Unmoved(start)
    {
      InsuredAreHouseholds();
      forall a | a in scheduled && a.InsurerAgent?
        ensures && a in start.rates && a in start.insured && a in start.collected
                && a.insurer.basePremiumRate == start.rates[a]
                && a.insurer.insuredHouseholds == start.insured[a]
                && a.insurer.insuredHouseholds <= Households()
                && PremiumSum(a.insurer.insuredHouseholds) == start.collected[a]
      {
      }
      forall a | a in scheduled && a.HouseholdAgent?
        ensures && a in start.insurerOf && a in start.policies
                && a.household.insurer == start.insurerOf[a]
                && a.household.policy == start.policies[a]
      {
      }
    }

    /**
      With each cell's dict holding each hazard once, no activation of a round
      files two claims for the same hazard.
    */
    lemma ClaimsFiledOncePerHazard(order: seq<Agent>, draws: seq<Draws>, k: nat)
      requires KindsDistinct() && k < |order| && |draws| == |order|
      ensures NoRepeats(ClaimsFiled(order, draws, k))
    {
      var start := RoundStart();
      var agent := order[k];
      if agent.HouseholdAgent? && agent in start.insurerOf && agent in start.policies
         && start.insurerOf[agent] != null && start.policies[agent].Some? {
        var contents := Occupants(grid, agent.household.pos);
        if contents != [] && contents[0] in start.risks {
          var risks := start.risks[contents[0]];
          assert DistinctKinds(risks);
          ScaledKeepsKinds(risks, 1.0 + config.climateChangeRate);
          var grown := if contents[0] in order[..k] then Scaled(risks, 1.0 + config.climateChangeRate) else risks;
          TriggeredOncePerHazard(grown, draws[k]);
        }
      }
    }

    /**
      apply_climate_shock: for each listed position, in order, the first grid
      cell there (if any) has every risk multiplied by 1 + shockMagnitude. A
      cell listed n times is shocked n times; positions without a cell are
      skipped; `duration` is not used.
    */
    method ApplyClimateShock(affectedPositions: seq<Pos>, shockMagnitude: real, duration: int)
      requires Valid() && KindsDistinct()
      modifies RiskObjectsOf(scheduled)
      ensures Valid() && KindsDistinct()
      ensures forall c :: CellAgent(c) in scheduled ==>
        c.climateRisks.risks
        == Scaled(old(c.climateRisks.risks), Pow(1.0 + shockMagnitude, multiset(affectedPositions)[c.pos]))
    {
      var factor := 1.0 + shockMagnitude;
      forall c | CellAgent(c) in scheduled
        ensures c.climateRisks.risks == Scaled(c.climateRisks.risks, Pow(factor, 0))
      {
        ScaledByOne(c.climateRisks.risks);
      }
      for k := 0 to |affectedPositions|
        invariant Valid()
        invariant forall c :: CellAgent(c) in scheduled ==>
          c.climateRisks.risks
          == Scaled(old(c.climateRisks.risks), Pow(factor, multiset(affectedPositions[..k])[c.pos]))
      {
        var pos := affectedPositions[k];
        assert affectedPositions[..k + 1] == affectedPositions[..k] + [pos];
        ShockPosition(pos, shockMagnitude);
        forall c | CellAgent(c) in scheduled
          ensures c.climateRisks.risks
                  == Scaled(old(c.climateRisks.risks), Pow(factor, multiset(affectedPositions[..k + 1])[c.pos]))
        {
          ShockCountStep(old(c.climateRisks.risks), factor, affectedPositions[..k], pos, c.pos);
        }
      }
      assert affectedPositions[..|affectedPositions|] == affectedPositions;
      forall c | CellAgent(c) in scheduled ensures DistinctKinds(c.climateRisks.risks) {
        ScaledKeepsKinds(old(c.climateRisks.risks), Pow(factor, multiset(affectedPositions)[c.pos]));
      }
    }

    /** One position of a shock: the cell there, if any, is shocked once; every other cell is untouched. */
    method ShockPosition(pos: Pos, shockMagnitude: real)
      requires Valid()
      modifies RiskObjectsOf(scheduled)
      ensures Valid()
      ensures forall c :: CellAgent(c) in scheduled && c.pos == pos ==>
        c.climateRisks.risks == Scaled(old(c.climateRisks.risks), 1.0 + shockMagnitude)
      ensures forall c :: CellAgent(c) in scheduled && c.pos != pos ==>
        c.climateRisks.risks == old(c.climateRisks.risks)
    {
      var cellContents := Occupants(grid, pos);
      var gridCell := FirstCell(cellContents);
      if gridCell.Some? {
        var shocked := gridCell.value;
        assert shocked == cellContents[0].cell;
        shocked.climateRisks.ApplyShock(shockMagnitude);
        forall c | CellAgent(c) in scheduled && c.pos == pos ensures c == shocked {
          OneCellPerPosition(c, shocked);
        }
      }
    }
  }
}
