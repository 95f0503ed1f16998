/**
 * The agent builder of the original environment (modules/dm.make_market.py):
 * it builds the test population with the first of its trader classes and the
 * spot market the traders' schedules define.
 */
module MakeMarketLegacy {
  import opened Wrappers
  import opened Protocol
  import opened Strategies
  import opened Equilibrium
  import opened AgentsLegacy
  import opened LegacyTestAgents
  import MarketEnv
  import MakeAgentsCovid

  /** The market's curves are built from its schedules, and its equilibrium is the walk that
      stops at the first rejected pair; a price range exists only when that walk yields one. */
  ghost predicate Priced(m: MarketEnv.SpotMarketEnvironment)
    reads m
    requires m.Valid()
  {
    var w := FirstRejectionWalk(m.demand, m.supply);
    && m.demand == DemandCurve(Units(m.buyerIds, m.buyers))
    && m.supply == SupplyCurve(Units(m.sellerIds, m.sellers))
    && m.eqUnits == Some(w.units as int) && m.maxSurplus == Some(w.surplus)
    && m.eqPriceLow == (if PriceRange(w).Some? then Some(PriceRange(w).value.0) else None)
    && m.eqPriceHigh == (if PriceRange(w).Some? then Some(PriceRange(w).value.1) else None)
  }

  /** One pass of the loop of make_market: a buyer at list position i becomes buyer i, any other
      trader seller i - half; no other schedule changes. */
  method Enter(m: MarketEnv.SpotMarketEnvironment, i: int, half: int, a: Trader)
    modifies m
    requires m.Valid()
    ensures m.Valid() && m.demand == old(m.demand) && m.supply == old(m.supply)
    ensures m.eqPriceLow == old(m.eqPriceLow) && m.eqPriceHigh == old(m.eqPriceHigh)
    ensures m.eqUnits == old(m.eqUnits) && m.maxSurplus == old(m.maxSurplus)
    ensures a.role == Buyer ==> m.GetBuyerValues(i) == Some(a.values)
    ensures a.role != Buyer ==> m.GetSellerCosts(i - half) == Some(a.costs)
    ensures forall n :: (a.role != Buyer || n != i) ==> m.GetBuyerValues(n) == old(m.GetBuyerValues(n))
    ensures forall n :: (a.role == Buyer || n != i - half) ==> m.GetSellerCosts(n) == old(m.GetSellerCosts(n))
  {
    if a.role == Buyer {
      m.AddBuyer(i, a.values);
    } else {
      m.AddSeller(i - half, a.costs);
    }
  }

  /** The loop of make_market over the whole agent list. */
  method EnterAll(m: MarketEnv.SpotMarketEnvironment, agents: seq<Trader>, half: int)
    modifies m
    requires m.Valid()
    ensures m.Valid() && m.demand == old(m.demand) && m.supply == old(m.supply)
    ensures m.eqPriceLow == old(m.eqPriceLow) && m.eqPriceHigh == old(m.eqPriceHigh)
    ensures m.eqUnits == old(m.eqUnits) && m.maxSurplus == old(m.maxSurplus)
    ensures forall i :: 0 <= i < |agents| && agents[i].role == Buyer ==>
              m.GetBuyerValues(i) == Some(agents[i].values)
    ensures forall i :: 0 <= i < |agents| && agents[i].role != Buyer ==>
              m.GetSellerCosts(i - half) == Some(agents[i].costs)
  {
    for i := 0 to |agents|
      invariant m.Valid() && m.demand == old(m.demand) && m.supply == old(m.supply)
      invariant m.eqPriceLow == old(m.eqPriceLow) && m.eqPriceHigh == old(m.eqPriceHigh)
      invariant m.eqUnits == old(m.eqUnits) && m.maxSurplus == old(m.maxSurplus)
      invariant forall j :: 0 <= j < i && agents[j].role == Buyer ==>
                  m.GetBuyerValues(j) == Some(agents[j].values)
      invariant forall j :: 0 <= j < i && agents[j].role != Buyer ==>
                  m.GetSellerCosts(j - half) == Some(agents[j].costs)
    {
      Enter(m, i, half, agents[i]);
    }
  }

  /** The three calls that end make_market: make_demand, make_supply, calc_equilibrium. */
  method Price(m: MarketEnv.SpotMarketEnvironment)
    modifies m
    requires m.Valid() && m.eqPriceLow.None? && m.eqPriceHigh.None?
    ensures m.Valid() && Priced(m)
    ensures m.buyers == old(m.buyers) && m.buyerIds == old(m.buyerIds)
    ensures m.sellers == old(m.sellers) && m.sellerIds == old(m.sellerIds)
  {
    m.MakeDemand();
    m.MakeSupply();
    m.CalcEquilibrium();
  }

  /** The market make_market leaves: named, with half buyers and half sellers, each buyer's
      values under its list position, each other trader's costs under its position less half,
      and priced. */
  ghost predicate Built(m: MarketEnv.SpotMarketEnvironment, marketName: string, half: int, agents: seq<Trader>)
    reads m, set i | 0 <= i < |agents| :: agents[i]
  {
    && m.Valid() && Priced(m)
    && m.name == marketName && m.numBuyers == half && m.numSellers == half
    && (forall i :: 0 <= i < |agents| && agents[i].role == Buyer ==>
          m.GetBuyerValues(i) == Some(agents[i].values))
    && (forall i :: 0 <= i < |agents| && agents[i].role != Buyer ==>
          m.GetSellerCosts(i - half) == Some(agents[i].costs))
  }

  /** A market of half buyers and half sellers, filled from the agent list and priced. */
  method BuildMarket(marketName: string, half: int, agents: seq<Trader>) returns (m: MarketEnv.SpotMarketEnvironment)
    ensures fresh(m) && Built(m, marketName, half, agents)
  {
    m := new MarketEnv.SpotMarketEnvironment(marketName, half, half);
    EnterAll(m, agents, half);
    Price(m);
  }

  class AgentMaker {
    /** The trader classes; only the first one is used. */
    const traderTypes: seq<Strategy>
    var numTraders: int
    var numUnits: int
    /** The price bounds every test trader is built with. */
    const lb: int
    const ub: int
    var agents: seq<Trader>
    var market: Option<MarketEnv.SpotMarketEnvironment>

    constructor (numTraders: int, traderTypes: seq<Strategy>, numUnits: int, lb: int, ub: int)
      ensures this.numTraders == numTraders && this.traderTypes == traderTypes && this.numUnits == numUnits
      ensures this.lb == lb && this.ub == ub
      ensures agents == [] && market == None
    {
      this.numTraders := numTraders;
      this.traderTypes := traderTypes;
      this.numUnits := numUnits;
      this.lb := lb;
      this.ub := ub;
      agents := [];
      market := None;
    }

    /**
     * make_test_agents: eight traders of the first class, buyers and sellers alternating, with
     * the fixed schedules; num_traders becomes 8 and num_units 4. With no class to take the
     * first of, IndexError is raised and nothing changes.
     */
    method MakeTestAgents() returns (r: Result<()>)
      modifies this`agents, this`numTraders, this`numUnits
      requires |traderTypes| > 0 ==> LegacyStrategy(traderTypes[0])
      ensures r.Failure? <==> |traderTypes| == 0
      ensures r.Failure? ==> r.error == "IndexError" && agents == old(agents)
                             && numTraders == old(numTraders) && numUnits == old(numUnits)
      ensures r.Success? ==> numTraders == 8 && numUnits == 4 && |agents| == 8
      ensures r.Success? ==> forall i :: 0 <= i < 8 ==> fresh(agents[i])
      ensures r.Success? ==> forall i :: 0 <= i < 8 ==>
                TestAgent(agents[i], MakeAgentsCovid.TestNames[i], MakeAgentsCovid.TestBuyer[i],
                          traderTypes[0], TestLocations[i], lb, ub)
    {
      if |traderTypes| == 0 {
        return Failure("IndexError");
      }
      var roster := TestRoster(traderTypes[0], lb, ub);
      numTraders := 8;
      numUnits := 4;
      agents := roster;
      r := Success(());
    }

    /**
     * make_market: a market with num_traders // 2 buyers and sellers; the trader at list
     * position i is added as buyer i, or, if it is not a buyer, as seller i - num_traders // 2;
     * then the curves and the equilibrium are computed.
     */
    method MakeMarket(marketName: string)
      modifies this`market
      ensures market.Some? && fresh(market.value) && Built(market.value, marketName, numTraders / 2, agents)
    {
      var m := BuildMarket(marketName, numTraders / 2, agents);
      market := Some(m);
    }
  }
}
