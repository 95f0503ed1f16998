/**
 * The test population of the original environment (modules/dm_utils.py):
 * four buyers and four sellers, alternating, each with the same four-unit
 * schedule, started once before they are handed out.
 *
 * The price bounds of a legacy trader come from its base class, which is not
 * part of this model; they are parameters here.
 */
module LegacyTestAgents {
  import opened Messages
  import opened Protocol
  import opened Strategies
  import opened Payoffs
  import opened AgentsLegacy
  import MakeAgentsCovid

  /** The strategy classes of the original environment. */
  predicate LegacyStrategy(s: Strategy)
  {
    s == ZID || s == ZIDA
  }

  /** Starting points of b_1, s_1, b_2, s_2, b_3, s_3, b_4, s_4. */
  const TestLocations: seq<(int, int)> := [(0, 0), (0, 0), (1, 2), (2, 1), (0, 0), (0, 0), (1, 2), (2, 1)]

  /** A legacy test trader: 500 money, values [100, 90, 50, 20] for a buyer and costs
      [10, 20, 30, 40] for a seller, nothing traded and every unit tradable. */
  ghost predicate TestAgent(a: Trader, name: string, buyer: bool, strategy: Strategy,
                            location: (int, int), lb: int, ub: int)
    reads a
  {
    && a.name == name && a.role == (if buyer then Buyer else Seller)
    && a.payoff == (if buyer then UtilityPayoff else ProfitPayoff)
    && a.strategy == strategy && a.money == 500 && a.location == location
    && a.lowerBound == lb && a.upperBound == ub
    && (if buyer then a.values == [100, 90, 50, 20] && a.costs == []
        else a.costs == [10, 20, 30, 40] && a.values == [])
    && a.maxUnits == 4 && a.curUnit == 0 && a.unitsTransacted == 0
  }

  /** One test trader, built and given its schedule. */
  method NewTestTrader(name: string, buyer: bool, strategy: Strategy, location: (int, int), lb: int, ub: int)
    returns (a: Trader)
    requires LegacyStrategy(strategy)
    ensures fresh(a) && TestAgent(a, name, buyer, strategy, location, lb, ub)
  {
    a := new Trader(name, if buyer then Buyer else Seller, strategy, if buyer then UtilityPayoff else ProfitPayoff,
                    500, location, lb, ub);
    if buyer {
      a.SetValues([100, 90, 50, 20]);
    } else {
      a.SetCosts([10, 20, 30, 40]);
    }
  }

  /** b_1 .. b_4 of test_agents. */
  method TestBuyers(strategy: Strategy, lb: int, ub: int) returns (b1: Trader, b2: Trader, b3: Trader, b4: Trader)
    requires LegacyStrategy(strategy)
    ensures fresh(b1) && fresh(b2) && fresh(b3) && fresh(b4)
    ensures TestAgent(b1, "B1", true, strategy, (0, 0), lb, ub) && TestAgent(b2, "B2", true, strategy, (1, 2), lb, ub)
    ensures TestAgent(b3, "B3", true, strategy, (0, 0), lb, ub) && TestAgent(b4, "B4", true, strategy, (1, 2), lb, ub)
  {
    b1 := NewTestTrader("B1", true, strategy, (0, 0), lb, ub);
    b2 := NewTestTrader("B2", true, strategy, (1, 2), lb, ub);
    b3 := NewTestTrader("B3", true, strategy, (0, 0), lb, ub);
    b4 := NewTestTrader("B4", true, strategy, (1, 2), lb, ub);
  }

  /** s_1 .. s_4 of test_agents. */
  method TestSellers(strategy: Strategy, lb: int, ub: int) returns (s1: Trader, s2: Trader, s3: Trader, s4: Trader)
    requires LegacyStrategy(strategy)
    ensures fresh(s1) && fresh(s2) && fresh(s3) && fresh(s4)
    ensures TestAgent(s1, "S1", false, strategy, (0, 0), lb, ub) && TestAgent(s2, "S2", false, strategy, (2, 1), lb, ub)
    ensures TestAgent(s3, "S3", false, strategy, (0, 0), lb, ub) && TestAgent(s4, "S4", false, strategy, (2, 1), lb, ub)
  {
    s1 := NewTestTrader("S1", false, strategy, (0, 0), lb, ub);
    s2 := NewTestTrader("S2", false, strategy, (2, 1), lb, ub);
    s3 := NewTestTrader("S3", false, strategy, (0, 0), lb, ub);
    s4 := NewTestTrader("S4", false, strategy, (2, 1), lb, ub);
  }

  /** The list [b_1, s_1, b_2, s_2, b_3, s_3, b_4, s_4], all of one strategy. */
  method TestRoster(strategy: Strategy, lb: int, ub: int) returns (agents: seq<Trader>)
    requires LegacyStrategy(strategy)
    ensures |agents| == 8
    ensures forall i :: 0 <= i < 8 ==> fresh(agents[i])
    ensures forall i :: 0 <= i < 8 ==>
              TestAgent(agents[i], MakeAgentsCovid.TestNames[i], MakeAgentsCovid.TestBuyer[i], strategy,
                        TestLocations[i], lb, ub)
  {
    var b1, b2, b3, b4 := TestBuyers(strategy, lb, ub);
    var s1, s2, s3, s4 := TestSellers(strategy, lb, ub);
    agents := [b1, s1, b2, s2, b3, s3, b4, s4];
  }

  /** The reply of a trader's start handler. */
  function Initialized(name: string): Msg
  {
    Message("Initial", name, name, Note("Initialized"))
  }

  /** Traders with different names are different objects. */
  lemma DistinctTraders(agents: seq<Trader>)
    requires |agents| == 8 && forall i :: 0 <= i < 8 ==> agents[i].name == MakeAgentsCovid.TestNames[i]
    ensures forall i, j :: 0 <= i < j < 8 ==> agents[i] != agents[j]
  {
    MakeAgentsCovid.TestNamesDistinct();
  }

  /**
   * test_agents: the ZID test roster, each trader sent exactly one START, in list order. The
   * START message goes straight to the start handler, since the dispatch of the base class is
   * not part of this model; the i-th reply is the i-th trader's.
   */
  method TestAgents(lb: int, ub: int) returns (agents: seq<Trader>, replies: seq<Msg>)
    ensures |agents| == 8 && |replies| == 8
    ensures forall i :: 0 <= i < 8 ==> fresh(agents[i])
    ensures forall i :: 0 <= i < 8 ==>
              TestAgent(agents[i], MakeAgentsCovid.TestNames[i], MakeAgentsCovid.TestBuyer[i], ZID,
                        TestLocations[i], lb, ub)
    ensures forall i :: 0 <= i < 8 ==> replies[i] == Initialized(MakeAgentsCovid.TestNames[i])
  {
    agents := TestRoster(ZID, lb, ub);
    DistinctTraders(agents);
    replies := [];
    for k := 0 to 8
      invariant |replies| == k
      invariant forall i :: 0 <= i < 8 ==> fresh(agents[i])
      invariant forall i :: 0 <= i < 8 ==>
                  TestAgent(agents[i], MakeAgentsCovid.TestNames[i], MakeAgentsCovid.TestBuyer[i], ZID,
                            TestLocations[i], lb, ub)
      invariant forall i :: 0 <= i < k ==> replies[i] == Initialized(MakeAgentsCovid.TestNames[i])
    {
      var r := agents[k].Start();
      replies := replies + [r];
    }
  }
}
