/**
 * The agent builder of the COVID-era environment
 * (modules_vCOVID/environment/env_make_agents.py): it draws reservation
 * schedules, gives the first half of the traders the buyer role and the
 * second half the seller role, names them after their number and strategy,
 * and builds the spot market those schedules define.
 *
 * The draws of the source (rnd.randint for locations, np.random.randint for
 * values and costs, np.random.shuffle for the strategies) are parameters.
 */
module MakeAgentsCovid {
  import opened Wrappers
  import opened Decimal
  import opened Sorting
  import opened Chance
  import opened Protocol
  import opened Strategies
  import opened Payoffs
  import opened Equilibrium
  import opened AgentsCovid
  import MarketEnv
  import MarketEnvV3

  /** range(n) has max(n, 0) items. */
  function Clamp(n: int): nat
  {
    if n < 0 then 0 else n
  }

  /** int((ub - lb) / 4): a true division followed by a truncation toward zero. */
  function Interval(lb: int, ub: int): (k: int)
    ensures lb <= ub ==> 0 <= k && 0 <= (ub - lb) - 4 * k < 4
    ensures ub < lb ==> k <= 0 && 0 <= 4 * k - (ub - lb) < 4
  {
    if lb <= ub then (ub - lb) / 4 else -((lb - ub) / 4)
  }

  /** The inclusive range gen_res_values draws from: the top of [lb, ub] less a quarter for a
      buyer, the bottom less a quarter for a seller. */
  function DrawRange(buyer: bool, lb: int, ub: int): (int, int)
  {
    if buyer then (lb + Interval(lb, ub), ub) else (lb, ub - Interval(lb, ub))
  }

  /** A buyer's range is empty exactly when a seller's is: both need lb + interval <= ub. */
  lemma DrawRangesAgree(lb: int, ub: int)
    ensures DrawRange(true, lb, ub).0 <= DrawRange(true, lb, ub).1
            <==> DrawRange(false, lb, ub).0 <= DrawRange(false, lb, ub).1
    ensures lb <= ub ==> DrawRange(true, lb, ub).0 <= DrawRange(true, lb, ub).1
    ensures lb <= ub ==> lb <= DrawRange(true, lb, ub).0 && DrawRange(false, lb, ub).1 <= ub
  {
  }

  /** The unsorted draws: one np.random.randint(lo, hi + 1) per unit. */
  function Picks(lo: int, hi: int, draws: seq<nat>): (vs: seq<int>)
    requires |draws| == 0 || lo <= hi
    ensures |vs| == |draws|
    ensures forall k :: 0 <= k < |vs| ==> lo <= vs[k] <= hi
  {
    seq(|draws|, k requires 0 <= k < |draws| => Pick(lo, hi, draws[k]))
  }

  /** The schedule gen_res_values returns for the given draws: sorted from high to low for a
      buyer, from low to high for a seller. */
  function ResValues(buyer: bool, lb: int, ub: int, draws: seq<nat>): seq<int>
    requires |draws| == 0 || DrawRange(buyer, lb, ub).0 <= DrawRange(buyer, lb, ub).1
  {
    SortBy(Picks(DrawRange(buyer, lb, ub).0, DrawRange(buyer, lb, ub).1, draws), Itself, buyer)
  }

  /** A schedule of as many units as draws, in the order that gives diminishing marginal value
      (buyer) or increasing marginal cost (seller), every unit inside the draw range. */
  lemma ResValuesAreSortedSchedules(buyer: bool, lb: int, ub: int, draws: seq<nat>)
    requires |draws| == 0 || DrawRange(buyer, lb, ub).0 <= DrawRange(buyer, lb, ub).1
    ensures var vs := ResValues(buyer, lb, ub, draws);
            && |vs| == |draws|
            && SortedBy(vs, Itself, buyer)
            && (forall k :: 0 <= k < |vs| ==> DrawRange(buyer, lb, ub).0 <= vs[k] <= DrawRange(buyer, lb, ub).1)
  {
    var (lo, hi) := DrawRange(buyer, lb, ub);
    var ps := Picks(lo, hi, draws);
    var vs := ResValues(buyer, lb, ub, draws);
    SortByIsSorted(ps, Itself, buyer);
    SortByLength(ps, Itself, buyer);
    forall k | 0 <= k < |vs|
      ensures lo <= vs[k] <= hi
    {
      assert vs[k] in multiset(ps);
      var j :| 0 <= j < |ps| && ps[j] == vs[k];
    }
  }

  /** agent_model.__name__ */
  function KindName(s: Strategy): string
  {
    match s
    case ZID => "ZID"
    case ZIDA => "ZIDA"
    case ZIDP => "ZIDP"
    case ZIDPA => "ZIDPA"
    case ZIDPR => "ZIDPR"
  }

  /** The name of trader t of n: "B_<t+1>_<kind>" in the first half, "S_<t+1-n//2>_<kind>" after. */
  function AgentName(t: nat, n: int, kind: Strategy): string
  {
    if t < n / 2 then "B_" + IntToString(t + 1) + "_" + KindName(kind)
    else "S_" + IntToString(t + 1 - n / 2) + "_" + KindName(kind)
  }

  /** Two digit strings each followed by "_" cannot overlap unless they are equal. */
  lemma DigitsBeforeUnderscore(a: string, b: string, x: string, y: string)
    requires forall i :: 0 <= i < |a| ==> '0' <= a[i] <= '9'
    requires forall i :: 0 <= i < |b| ==> '0' <= b[i] <= '9'
    requires a + "_" + x == b + "_" + y
    ensures a == b
  {
    var s, t := a + "_" + x, b + "_" + y;
    assert s[|a|] == '_';
    assert t[|b|] == '_';
    assert |a| == |b|;
    assert a == s[..|a|] == t[..|b|] == b;
  }

  /** The unit number spelled in a name is positive, so str gives plain digits. */
  lemma NumberedNameInjective(prefix: string, i: int, j: int, x: string, y: string)
    requires 0 <= i && 0 <= j
    requires prefix + IntToString(i) + "_" + x == prefix + IntToString(j) + "_" + y
    ensures i == j
  {
    var s := prefix + IntToString(i) + "_" + x;
    var si, sj := IntToString(i), IntToString(j);
    assert s == prefix + (si + "_" + x);
    assert prefix + IntToString(j) + "_" + y == prefix + (sj + "_" + y);
    assert si + "_" + x == s[|prefix|..] == sj + "_" + y;
    DigitsBeforeUnderscore(si, sj, x, y);
    NatToStringInjective(i, j);
  }

  /** No two traders of one population get the same name, whatever their strategies. */
  lemma AgentNamesDistinct(i: nat, j: nat, n: int, ki: Strategy, kj: Strategy)
    requires i < j < n
    ensures AgentName(i, n, ki) != AgentName(j, n, kj)
  {
    var a, b := AgentName(i, n, ki), AgentName(j, n, kj);
    if j < n / 2 {
      if a == b {
        NumberedNameInjective("B_", i + 1, j + 1, KindName(ki), KindName(kj));
      }
    } else if i >= n / 2 {
      if a == b {
        NumberedNameInjective("S_", i + 1 - n / 2, j + 1 - n / 2, KindName(ki), KindName(kj));
      }
    } else {
      assert a[0] == 'B' && b[0] == 'S';
    }
  }

  /** The strategy list make_agents builds before shuffling: each (class, count) pair
      contributes count copies of the class, in the listed order. */
  function Expand(types: seq<(Strategy, int)>): (kinds: seq<Strategy>)
  {
    if types == [] then []
    else Expand(types[..|types| - 1]) + seq(Clamp(types[|types| - 1].1), _ => types[|types| - 1].0)
  }

  /** The sum of the counts, negative counts adding nothing. */
  function TotalCount(types: seq<(Strategy, int)>): nat
  {
    if types == [] then 0 else TotalCount(types[..|types| - 1]) + Clamp(types[|types| - 1].1)
  }

  /** The sum of the counts listed for one strategy. */
  function CountOf(types: seq<(Strategy, int)>, s: Strategy): nat
  {
    if types == [] then 0
    else CountOf(types[..|types| - 1], s) + (if types[|types| - 1].0 == s then Clamp(types[|types| - 1].1) else 0)
  }

  lemma CopiesMultiset(s: Strategy, t: Strategy, n: nat)
    ensures multiset(seq(n, _ => s))[t] == if s == t then n else 0
  {
    if n > 0 {
      CopiesMultiset(s, t, n - 1);
      assert seq(n, _ => s) == seq(n - 1, _ => s) + [s];
    }
  }

  /** The expanded list has one entry per counted trader, and each strategy as often as its
      counts say. */
  lemma {:induction false} ExpandCounts(types: seq<(Strategy, int)>, s: Strategy)
    ensures |Expand(types)| == TotalCount(types)
    ensures multiset(Expand(types))[s] == CountOf(types, s)
  {
    if types != [] {
      var last := types[|types| - 1];
      ExpandCounts(types[..|types| - 1], s);
      CopiesMultiset(last.0, s, Clamp(last.1));
    }
  }

  /** The nested append loop of make_agents. */
  method ExpandTypes(types: seq<(Strategy, int)>) returns (kinds: seq<Strategy>)
    ensures kinds == Expand(types)
  {
    kinds := [];
    for i := 0 to |types|
      invariant kinds == Expand(types[..i])
    {
      var (kind, count) := types[i];
      for k := 0 to Clamp(count)
        invariant kinds == Expand(types[..i]) + seq(k, _ => kind)
      {
        assert seq(k + 1, _ => kind) == seq(k, _ => kind) + [kind];
        kinds := kinds + [kind];
      }
      assert types[..i + 1][..i] == types[..i];
    }
    assert types[..|types|] == types;
  }

  /** The locations make_locations draws, one (x, y) per trader. */
  function Spots(gridSize: int, draws: seq<(nat, nat)>): (ls: seq<(int, int)>)
    requires gridSize >= 1
    ensures |ls| == |draws|
    ensures forall i :: 0 <= i < |ls| ==> 0 <= ls[i].0 < gridSize && 0 <= ls[i].1 < gridSize
  {
    seq(|draws|, i requires 0 <= i < |draws| => (Pick(0, gridSize - 1, draws[i].0), Pick(0, gridSize - 1, draws[i].1)))
  }

  /** The reset rule of the defaults: no reset frequency, no minimum, no window, one trade. */
  const NoResetRule := ResetRule(NoReset, None, false, None, 1)

  /**
   * Trader t of n as make_agents leaves it: its name, role and payoff from its position,
   * 500 money, its location and strategy, the shared bounds and reset rule, and the
   * schedule drawn for it, set but not yet started.
   */
  ghost predicate Made(a: Trader, t: nat, n: int, kind: Strategy, loc: (int, int), lb: int, ub: int,
                       reset: ResetRule, draws: seq<nat>)
    reads a
  {
    var buyer := t < n / 2;
    && a.name == AgentName(t, n, kind)
    && a.role == (if buyer then Buyer else Seller)
    && a.payoff == (if buyer then UtilityPayoff else ProfitPayoff)
    && a.strategy == kind && a.money == 500 && a.location == loc
    && a.lowerBound == lb && a.upperBound == ub && a.reset == reset
    && (|draws| == 0 || DrawRange(buyer, lb, ub).0 <= DrawRange(buyer, lb, ub).1)
    && (if buyer then a.values == ResValues(true, lb, ub, draws) && a.costs == []
        else a.costs == ResValues(false, lb, ub, draws) && a.values == [])
    && a.maxUnits == |draws| && a.curUnit == 0 && a.unitsTransacted == 0
    && !a.contractThisPeriod
  }

  /** A non-empty draw range lies inside [lb, ub]. */
  lemma DrawRangeInBounds(buyer: bool, lb: int, ub: int)
    requires DrawRange(buyer, lb, ub).0 <= DrawRange(buyer, lb, ub).1
    ensures lb <= DrawRange(buyer, lb, ub).0 && DrawRange(buyer, lb, ub).1 <= ub
  {
    DrawRangesAgree(lb, ub);
  }

  /**
   * A trader as make_agents leaves it can draw every bid and ask the offer
   * and transact rules ask of it: a buyer's values are at least its lower
   * bound and a seller's costs at most its upper bound.
   */
  lemma MadeIsDrawable(a: Trader, t: nat, n: int, kind: Strategy, loc: (int, int), lb: int, ub: int,
                       reset: ResetRule, draws: seq<nat>)
    requires Made(a, t, n, kind, loc, lb, ub, reset, draws)
    ensures a.Drawable()
  {
    var buyer := t < n / 2;
    if |draws| > 0 {
      DrawRangeInBounds(buyer, lb, ub);
      ResValuesAreSortedSchedules(buyer, lb, ub, draws);
    }
  }

  /** A test agent: ZID with 500 money at (0, 0), bounds 20 and 100, the default reset rule,
      values [100, 90, 50, 20] for a buyer and costs [10, 20, 30, 40] for a seller. */
  ghost predicate TestAgent(a: Trader, name: string, buyer: bool)
    reads a
  {
    && a.name == name && a.role == (if buyer then Buyer else Seller)
    && a.payoff == (if buyer then UtilityPayoff else ProfitPayoff)
    && a.strategy == ZID && a.money == 500 && a.location == (0, 0)
    && a.lowerBound == 20 && a.upperBound == 100 && a.reset == NoResetRule
    && (if buyer then a.values == [100, 90, 50, 20] && a.costs == []
        else a.costs == [10, 20, 30, 40] && a.values == [])
    && a.maxUnits == 4 && a.curUnit == 0
  }

  /** Every test trader can draw every bid and ask: values from 100 down to 20, costs up to 40. */
  lemma TestRosterDrawable(agents: seq<Trader>)
    requires |agents| == 8 && forall i :: 0 <= i < 8 ==> TestAgent(agents[i], TestNames[i], TestBuyer[i])
    ensures forall t :: t in agents ==> t.Drawable()
  {
    forall t | t in agents
      ensures t.Drawable()
    {
      var i :| 0 <= i < 8 && agents[i] == t;
      assert TestAgent(t, TestNames[i], TestBuyer[i]);
    }
  }

  /** Buyers and sellers alternate in the test list. */
  const TestBuyer: seq<bool> := [true, false, true, false, true, false, true, false]

  const TestNames: seq<string> := ["B1", "S1", "B2", "S2", "B3", "S3", "B4", "S4"]

  lemma TestNamesDistinct()
    ensures forall i, j :: 0 <= i < j < |TestNames| ==> TestNames[i] != TestNames[j]
  {
    forall i, j | 0 <= i < j < |TestNames|
      ensures TestNames[i] != TestNames[j]
    {
      assert TestNames[i][0] != TestNames[j][0] || TestNames[i][1] != TestNames[j][1];
    }
  }

  /** The test traders carry the eight different test names. */
  lemma TestRosterDistinct(agents: seq<Trader>)
    requires |agents| == 8 && forall i :: 0 <= i < 8 ==> agents[i].name == TestNames[i]
    ensures DistinctNames(agents)
  {
    TestNamesDistinct();
  }

  /** One of the hand-written test traders of make_test_agents. */
  method NewTestTrader(name: string, buyer: bool) returns (a: Trader)
    ensures fresh(a) && TestAgent(a, name, buyer)
  {
    a := new Trader(name, if buyer then Buyer else Seller, ZID, if buyer then UtilityPayoff else ProfitPayoff,
                    500, (0, 0), 20, 100, NoResetRule);
    if buyer {
      a.SetValues([100, 90, 50, 20]);
    } else {
      a.SetCosts([10, 20, 30, 40]);
    }
  }

  /** One pass of the loop of make_market: a buyer at list position i is stored as buyer i, any
      other trader as seller i - half; no other schedule, curve or record changes. */
  method Enter(m: MarketEnvV3.SpotMarketEnvironment, i: int, half: int, a: Trader)
    modifies m
    requires m.Valid() && m.marketType == MarketEnvV3.OneType
    ensures m.Valid() && m.whole.demand == old(m.whole.demand) && m.whole.supply == old(m.whole.supply)
    ensures m.whole.eq == old(m.whole.eq)
    ensures a.role == Buyer ==>
              && m.whole.buyers.lists == old(m.whole.buyers.lists)[MarketEnv.BuyerId(i) := a.values]
              && m.whole.sellers.lists == old(m.whole.sellers.lists)
    ensures a.role != Buyer ==>
              && m.whole.sellers.lists == old(m.whole.sellers.lists)[MarketEnv.SellerId(i - half) := a.costs]
              && m.whole.buyers.lists == old(m.whole.buyers.lists)
  {
    if a.role == Buyer {
      var _ := m.AddBuyer(i, a.values, "C");
    } else {
      var _ := m.AddSeller(i - half, a.costs, "C");
    }
  }

  /** What make_market enters for each trader: whether it is a buyer, and its values or costs. */
  function Entries(ts: seq<Trader>): (es: seq<(bool, seq<int>)>)
    reads ts
    ensures |es| == |ts|
    ensures forall i :: 0 <= i < |ts| ==>
              es[i] == (ts[i].role == Buyer, if ts[i].role == Buyer then ts[i].values else ts[i].costs)
  {
    seq(|ts|, i requires 0 <= i < |ts| reads ts =>
      (ts[i].role == Buyer, if ts[i].role == Buyer then ts[i].values else ts[i].costs))
  }

  /** The first k traders of the list are entered: each buyer's values stored under its list
      position, each other trader's costs under its position less half. */
  ghost predicate Entered(m: MarketEnvV3.SpotMarketEnvironment, agents: seq<Trader>, half: int, k: int)
    reads m, agents
  {
    var es := Entries(agents);
    BuyersEntered(m.whole.buyers.lists, es, k) && SellersEntered(m.whole.sellers.lists, es, half, k)
  }

  /** The buyers among the first k entries have their values in the table under their positions. */
  ghost predicate BuyersEntered(table: map<string, seq<int>>, es: seq<(bool, seq<int>)>, k: int)
  {
    forall j :: 0 <= j < k && j < |es| && es[j].0 ==>
      MarketEnv.BuyerId(j) in table && table[MarketEnv.BuyerId(j)] == es[j].1
  }

  /** The other entries among the first k have their costs in the table under their positions less half. */
  ghost predicate SellersEntered(table: map<string, seq<int>>, es: seq<(bool, seq<int>)>, half: int, k: int)
  {
    forall j :: 0 <= j < k && j < |es| && !es[j].0 ==>
      MarketEnv.SellerId(j - half) in table && table[MarketEnv.SellerId(j - half)] == es[j].1
  }

  /** Entering trader i as a buyer, or leaving the buyers' table alone for a seller, keeps the
      earlier buyers' entries and adds trader i's. */
  lemma BuyersAdvance(table: map<string, seq<int>>, next: map<string, seq<int>>, es: seq<(bool, seq<int>)>, i: int)
    requires 0 <= i < |es| && BuyersEntered(table, es, i)
    requires next == if es[i].0 then table[MarketEnv.BuyerId(i) := es[i].1] else table
    ensures BuyersEntered(next, es, i + 1)
  {
    forall j | 0 <= j < i + 1 && j < |es| && es[j].0
      ensures MarketEnv.BuyerId(j) in next && next[MarketEnv.BuyerId(j)] == es[j].1
    {
      MarketEnv.TraderIdsAreDistinct(j, i);
    }
  }

  /** The same for the sellers' table, where trader i is stored under i - half. */
  lemma SellersAdvance(table: map<string, seq<int>>, next: map<string, seq<int>>, es: seq<(bool, seq<int>)>,
                       half: int, i: int)
    requires 0 <= i < |es| && SellersEntered(table, es, half, i)
    requires next == if !es[i].0 then table[MarketEnv.SellerId(i - half) := es[i].1] else table
    ensures SellersEntered(next, es, half, i + 1)
  {
    forall j | 0 <= j < i + 1 && j < |es| && !es[j].0
      ensures MarketEnv.SellerId(j - half) in next && next[MarketEnv.SellerId(j - half)] == es[j].1
    {
      var k, l := j - half, i - half;
      if j == i {
        assert next == table[MarketEnv.SellerId(l) := es[i].1];
      } else if !es[i].0 {
        SellerKept(table, next, k, es[j].1, l, es[i].1);
      }
    }
  }

  /** Storing seller l's costs keeps seller k's entry when k and l differ. */
  lemma SellerKept(table: map<string, seq<int>>, next: map<string, seq<int>>, k: int, ck: seq<int>, l: int, cl: seq<int>)
    requires MarketEnv.SellerId(k) in table && table[MarketEnv.SellerId(k)] == ck
    requires next == table[MarketEnv.SellerId(l) := cl] && k != l
    ensures MarketEnv.SellerId(k) in next && next[MarketEnv.SellerId(k)] == ck
  {
    MarketEnv.TraderIdsAreDistinct(k, l);
  }

  /** The loop of make_market over the whole agent list. */
  method EnterAll(m: MarketEnvV3.SpotMarketEnvironment, agents: seq<Trader>, half: int)
    modifies m
    requires m.Valid() && m.marketType == MarketEnvV3.OneType
    ensures m.Valid() && m.whole.demand == old(m.whole.demand) && m.whole.supply == old(m.whole.supply)
    ensures m.whole.eq == old(m.whole.eq)
    ensures forall i :: 0 <= i < |agents| && agents[i].role == Buyer ==>
              m.GetBuyerValues(i, "C") == Success(Some(agents[i].values))
    ensures forall i :: 0 <= i < |agents| && agents[i].role != Buyer ==>
              m.GetSellerCosts(i - half, "C") == Success(Some(agents[i].costs))
  {
    for i := 0 to |agents|
      invariant m.Valid() && m.whole.demand == old(m.whole.demand) && m.whole.supply == old(m.whole.supply)
      invariant m.whole.eq == old(m.whole.eq)
      invariant Entered(m, agents, half, i)
    {
      EnterNext(m, agents, half, i);
    }
  }

  /** The i-th pass of that loop keeps the earlier traders' entries. */
  method EnterNext(m: MarketEnvV3.SpotMarketEnvironment, agents: seq<Trader>, half: int, i: int)
    modifies m
    requires 0 <= i < |agents|
    requires m.Valid() && m.marketType == MarketEnvV3.OneType && Entered(m, agents, half, i)
    ensures m.Valid() && m.whole.demand == old(m.whole.demand) && m.whole.supply == old(m.whole.supply)
    ensures m.whole.eq == old(m.whole.eq)
    ensures Entered(m, agents, half, i + 1)
  {
    ghost var buyers, sellers, es := m.whole.buyers.lists, m.whole.sellers.lists, Entries(agents);
    Enter(m, i, half, agents[i]);
    BuyersAdvance(buyers, m.whole.buyers.lists, es, i);
    SellersAdvance(sellers, m.whole.sellers.lists, es, half, i);
  }

  /** The market's curves are built from its schedules and its equilibrium is the walk over
      every pair of them. */
  ghost predicate Priced(m: MarketEnvV3.SpotMarketEnvironment)
    reads m
    requires m.Valid()
  {
    var w := m.whole;
    && w.demand == DemandCurve(w.buyers.AllUnits())
    && w.supply == SupplyCurve(w.sellers.AllUnits())
    && w.eq == MarketEnvV3.Record(MarketEnvV3.Unset, EveryPairWalk(w.demand, w.supply, Pairs(w.demand, w.supply)))
  }

  /** The three calls that end make_market: make_demand, make_supply, calc_equilibrium. */
  method Price(m: MarketEnvV3.SpotMarketEnvironment)
    modifies m
    requires m.Valid() && m.marketType == MarketEnvV3.OneType && m.whole.eq == MarketEnvV3.Unset
    ensures m.Valid() && Priced(m)
    ensures m.whole.buyers == old(m.whole.buyers) && m.whole.sellers == old(m.whole.sellers)
    ensures m.perType == old(m.perType)
  {
    m.MakeDemand();
    m.MakeSupply();
    m.CalcEquilibrium();
  }

  /** The market make_market leaves: one-type, named, with half buyers and half sellers, each
      buyer's values under its list position, each other trader's costs under its position less
      half, and priced. */
  ghost predicate Built(m: MarketEnvV3.SpotMarketEnvironment, marketName: string, half: int, agents: seq<Trader>)
    reads m, set i | 0 <= i < |agents| :: agents[i]
  {
    && m.Valid() && Priced(m)
    && m.name == marketName && m.numBuyers == half && m.numSellers == half
    && m.marketType == MarketEnvV3.OneType && m.itemTypes == ["C"]
    && (forall i :: 0 <= i < |agents| && agents[i].role == Buyer ==>
          m.GetBuyerValues(i, "C") == Success(Some(agents[i].values)))
    && (forall i :: 0 <= i < |agents| && agents[i].role != Buyer ==>
          m.GetSellerCosts(i - half, "C") == Success(Some(agents[i].costs)))
  }

  /** A one-type market of half buyers and half sellers, filled from the agent list and priced. */
  method BuildMarket(marketName: string, half: int, agents: seq<Trader>) returns (m: MarketEnvV3.SpotMarketEnvironment)
    ensures fresh(m) && Built(m, marketName, half, agents)
  {
    m := new MarketEnvV3.SpotMarketEnvironment(marketName, half, half, ["C"], MarketEnvV3.OneType);
    EnterAll(m, agents, half);
    Price(m);
  }

  /** b_1 .. b_4 of make_test_agents. */
  method TestBuyers() returns (b1: Trader, b2: Trader, b3: Trader, b4: Trader)
    ensures fresh(b1) && fresh(b2) && fresh(b3) && fresh(b4)
    ensures TestAgent(b1, "B1", true) && TestAgent(b2, "B2", true) && TestAgent(b3, "B3", true) && TestAgent(b4, "B4", true)
  {
    b1 := NewTestTrader("B1", true);
    b2 := NewTestTrader("B2", true);
    b3 := NewTestTrader("B3", true);
    b4 := NewTestTrader("B4", true);
  }

  /** s_1 .. s_4 of make_test_agents. */
  method TestSellers() returns (s1: Trader, s2: Trader, s3: Trader, s4: Trader)
    ensures fresh(s1) && fresh(s2) && fresh(s3) && fresh(s4)
    ensures TestAgent(s1, "S1", false) && TestAgent(s2, "S2", false) && TestAgent(s3, "S3", false) && TestAgent(s4, "S4", false)
  {
    s1 := NewTestTrader("S1", false);
    s2 := NewTestTrader("S2", false);
    s3 := NewTestTrader("S3", false);
    s4 := NewTestTrader("S4", false);
  }

  /** The eight test traders in the order [b_1, s_1, b_2, s_2, b_3, s_3, b_4, s_4]. */
  method TestRoster() returns (agents: seq<Trader>)
    ensures |agents| == 8
    ensures forall i :: 0 <= i < 8 ==> fresh(agents[i]) && TestAgent(agents[i], TestNames[i], TestBuyer[i])
  {
    var b1, b2, b3, b4 := TestBuyers();
    var s1, s2, s3, s4 := TestSellers();
    agents := [b1, s1, b2, s2, b3, s3, b4, s4];
  }

  class AgentMaker {
    /** (class, count) pairs. */
    const traderTypes: seq<(Strategy, int)>
    var numTraders: int
    var numUnits: int
    const gridSize: int
    const lb: int
    const ub: int
    /** The reset_flag_* settings every trader is built with. */
    const reset: ResetRule
    var agents: seq<Trader>
    var locationList: seq<(int, int)>
    var market: Option<MarketEnvV3.SpotMarketEnvironment>

    constructor (numTraders: int, traderTypes: seq<(Strategy, int)>, numUnits: int, gridSize: int,
                 lb: int, ub: int, reset: ResetRule)
      ensures this.numTraders == numTraders && this.traderTypes == traderTypes && this.numUnits == numUnits
      ensures this.gridSize == gridSize && this.lb == lb && this.ub == ub && this.reset == reset
      ensures agents == [] && locationList == [] && market == None
    {
      this.numTraders := numTraders;
      this.traderTypes := traderTypes;
      this.numUnits := numUnits;
      this.gridSize := gridSize;
      this.lb := lb;
      this.ub := ub;
      this.reset := reset;
      agents := [];
      locationList := [];
      market := None;
    }

    /**
     * gen_res_values: num_units draws from the buyer's or the seller's range, sorted so that
     * marginal value falls or marginal cost rises. The first draw from an empty range raises
     * ValueError; with no units to draw nothing is raised.
     */
    method GenResValues(buyer: bool, draws: seq<nat>) returns (r: Result<seq<int>>)
      requires |draws| == Clamp(numUnits)
      ensures r.Failure? <==> |draws| > 0 && DrawRange(buyer, lb, ub).0 > DrawRange(buyer, lb, ub).1
      ensures r.Failure? ==> r.error == "ValueError"
      ensures r.Success? ==> |r.value| == |draws| && SortedBy(r.value, Itself, buyer)
      ensures r.Success? ==> forall k :: 0 <= k < |r.value| ==>
                DrawRange(buyer, lb, ub).0 <= r.value[k] <= DrawRange(buyer, lb, ub).1
      ensures r.Success? ==> r.value == ResValues(buyer, lb, ub, draws)
    {
      var (lower, upper) := DrawRange(buyer, lb, ub);
      var values: seq<int> := [];
      for k := 0 to |draws|
        invariant lower <= upper || k == 0
        invariant values == Picks(lower, upper, draws[..k])
      {
        if upper < lower {
          return Failure("ValueError");
        }
        assert Picks(lower, upper, draws[..k + 1]) == Picks(lower, upper, draws[..k]) + [Pick(lower, upper, draws[k])];
        values := values + [Pick(lower, upper, draws[k])];
      }
      assert draws[..|draws|] == draws;
      ResValuesAreSortedSchedules(buyer, lb, ub, draws);
      r := Success(SortBy(values, Itself, buyer));
    }

    /** make_locations: one random grid point per trader; an empty grid raises ValueError on the
        first draw and leaves the list empty. */
    method MakeLocations(draws: seq<(nat, nat)>) returns (ok: bool)
      modifies this`locationList
      requires |draws| == Clamp(numTraders)
      ensures ok <==> |draws| == 0 || gridSize >= 1
      ensures ok ==> |locationList| == |draws|
      ensures ok ==> gridSize >= 1 ==> locationList == Spots(gridSize, draws)
      ensures ok && gridSize < 1 ==> locationList == []
      ensures ok ==> forall i :: 0 <= i < |locationList| ==>
                0 <= locationList[i].0 < gridSize && 0 <= locationList[i].1 < gridSize
      ensures !ok ==> locationList == []
    {
      locationList := [];
      if |draws| > 0 && gridSize < 1 {
        return false;
      }
      if gridSize < 1 {
        return true;
      }
      for i := 0 to |draws|
        invariant locationList == Spots(gridSize, draws[..i])
      {
        var x := Pick(0, gridSize - 1, draws[i].0);
        var y := Pick(0, gridSize - 1, draws[i].1);
        locationList := locationList + [(x, y)];
      }
      assert draws[..|draws|] == draws;
      ok := true;
    }

    /**
     * One pass of the loop of make_agents: trader t is built (ValueError for a WINDOW rule
     * without a window) and given a freshly drawn schedule (ValueError for an empty range).
     */
    method BuildAgent(t: nat, kind: Strategy, loc: (int, int), draws: seq<nat>) returns (r: Result<Trader>)
      requires |draws| == Clamp(numUnits)
      ensures r.Failure? <==> !ConfigOk(reset) || (numUnits > 0 && DrawRange(t < numTraders / 2, lb, ub).0 > DrawRange(t < numTraders / 2, lb, ub).1)
      ensures r.Success? ==> fresh(r.value) && Made(r.value, t, numTraders, kind, loc, lb, ub, reset, draws)
    {
      var buyer := t < numTraders / 2;
      if !ConfigOk(reset) {
        return Failure("ValueError");
      }
      var agent := new Trader(AgentName(t, numTraders, kind), if buyer then Buyer else Seller, kind,
                              if buyer then UtilityPayoff else ProfitPayoff, 500, loc, lb, ub, reset);
      var schedule := GenResValues(buyer, draws);
      if schedule.Failure? {
        return Failure("ValueError");
      }
      if buyer {
        agent.SetValues(schedule.value);
      } else {
        agent.SetCosts(schedule.value);
      }
      r := Success(agent);
    }

    /** The traders built so far are the first ones make_agents makes. */
    ghost predicate AllMade(built: seq<Trader>, kinds: seq<Strategy>, valueDraws: seq<seq<nat>>)
      reads this, set i | 0 <= i < |built| :: built[i]
    {
      && |built| <= |kinds| && |built| <= |locationList| && |built| <= |valueDraws|
      && forall i :: 0 <= i < |built| ==>
           Made(built[i], i, numTraders, kinds[i], locationList[i], lb, ub, reset, valueDraws[i])
    }

    /** The next trader made extends the traders made so far. */
    lemma MadeAppended(built: seq<Trader>, a: Trader, kinds: seq<Strategy>, valueDraws: seq<seq<nat>>)
      requires AllMade(built, kinds, valueDraws)
      requires |built| < |kinds| && |built| < |locationList| && |built| < |valueDraws|
      requires Made(a, |built|, numTraders, kinds[|built|], locationList[|built|], lb, ub, reset, valueDraws[|built|])
      ensures AllMade(built + [a], kinds, valueDraws)
    {
      forall i | 0 <= i < |built| + 1
        ensures Made((built + [a])[i], i, numTraders, kinds[i], locationList[i], lb, ub, reset, valueDraws[i])
      {
        if i < |built| {
          assert (built + [a])[i] == built[i];
        }
      }
    }

    /**
     * The loop of make_agents over t in range(num_traders). A failure can only happen for the
     * first trader, since every trader is built with the same reset rule and a buyer's draw
     * range is empty exactly when a seller's is.
     */
    method BuildAll(kinds: seq<Strategy>, valueDraws: seq<seq<nat>>) returns (r: Result<seq<Trader>>)
      requires |kinds| == numTraders == |locationList| == |valueDraws|
      requires forall t :: 0 <= t < |valueDraws| ==> |valueDraws[t]| == Clamp(numUnits)
      ensures r.Failure? <==> numTraders > 0 && (!ConfigOk(reset) || (numUnits > 0 && DrawRange(true, lb, ub).0 > DrawRange(true, lb, ub).1))
      ensures r.Success? ==> |r.value| == numTraders
      ensures r.Success? ==> forall t :: 0 <= t < |r.value| ==> fresh(r.value[t])
      ensures r.Success? ==> forall t :: 0 <= t < |r.value| ==>
                Made(r.value[t], t, numTraders, kinds[t], locationList[t], lb, ub, reset, valueDraws[t])
      ensures r.Success? ==> DistinctNames(r.value)
    {
      DrawRangesAgree(lb, ub);
      var built: seq<Trader> := [];
      for t := 0 to numTraders
        invariant |built| == t
        invariant t > 0 ==> ConfigOk(reset) && (numUnits <= 0 || DrawRange(true, lb, ub).0 <= DrawRange(true, lb, ub).1)
        invariant forall i :: 0 <= i < t ==> fresh(built[i])
        invariant AllMade(built, kinds, valueDraws)
      {
        var agent := BuildAgent(t, kinds[t], locationList[t], valueDraws[t]);
        if agent.Failure? {
          return Failure("ValueError");
        }
        MadeAppended(built, agent.value, kinds, valueDraws);
        built := built + [agent.value];
      }
      forall i, j | 0 <= i < j < |built|
        ensures built[i].name != built[j].name
      {
        AgentNamesDistinct(i, j, numTraders, kinds[i], kinds[j]);
      }
      r := Success(built);
    }

    /** make_locations raises, or the type counts miss num_traders: self.agents is not touched. */
    predicate FailsBeforeBuilding()
      reads this
    {
      (numTraders > 0 && gridSize < 1) || TotalCount(traderTypes) != numTraders
    }

    /**
     * make_agents: draw the locations, expand and shuffle the strategies (the type counts must
     * add up to num_traders, else AssertionError), then build trader t as buyer "B_<t+1>_<kind>"
     * in the first half and seller "S_<t+1-half>_<kind>" in the second, each with its own drawn
     * schedule. Every failure happens before the first trader is appended.
     */
    method MakeAgents(locDraws: seq<(nat, nat)>, perm: seq<nat>, valueDraws: seq<seq<nat>>) returns (r: Result<()>)
      modifies this`locationList, this`agents
      requires |locDraws| == Clamp(numTraders) && |valueDraws| == Clamp(numTraders)
      requires forall t :: 0 <= t < |valueDraws| ==> |valueDraws[t]| == Clamp(numUnits)
      requires IsPermutation(perm, TotalCount(traderTypes))
      ensures r.Failure? <==> (|| (numTraders > 0 && gridSize < 1)
                               || TotalCount(traderTypes) != numTraders
                               || (numTraders > 0 && !ConfigOk(reset))
                               || (numTraders > 0 && numUnits > 0 && DrawRange(true, lb, ub).0 > DrawRange(true, lb, ub).1))
      ensures r.Failure? && FailsBeforeBuilding() ==> agents == old(agents)
      ensures r.Failure? && !FailsBeforeBuilding() ==> agents == []
      ensures r.Failure? ==> r.error == (if TotalCount(traderTypes) != numTraders && !(numTraders > 0 && gridSize < 1)
                                         then "AssertionError" else "ValueError")
      ensures r.Success? ==> |agents| == numTraders == |locationList|
      ensures r.Success? ==> forall t :: 0 <= t < |agents| ==> fresh(agents[t])
      ensures r.Success? ==> IsPermutation(perm, |Expand(traderTypes)|)
      ensures r.Success? ==> forall t :: 0 <= t < |agents| ==>
                Made(agents[t], t, numTraders, Apply(Expand(traderTypes), perm)[t], locationList[t], lb, ub, reset, valueDraws[t])
      ensures r.Success? ==> DistinctNames(agents)
    {
      var placed := MakeLocations(locDraws);
      if !placed {
        return Failure("ValueError");
      }
      var kinds := ExpandTypes(traderTypes);
      ExpandCounts(traderTypes, ZID);
      if |kinds| != numTraders {
        return Failure("AssertionError");
      }
      kinds := Apply(kinds, perm);
      agents := [];
      var built := BuildAll(kinds, valueDraws);
      if built.Failure? {
        return Failure("ValueError");
      }
      agents := built.value;
      r := Success(());
    }

    /** The traders make_agents builds are drawable, as the bargaining rounds require. */
    lemma MadeAgentsDrawable(kinds: seq<Strategy>, valueDraws: seq<seq<nat>>)
      requires |kinds| == |agents| <= |locationList| && |agents| <= |valueDraws|
      requires forall t :: 0 <= t < |agents| ==>
                 Made(agents[t], t, numTraders, kinds[t], locationList[t], lb, ub, reset, valueDraws[t])
      ensures forall a :: a in agents ==> a.Drawable()
    {
      forall a | a in agents
        ensures a.Drawable()
      {
        var t :| 0 <= t < |agents| && agents[t] == a;
        MadeIsDrawable(a, t, numTraders, kinds[t], locationList[t], lb, ub, reset, valueDraws[t]);
      }
    }

    /** make_test_agents: eight ZID traders, buyers and sellers alternating, with the fixed
        schedules; num_traders becomes 8 and num_units 4. */
    method MakeTestAgents()
      modifies this`agents, this`numTraders, this`numUnits
      ensures numTraders == 8 && numUnits == 4 && |agents| == 8
      ensures forall i :: 0 <= i < 8 ==> fresh(agents[i]) && TestAgent(agents[i], TestNames[i], TestBuyer[i])
      ensures DistinctNames(agents)
    {
      var roster := TestRoster();
      TestRosterDistinct(roster);
      numTraders := 8;
      numUnits := 4;
      agents := roster;
    }

    /**
     * make_market: a one-type market with num_traders // 2 buyers and sellers; the trader at
     * list position i is added as buyer i, or, if it is not a buyer, as seller i - num_traders // 2;
     * then the curves and the equilibrium are computed.
     */
    method MakeMarket(marketName: string)
      modifies this`market
      ensures market.Some? && fresh(market.value) && Built(market.value, marketName, numTraders / 2, agents)
    {
      var m := BuildMarket(marketName, numTraders / 2, agents);
      market := Some(m);
    }
  }
}
