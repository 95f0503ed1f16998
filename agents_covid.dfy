/**
 * The trader of the COVID-era environment (modules_vCOVID/environment/dm_agents.py):
 * one class for the base Trader and its ZID, ZIDA, ZIDP, ZIDPA and ZIDPR
 * subclasses, told apart by the strategy they were built with. It adds to
 * the plain ZID protocol the contract_this_period flag and the rules that
 * reset it (START, WEEK, PERIOD, WINDOW and MIN_AGENTS).
 */
module AgentsCovid {
  import opened Wrappers
  import opened Messages
  import opened Protocol
  import opened Chance
  import opened Selection
  import opened Strategies
  import opened Payoffs

  /** reset_flag_frequency; None, and any string not listed, resets nothing. */
  datatype Frequency = NoReset | StartReset | WeekReset | PeriodReset | WindowReset | MinAgentsReset

  /** The reset_flag_* constructor arguments; reset_flag_min_agents defaults to None. */
  datatype ResetRule = ResetRule(frequency: Frequency, minAgents: Option<int>, onRandom: bool,
                                 window: Option<int>, minTrades: int)

  /**
   * What one message may draw: the randint behind a bid, an ask or a
   * willingness to pay or accept (price), the rnd.choice among offers
   * (choice), the comparison of a uniform draw with movement_error_rate
   * (error), the two rnd.choice calls of a move (x, y), and the periods that
   * update_flag_window scans (span).
   */
  datatype Draws = Draws(price: nat, choice: nat, error: bool, x: nat, y: nat, span: seq<int>)

  /** The only directives process_message dispatches; REPORT_* and the rest are rejected. */
  const ValidDirectives: seq<string> := ["START", "MOVE_REQUESTED", "OFFER", "TRANSACT", "CONTRACT"]

  /**
   * Every unit a trader can still reach has a schedule entry and a non-empty
   * randint range: a buyer's values are at least its lower bound, a seller's
   * costs at most its upper bound.
   */
  predicate SchedulesDrawable(role: Role, lowerBound: int, upperBound: int,
                              values: seq<int>, costs: seq<int>, maxUnits: nat)
  {
    if role == Buyer then maxUnits <= |values| && forall k :: 0 <= k < maxUnits ==> lowerBound <= values[k]
    else maxUnits <= |costs| && forall k :: 0 <= k < maxUnits ==> costs[k] <= upperBound
  }

  /** The constructor raises ValueError for a WINDOW frequency without a window size. */
  predicate ConfigOk(rule: ResetRule)
  {
    !(rule.frequency == WindowReset && rule.window.None?)
  }

  /**
   * A MIN_AGENTS rule comes with its minimum; without one the affinity
   * strategies' comparison num_at_loc < None raises TypeError.
   */
  predicate MinimumGiven(rule: ResetRule)
  {
    rule.frequency == MinAgentsReset ==> rule.minAgents.Some?
  }

  /** How many of the span's periods appear among the periods traded in. */
  function CountIn(span: seq<int>, traded: seq<int>): (n: nat)
    ensures n <= |span|
  {
    if span == [] then 0
    else CountIn(span[..|span| - 1], traded) + (if span[|span| - 1] in traded then 1 else 0)
  }

  /** The periods of the span that were traded in. */
  function Hits(span: seq<int>, traded: seq<int>): (h: set<int>)
    ensures forall p :: p in h <==> p in span && p in traded
  {
    if span == [] then {}
    else Hits(span[..|span| - 1], traded) + (if span[|span| - 1] in traded then {span[|span| - 1]} else {})
  }

  /** Over a span without repetitions the count is the number of distinct periods traded in. */
  lemma {:induction false} CountInIsDistinctHits(span: seq<int>, traded: seq<int>)
    requires forall i, j :: 0 <= i < j < |span| ==> span[i] != span[j]
    ensures CountIn(span, traded) == |Hits(span, traded)|
  {
    if span != [] {
      var init := span[..|span| - 1];
      var last := span[|span| - 1];
      CountInIsDistinctHits(init, traded);
      assert last !in init by {
        forall i | 0 <= i < |init|
          ensures init[i] != last
        {
          assert init[i] == span[i];
        }
      }
      assert last !in Hits(init, traded);
    }
  }

  /**
   * The flag after move_requested, from the flag after the window update:
   * PERIOD always clears it; an error move clears it under reset_flag_on_random,
   * and always for ZID, ZIDP and ZIDPA; the affinity variants clear it when the
   * location is short of agents.
   */
  function MoveFlag(s: Strategy, rule: ResetRule, flag: bool, error: bool, short: bool): (f: bool)
    ensures rule.frequency == PeriodReset ==> !f
    ensures f ==> flag
    ensures !error && (s == ZID || s == ZIDP) && rule.frequency != PeriodReset ==> f == flag
  {
    if rule.frequency == PeriodReset then false
    else if error then
      if rule.onRandom || s == ZID || s == ZIDP || s == ZIDPA then false else flag
    else if s != ZID && s != ZIDP && flag && short then false
    else flag
  }

  class Trader {
    const name: string
    const role: Role
    const strategy: Strategy
    const payoff: PayoffKind
    const money: int
    const lowerBound: int
    const upperBound: int
    const reset: ResetRule
    var location: (int, int)
    var values: seq<int>
    var costs: seq<int>
    var unitsTransacted: nat
    var curUnit: nat
    var maxUnits: nat
    var contractThisPeriod: bool
    var numAtLoc: int
    var currentPeriod: int
    var periodsTradedIn: seq<int>
    var tradesThisWeek: int

    /** A trader as the constructor leaves it: no schedule, nothing traded, flag down. */
    constructor (name: string, role: Role, strategy: Strategy, payoff: PayoffKind, money: int,
                 location: (int, int), lowerBound: int, upperBound: int, reset: ResetRule)
      requires ConfigOk(reset)
      ensures this.name == name && this.role == role && this.strategy == strategy
      ensures this.payoff == payoff && this.money == money && this.location == location
      ensures this.lowerBound == lowerBound && this.upperBound == upperBound && this.reset == reset
      ensures values == [] && costs == []
      ensures unitsTransacted == 0 && curUnit == 0 && maxUnits == 0
      ensures !contractThisPeriod && numAtLoc == 0
      ensures currentPeriod == -1 && periodsTradedIn == [] && tradesThisWeek == 0
    {
      this.name := name;
      this.role := role;
      this.strategy := strategy;
      this.payoff := payoff;
      this.money := money;
      this.location := location;
      this.lowerBound := lowerBound;
      this.upperBound := upperBound;
      this.reset := reset;
      values := [];
      costs := [];
      unitsTransacted := 0;
      curUnit := 0;
      maxUnits := 0;
      contractThisPeriod := false;
      numAtLoc := 0;
      currentPeriod := -1;
      periodsTradedIn := [];
      tradesThisWeek := 0;
    }

    /** The schedule the trader trades from: values for a buyer, costs for everyone else. */
    function Schedule(): seq<int>
      reads this
    {
      if role == Buyer then values else costs
    }

    /** No unit left to trade. */
    predicate Exhausted()
      reads this
    {
      curUnit >= maxUnits
    }

    /** The lower end of the current unit's randint: lower_bound for a buyer, the unit's cost otherwise. */
    function ReservationLow(): int
      reads this
      requires curUnit < |Schedule()|
    {
      if role == Buyer then lowerBound else costs[curUnit]
    }

    /** The upper end of the current unit's randint: the unit's value for a buyer, upper_bound otherwise. */
    function ReservationHigh(): int
      reads this
      requires curUnit < |Schedule()|
    {
      if role == Buyer then values[curUnit] else upperBound
    }

    /** Unit k's randint range is not empty. */
    predicate UnitDrawable(k: nat)
      reads this
      requires k < |Schedule()|
    {
      if role == Buyer then lowerBound <= values[k] else costs[k] <= upperBound
    }

    /** Every unit the trader can still reach has a schedule entry and a non-empty draw range. */
    predicate Drawable()
      reads this
    {
      SchedulesDrawable(role, lowerBound, upperBound, values, costs, maxUnits)
    }

    /** set_values: a new value schedule, every unit of it tradable again. */
    method SetValues(v: seq<int>)
      modifies this
      ensures values == v && maxUnits == |v| && curUnit == 0
      ensures costs == old(costs) && unitsTransacted == old(unitsTransacted)
      ensures location == old(location) && contractThisPeriod == old(contractThisPeriod)
      ensures numAtLoc == old(numAtLoc) && currentPeriod == old(currentPeriod)
      ensures periodsTradedIn == old(periodsTradedIn) && tradesThisWeek == old(tradesThisWeek)
    {
      values := v;
      maxUnits := |v|;
      curUnit := 0;
    }

    /** set_costs: a new cost schedule, every unit of it tradable again. */
    method SetCosts(c: seq<int>)
      modifies this
      ensures costs == c && maxUnits == |c| && curUnit == 0
      ensures values == old(values) && unitsTransacted == old(unitsTransacted)
      ensures location == old(location) && contractThisPeriod == old(contractThisPeriod)
      ensures numAtLoc == old(numAtLoc) && currentPeriod == old(currentPeriod)
      ensures periodsTradedIn == old(periodsTradedIn) && tradesThisWeek == old(tradesThisWeek)
    {
      costs := c;
      maxUnits := |c|;
      curUnit := 0;
    }

    /** set_location. */
    method SetLocation(loc: (int, int))
      modifies this
      ensures location == loc
      ensures values == old(values) && costs == old(costs) && unitsTransacted == old(unitsTransacted)
      ensures curUnit == old(curUnit) && maxUnits == old(maxUnits)
      ensures contractThisPeriod == old(contractThisPeriod) && numAtLoc == old(numAtLoc)
      ensures currentPeriod == old(currentPeriod) && periodsTradedIn == old(periodsTradedIn)
      ensures tradesThisWeek == old(tradesThisWeek)
    {
      location := loc;
    }

    /** set_num_at_loc. */
    method SetNumAtLoc(q: int)
      modifies this
      ensures numAtLoc == q
      ensures values == old(values) && costs == old(costs) && unitsTransacted == old(unitsTransacted)
      ensures curUnit == old(curUnit) && maxUnits == old(maxUnits) && location == old(location)
      ensures contractThisPeriod == old(contractThisPeriod)
      ensures currentPeriod == old(currentPeriod) && periodsTradedIn == old(periodsTradedIn)
      ensures tradesThisWeek == old(tradesThisWeek)
    {
      numAtLoc := q;
    }

    /** get_payoff with the built-in payoff functions; a two-sided trader has none. */
    function GetPayoff(prices: seq<int>): (r: Option<int>)
      reads this
      ensures r.Some? <==> role != TwoSided
      ensures unitsTransacted == 0 && r.Some? ==> r.value == money
    {
      NoTradeKeepsMoney(money, values, costs, prices);
      if role == TwoSided then None
      else if payoff == UtilityPayoff then Some(Utility(unitsTransacted, money, Schedule(), prices))
      else Some(Profit(unitsTransacted, money, Schedule(), prices))
    }

    /** Every field but the contract flag and the period counter as it was. */
    twostate predicate OnlyFlagAndPeriodChanged()
      reads this
    {
      && values == old(values) && costs == old(costs) && unitsTransacted == old(unitsTransacted)
      && curUnit == old(curUnit) && maxUnits == old(maxUnits) && location == old(location)
      && numAtLoc == old(numAtLoc) && periodsTradedIn == old(periodsTradedIn)
      && tradesThisWeek == old(tradesThisWeek)
    }

    /**
     * ZID.start: counters reset, max_units taken from the schedule; START
     * clears the flag, WEEK sets it exactly when the week's trades reached
     * the minimum and then restarts the week's count.
     */
    twostate predicate StartedFrom(new r: Msg)
      reads this
    {
      && r == Message("Initial", name, name, Note("Initialized"))
      && unitsTransacted == 0 && curUnit == 0 && maxUnits == |old(Schedule())|
      && contractThisPeriod == (match reset.frequency
                                  case StartReset => false
                                  case WeekReset => old(tradesThisWeek) >= reset.minTrades
                                  case _ => old(contractThisPeriod))
      && tradesThisWeek == (if reset.frequency == WeekReset then 0 else old(tradesThisWeek))
      && values == old(values) && costs == old(costs) && location == old(location)
      && numAtLoc == old(numAtLoc) && currentPeriod == old(currentPeriod)
      && periodsTradedIn == old(periodsTradedIn)
    }

    method Start() returns (r: Msg)
      modifies this
      ensures StartedFrom(r)
    {
      unitsTransacted := 0;
      curUnit := 0;
      if role == Buyer {
        maxUnits := |values|;
      } else {
        maxUnits := |costs|;
      }
      r := Message("Initial", name, name, Note("Initialized"));
      if reset.frequency == StartReset {
        contractThisPeriod := false;
      }
      if reset.frequency == WeekReset {
        if tradesThisWeek >= reset.minTrades {
          contractThisPeriod := true;
        } else {
          contractThisPeriod := false;
        }
        tradesThisWeek := 0;
      }
    }

    /** The counterparty field of a contract this trader must match: buyer for a buyer, seller otherwise. */
    function OwnSide(c: Contract): string
    {
      if role == Buyer then c.buyer else c.seller
    }

    /**
     * ZID.contract: the flag is set whatever happens. A contract naming this
     * trader on its own side advances both counters and is remembered for the
     * WEEK or WINDOW rule; any other is rejected with "08" or "09" and changes
     * no counter. A payload that is not a contract cannot be subscripted.
     */
    twostate predicate ContractedFrom(new pl: Payload, new r: Result<Msg>)
      reads this
    {
      && contractThisPeriod
      && values == old(values) && costs == old(costs) && maxUnits == old(maxUnits)
      && location == old(location) && numAtLoc == old(numAtLoc) && currentPeriod == old(currentPeriod)
      && if pl.Deal? && name == OwnSide(pl.contract) then
           && r == Success(Message("Update", name, "BARGAIN", Note("10 Units Updated")))
           && unitsTransacted == old(unitsTransacted) + 1 && curUnit == old(curUnit) + 1
           && tradesThisWeek == old(tradesThisWeek) + (if reset.frequency == WeekReset then 1 else 0)
           && periodsTradedIn == old(periodsTradedIn)
                                 + (if reset.frequency == WindowReset then [old(currentPeriod)] else [])
         else
           && r == (if !pl.Deal? then Failure("TypeError")
                    else if role == Buyer then Success(Message("BAD", name, "BARGAIN", Note("08 Not buyer contract")))
                    else Success(Message("BAD", name, "BARGAIN", Note("09 Not seller contract"))))
           && unitsTransacted == old(unitsTransacted) && curUnit == old(curUnit)
           && tradesThisWeek == old(tradesThisWeek) && periodsTradedIn == old(periodsTradedIn)
    }

    method ReceiveContract(pl: Payload) returns (r: Result<Msg>)
      modifies this
      ensures ContractedFrom(pl, r)
    {
      contractThisPeriod := true;
      if !pl.Deal? {
        return Failure("TypeError");
      }
      var c := pl.contract;
      if role == Buyer {
        if name != c.buyer {
          return Success(Message("BAD", name, "BARGAIN", Note("08 Not buyer contract")));
        }
        unitsTransacted := unitsTransacted + 1;
        curUnit := curUnit + 1;
      } else {
        if name != c.seller {
          return Success(Message("BAD", name, "BARGAIN", Note("09 Not seller contract")));
        }
        unitsTransacted := unitsTransacted + 1;
        curUnit := curUnit + 1;
      }
      r := Success(Message("Update", name, "BARGAIN", Note("10 Units Updated")));
      if reset.frequency == WeekReset {
        tradesThisWeek := tradesThisWeek + 1;
      } else if reset.frequency == WindowReset {
        periodsTradedIn := periodsTradedIn + [currentPeriod];
      }
    }

    /**
     * The reply of offer for the raw draw d: NULL once every unit is traded,
     * otherwise a BID (buyer) or ASK (anyone else) drawn from the current
     * unit's range; a missing schedule entry or an empty range raises.
     */
    function OfferReply(d: nat): (r: Result<Msg>)
      reads this
      ensures r.Success? ==> r.value.sender == name && r.value.receiver == "BARGAIN"
      ensures r.Success? && r.value.directive != "NULL" ==>
                && !Exhausted() && curUnit < |Schedule()|
                && r.value.directive == (if role == Buyer then "BID" else "ASK")
                && r.value.payload.Amount?
                && ReservationLow() <= r.value.payload.amount <= ReservationHigh()
      ensures Exhausted() <==> r == Success(NullReply(name))
    {
      if Exhausted() then Success(NullReply(name))
      else if curUnit >= |Schedule()| then Failure("IndexError")
      else if ReservationLow() > ReservationHigh() then Failure("ValueError")
      else
        Success(Message(if role == Buyer then "BID" else "ASK", name, "BARGAIN",
                        Amount(Pick(ReservationLow(), ReservationHigh(), d))))
    }

    /** Every amount of the current unit's range is offered for some draw. */
    lemma OfferReachesEveryAmount(v: int)
      requires !Exhausted() && Drawable()
      requires ReservationLow() <= v <= ReservationHigh()
      ensures exists d: nat :: OfferReply(d).Success? && OfferReply(d).value.payload == Amount(v)
    {
      PickReachesEveryValue(ReservationLow(), ReservationHigh(), v);
      var d: nat :| Pick(ReservationLow(), ReservationHigh(), d) == v;
      assert OfferReply(d).value.payload == Amount(v);
    }

    /**
     * The reply of transact: NULL once every unit is traded; otherwise the
     * willingness to pay or accept is drawn from the current unit's range and
     * the acceptance rule of the strategy is applied to the live orders of the
     * other side, in book order.
     */
    function TransactReply(pl: Payload, d: nat, choice: nat): (r: Result<Msg>)
      reads this
      ensures r.Success? ==> r.value.sender == name && r.value.receiver == "BARGAIN"
      ensures r.Success? ==> r.value.directive in {"BUY", "SELL", "NULL"}
      ensures r.Success? && r.value.directive != "NULL" ==>
                && !Exhausted() && curUnit < |Schedule()| && pl.BookView?
                && r.value.directive == (if role == Buyer then "BUY" else "SELL")
                && r.value.payload.Counterparty?
                && exists amount :: (r.value.payload.id, amount) in Matching(pl.entries, AcceptedSide(role))
                                    && (if role == Buyer then amount <= ReservationHigh()
                                        else ReservationLow() <= amount)
      ensures Exhausted() ==> r == Success(NullReply(name))
    {
      if Exhausted() then Success(NullReply(name))
      else if curUnit >= |Schedule()| then Failure("IndexError")
      else if ReservationLow() > ReservationHigh() then Failure("ValueError")
      else if !pl.BookView? then Failure("TypeError")
      else
        var reservation := Pick(ReservationLow(), ReservationHigh(), d);
        var offers := Matching(pl.entries, AcceptedSide(role));
        AcceptNamesAffordableOffer(name, role == Buyer, Picky(strategy), reservation, offers, choice);
        Success(Accept(name, role == Buyer, Picky(strategy), reservation, offers, choice))
    }

    /** A drawable trader never raises on OFFER, nor on TRANSACT when shown an order book. */
    lemma DrawableRepliesSucceed(pl: Payload, d: nat, choice: nat)
      requires Drawable()
      ensures OfferReply(d).Success?
      ensures pl.BookView? ==> TransactReply(pl, d, choice).Success?
    {
      if !Exhausted() {
        assert UnitDrawable(curUnit);
      }
    }

    /** transact: the offer-collection loop, then find_opt or rnd.choice, then the acceptance test. */
    method Transact(pl: Payload, d: nat, choice: nat) returns (r: Result<Msg>)
      ensures r == TransactReply(pl, d, choice)
    {
      if curUnit >= maxUnits {
        return Success(NullReply(name));
      }
      if curUnit >= |Schedule()| {
        return Failure("IndexError");
      }
      var lo, hi := ReservationLow(), ReservationHigh();
      if lo > hi {
        return Failure("ValueError");
      }
      var reservation := Pick(lo, hi, d);
      if !pl.BookView? {
        return Failure("TypeError");
      }
      var side := AcceptedSide(role);
      var offers := CollectOffers(pl.entries, side);
      if |offers| == 0 {
        return Success(NullReply(name));
      }
      var offer;
      if Picky(strategy) {
        offer := FindOpt(ModeFor(side), offers);
      } else {
        offer := Choose(offers, choice);
      }
      if role == Buyer {
        if reservation >= offer.1 {
          r := Success(Message("BUY", name, "BARGAIN", Counterparty(offer.0)));
        } else {
          r := Success(NullReply(name));
        }
      } else {
        if reservation <= offer.1 {
          r := Success(Message("SELL", name, "BARGAIN", Counterparty(offer.0)));
        } else {
          r := Success(NullReply(name));
        }
      }
    }

    /** The affinity variants update the flag from the trading window before they move. */
    predicate Windowed()
      reads this
    {
      strategy != ZID && strategy != ZIDP && reset.frequency == WindowReset
    }

    /** The contract flag as the strategy path of move_requested sees it. */
    function FlagAfterWindow(span: seq<int>): bool
      reads this
    {
      if Windowed() then CountIn(span, periodsTradedIn) >= reset.minTrades else contractThisPeriod
    }

    /** Fewer agents at the location than the MIN_AGENTS rule asks for. */
    predicate ShortOfAgents()
      reads this
    {
      reset.frequency == MinAgentsReset && reset.minAgents.Some? && numAtLoc < reset.minAgents.value
    }

    /**
     * The affinity variants compare num_at_loc with reset_flag_min_agents only
     * on the strategy path with the flag set; under MIN_AGENTS without a
     * minimum that comparison raises TypeError.
     */
    predicate MoveRaises(d: Draws)
      reads this
    {
      && !d.error && strategy != ZID && strategy != ZIDP && FlagAfterWindow(d.span)
      && reset.frequency == MinAgentsReset && reset.minAgents.None?
    }

    /**
     * The MOVE reply: an error draw gives a step from [-1, 0, +1] per
     * component; otherwise a trader past its last unit (cur_unit > max_units)
     * stays, and any other draws from its strategy's direction list.
     */
    function MoveReply(d: Draws): (r: Msg)
      reads this
      ensures r.directive == "MOVE" && r.sender == name && r.receiver == "Travel" && r.payload.Step?
      ensures r.payload.dx in Unit && r.payload.dy in Unit
      ensures !d.error && curUnit > maxUnits ==> r.payload == Step(0, 0)
      ensures !d.error && strategy == ZIDPR && numAtLoc > 2 && curUnit <= maxUnits
              ==> r.payload.dx != 0 && r.payload.dy != 0
      ensures (!d.error && strategy != ZID && strategy != ZIDP && FlagAfterWindow(d.span) && !ShortOfAgents()
               && !(strategy == ZIDPR && numAtLoc > 2)) ==> r.payload == Step(0, 0)
    {
      var step :=
        if d.error then Draw(Unit, d.x, d.y)
        else if curUnit > maxUnits then (0, 0)
        else Draw(Directions(strategy, FlagAfterWindow(d.span), ShortOfAgents(), numAtLoc > 2), d.x, d.y);
      Message("MOVE", name, "Travel", Step(step.0, step.1))
    }

    /**
     * The outcome of move_requested: TypeError, with nothing changed, when the
     * comparison with a missing minimum is reached; otherwise the MOVE reply,
     * and only the flag and, under WINDOW, the period change.
     */
    twostate predicate MovedFrom(new d: Draws, new r: Result<Msg>)
      reads this
    {
      if old(MoveRaises(d)) then r == Failure("TypeError") && unchanged(this)
      else
      && r == Success(old(MoveReply(d)))
      && contractThisPeriod == MoveFlag(strategy, reset, old(FlagAfterWindow(d.span)), d.error, old(ShortOfAgents()))
      && currentPeriod == old(currentPeriod) + (if old(Windowed()) then 1 else 0)
      && OnlyFlagAndPeriodChanged()
    }

    /** update_flag_window: the flag is set exactly when enough of the span's periods were traded in. */
    method UpdateFlagWindow(span: seq<int>)
      modifies this
      ensures contractThisPeriod == (CountIn(span, periodsTradedIn) >= reset.minTrades)
      ensures currentPeriod == old(currentPeriod)
      ensures OnlyFlagAndPeriodChanged()
    {
      var tradesInWindow := 0;
      for i := 0 to |span|
        invariant tradesInWindow == CountIn(span[..i], periodsTradedIn)
      {
        assert span[..i + 1][..i] == span[..i];
        if span[i] in periodsTradedIn {
          tradesInWindow := tradesInWindow + 1;
        }
      }
      assert span[..|span|] == span;
      if tradesInWindow >= reset.minTrades {
        contractThisPeriod := true;
      } else {
        contractThisPeriod := false;
      }
    }

    /** move_requested of the trader's strategy. */
    method MoveRequested(d: Draws) returns (r: Result<Msg>)
      modifies this
      ensures MinimumGiven(reset) ==> r.Success?
      ensures MovedFrom(d, r)
    {
      ghost var flagW := FlagAfterWindow(d.span);
      ghost var short := ShortOfAgents();
      ghost var reply := MoveReply(d);
      if Windowed() {
        UpdateFlagWindow(d.span);
        currentPeriod := currentPeriod + 1;
      }
      assert contractThisPeriod == flagW;
      var step: (int, int);
      if d.error {
        // total_random_move
        if reset.onRandom {
          contractThisPeriod := false;
        }
        step := (Choose(Unit, d.x), Choose(Unit, d.y));
        if strategy == ZID || strategy == ZIDP || strategy == ZIDPA {
          contractThisPeriod := false;
        }
      } else {
        var dirs: seq<int>;
        if strategy == ZID || strategy == ZIDP {
          dirs := Unit;
        } else {
          if contractThisPeriod {
            dirs := [0, 0, 0];
            if reset.frequency == MinAgentsReset && reset.minAgents.None? {
              return Failure("TypeError");
            }
            if reset.frequency == MinAgentsReset && numAtLoc < reset.minAgents.value {
              dirs := Unit;
              contractThisPeriod := false;
            }
          } else {
            dirs := Unit;
          }
          if strategy == ZIDPR && numAtLoc > 2 {
            dirs := [-1, 1];
          }
        }
        assert dirs == Directions(strategy, flagW, short, numAtLoc > 2);
        if curUnit > maxUnits {
          step := (0, 0);
        } else {
          step := (Choose(dirs, d.x), Choose(dirs, d.y));
        }
      }
      r := Success(Message("MOVE", name, "Travel", Step(step.0, step.1)));
      if reset.frequency == PeriodReset {
        contractThisPeriod := false;
      }
    }

    /**
     * process_message: a message for someone else is answered with "01", a
     * directive outside the valid list with "02", and neither calls a handler
     * or changes the trader; the rest go to their handler.
     */
    method ProcessMessage(m: Msg, d: Draws) returns (r: Result<Msg>)
      modifies this
      ensures m.receiver != name ==>
                r == Success(Message("Bad", name, m.sender, Note("01 Wrong Receiver"))) && unchanged(this)
      ensures m.receiver == name && m.directive !in ValidDirectives ==>
                && r == Success(Message("Bad", name, m.sender, Note("02 Unexpected Directive - " + m.directive)))
                && unchanged(this)
      ensures m.receiver == name && m.directive == "START" ==> r.Success? && StartedFrom(r.value)
      ensures m.receiver == name && m.directive == "MOVE_REQUESTED" ==> MovedFrom(d, r)
      ensures m.receiver == name && m.directive == "OFFER" ==> r == old(OfferReply(d.price)) && unchanged(this)
      ensures m.receiver == name && m.directive == "TRANSACT" ==>
                r == old(TransactReply(m.payload, d.price, d.choice)) && unchanged(this)
      ensures m.receiver == name && m.directive == "CONTRACT" ==> ContractedFrom(m.payload, r)
    {
      if m.receiver != name {
        return Success(Message("Bad", name, m.sender, Note("01 Wrong Receiver")));
      }
      if m.directive !in ValidDirectives {
        return Success(Message("Bad", name, m.sender, Note("02 Unexpected Directive - " + m.directive)));
      }
      if m.directive == "START" {
        var reply := Start();
        r := Success(reply);
      } else if m.directive == "MOVE_REQUESTED" {
        r := MoveRequested(d);
      } else if m.directive == "OFFER" {
        r := OfferReply(d.price);
      } else if m.directive == "TRANSACT" {
        r := Transact(m.payload, d.price, d.choice);
      } else {
        r := ReceiveContract(m.payload);
      }
    }
  }

  /** The constructor's ValueError made explicit: WINDOW without a window size builds no trader. */
  method NewTrader(name: string, role: Role, strategy: Strategy, payoff: PayoffKind, money: int,
                   location: (int, int), lowerBound: int, upperBound: int, reset: ResetRule)
    returns (r: Result<Trader>)
    ensures r.Failure? <==> !ConfigOk(reset)
    ensures r.Failure? ==> r.error == "ValueError"
    ensures r.Success? ==> fresh(r.value)
    ensures r.Success? ==> r.value.name == name && r.value.role == role && r.value.strategy == strategy
    ensures r.Success? ==> r.value.reset == reset && r.value.location == location
    ensures r.Success? ==> r.value.values == [] && r.value.costs == [] && r.value.maxUnits == 0
    ensures r.Success? ==> !r.value.contractThisPeriod && r.value.curUnit == 0
  {
    if !ConfigOk(reset) {
      return Failure("ValueError");
    }
    var t := new Trader(name, role, strategy, payoff, money, location, lowerBound, upperBound, reset);
    r := Success(t);
  }

  /** The agents' names in order. */
  function Names(ts: seq<Trader>): (ns: seq<string>)
    ensures |ns| == |ts| && forall i :: 0 <= i < |ts| ==> ns[i] == ts[i].name
  {
    seq(|ts|, i requires 0 <= i < |ts| => ts[i].name)
  }

  /** No two agents share a name. */
  predicate DistinctNames(ts: seq<Trader>)
  {
    forall i, j :: 0 <= i < j < |ts| ==> ts[i].name != ts[j].name
  }

  /** Naming p of the shuffled agents is shuffling their names. */
  lemma NamesOfApply(ts: seq<Trader>, p: seq<nat>)
    requires IsPermutation(p, |ts|)
    ensures IsPermutation(p, |Names(ts)|)
    ensures Names(Apply(ts, p)) == Apply(Names(ts), p)
  {
  }

  /** A shuffle of agents with distinct names still has distinct names. */
  lemma ShuffleKeepsNamesDistinct(ts: seq<Trader>, p: seq<nat>)
    requires IsPermutation(p, |ts|)
    requires DistinctNames(ts)
    ensures DistinctNames(Apply(ts, p))
  {
    NamesOfApply(ts, p);
    ApplyKeepsDistinct(Names(ts), p);
    var ys := Apply(ts, p);
    forall i, j | 0 <= i < j < |ys|
      ensures ys[i].name != ys[j].name
    {
      assert Names(ys)[i] != Names(ys)[j];
    }
  }
}
