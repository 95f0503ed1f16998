/**
 * The trader of the version 3 environment (modules_v3/environment/dm_agents.py):
 * the base Trader with its quantity and currency books, and the ZID, ZIDA,
 * ZIDP, ZIDPA and ZIDPR strategies, told apart by the strategy the trader is
 * built with. A TRADER (two-sided) agent has no offer rule, and only the ZIDP
 * family has a transact rule for it, the seller's.
 */
module AgentsV3 {
  import opened Wrappers
  import opened Messages
  import opened Protocol
  import opened Chance
  import opened Selection
  import opened Strategies

  /**
   * What one message may draw: the randint behind a bid, an ask or a
   * willingness to pay or accept (price), the rnd.choice among offers
   * (choice), and the two rnd.choice calls of a move (x, y).
   */
  datatype Draws = Draws(price: nat, choice: nat, x: nat, y: nat)

  /** This version dispatches the REPORT_*, REQUEST_MONEY and REPAY_LOAN directives as well. */
  const ValidDirectives: seq<string> :=
    ["START", "MOVE_REQUESTED", "OFFER", "TRANSACT", "CONTRACT",
     "REPORT_QUANTITY", "REPORT_MONEY", "REQUEST_MONEY", "REPAY_LOAN"]

  /** The nested quantities dictionary {property_right: {item_type: q}}. */
  type Quantities = map<string, map<string, int>>

  /** The amount report_quantity returns: the stored quantity, or 0 for a missing right or item. */
  function Held(q: Quantities, right: string, item: string): int
  {
    if right in q && item in q[right] then q[right][item] else 0
  }

  /**
   * The dictionary report_quantity leaves: a missing item is inserted with
   * 0 (under a new, empty right if need be); nothing else changes.
   */
  function Recorded(q: Quantities, right: string, item: string): (r: Quantities)
    ensures right in r && item in r[right] && r[right][item] == Held(q, right, item)
    ensures forall p :: p in r <==> p in q || p == right
    ensures forall p, i :: p in q && i in q[p] ==> p in r && i in r[p] && r[p][i] == q[p][i]
    ensures forall p, i :: p in r && i in r[p] ==> (p in q && i in q[p]) || (p == right && i == item)
  {
    if right in q && item in q[right] then q
    else if right in q then q[right := q[right][item := 0]]
    else q[right := map[item := 0]]
  }

  /** A second report finds the quantity the first one returned and changes nothing more. */
  lemma RecordedIsIdempotent(q: Quantities, right: string, item: string)
    ensures Recorded(Recorded(q, right, item), right, item) == Recorded(q, right, item)
    ensures Held(Recorded(q, right, item), right, item) == Held(q, right, item)
  {
  }

  /** The amount of a currency on hand: the stored amount, 0 when the currency is missing. */
  function OnHand(c: map<string, int>, currency: string): int
  {
    if currency in c then c[currency] else 0
  }

  /** The currencies dictionary after a lookup that inserts a missing currency with 0. */
  function WithCurrency(c: map<string, int>, currency: string): (r: map<string, int>)
    ensures currency in r && r[currency] == OnHand(c, currency)
    ensures r.Keys == c.Keys + {currency}
    ensures forall k :: k in c ==> r[k] == c[k]
  {
    if currency in c then c else c[currency := 0]
  }

  /** Looking a currency up again finds the same amount and inserts nothing. */
  lemma WithCurrencyIsIdempotent(c: map<string, int>, currency: string)
    ensures WithCurrency(WithCurrency(c, currency), currency) == WithCurrency(c, currency)
    ensures OnHand(WithCurrency(c, currency), currency) == OnHand(c, currency)
  {
  }

  class Trader {
    const name: string
    const role: Role
    const strategy: Strategy
    const money: int
    const lowerBound: int
    const upperBound: int
    const itemBuyer: string
    const itemSeller: string
    const repTokens: int
    var location: (int, int)
    var values: seq<int>
    var costs: seq<int>
    var unitsTransacted: nat
    var curUnit: nat
    var maxUnits: nat
    var contractThisPeriod: bool
    var numAtLoc: int
    var quantities: Quantities
    var currencies: map<string, int>

    /** A trader as the constructor leaves it: no schedule, nothing traded, empty books. */
    constructor (name: string, role: Role, strategy: Strategy, money: int, location: (int, int),
                 lowerBound: int, upperBound: int, itemBuyer: string, itemSeller: string, repTokens: int)
      ensures this.name == name && this.role == role && this.strategy == strategy
      ensures this.money == money && this.location == location
      ensures this.lowerBound == lowerBound && this.upperBound == upperBound
      ensures this.itemBuyer == itemBuyer && this.itemSeller == itemSeller && this.repTokens == repTokens
      ensures values == [] && costs == [] && unitsTransacted == 0 && curUnit == 0 && maxUnits == 0
      ensures !contractThisPeriod && numAtLoc == 0 && quantities == map[] && currencies == map[]
    {
      this.name := name;
      this.role := role;
      this.strategy := strategy;
      this.money := money;
      this.location := location;
      this.lowerBound := lowerBound;
      this.upperBound := upperBound;
      this.itemBuyer := itemBuyer;
      this.itemSeller := itemSeller;
      this.repTokens := repTokens;
      values, costs := [], [];
      unitsTransacted, curUnit, maxUnits := 0, 0, 0;
      contractThisPeriod, numAtLoc := false, 0;
      quantities, currencies := map[], map[];
    }

    /** The schedule the trader trades from: values for a buyer, costs for everyone else. */
    function Schedule(): seq<int>
      reads this
    {
      if role == Buyer then values else costs
    }

    /** No unit left to trade. */
    predicate Exhausted()
      reads this
    {
      curUnit >= maxUnits
    }

    /** The lower end of the current unit's randint: lower_bound for a buyer, the unit's cost otherwise. */
    function ReservationLow(): int
      reads this
      requires curUnit < |Schedule()|
    {
      if role == Buyer then lowerBound else costs[curUnit]
    }

    /** The upper end of the current unit's randint: the unit's value for a buyer, upper_bound otherwise. */
    function ReservationHigh(): int
      reads this
      requires curUnit < |Schedule()|
    {
      if role == Buyer then values[curUnit] else upperBound
    }

    /** Every unit the trader can still reach has a schedule entry and a non-empty draw range. */
    predicate Drawable()
      reads this
    {
      && maxUnits <= |Schedule()|
      && forall k :: 0 <= k < maxUnits ==>
           if role == Buyer then lowerBound <= values[k] else costs[k] <= upperBound
    }

    /** Every field but the quantity and currency books as it was. */
    twostate predicate TradingStateKept()
      reads this
    {
      && values == old(values) && costs == old(costs) && unitsTransacted == old(unitsTransacted)
      && curUnit == old(curUnit) && maxUnits == old(maxUnits) && location == old(location)
      && contractThisPeriod == old(contractThisPeriod) && numAtLoc == old(numAtLoc)
    }

    /** set_values: a new value schedule, every unit of it tradable again. */
    method SetValues(v: seq<int>)
      modifies this
      ensures values == v && maxUnits == |v| && curUnit == 0
      ensures costs == old(costs) && unitsTransacted == old(unitsTransacted) && location == old(location)
      ensures contractThisPeriod == old(contractThisPeriod) && numAtLoc == old(numAtLoc)
      ensures quantities == old(quantities) && currencies == old(currencies)
    {
      values := v;
      maxUnits := |v|;
      curUnit := 0;
    }

    /** set_costs: a new cost schedule, every unit of it tradable again. */
    method SetCosts(c: seq<int>)
      modifies this
      ensures costs == c && maxUnits == |c| && curUnit == 0
      ensures values == old(values) && unitsTransacted == old(unitsTransacted) && location == old(location)
      ensures contractThisPeriod == old(contractThisPeriod) && numAtLoc == old(numAtLoc)
      ensures quantities == old(quantities) && currencies == old(currencies)
    {
      costs := c;
      maxUnits := |c|;
      curUnit := 0;
    }

    /** ZID.start: both counters back to 0 and max_units from the trader's schedule; the flag is left alone. */
    twostate predicate StartedFrom(new r: Msg)
      reads this
    {
      && r == Message("Initial", name, name, Note("Initialized"))
      && unitsTransacted == 0 && curUnit == 0 && maxUnits == |old(Schedule())|
      && values == old(values) && costs == old(costs) && location == old(location)
      && contractThisPeriod == old(contractThisPeriod) && numAtLoc == old(numAtLoc)
      && quantities == old(quantities) && currencies == old(currencies)
    }

    method Start() returns (r: Msg)
      modifies this
      ensures StartedFrom(r)
    {
      unitsTransacted := 0;
      curUnit := 0;
      if role == Buyer {
        maxUnits := |values|;
      } else {
        maxUnits := |costs|;
      }
      r := Message("Initial", name, name, Note("Initialized"));
    }

    /**
     * The reply of offer for the raw draw d: NULL once every unit is traded;
     * no message at all from a TRADER; otherwise a BID (buyer) or ASK
     * (seller) drawn from the current unit's range, where a missing schedule
     * entry or an empty range raises.
     */
    function OfferReply(d: nat): (r: Result<Option<Msg>>)
      reads this
      ensures Exhausted() <==> r == Success(Some(NullReply(name)))
      ensures !Exhausted() && role == TwoSided ==> r == Success(None)
      ensures r.Success? && r.value.Some? ==> r.value.value.sender == name && r.value.value.receiver == "BARGAIN"
      ensures r.Success? && r.value.Some? && r.value.value.directive != "NULL" ==>
                && role != TwoSided && curUnit < |Schedule()|
                && r.value.value.directive == (if role == Buyer then "BID" else "ASK")
                && r.value.value.payload.Amount?
                && ReservationLow() <= r.value.value.payload.amount <= ReservationHigh()
    {
      if Exhausted() then Success(Some(NullReply(name)))
      else if role == TwoSided then Success(None)
      else if curUnit >= |Schedule()| then Failure("IndexError")
      else if ReservationLow() > ReservationHigh() then Failure("ValueError")
      else
        Success(Some(Message(if role == Buyer then "BID" else "ASK", name, "BARGAIN",
                             Amount(Pick(ReservationLow(), ReservationHigh(), d)))))
    }

    /** Every amount of the current unit's range is offered for some draw. */
    lemma OfferReachesEveryAmount(v: int)
      requires !Exhausted() && Drawable() && role != TwoSided
      requires ReservationLow() <= v <= ReservationHigh()
      ensures exists d: nat :: OfferReply(d) == Success(Some(Message(if role == Buyer then "BID" else "ASK",
                                                                     name, "BARGAIN", Amount(v))))
    {
      PickReachesEveryValue(ReservationLow(), ReservationHigh(), v);
      var d: nat :| Pick(ReservationLow(), ReservationHigh(), d) == v;
      assert OfferReply(d).value.value.payload == Amount(v);
    }

    /** ZIDP's transact falls into its seller branch for a TRADER; ZID's has no branch for one. */
    predicate AcceptsAsSeller()
      reads this
    {
      role == Seller || (role == TwoSided && Picky(strategy))
    }

    /**
     * The reply of transact: NULL once every unit is traded; no message from
     * a TRADER without a seller branch; otherwise the willingness to pay or
     * accept is drawn from the current unit's range and the strategy's
     * acceptance rule is applied to the live orders of the other side.
     */
    function TransactReply(pl: Payload, d: nat, choice: nat): (r: Result<Option<Msg>>)
      reads this
      ensures Exhausted() ==> r == Success(Some(NullReply(name)))
      ensures !Exhausted() && role == TwoSided && !Picky(strategy) ==> r == Success(None)
      ensures r.Success? && r.value.Some? ==>
                && r.value.value.sender == name && r.value.value.receiver == "BARGAIN"
                && r.value.value.directive in {"BUY", "SELL", "NULL"}
      ensures r.Success? && r.value.Some? && r.value.value.directive != "NULL" ==>
                && curUnit < |Schedule()| && pl.BookView?
                && r.value.value.directive == (if role == Buyer then "BUY" else "SELL")
                && r.value.value.payload.Counterparty?
                && exists amount :: (r.value.value.payload.id, amount) in Matching(pl.entries, AcceptedSide(role))
                                    && (if role == Buyer then amount <= ReservationHigh()
                                        else ReservationLow() <= amount)
    {
      if Exhausted() then Success(Some(NullReply(name)))
      else if role == TwoSided && !Picky(strategy) then Success(None)
      else if curUnit >= |Schedule()| then Failure("IndexError")
      else if ReservationLow() > ReservationHigh() then Failure("ValueError")
      else if !pl.BookView? then Failure("TypeError")
      else
        var reservation := Pick(ReservationLow(), ReservationHigh(), d);
        var offers := Matching(pl.entries, AcceptedSide(role));
        AcceptNamesAffordableOffer(name, role == Buyer, Picky(strategy), reservation, offers, choice);
        Success(Some(Accept(name, role == Buyer, Picky(strategy), reservation, offers, choice)))
    }

    /** A drawable buyer or seller never raises on OFFER, nor on TRANSACT when shown an order book. */
    lemma DrawableRepliesSucceed(pl: Payload, d: nat, choice: nat)
      requires Drawable()
      ensures OfferReply(d).Success?
      ensures pl.BookView? ==> TransactReply(pl, d, choice).Success?
    {
    }

    /** transact: the offer-collection loop, then find_opt or rnd.choice, then the acceptance test. */
    method Transact(pl: Payload, d: nat, choice: nat) returns (r: Result<Option<Msg>>)
      ensures r == TransactReply(pl, d, choice)
    {
      if curUnit >= maxUnits {
        return Success(Some(NullReply(name)));
      }
      if role == TwoSided && !Picky(strategy) {
        return Success(None);
      }
      if curUnit >= |Schedule()| {
        return Failure("IndexError");
      }
      var lo, hi := ReservationLow(), ReservationHigh();
      if lo > hi {
        return Failure("ValueError");
      }
      var reservation := Pick(lo, hi, d);
      if !pl.BookView? {
        return Failure("TypeError");
      }
      var side := AcceptedSide(role);
      var offers := CollectOffers(pl.entries, side);
      if |offers| == 0 {
        return Success(Some(NullReply(name)));
      }
      var offer;
      if Picky(strategy) {
        offer := FindOpt(ModeFor(side), offers);
      } else {
        offer := Choose(offers, choice);
      }
      if role == Buyer {
        if reservation >= offer.1 {
          r := Success(Some(Message("BUY", name, "BARGAIN", Counterparty(offer.0))));
        } else {
          r := Success(Some(NullReply(name)));
        }
      } else {
        if reservation <= offer.1 {
          r := Success(Some(Message("SELL", name, "BARGAIN", Counterparty(offer.0))));
        } else {
          r := Success(Some(NullReply(name)));
        }
      }
    }

    /** The counterparty field of a contract this trader must match: buyer for a buyer, seller otherwise. */
    function OwnSide(c: Contract): string
    {
      if role == Buyer then c.buyer else c.seller
    }

    /**
     * ZID.contract: the flag is set whatever happens. A contract naming this
     * trader on its own side advances both counters; any other is rejected
     * with "08" or "09" and changes no counter. A payload that is not a
     * contract cannot be subscripted.
     */
    twostate predicate ContractedFrom(new pl: Payload, new r: Result<Msg>)
      reads this
    {
      && contractThisPeriod
      && values == old(values) && costs == old(costs) && maxUnits == old(maxUnits)
      && location == old(location) && numAtLoc == old(numAtLoc)
      && quantities == old(quantities) && currencies == old(currencies)
      && if pl.Deal? && name == OwnSide(pl.contract) then
           && r == Success(Message("Update", name, "BARGAIN", Note("10 Units Updated")))
           && unitsTransacted == old(unitsTransacted) + 1 && curUnit == old(curUnit) + 1
         else
           && r == (if !pl.Deal? then Failure("TypeError")
                    else if role == Buyer then Success(Message("BAD", name, "BARGAIN", Note("08 Not buyer contract")))
                    else Success(Message("BAD", name, "BARGAIN", Note("09 Not seller contract"))))
           && unitsTransacted == old(unitsTransacted) && curUnit == old(curUnit)
    }

    method ReceiveContract(pl: Payload) returns (r: Result<Msg>)
      modifies this
      ensures ContractedFrom(pl, r)
    {
      contractThisPeriod := true;
      if !pl.Deal? {
        return Failure("TypeError");
      }
      var c := pl.contract;
      if role == Buyer {
        if name != c.buyer {
          return Success(Message("BAD", name, "BARGAIN", Note("08 Not buyer contract")));
        }
        unitsTransacted := unitsTransacted + 1;
        curUnit := curUnit + 1;
      } else {
        if name != c.seller {
          return Success(Message("BAD", name, "BARGAIN", Note("09 Not seller contract")));
        }
        unitsTransacted := unitsTransacted + 1;
        curUnit := curUnit + 1;
      }
      r := Success(Message("Update", name, "BARGAIN", Note("10 Units Updated")));
    }

    /**
     * The MOVE reply: a trader past its last unit (cur_unit > max_units)
     * stays; any other draws each component from its strategy's direction
     * list: ZID and ZIDP from [-1, 0, +1], the affinity variants from zeros
     * while the flag holds, and ZIDPR from [-1, +1] when more than two traders
     * share its location, whatever the flag.
     */
    function MoveReply(x: nat, y: nat): (r: Msg)
      reads this
      ensures r.directive == "MOVE" && r.sender == name && r.receiver == "Travel" && r.payload.Step?
      ensures r.payload.dx in Unit && r.payload.dy in Unit
      ensures curUnit > maxUnits ==> r.payload == Step(0, 0)
      ensures strategy == ZIDPR && numAtLoc > 2 && curUnit <= maxUnits ==> r.payload.dx != 0 && r.payload.dy != 0
      ensures strategy in {ZIDA, ZIDPA} && contractThisPeriod ==> r.payload == Step(0, 0)
      ensures strategy == ZIDPR && contractThisPeriod && numAtLoc <= 2 ==> r.payload == Step(0, 0)
    {
      var step :=
        if curUnit > maxUnits then (0, 0)
        else Draw(Directions(strategy, contractThisPeriod, false, numAtLoc > 2), x, y);
      Message("MOVE", name, "Travel", Step(step.0, step.1))
    }

    /** move_requested: ZID and ZIDP clear the flag first; the affinity variants leave it alone. */
    twostate predicate MovedFrom(new x: nat, new y: nat, new r: Msg)
      reads this
    {
      && r == old(MoveReply(x, y))
      && contractThisPeriod == (if strategy == ZID || strategy == ZIDP then false else old(contractThisPeriod))
      && values == old(values) && costs == old(costs) && unitsTransacted == old(unitsTransacted)
      && curUnit == old(curUnit) && maxUnits == old(maxUnits) && location == old(location)
      && numAtLoc == old(numAtLoc) && quantities == old(quantities) && currencies == old(currencies)
    }

    method MoveRequested(x: nat, y: nat) returns (r: Msg)
      modifies this
      ensures MovedFrom(x, y, r)
    {
      ghost var reply := MoveReply(x, y);
      var dirs: seq<int>;
      if strategy == ZID || strategy == ZIDP {
        contractThisPeriod := false;
        dirs := Unit;
      } else {
        if contractThisPeriod {
          dirs := [0, 0, 0];
        } else {
          dirs := Unit;
        }
        if strategy == ZIDPR && numAtLoc > 2 {
          dirs := [-1, 1];
        }
      }
      if curUnit > maxUnits {
        r := Message("MOVE", name, "Travel", Step(0, 0));
      } else {
        var xDir, yDir := Choose(dirs, x), Choose(dirs, y);
        r := Message("MOVE", name, "Travel", Step(xDir, yDir));
      }
    }

    /** report_quantity: the stored quantity, a missing one inserted as 0, under the reply tag "right|item". */
    method ReportQuantity(pl: Payload) returns (r: Result<Msg>)
      modifies this`quantities
      ensures !pl.QuantityQuery? ==> r == Failure("TypeError") && quantities == old(quantities)
      ensures pl.QuantityQuery? ==>
                && r == Success(Message(pl.propertyRight + "|" + pl.itemType, name, "REPORT_QUANTITY",
                                        Amount(Held(old(quantities), pl.propertyRight, pl.itemType))))
                && quantities == Recorded(old(quantities), pl.propertyRight, pl.itemType)
    {
      if !pl.QuantityQuery? {
        return Failure("TypeError");
      }
      var right, item := pl.propertyRight, pl.itemType;
      var returnVal: int;
      if right in quantities && item in quantities[right] {
        returnVal := quantities[right][item];
      } else {
        if right in quantities {
          quantities := quantities[right := quantities[right][item := 0]];
        } else {
          quantities := quantities[right := map[]];
          quantities := quantities[right := quantities[right][item := 0]];
        }
        returnVal := 0;
      }
      r := Success(Message(right + "|" + item, name, "REPORT_QUANTITY", Amount(returnVal)));
    }

    /** report_money: the amount on hand of the currency, a missing one inserted as 0. */
    method ReportMoney(pl: Payload) returns (r: Result<Msg>)
      modifies this`currencies
      ensures !pl.MoneyQuery? ==> r == Failure("TypeError") && currencies == old(currencies)
      ensures pl.MoneyQuery? ==>
                && r == Success(Message(pl.currency, name, "REPORT_MONEY", Amount(OnHand(old(currencies), pl.currency))))
                && currencies == WithCurrency(old(currencies), pl.currency)
    {
      if !pl.MoneyQuery? {
        return Failure("TypeError");
      }
      var cur := pl.currency;
      var returnVal: int;
      if cur in currencies {
        returnVal := currencies[cur];
      } else {
        currencies := currencies[cur := 0];
        returnVal := 0;
      }
      r := Success(Message(cur, name, "REPORT_MONEY", Amount(returnVal)));
    }

    /**
     * repay_loan: reports the whole amount of the currency on hand (a missing
     * one inserted as 0) and does not lower it.
     */
    method RepayLoan(pl: Payload) returns (r: Result<Msg>)
      modifies this`currencies
      ensures !pl.CurrencyName? ==> r == Failure("TypeError") && currencies == old(currencies)
      ensures pl.CurrencyName? ==>
                && r == Success(Message(pl.currency, name, "REPAY_LOAN", Amount(OnHand(old(currencies), pl.currency))))
                && currencies == WithCurrency(old(currencies), pl.currency)
                && currencies[pl.currency] == OnHand(old(currencies), pl.currency)
    {
      if !pl.CurrencyName? {
        return Failure("TypeError");
      }
      var cur := pl.currency;
      var onhand: int;
      if cur in currencies {
        onhand := currencies[cur];
      } else {
        currencies := currencies[cur := 0];
        onhand := 0;
      }
      r := Success(Message(cur, name, "REPAY_LOAN", Amount(onhand)));
    }

    /**
     * request_money as far as it gets: a TRADER looks its currency up (a
     * missing one inserted as 0) and then fails on the valuations dictionary,
     * which nothing fills; any other trader reaches the reply without ever
     * computing the requested amount.
     */
    method RequestMoney(pl: Payload) returns (r: Result<Msg>)
      modifies this`currencies
      ensures role != TwoSided ==> r == Failure("UnboundLocalError") && currencies == old(currencies)
      ensures role == TwoSided && !pl.CurrencyName? ==> r == Failure("TypeError") && currencies == old(currencies)
      ensures role == TwoSided && pl.CurrencyName? ==>
                r == Failure("KeyError") && currencies == WithCurrency(old(currencies), pl.currency)
    {
      if role != TwoSided {
        return Failure("UnboundLocalError");
      }
      if !pl.CurrencyName? {
        return Failure("TypeError");
      }
      if pl.currency !in currencies {
        currencies := currencies[pl.currency := 0];
      }
      r := Failure("KeyError");
    }

    /** The reply and the state of the handlers that only read the trader. */
    method Answer(m: Msg, d: Draws) returns (r: Result<Option<Msg>>)
      requires m.directive == "OFFER" || m.directive == "TRANSACT"
      ensures m.directive == "OFFER" ==> r == OfferReply(d.price)
      ensures m.directive == "TRANSACT" ==> r == TransactReply(m.payload, d.price, d.choice)
    {
      if m.directive == "OFFER" {
        r := OfferReply(d.price);
      } else {
        r := Transact(m.payload, d.price, d.choice);
      }
    }

    /**
     * process_message: a message for someone else is answered with "01", a
     * directive outside the nine valid ones with "02", and neither calls a
     * handler or changes the trader; the rest go to their handler.
     */
    method ProcessMessage(m: Msg, d: Draws) returns (r: Result<Option<Msg>>)
      modifies this
      ensures m.receiver != name ==>
                r == Success(Some(Message("Bad", name, m.sender, Note("01 Wrong Receiver")))) && unchanged(this)
      ensures m.receiver == name && m.directive !in ValidDirectives ==>
                && r == Success(Some(Message("Bad", name, m.sender, Note("02 Unexpected Directive - " + m.directive))))
                && unchanged(this)
      ensures m.receiver == name && m.directive == "START" ==> r.Success? && r.value.Some? && StartedFrom(r.value.value)
      ensures m.receiver == name && m.directive == "MOVE_REQUESTED" ==>
                r.Success? && r.value.Some? && MovedFrom(d.x, d.y, r.value.value)
      ensures m.receiver == name && m.directive == "OFFER" ==> r == old(OfferReply(d.price)) && unchanged(this)
      ensures m.receiver == name && m.directive == "TRANSACT" ==>
                r == old(TransactReply(m.payload, d.price, d.choice)) && unchanged(this)
      ensures m.receiver == name && m.directive == "CONTRACT" ==>
                exists c :: ContractedFrom(m.payload, c) && r == (if c.Success? then Success(Some(c.value)) else Failure(c.error))
      ensures m.receiver == name && m.directive in ["REPORT_QUANTITY", "REPORT_MONEY", "REQUEST_MONEY", "REPAY_LOAN"] ==>
                TradingStateKept()
    {
      if m.receiver != name {
        return Success(Some(Message("Bad", name, m.sender, Note("01 Wrong Receiver"))));
      }
      if m.directive !in ValidDirectives {
        return Success(Some(Message("Bad", name, m.sender, Note("02 Unexpected Directive - " + m.directive))));
      }
      var reply: Result<Msg>;
      if m.directive == "START" {
        var msg := Start();
        return Success(Some(msg));
      } else if m.directive == "MOVE_REQUESTED" {
        var msg := MoveRequested(d.x, d.y);
        return Success(Some(msg));
      } else if m.directive == "OFFER" || m.directive == "TRANSACT" {
        r := Answer(m, d);
        return;
      } else if m.directive == "CONTRACT" {
        reply := ReceiveContract(m.payload);
      } else if m.directive == "REPORT_QUANTITY" {
        reply := ReportQuantity(m.payload);
      } else if m.directive == "REPORT_MONEY" {
        reply := ReportMoney(m.payload);
      } else if m.directive == "REQUEST_MONEY" {
        reply := RequestMoney(m.payload);
      } else {
        reply := RepayLoan(m.payload);
      }
      r := if reply.Success? then Success(Some(reply.value)) else Failure(reply.error);
    }
  }
}
