/**
 * The first-generation traders (modules/dm_zid.py and modules/dm_zida.py):
 * ZID, a budget-constrained zero-intelligence trader that either accepts a
 * randomly chosen standing offer or posts its own, and ZIDA, the same trader
 * with a bias to stay where it traded the day before.
 */
module AgentsLegacy {
  import opened Wrappers
  import opened Messages
  import opened Protocol
  import opened Chance
  import opened Selection
  import opened Strategies
  import opened Payoffs

  /** One field of a contract record as the simulation stores it. */
  datatype Field = Text(text: string) | Number(value: int)

  /** A contract record: the buyer is its second-to-last field, the seller its last. */
  type Record = seq<Field>

  /**
   * Whether a record names the trader as buyer or seller, judged by the
   * source's `name == i[-1] or name == i[-2]`: an empty record cannot be
   * indexed, and a one-field record only when its field is not the name.
   */
  function Involves(rec: Record, name: string): (r: Result<bool>)
    ensures r.Success? <==> |rec| >= 2 || (|rec| == 1 && rec[0] == Text(name))
    ensures r.Success? ==> (r.value <==> rec[|rec| - 1] == Text(name) || (|rec| >= 2 && rec[|rec| - 2] == Text(name)))
    ensures r.Failure? ==> r.error == "IndexError"
  {
    if |rec| == 0 then Failure("IndexError")
    else if rec[|rec| - 1] == Text(name) then Success(true)
    else if |rec| < 2 then Failure("IndexError")
    else Success(rec[|rec| - 2] == Text(name))
  }

  /** The day's records the count gets through: each one has the fields the count reads. */
  predicate Testable(day: seq<Record>, name: string)
  {
    forall k :: 0 <= k < |day| ==> Involves(day[k], name).Success?
  }

  /** The number of records of a day that name the trader, or the error of the first record that lacks those fields. */
  function CountInvolving(day: seq<Record>, name: string): (r: Result<nat>)
    ensures r.Success? <==> Testable(day, name)
    ensures r.Success? ==> r.value <= |day|
    ensures r.Failure? ==> r.error == "IndexError"
  {
    if day == [] then Success(0)
    else
      var prefix := CountInvolving(day[..|day| - 1], name);
      if prefix.Failure? then Failure(prefix.error)
      else
        var last := Involves(day[|day| - 1], name);
        if last.Failure? then Failure(last.error)
        else Success(prefix.value + if last.value then 1 else 0)
  }

  /** A trader named in none of the day's records is counted 0. */
  lemma {:induction false} UninvolvedCountsZero(day: seq<Record>, name: string)
    requires forall k :: 0 <= k < |day| ==> |day[k]| >= 2 && Text(name) !in day[k][|day[k]| - 2 ..]
    ensures CountInvolving(day, name) == Success(0)
  {
    if day != [] {
      UninvolvedCountsZero(day[..|day| - 1], name);
      assert Involves(day[|day| - 1], name) == Success(false);
    }
  }

  /** A trader named in every record of the day is counted once per record. */
  lemma {:induction false} AllInvolvedCountsEvery(day: seq<Record>, name: string)
    requires forall k :: 0 <= k < |day| ==> |day[k]| >= 1 && day[k][|day[k]| - 1] == Text(name)
    ensures CountInvolving(day, name) == Success(|day|)
  {
    if day != [] {
      AllInvolvedCountsEvery(day[..|day| - 1], name);
    }
  }

  /**
   * ZIDA's bias to stay: with the contract history as weeks of days of
   * records, insertion-ordered, the count of records naming the trader on the
   * second-to-last day of the last week; 0 without a week or when that week
   * has fewer than two days.
   */
  function Bias(weeks: seq<seq<seq<Record>>>, name: string): (r: Result<nat>)
    ensures r.Success? && ( |weeks| == 0 || |weeks[|weeks| - 1]| <= 1 ) ==> r.value == 0
  {
    if |weeks| == 0 then Success(0)
    else
      var week := weeks[|weeks| - 1];
      if |week| <= 1 then Success(0)
      else CountInvolving(week[|week| - 2], name)
  }

  /** The list ZIDA draws each move component from: [-1, 0, +1] followed by ten zeros per contract. */
  function BiasedDirections(bias: nat): (dirs: seq<int>)
    ensures |dirs| == 3 + 10 * bias
    ensures forall k :: 0 <= k < |dirs| ==> dirs[k] in Unit
  {
    Unit + seq(10 * bias, k => 0)
  }

  /** Each move direction appears once in the list, except staying, which gains ten copies per contract. */
  lemma BiasedDirectionsCounts(bias: nat)
    ensures multiset(BiasedDirections(bias))[0] == 1 + 10 * bias
    ensures multiset(BiasedDirections(bias))[-1] == 1 && multiset(BiasedDirections(bias))[1] == 1
  {
    var zeros := seq(10 * bias, k => 0);
    assert multiset(zeros) == multiset{}[0 := 10 * bias] by {
      ZerosMultiset(10 * bias);
    }
    assert BiasedDirections(bias) == [-1] + [0] + [1] + zeros;
  }

  lemma {:induction false} ZerosMultiset(n: nat)
    ensures multiset(seq(n, k => 0)) == multiset{}[0 := n]
  {
    if n > 0 {
      ZerosMultiset(n - 1);
      assert seq(n, k => 0) == seq(n - 1, k => 0) + [0];
    }
  }

  class Trader {
    const name: string
    const role: Role
    const strategy: Strategy
    const payoff: PayoffKind
    const money: int
    const lowerBound: int
    const upperBound: int
    var location: (int, int)
    var values: seq<int>
    var costs: seq<int>
    var unitsTransacted: nat
    var curUnit: nat
    var maxUnits: nat

    /** A ZID or ZIDA trader as the base constructor leaves it: no schedule, nothing traded yet. */
    constructor (name: string, role: Role, strategy: Strategy, payoff: PayoffKind, money: int,
                 location: (int, int), lowerBound: int, upperBound: int)
      requires strategy == ZID || strategy == ZIDA
      ensures this.name == name && this.role == role && this.strategy == strategy
      ensures this.payoff == payoff && this.money == money && this.location == location
      ensures this.lowerBound == lowerBound && this.upperBound == upperBound
      ensures values == [] && costs == [] && unitsTransacted == 0 && curUnit == 0 && maxUnits == 0
    {
      this.name := name;
      this.role := role;
      this.strategy := strategy;
      this.payoff := payoff;
      this.money := money;
      this.location := location;
      this.lowerBound := lowerBound;
      this.upperBound := upperBound;
      values, costs := [], [];
      unitsTransacted, curUnit, maxUnits := 0, 0, 0;
    }

    /** set_values: a new value schedule, every unit of it tradable again. */
    method SetValues(v: seq<int>)
      modifies this
      ensures values == v && maxUnits == |v| && curUnit == 0
      ensures costs == old(costs) && unitsTransacted == old(unitsTransacted) && location == old(location)
    {
      values := v;
      maxUnits := |v|;
      curUnit := 0;
    }

    /** set_costs: a new cost schedule, every unit of it tradable again. */
    method SetCosts(c: seq<int>)
      modifies this
      ensures costs == c && maxUnits == |c| && curUnit == 0
      ensures values == old(values) && unitsTransacted == old(unitsTransacted) && location == old(location)
    {
      costs := c;
      maxUnits := |c|;
      curUnit := 0;
    }

    /** Values for a buyer, costs for anyone else. */
    function Schedule(): seq<int>
      reads this
    {
      if role == Buyer then values else costs
    }

    predicate Exhausted()
      reads this
    {
      curUnit >= maxUnits
    }

    function ReservationLow(): int
      reads this
      requires curUnit < |Schedule()|
    {
      if role == Buyer then lowerBound else costs[curUnit]
    }

    function ReservationHigh(): int
      reads this
      requires curUnit < |Schedule()|
    {
      if role == Buyer then values[curUnit] else upperBound
    }

    /** start: both counters to 0 and max_units from the schedule, for ZID and ZIDA alike. */
    method Start() returns (r: Msg)
      modifies this
      ensures r == Message("Initial", name, name, Note("Initialized"))
      ensures unitsTransacted == 0 && curUnit == 0 && maxUnits == |Schedule()|
      ensures values == old(values) && costs == old(costs) && location == old(location)
    {
      unitsTransacted := 0;
      curUnit := 0;
      if role == Buyer {
        maxUnits := |values|;
      } else {
        maxUnits := |costs|;
      }
      r := Message("Initial", name, name, Note("Initialized"));
    }

    /**
     * The reply of action_requested: NULL once every unit is traded;
     * otherwise a willingness to pay (buyer) or accept (seller) drawn from
     * the current unit's range, a BUY or SELL naming the randomly chosen
     * standing offer of the other side when it is affordable, and a BID or
     * ASK of the drawn amount when it is not or there is none.
     */
    function ActionReply(pl: Payload, d: nat, choice: nat): (r: Result<Msg>)
      reads this
      ensures Exhausted() <==> r == Success(NullReply(name))
      ensures r.Success? ==> r.value.sender == name && r.value.receiver == "BARGAIN"
      ensures r.Success? && !Exhausted() ==>
                && curUnit < |Schedule()| && ReservationLow() <= ReservationHigh() && pl.BookView?
                && r.value.directive in (if role == Buyer then {"BUY", "BID"} else {"SELL", "ASK"})
      ensures r.Success? && r.value.directive in {"BID", "ASK"} ==>
                && r.value.payload.Amount?
                && ReservationLow() <= r.value.payload.amount <= ReservationHigh()
      ensures r.Success? && r.value.directive in {"BUY", "SELL"} ==>
                && r.value.payload.Counterparty?
                && exists amount :: (r.value.payload.id, amount) in Matching(pl.entries, AcceptedSide(role))
                                    && Affordable(role == Buyer, Pick(ReservationLow(), ReservationHigh(), d), amount)
    {
      if Exhausted() then Success(NullReply(name))
      else if curUnit >= |Schedule()| then Failure("IndexError")
      else if ReservationLow() > ReservationHigh() then Failure("ValueError")
      else if !pl.BookView? then Failure("TypeError")
      else
        var reservation := Pick(ReservationLow(), ReservationHigh(), d);
        var offers := Matching(pl.entries, AcceptedSide(role));
        var accept := Accept(name, role == Buyer, false, reservation, offers, choice);
        AcceptNamesAffordableOffer(name, role == Buyer, false, reservation, offers, choice);
        if accept.directive != "NULL" then Success(accept)
        else Success(Message(if role == Buyer then "BID" else "ASK", name, "BARGAIN", Amount(reservation)))
    }

    /**
     * A trader with a unit to trade accepts exactly when some order stands on
     * the other side and the randomly chosen one is affordable; it posts its
     * own drawn amount otherwise.
     */
    lemma AcceptsIffChosenOfferAffordable(entries: Book, d: nat, choice: nat)
      requires !Exhausted() && curUnit < |Schedule()| && ReservationLow() <= ReservationHigh()
      ensures var offers := Matching(entries, AcceptedSide(role));
              var reservation := Pick(ReservationLow(), ReservationHigh(), d);
              var r := ActionReply(BookView(entries), d, choice);
              && r.Success?
              && (r.value.directive in {"BUY", "SELL"} <==>
                    |offers| > 0 && Affordable(role == Buyer, reservation, Choose(offers, choice).1))
              && (r.value.directive in {"BID", "ASK"} ==> r.value.payload == Amount(reservation))
    {
      var offers := Matching(entries, AcceptedSide(role));
      var reservation := Pick(ReservationLow(), ReservationHigh(), d);
      if |offers| > 0 {
        RandomAcceptsIffDrawnOfferAffordable(name, role == Buyer, reservation, offers, choice);
      }
    }

    /** action_requested: the offer-collection loop, then rnd.choice and the affordability test. */
    method ActionRequested(pl: Payload, d: nat, choice: nat) returns (r: Result<Msg>)
      ensures r == ActionReply(pl, d, choice)
    {
      if curUnit >= maxUnits {
        return Success(NullReply(name));
      }
      if curUnit >= |Schedule()| {
        return Failure("IndexError");
      }
      var lo, hi := ReservationLow(), ReservationHigh();
      if lo > hi {
        return Failure("ValueError");
      }
      var reservation := Pick(lo, hi, d);
      if !pl.BookView? {
        return Failure("TypeError");
      }
      var offers := CollectOffers(pl.entries, AcceptedSide(role));
      if |offers| > 0 {
        var offer := Choose(offers, choice);
        if role == Buyer && reservation >= offer.1 {
          return Success(Message("BUY", name, "BARGAIN", Counterparty(offer.0)));
        } else if role != Buyer && reservation <= offer.1 {
          return Success(Message("SELL", name, "BARGAIN", Counterparty(offer.0)));
        }
      }
      r := Success(Message(if role == Buyer then "BID" else "ASK", name, "BARGAIN", Amount(reservation)));
    }

    /**
     * The MOVE reply for a given bias: a trader past its last unit
     * (cur_unit > max_units) stays; any other draws each component from
     * [-1, 0, +1] (ZID) or from the biased list (ZIDA).
     */
    function MoveReply(bias: nat, x: nat, y: nat): (r: Msg)
      reads this
      ensures r.directive == "MOVE" && r.sender == name && r.receiver == "Travel" && r.payload.Step?
      ensures r.payload.dx in Unit && r.payload.dy in Unit
      ensures curUnit > maxUnits ==> r.payload == Step(0, 0)
    {
      var dirs := if strategy == ZIDA then BiasedDirections(bias) else Unit;
      var step := if curUnit > maxUnits then (0, 0) else Draw(dirs, x, y);
      Message("MOVE", name, "Travel", Step(step.0, step.1))
    }

    /** ZIDA's bias loop over the records of the day before, as the source walks them. */
    method CountBias(weeks: seq<seq<seq<Record>>>) returns (r: Result<nat>)
      ensures r == Bias(weeks, name)
    {
      if |weeks| == 0 {
        return Success(0);
      }
      var week := weeks[|weeks| - 1];
      if |week| <= 1 {
        return Success(0);
      }
      var day := week[|week| - 2];
      var bias := 0;
      for k := 0 to |day|
        invariant CountInvolving(day[..k], name) == Success(bias)
      {
        assert day[..k + 1][..k] == day[..k];
        var rec := day[k];
        if |rec| == 0 {
          return Failure("IndexError");
        }
        if rec[|rec| - 1] == Text(name) {
          bias := bias + 1;
        } else if |rec| < 2 {
          return Failure("IndexError");
        } else if rec[|rec| - 2] == Text(name) {
          bias := bias + 1;
        }
      }
      assert day[..|day|] == day;
      r := Success(bias);
    }

    /**
     * move_requested: ZID draws from [-1, 0, +1]; ZIDA first computes its
     * bias from the contract history, and a record it cannot index raises.
     */
    method MoveRequested(weeks: seq<seq<seq<Record>>>, x: nat, y: nat) returns (r: Result<Msg>)
      ensures strategy != ZIDA ==> r == Success(MoveReply(0, x, y))
      ensures strategy == ZIDA ==>
                r == (var b := Bias(weeks, name); if b.Success? then Success(MoveReply(b.value, x, y)) else Failure(b.error))
    {
      var bias := 0;
      if strategy == ZIDA {
        var b := CountBias(weeks);
        if b.Failure? {
          return Failure(b.error);
        }
        bias := b.value;
      }
      var dirs := if strategy == ZIDA then BiasedDirections(bias) else Unit;
      if curUnit > maxUnits {
        r := Success(Message("MOVE", name, "Travel", Step(0, 0)));
      } else {
        var xDir, yDir := Choose(dirs, x), Choose(dirs, y);
        r := Success(Message("MOVE", name, "Travel", Step(xDir, yDir)));
      }
    }

    /**
     * contract: a contract naming this trader on its own side advances both
     * counters and answers "10"; any other is answered "08" (buyer) or "09"
     * (seller) and changes nothing; a payload that is not a contract raises.
     */
    method ReceiveContract(pl: Payload) returns (r: Result<Msg>)
      modifies this`unitsTransacted, this`curUnit
      ensures !pl.Deal? ==> r == Failure("TypeError") && unchanged(this)
      ensures pl.Deal? && name == (if role == Buyer then pl.contract.buyer else pl.contract.seller) ==>
                && r == Success(Message("Update", name, "BARGAIN", Note("10 Units Updated")))
                && unitsTransacted == old(unitsTransacted) + 1 && curUnit == old(curUnit) + 1
      ensures pl.Deal? && name != (if role == Buyer then pl.contract.buyer else pl.contract.seller) ==>
                && r == Success(Message("BAD", name, "BARGAIN",
                                        Note(if role == Buyer then "08 Not buyer contract" else "09 Not seller contract")))
                && unchanged(this)
    {
      if !pl.Deal? {
        return Failure("TypeError");
      }
      var c := pl.contract;
      if role == Buyer {
        if name != c.buyer {
          return Success(Message("BAD", name, "BARGAIN", Note("08 Not buyer contract")));
        }
      } else {
        if name != c.seller {
          return Success(Message("BAD", name, "BARGAIN", Note("09 Not seller contract")));
        }
      }
      unitsTransacted := unitsTransacted + 1;
      curUnit := curUnit + 1;
      r := Success(Message("Update", name, "BARGAIN", Note("10 Units Updated")));
    }
  }
}
