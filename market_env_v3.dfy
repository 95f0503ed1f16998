/**
 * modules_v3/environment/dm_env.py: the spot market environment with a
 * market type. A ONE_TYPE market works as the original environment, except
 * that its equilibrium walk does not stop at the first rejected pair; a
 * TWO_TYPE market keeps one table of schedules, one pair of curves and one
 * equilibrium per item type.
 *
 * The source keeps the per-type state in ten dictionaries keyed by item type
 * (i_buyers, i_demand, i_eq_units, ...); here they are one map from item type
 * to a Book record holding the same entries, and the ONE_TYPE attributes
 * (buyers, demand, eq_units, ...) are one record of the same shape.
 */
module MarketEnvV3 {
  import opened Wrappers
  import opened Dicts
  import opened Sorting
  import opened Equilibrium
  import opened MarketEnv

  /** market_type: "ONE_TYPE", "TWO_TYPE", or any other string (then no operation acts). */
  datatype MarketType = OneType | TwoType | OtherType(spelling: string)

  /** A dictionary of schedules with its key order. */
  datatype Schedules = Schedules(ids: seq<string>, lists: map<string, seq<int>>)
  {
    ghost predicate Valid() { Ordered(ids, lists) }

    /** d[id] = xs */
    function Assign(id: string, xs: seq<int>): (r: Schedules)
      requires Valid()
      ensures r.Valid()
      ensures r.lists == lists[id := xs] && r.ids == KeysAfterAssign(ids, lists, id)
    {
      AssignKeepsOrdered(ids, lists, id, xs);
      Schedules(KeysAfterAssign(ids, lists, id), lists[id := xs])
    }

    /** The units of every schedule in key order, as make_demand and make_supply collect them. */
    ghost function AllUnits(): seq<Unit>
      requires Valid()
    {
      Units(ids, lists)
    }
  }

  /** (eq_units, eq_price_low, eq_price_high, max_surplus); None where the source holds None
      or has not yet created the attribute. */
  datatype Report = Report(units: Option<int>, low: Option<int>, high: Option<int>, surplus: Option<int>)

  const Unset := Report(None, None, None, None)

  /** The schedules, curves and equilibrium of one market (ONE_TYPE) or one item type (TWO_TYPE). */
  datatype Book = Book(buyers: Schedules, sellers: Schedules, demand: seq<Unit>, supply: seq<Unit>, eq: Report)
  {
    ghost predicate Valid() { buyers.Valid() && sellers.Valid() }
  }

  const EmptyTable := Schedules([], map[])

  /** What the equilibrium loop of calc_equilibrium records for one pair of curves: quantity and
      surplus always, the price range only when more than one unit trades. */
  function Record(eq: Report, w: Walk): (r: Report)
    ensures r.units == Some(w.units as int) && r.surplus == Some(w.surplus)
    ensures PriceRange(w).Some? ==> r.low == Some(PriceRange(w).value.0) && r.high == Some(PriceRange(w).value.1)
    ensures PriceRange(w).None? ==> r.low == eq.low && r.high == eq.high
  {
    if w.units > 1 then Report(Some(w.units), Some(Max(w.lastCost, w.rejectedValue)), Some(Min(w.lastValue, w.rejectedCost)), Some(w.surplus))
    else Report(Some(w.units), eq.low, eq.high, Some(w.surplus))
  }

  /** The walk without break over a book's curves. */
  function BookWalk(b: Book): Walk
  {
    EveryPairWalk(b.demand, b.supply, Pairs(b.demand, b.supply))
  }

  class SpotMarketEnvironment {
    const name: string
    const numBuyers: int
    const numSellers: int
    const marketType: MarketType
    /** The item types iterated; the default "C" is a string, which iterates as ["C"]. */
    const itemTypes: seq<string>
    /** buyers, sellers, demand, supply and the eq_* / max_surplus attributes. */
    var whole: Book
    /** The i_* dictionaries, keyed by item type. */
    var perType: map<string, Book>

    ghost predicate Valid()
      reads this
    {
      && whole.Valid()
      && (forall t :: t in perType <==> t in itemTypes)
      && (forall t :: t in perType ==> perType[t].Valid())
    }

    constructor (name: string, numBuyers: int, numSellers: int, itemTypes: seq<string>, marketType: MarketType)
      ensures Valid()
      ensures this.name == name && this.numBuyers == numBuyers && this.numSellers == numSellers
      ensures this.itemTypes == itemTypes && this.marketType == marketType
      ensures whole.buyers.ids == NumberedIds(false, numBuyers) && whole.buyers.lists == EmptySchedules(whole.buyers.ids)
      ensures whole.sellers.ids == NumberedIds(true, numSellers) && whole.sellers.lists == EmptySchedules(whole.sellers.ids)
      ensures whole.demand == [] && whole.supply == [] && whole.eq == Unset
      ensures forall t :: t in perType ==> perType[t] == Book(EmptyTable, EmptyTable, [], [], Unset)
    {
      var bIds, bMap := EmptyRoster(false, numBuyers);
      var sIds, sMap := EmptyRoster(true, numSellers);
      this.name := name;
      this.numBuyers := numBuyers;
      this.numSellers := numSellers;
      this.itemTypes := itemTypes;
      this.marketType := marketType;
      whole := Book(Schedules(bIds, bMap), Schedules(sIds, sMap), [], [], Unset);
      perType := map t | t in itemTypes :: Book(EmptyTable, EmptyTable, [], [], Unset);
    }

    /** get_buyer_values: Failure for a missing key (KeyError), Success(None) in a market of
        neither type (the method falls through and returns None). */
    function GetBuyerValues(n: int, itemType: string): Result<Option<seq<int>>>
      reads this
    {
      var table := if marketType == OneType then Some(whole.buyers)
                   else if itemType in perType then Some(perType[itemType].buyers) else None;
      if marketType.OtherType? then Success(None)
      else if table.Some? && BuyerId(n) in table.value.lists then Success(Some(table.value.lists[BuyerId(n)]))
      else Failure("KeyError")
    }

    function GetSellerCosts(n: int, itemType: string): Result<Option<seq<int>>>
      reads this
    {
      var table := if marketType == OneType then Some(whole.sellers)
                   else if itemType in perType then Some(perType[itemType].sellers) else None;
      if marketType.OtherType? then Success(None)
      else if table.Some? && SellerId(n) in table.value.lists then Success(Some(table.value.lists[SellerId(n)]))
      else Failure("KeyError")
    }

    /** add_buyer: ONE_TYPE stores the values under "buyer<n>"; TWO_TYPE stores them in the item
        type's table and raises KeyError (ok false, nothing changed) for an unknown item type. */
    method AddBuyer(n: int, values: seq<int>, itemType: string) returns (ok: bool)
      modifies this
      requires Valid()
      ensures Valid()
      ensures ok <==> !(marketType == TwoType && itemType !in itemTypes)
      ensures marketType == OneType ==>
                whole == old(whole).(buyers := old(whole).buyers.Assign(BuyerId(n), values)) && perType == old(perType)
      ensures marketType == TwoType && ok ==>
                && whole == old(whole)
                && perType == old(perType)[itemType := old(perType)[itemType].(buyers := old(perType)[itemType].buyers.Assign(BuyerId(n), values))]
      ensures !ok || marketType.OtherType? ==> whole == old(whole) && perType == old(perType)
      ensures ok && !marketType.OtherType? ==> GetBuyerValues(n, itemType) == Success(Some(values))
      ensures forall m :: m != n ==> GetBuyerValues(m, itemType) == old(GetBuyerValues(m, itemType))
    {
      var id := BuyerId(n);
      ok := true;
      if marketType == OneType {
        whole := whole.(buyers := whole.buyers.Assign(id, values));
      } else if marketType == TwoType {
        if itemType !in perType {
          ok := false;
          return;
        }
        var b := perType[itemType];
        perType := perType[itemType := b.(buyers := b.buyers.Assign(id, values))];
      }
      forall m | m != n
        ensures GetBuyerValues(m, itemType) == old(GetBuyerValues(m, itemType))
      {
        TraderIdsAreDistinct(m, n);
      }
    }

    method AddSeller(n: int, costs: seq<int>, itemType: string) returns (ok: bool)
      modifies this
      requires Valid()
      ensures Valid()
      ensures ok <==> !(marketType == TwoType && itemType !in itemTypes)
      ensures marketType == OneType ==>
                whole == old(whole).(sellers := old(whole).sellers.Assign(SellerId(n), costs)) && perType == old(perType)
      ensures marketType == TwoType && ok ==>
                && whole == old(whole)
                && perType == old(perType)[itemType := old(perType)[itemType].(sellers := old(perType)[itemType].sellers.Assign(SellerId(n), costs))]
      ensures !ok || marketType.OtherType? ==> whole == old(whole) && perType == old(perType)
      ensures ok && !marketType.OtherType? ==> GetSellerCosts(n, itemType) == Success(Some(costs))
      ensures forall m :: m != n ==> GetSellerCosts(m, itemType) == old(GetSellerCosts(m, itemType))
    {
      var id := SellerId(n);
      ok := true;
      if marketType == OneType {
        whole := whole.(sellers := whole.sellers.Assign(id, costs));
      } else if marketType == TwoType {
        if itemType !in perType {
          ok := false;
          return;
        }
        var b := perType[itemType];
        perType := perType[itemType := b.(sellers := b.sellers.Assign(id, costs))];
      }
      forall m | m != n
        ensures GetSellerCosts(m, itemType) == old(GetSellerCosts(m, itemType))
      {
        TraderIdsAreDistinct(m, n);
      }
    }

    /** make_demand: ONE_TYPE sorts all buyers' values from high to low; TWO_TYPE does the same
        for every item type's table. */
    method MakeDemand()
      modifies this
      requires Valid()
      ensures Valid()
      ensures marketType == OneType ==>
                whole == old(whole).(demand := DemandCurve(old(whole).buyers.AllUnits())) && perType == old(perType)
      ensures marketType == TwoType ==> whole == old(whole)
      ensures marketType == TwoType ==> forall t :: t in perType ==>
                t in old(perType) && perType[t] == WithCurve(old(perType)[t], true)
      ensures marketType.OtherType? ==> whole == old(whole) && perType == old(perType)
    {
      if marketType == OneType {
        var units := CollectUnits(whole.buyers.ids, whole.buyers.lists);
        whole := whole.(demand := SortBy(units, Amount, true));
      } else if marketType == TwoType {
        perType := MakeEachCurve(itemTypes, perType, true);
      }
    }

    /** make_supply: ONE_TYPE sorts all sellers' costs from low to high; TWO_TYPE does the same
        for every item type's table. */
    method MakeSupply()
      modifies this
      requires Valid()
      ensures Valid()
      ensures marketType == OneType ==>
                whole == old(whole).(supply := SupplyCurve(old(whole).sellers.AllUnits())) && perType == old(perType)
      ensures marketType == TwoType ==> whole == old(whole)
      ensures marketType == TwoType ==> forall t :: t in perType ==>
                t in old(perType) && perType[t] == WithCurve(old(perType)[t], false)
      ensures marketType.OtherType? ==> whole == old(whole) && perType == old(perType)
    {
      if marketType == OneType {
        var units := CollectUnits(whole.sellers.ids, whole.sellers.lists);
        whole := whole.(supply := SortBy(units, Amount, false));
      } else if marketType == TwoType {
        perType := MakeEachCurve(itemTypes, perType, false);
      }
    }

    /** calc_equilibrium: ONE_TYPE walks every pair of demand and supply; TWO_TYPE does so for every
        item type and records the result per type. */
    method CalcEquilibrium()
      modifies this
      requires Valid()
      ensures Valid()
      ensures marketType == OneType ==>
                whole == old(whole).(eq := Record(old(whole).eq, BookWalk(old(whole)))) && perType == old(perType)
      ensures marketType == TwoType ==> whole == old(whole)
      ensures marketType == TwoType ==> forall t :: t in perType ==>
                t in old(perType) && perType[t] == old(perType)[t].(eq := Record(old(perType)[t].eq, BookWalk(old(perType)[t])))
      ensures marketType.OtherType? ==> whole == old(whole) && perType == old(perType)
    {
      if marketType == OneType {
        var w := WalkEveryPair(whole.demand, whole.supply);
        whole := whole.(eq := Record(whole.eq, w));
      }
      if marketType == TwoType {
        perType := CalcEach(itemTypes, perType);
      }
    }

    /** get_equilibrium: item type "C" reports the market as a whole (None before
        calc_equilibrium has created max_surplus, AttributeError); any other item type reports
        its own table (None for an unknown type, KeyError). */
    function GetEquilibrium(itemType: string): Option<Report>
      reads this
    {
      if itemType == "C" then
        if whole.eq.surplus.None? then None else Some(whole.eq)
      else if itemType in perType then Some(perType[itemType].eq)
      else None
    }
  }

  /** The curve make_demand (demand) or make_supply (not demand) builds from a book's schedules. */
  ghost function Curve(b: Book, demand: bool): seq<Unit>
    requires b.Valid()
  {
    if demand then DemandCurve(b.buyers.AllUnits()) else SupplyCurve(b.sellers.AllUnits())
  }

  /** A book with its demand (or supply) curve rebuilt. */
  ghost function WithCurve(b: Book, demand: bool): Book
    requires b.Valid()
  {
    if demand then b.(demand := Curve(b, true)) else b.(supply := Curve(b, false))
  }

  /** The TWO_TYPE loop of make_demand and make_supply: every listed item type's curve rebuilt
      from its own schedules; the books of other keys untouched. */
  method MakeEachCurve(itemTypes: seq<string>, books: map<string, Book>, demand: bool)
    returns (r: map<string, Book>)
    requires forall t :: t in itemTypes ==> t in books
    requires forall t :: t in books ==> books[t].Valid()
    ensures forall t :: t in r <==> t in books
    ensures forall t :: t in r ==> r[t].Valid()
    ensures forall t :: t in books ==> r[t] == if t in itemTypes then WithCurve(books[t], demand) else books[t]
  {
    r := books;
    for i := 0 to |itemTypes|
      invariant forall t :: t in r <==> t in books
      invariant forall t :: t in books ==> r[t] == if t in itemTypes[..i] then WithCurve(books[t], demand) else books[t]
    {
      var t := itemTypes[i];
      assert itemTypes[..i + 1] == itemTypes[..i] + [t];
      var b := RebuildCurve(r[t], demand);
      r := r[t := b];
    }
    assert itemTypes[..|itemTypes|] == itemTypes;
  }

  /** One pass of that loop: the book's curve sorted from its own schedules. */
  method RebuildCurve(b: Book, demand: bool) returns (nb: Book)
    requires b.Valid()
    ensures nb == WithCurve(b, demand)
  {
    if demand {
      var units := CollectUnits(b.buyers.ids, b.buyers.lists);
      nb := b.(demand := SortBy(units, Amount, true));
    } else {
      var units := CollectUnits(b.sellers.ids, b.sellers.lists);
      nb := b.(supply := SortBy(units, Amount, false));
    }
  }

  /** The TWO_TYPE loop of calc_equilibrium: every listed item type's equilibrium recorded from
      the walk over its own curves; the books of other keys untouched. */
  method CalcEach(itemTypes: seq<string>, books: map<string, Book>) returns (r: map<string, Book>)
    requires forall t :: t in itemTypes ==> t in books
    ensures forall t :: t in r <==> t in books
    ensures forall t :: t in books ==>
              r[t] == if t in itemTypes then books[t].(eq := Record(books[t].eq, BookWalk(books[t]))) else books[t]
  {
    r := books;
    for i := 0 to |itemTypes|
      invariant forall t :: t in r <==> t in books
      invariant forall t :: t in books ==>
                  r[t] == if t in itemTypes[..i] then books[t].(eq := Record(books[t].eq, BookWalk(books[t]))) else books[t]
    {
      var t := itemTypes[i];
      assert itemTypes[..i + 1] == itemTypes[..i] + [t];
      var b := r[t];
      var w := WalkEveryPair(b.demand, b.supply);
      if t in itemTypes[..i] {
        RecordIsIdempotent(books[t].eq, w);
      }
      r := r[t := b.(eq := Record(b.eq, w))];
    }
    assert itemTypes[..|itemTypes|] == itemTypes;
  }

  /** Recording the same walk twice leaves what recording it once left: an item type listed twice
      ends with the same equilibrium. */
  lemma RecordIsIdempotent(eq: Report, w: Walk)
    ensures Record(Record(eq, w), w) == Record(eq, w)
  {
  }

  /** On sorted curves the ONE_TYPE walk reports the quantity and surplus of the walk that stops at
      the first rejection; only the price range differs. */
  lemma RecordedQuantityOnCurves(eq: Report, b: Book)
    requires Curves(b.demand, b.supply)
    ensures Record(eq, BookWalk(b)).units == Some(FirstRejectionWalk(b.demand, b.supply).units as int)
    ensures Record(eq, BookWalk(b)).surplus == Some(FirstRejectionWalk(b.demand, b.supply).surplus)
  {
    EveryPairWalkAgreesOnQuantity(b.demand, b.supply);
  }
}
