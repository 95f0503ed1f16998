/**
 * modules/dm_env.py: the spot market environment. It holds each buyer's
 * values and each seller's costs under the keys "buyer<n>" and "seller<n>",
 * builds the demand and supply curves from them and computes the
 * competitive equilibrium by walking the curves until a pair does not trade.
 */
module MarketEnv {
  import opened Wrappers
  import opened Decimal
  import opened Dicts
  import opened Sorting
  import opened Equilibrium

  function BuyerId(n: int): string { "buyer" + IntToString(n) }

  function SellerId(n: int): string { "seller" + IntToString(n) }

  /** Different numbers name different buyers (and sellers); no buyer key is a seller key. */
  lemma TraderIdsAreDistinct(n: int, m: int)
    ensures BuyerId(n) == BuyerId(m) ==> n == m
    ensures SellerId(n) == SellerId(m) ==> n == m
    ensures BuyerId(n) != SellerId(m)
  {
    if BuyerId(n) == BuyerId(m) {
      PrefixedIntInjective("buyer", n, m);
    }
    if SellerId(n) == SellerId(m) {
      PrefixedIntInjective("seller", n, m);
    }
    assert BuyerId(n)[0] == 'b' && SellerId(m)[0] == 's';
  }

  /** For a key prefix: the keys of range(count), in order. */
  function NumberedIds(seller: bool, count: int): (ids: seq<string>)
    ensures |ids| == if count < 0 then 0 else count
  {
    seq(if count < 0 then 0 else count, i => if seller then SellerId(i) else BuyerId(i))
  }

  /** The dictionary the constructor builds: every numbered key with an empty list. */
  function EmptySchedules(ids: seq<string>): (m: map<string, seq<int>>)
    ensures forall id :: id in m <==> id in ids
    ensures forall id :: id in m ==> m[id] == []
  {
    map id | id in ids :: []
  }

  lemma NumberedIdsAreOrdered(seller: bool, count: int)
    ensures Ordered(NumberedIds(seller, count), EmptySchedules(NumberedIds(seller, count)))
  {
    var ids := NumberedIds(seller, count);
    forall i, j | 0 <= i < j < |ids|
      ensures ids[i] != ids[j]
    {
      TraderIdsAreDistinct(i, j);
    }
  }

  /**
   * The constructor's loop over range(count): every numbered key, in order,
   * with an empty list.
   */
  method EmptyRoster(seller: bool, count: int) returns (ids: seq<string>, m: map<string, seq<int>>)
    ensures ids == NumberedIds(seller, count) && m == EmptySchedules(ids)
    ensures Ordered(ids, m)
  {
    ids, m := [], map[];
    for k := 0 to |NumberedIds(seller, count)|
      invariant ids == NumberedIds(seller, k) && m == EmptySchedules(ids)
    {
      var id := if seller then SellerId(k) else BuyerId(k);
      assert NumberedIds(seller, k + 1) == NumberedIds(seller, k) + [id];
      ids := ids + [id];
      m := m[id := []];
    }
    assert NumberedIds(seller, |NumberedIds(seller, count)|) == NumberedIds(seller, count);
    NumberedIdsAreOrdered(seller, count);
  }

  class SpotMarketEnvironment {
    const name: string
    const numBuyers: int
    const numSellers: int
    var demand: seq<Unit>
    var supply: seq<Unit>
    var buyers: map<string, seq<int>>
    var buyerIds: seq<string>
    var sellers: map<string, seq<int>>
    var sellerIds: seq<string>
    var eqPriceLow: Option<int>
    var eqPriceHigh: Option<int>
    var eqUnits: Option<int>
    /** max_surplus only exists once calc_equilibrium has run: None models the missing attribute. */
    var maxSurplus: Option<int>

    ghost predicate Valid()
      reads this
    {
      Ordered(buyerIds, buyers) && Ordered(sellerIds, sellers)
    }

    constructor (name: string, numBuyers: int, numSellers: int)
      ensures Valid()
      ensures this.name == name && this.numBuyers == numBuyers && this.numSellers == numSellers
      ensures buyerIds == NumberedIds(false, numBuyers) && buyers == EmptySchedules(buyerIds)
      ensures sellerIds == NumberedIds(true, numSellers) && sellers == EmptySchedules(sellerIds)
      ensures demand == [] && supply == []
      ensures eqPriceLow.None? && eqPriceHigh.None? && eqUnits.None? && maxSurplus.None?
    {
      var bIds, bMap := EmptyRoster(false, numBuyers);
      var sIds, sMap := EmptyRoster(true, numSellers);
      this.name := name;
      this.numBuyers := numBuyers;
      this.numSellers := numSellers;
      demand, supply := [], [];
      eqPriceLow, eqPriceHigh, eqUnits, maxSurplus := None, None, None, None;
      buyers, buyerIds, sellers, sellerIds := bMap, bIds, sMap, sIds;
    }

    /** get_buyer_values: None for a buyer number that was never added (KeyError). */
    function GetBuyerValues(n: int): Option<seq<int>>
      reads this
    {
      if BuyerId(n) in buyers then Some(buyers[BuyerId(n)]) else None
    }

    function GetSellerCosts(n: int): Option<seq<int>>
      reads this
    {
      if SellerId(n) in sellers then Some(sellers[SellerId(n)]) else None
    }

    method AddBuyer(n: int, values: seq<int>)
      modifies this
      requires Valid()
      ensures Valid()
      ensures buyers == old(buyers)[BuyerId(n) := values]
      ensures buyerIds == KeysAfterAssign(old(buyerIds), old(buyers), BuyerId(n))
      ensures GetBuyerValues(n) == Some(values)
      ensures forall m :: m != n ==> GetBuyerValues(m) == old(GetBuyerValues(m))
      ensures sellers == old(sellers) && sellerIds == old(sellerIds)
      ensures demand == old(demand) && supply == old(supply)
      ensures eqPriceLow == old(eqPriceLow) && eqPriceHigh == old(eqPriceHigh)
      ensures eqUnits == old(eqUnits) && maxSurplus == old(maxSurplus)
    {
      AssignKeepsOrdered(buyerIds, buyers, BuyerId(n), values);
      buyerIds := KeysAfterAssign(buyerIds, buyers, BuyerId(n));
      buyers := buyers[BuyerId(n) := values];
      forall m | m != n
        ensures BuyerId(m) != BuyerId(n)
      {
        TraderIdsAreDistinct(m, n);
      }
    }

    method AddSeller(n: int, costs: seq<int>)
      modifies this
      requires Valid()
      ensures Valid()
      ensures sellers == old(sellers)[SellerId(n) := costs]
      ensures sellerIds == KeysAfterAssign(old(sellerIds), old(sellers), SellerId(n))
      ensures GetSellerCosts(n) == Some(costs)
      ensures forall m :: m != n ==> GetSellerCosts(m) == old(GetSellerCosts(m))
      ensures buyers == old(buyers) && buyerIds == old(buyerIds)
      ensures demand == old(demand) && supply == old(supply)
      ensures eqPriceLow == old(eqPriceLow) && eqPriceHigh == old(eqPriceHigh)
      ensures eqUnits == old(eqUnits) && maxSurplus == old(maxSurplus)
    {
      AssignKeepsOrdered(sellerIds, sellers, SellerId(n), costs);
      sellerIds := KeysAfterAssign(sellerIds, sellers, SellerId(n));
      sellers := sellers[SellerId(n) := costs];
      forall m | m != n
        ensures SellerId(m) != SellerId(n)
      {
        TraderIdsAreDistinct(m, n);
      }
    }

    /** Every buyer's values, tagged with the buyer's key, sorted from high to low. */
    method MakeDemand()
      modifies this
      requires Valid()
      ensures Valid()
      ensures demand == DemandCurve(Units(buyerIds, buyers))
      ensures SortedBy(demand, Amount, true) && multiset(demand) == multiset(Units(buyerIds, buyers))
      ensures buyers == old(buyers) && buyerIds == old(buyerIds)
      ensures sellers == old(sellers) && sellerIds == old(sellerIds) && supply == old(supply)
      ensures eqPriceLow == old(eqPriceLow) && eqPriceHigh == old(eqPriceHigh)
      ensures eqUnits == old(eqUnits) && maxSurplus == old(maxSurplus)
    {
      var units := CollectUnits(buyerIds, buyers);
      demand := SortBy(units, Amount, true);
      CurvesAreSortedRearrangements(units);
    }

    /** Every seller's costs, tagged with the seller's key, sorted from low to high. */
    method MakeSupply()
      modifies this
      requires Valid()
      ensures Valid()
      ensures supply == SupplyCurve(Units(sellerIds, sellers))
      ensures SortedBy(supply, Amount, false) && multiset(supply) == multiset(Units(sellerIds, sellers))
      ensures buyers == old(buyers) && buyerIds == old(buyerIds)
      ensures sellers == old(sellers) && sellerIds == old(sellerIds) && demand == old(demand)
      ensures eqPriceLow == old(eqPriceLow) && eqPriceHigh == old(eqPriceHigh)
      ensures eqUnits == old(eqUnits) && maxSurplus == old(maxSurplus)
    {
      var units := CollectUnits(sellerIds, sellers);
      supply := SortBy(units, Amount, false);
      CurvesAreSortedRearrangements(units);
    }

    /** calc_equilibrium: the quantity and surplus of the pairs before the first rejection, and the
        price range bracketed by the last accepted and the first rejected pair when more than one
        unit trades (the previous prices stay otherwise). */
    method CalcEquilibrium()
      modifies this
      ensures var w := FirstRejectionWalk(demand, supply);
              && eqUnits == Some(w.units as int) && maxSurplus == Some(w.surplus)
              && (PriceRange(w).Some? ==> eqPriceLow == Some(PriceRange(w).value.0)
                                          && eqPriceHigh == Some(PriceRange(w).value.1))
              && (PriceRange(w).None? ==> eqPriceLow == old(eqPriceLow) && eqPriceHigh == old(eqPriceHigh))
      ensures 0 <= eqUnits.value <= Pairs(demand, supply) && maxSurplus.value >= 0
      ensures Curves(demand, supply) ==>
                (forall n :: 0 <= n <= Pairs(demand, supply) ==> PairSurplus(demand, supply, n) <= maxSurplus.value)
      ensures demand == old(demand) && supply == old(supply)
      ensures buyers == old(buyers) && buyerIds == old(buyerIds)
      ensures sellers == old(sellers) && sellerIds == old(sellerIds)
    {
      var w := WalkUntilRejected(demand, supply);
      FirstRejectionWalkBounds(demand, supply);
      maxSurplus := Some(w.surplus);
      eqUnits := Some(w.units);
      if w.units > 1 {
        eqPriceHigh := Some(Min(w.lastValue, w.rejectedCost));
        eqPriceLow := Some(Max(w.lastCost, w.rejectedValue));
      }
      if Curves(demand, supply) {
        forall n | 0 <= n <= Pairs(demand, supply)
          ensures PairSurplus(demand, supply, n) <= w.surplus
        {
          FirstRejectionSurplusIsMaximal(demand, supply, n);
        }
      }
    }

    /** get_equilibrium: (eq_units, eq_price_low, eq_price_high, max_surplus), or None before
        calc_equilibrium has created max_surplus (AttributeError). */
    function GetEquilibrium(): Option<(Option<int>, Option<int>, Option<int>, int)>
      reads this
    {
      if maxSurplus.None? then None else Some((eqUnits, eqPriceLow, eqPriceHigh, maxSurplus.value))
    }
  }
}
