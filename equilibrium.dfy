/**
 * The competitive-equilibrium computation shared by both market environments:
 * demand and supply built from the traders' schedules, and the walk down the
 * two curves that counts the units that trade, the surplus they earn and the
 * pair of units that brackets the equilibrium price.
 */
module Equilibrium {
  import opened Wrappers
  import opened Sorting

  /** A demand or supply step: (trader id, value or cost). */
  type Unit = (string, int)

  function Amount(u: Unit): int { u.1 }

  /** "big number > max cost ever": the rejected cost when every pair trades. */
  const NoCost := 999999999

  /** The units of one trader, each tagged with the trader's id. */
  function Tag(id: string, xs: seq<int>): (us: seq<Unit>)
    ensures |us| == |xs|
    ensures forall k :: 0 <= k < |xs| ==> us[k] == (id, xs[k])
  {
    seq(|xs|, k requires 0 <= k < |xs| => (id, xs[k]))
  }

  /** The schedules of a dictionary flattened in its key order, as make_demand and make_supply do
      before sorting. */
  function Units(ids: seq<string>, table: map<string, seq<int>>): seq<Unit>
    requires forall id :: id in ids ==> id in table
  {
    if ids == [] then []
    else Units(ids[..|ids| - 1], table) + Tag(ids[|ids| - 1], table[ids[|ids| - 1]])
  }

  /** A unit appears in the flattened list exactly when its owner is a key and the amount is in
      the owner's schedule. */
  lemma {:induction false} UnitsMembership(ids: seq<string>, table: map<string, seq<int>>, id: string, x: int)
    requires forall i :: i in ids ==> i in table
    ensures (id, x) in Units(ids, table) <==> id in ids && x in table[id]
  {
    if ids != [] {
      var init := ids[..|ids| - 1];
      var last := ids[|ids| - 1];
      assert ids == init + [last];
      UnitsMembership(init, table, id, x);
      if (id, x) in Tag(last, table[last]) {
        var k :| 0 <= k < |Tag(last, table[last])| && Tag(last, table[last])[k] == (id, x);
        assert table[last][k] == x;
      }
      if id == last && x in table[last] {
        var k :| 0 <= k < |table[last]| && table[last][k] == x;
        assert Tag(last, table[last])[k] == (id, x);
      }
    }
  }

  /** The nested loop of make_demand and make_supply: every key, then every amount of its list. */
  method CollectUnits(ids: seq<string>, table: map<string, seq<int>>) returns (units: seq<Unit>)
    requires forall id :: id in ids ==> id in table
    ensures units == Units(ids, table)
  {
    units := [];
    for i := 0 to |ids|
      invariant units == Units(ids[..i], table)
    {
      assert ids[..i + 1][..i] == ids[..i];
      var id := ids[i];
      var xs := table[id];
      ghost var before := units;
      for k := 0 to |xs|
        invariant units == before + Tag(id, xs[..k])
      {
        units := units + [(id, xs[k])];
      }
      assert xs[..|xs|] == xs;
    }
    assert ids[..|ids|] == ids;
  }

  /** sorted(units, key=itemgetter(1), reverse=True): the demand curve. */
  function DemandCurve(units: seq<Unit>): seq<Unit>
  {
    SortBy(units, Amount, true)
  }

  /** sorted(units, key=itemgetter(1)): the supply curve. */
  function SupplyCurve(units: seq<Unit>): seq<Unit>
  {
    SortBy(units, Amount, false)
  }

  /** Demand falls and supply rises, and neither loses or gains a unit. */
  lemma CurvesAreSortedRearrangements(units: seq<Unit>)
    ensures SortedBy(DemandCurve(units), Amount, true)
    ensures SortedBy(SupplyCurve(units), Amount, false)
    ensures multiset(DemandCurve(units)) == multiset(units)
    ensures multiset(SupplyCurve(units)) == multiset(units)
  {
    SortByIsSorted(units, Amount, true);
    SortByIsSorted(units, Amount, false);
  }

  function Min(a: int, b: int): int { if a <= b then a else b }

  function Max(a: int, b: int): int { if a >= b then a else b }

  /** The number of pairs zip(demand, supply) yields. */
  function Pairs(d: seq<Unit>, s: seq<Unit>): nat { Min(|d|, |s|) }

  /** Pair i trades: the value covers the cost. */
  predicate Accepted(d: seq<Unit>, s: seq<Unit>, i: nat)
    requires i < |d| && i < |s|
  {
    d[i].1 >= s[i].1
  }

  /** The surplus value - cost summed over the first n pairs. */
  function PairSurplus(d: seq<Unit>, s: seq<Unit>, n: nat): int
    requires n <= |d| && n <= |s|
  {
    if n == 0 then 0 else PairSurplus(d, s, n - 1) + d[n - 1].1 - s[n - 1].1
  }

  /** The number of leading pairs that trade. */
  function AcceptedPrefix(d: seq<Unit>, s: seq<Unit>): (k: nat)
    ensures k <= Pairs(d, s)
  {
    if |d| == 0 || |s| == 0 || d[0].1 < s[0].1 then 0
    else 1 + AcceptedPrefix(d[1..], s[1..])
  }

  /** AcceptedPrefix is the first rejected pair, or the number of pairs when none is rejected. */
  lemma {:induction false} AcceptedPrefixIsFirstRejection(d: seq<Unit>, s: seq<Unit>)
    ensures forall j :: 0 <= j < AcceptedPrefix(d, s) ==> Accepted(d, s, j)
    ensures AcceptedPrefix(d, s) < Pairs(d, s) ==> !Accepted(d, s, AcceptedPrefix(d, s))
  {
    if |d| == 0 || |s| == 0 || d[0].1 < s[0].1 {
    } else {
      AcceptedPrefixIsFirstRejection(d[1..], s[1..]);
      forall j | 0 <= j < AcceptedPrefix(d, s)
        ensures Accepted(d, s, j)
      {
        if j > 0 {
          assert Accepted(d[1..], s[1..], j - 1);
        }
      }
    }
  }

  /** Conversely, any k with that property is AcceptedPrefix. */
  lemma {:induction false} FirstRejectionIsAcceptedPrefix(d: seq<Unit>, s: seq<Unit>, k: nat)
    requires k <= Pairs(d, s)
    requires forall j :: 0 <= j < k ==> Accepted(d, s, j)
    requires k < Pairs(d, s) ==> !Accepted(d, s, k)
    ensures k == AcceptedPrefix(d, s)
  {
    if k > 0 {
      assert Accepted(d, s, 0);
      forall j | 0 <= j < k - 1
        ensures Accepted(d[1..], s[1..], j)
      {
        assert Accepted(d, s, j + 1);
      }
      if k - 1 < Pairs(d[1..], s[1..]) {
        assert !Accepted(d, s, k);
      }
      FirstRejectionIsAcceptedPrefix(d[1..], s[1..], k - 1);
    }
  }

  /** What a pass over the curves leaves in calc_equilibrium's local variables. */
  datatype Walk = Walk(units: nat, surplus: int, lastValue: int, lastCost: int,
                       rejectedValue: int, rejectedCost: int)

  const StartWalk := Walk(0, 0, 0, 0, 0, NoCost)

  /** modules/dm_env.py: walk the pairs and stop at the first pair that does not trade. */
  function FirstRejectionWalk(d: seq<Unit>, s: seq<Unit>): Walk
  {
    var k := AcceptedPrefix(d, s);
    Walk(k, PairSurplus(d, s, k),
         if k > 0 then d[k - 1].1 else 0,
         if k > 0 then s[k - 1].1 else 0,
         if k < Pairs(d, s) then d[k].1 else 0,
         if k < Pairs(d, s) then s[k].1 else NoCost)
  }

  /** modules_v3/environment/dm_env.py: walk all n pairs without stopping; a rejected pair
      overwrites the "first rejected" variables every time. */
  function EveryPairWalk(d: seq<Unit>, s: seq<Unit>, n: nat): Walk
    requires n <= |d| && n <= |s|
  {
    if n == 0 then StartWalk
    else
      var w := EveryPairWalk(d, s, n - 1);
      var value := d[n - 1].1;
      var cost := s[n - 1].1;
      if value >= cost then
        w.(units := w.units + 1, surplus := w.surplus + value - cost,
           lastValue := value, lastCost := cost)
      else
        w.(rejectedValue := value, rejectedCost := cost)
  }

  /** The (low, high) equilibrium price range, set only when more than one unit trades. */
  function PriceRange(w: Walk): Option<(int, int)>
  {
    if w.units > 1 then Some((Max(w.lastCost, w.rejectedValue), Min(w.lastValue, w.rejectedCost)))
    else None
  }

  /** The loop of modules/dm_env.py calc_equilibrium, with its break. */
  method WalkUntilRejected(d: seq<Unit>, s: seq<Unit>) returns (w: Walk)
    ensures w == FirstRejectionWalk(d, s)
  {
    var units := 0;
    var surplus := 0;
    var lastValue, lastCost := 0, 0;
    var rejectedValue, rejectedCost := 0, NoCost;
    var i := 0;
    while i < |d| && i < |s|
      invariant i <= |d| && i <= |s|
      invariant units == i && surplus == PairSurplus(d, s, i)
      invariant forall j :: 0 <= j < i ==> Accepted(d, s, j)
      invariant lastValue == (if i > 0 then d[i - 1].1 else 0)
      invariant lastCost == (if i > 0 then s[i - 1].1 else 0)
      invariant rejectedValue == 0 && rejectedCost == NoCost
    {
      var (_, value) := d[i];
      var (_, cost) := s[i];
      if value >= cost {
        units := units + 1;
        surplus := surplus + value - cost;
        lastValue := value;
        lastCost := cost;
      } else {
        rejectedValue := value;
        rejectedCost := cost;
        break;
      }
      i := i + 1;
    }
    FirstRejectionIsAcceptedPrefix(d, s, i);
    w := Walk(units, surplus, lastValue, lastCost, rejectedValue, rejectedCost);
  }

  /** The loop of modules_v3/environment/dm_env.py calc_equilibrium, which has no break. */
  method WalkEveryPair(d: seq<Unit>, s: seq<Unit>) returns (w: Walk)
    ensures w == EveryPairWalk(d, s, Pairs(d, s))
  {
    w := StartWalk;
    for i := 0 to Pairs(d, s)
      invariant w == EveryPairWalk(d, s, i)
    {
      var (_, value) := d[i];
      var (_, cost) := s[i];
      if value >= cost {
        w := w.(units := w.units + 1, surplus := w.surplus + value - cost,
                lastValue := value, lastCost := cost);
      } else {
        w := w.(rejectedValue := value, rejectedCost := cost);
      }
    }
  }

  /** The equilibrium quantity never exceeds the shorter curve and the surplus is never negative. */
  lemma FirstRejectionWalkBounds(d: seq<Unit>, s: seq<Unit>)
    ensures FirstRejectionWalk(d, s).units <= Pairs(d, s)
    ensures FirstRejectionWalk(d, s).surplus >= 0
  {
    var k := AcceptedPrefix(d, s);
    AcceptedPrefixIsFirstRejection(d, s);
    AcceptedSurplusNonNegative(d, s, k);
  }

  lemma {:induction false} AcceptedSurplusNonNegative(d: seq<Unit>, s: seq<Unit>, n: nat)
    requires n <= |d| && n <= |s|
    requires forall j :: 0 <= j < n ==> Accepted(d, s, j)
    ensures PairSurplus(d, s, n) >= 0
  {
    if n > 0 {
      AcceptedSurplusNonNegative(d, s, n - 1);
      assert Accepted(d, s, n - 1);
    }
  }

  /** Demand is non-increasing and supply non-decreasing, as make_demand and make_supply leave them. */
  ghost predicate Curves(d: seq<Unit>, s: seq<Unit>)
  {
    SortedBy(d, Amount, true) && SortedBy(s, Amount, false)
  }

  /** Once a pair is rejected on sorted curves, every later pair is rejected too. */
  lemma RejectionPersists(d: seq<Unit>, s: seq<Unit>, i: nat, j: nat)
    requires Curves(d, s)
    requires i <= j < Pairs(d, s)
    requires !Accepted(d, s, i)
    ensures !Accepted(d, s, j)
  {
    if i < j {
      assert Amount(d[i]) >= Amount(d[j]);
      assert Amount(s[i]) <= Amount(s[j]);
    }
  }

  /** On sorted curves, stopping at the first rejection yields the largest surplus of any number
      of leading pairs: the name max_surplus is earned. */
  lemma {:induction false} FirstRejectionSurplusIsMaximal(d: seq<Unit>, s: seq<Unit>, n: nat)
    requires Curves(d, s)
    requires n <= Pairs(d, s)
    ensures PairSurplus(d, s, n) <= FirstRejectionWalk(d, s).surplus
  {
    var k := AcceptedPrefix(d, s);
    AcceptedPrefixIsFirstRejection(d, s);
    if n < k {
      SurplusGrowsOverAccepted(d, s, n, k);
    } else if n > k {
      SurplusShrinksOverRejected(d, s, k, n);
    }
  }

  lemma {:induction false} SurplusGrowsOverAccepted(d: seq<Unit>, s: seq<Unit>, n: nat, k: nat)
    requires n <= k <= |d| && k <= |s|
    requires forall j :: 0 <= j < k ==> Accepted(d, s, j)
    ensures PairSurplus(d, s, n) <= PairSurplus(d, s, k)
  {
    if n < k {
      SurplusGrowsOverAccepted(d, s, n, k - 1);
      assert Accepted(d, s, k - 1);
    }
  }

  lemma {:induction false} SurplusShrinksOverRejected(d: seq<Unit>, s: seq<Unit>, k: nat, n: nat)
    requires Curves(d, s)
    requires k <= n <= Pairs(d, s)
    requires k < Pairs(d, s) ==> !Accepted(d, s, k)
    ensures PairSurplus(d, s, n) <= PairSurplus(d, s, k)
  {
    if k < n {
      SurplusShrinksOverRejected(d, s, k, n - 1);
      RejectionPersists(d, s, k, n - 1);
    }
  }

  /** The units that trade are bracketed by the price p: the last accepted buyer and seller are
      willing at p, and the next buyer and seller are not both willing (the walk's defaults 0 and
      NoCost bound p when every pair trades). */
  ghost predicate Clears(d: seq<Unit>, s: seq<Unit>, k: nat, p: int)
    requires 0 < k <= Pairs(d, s)
  {
    && s[k - 1].1 <= p <= d[k - 1].1
    && (k < Pairs(d, s) ==> d[k].1 <= p <= s[k].1)
    && (k == Pairs(d, s) ==> 0 <= p <= NoCost)
  }

  /** The price range of modules/dm_env.py is exactly the set of clearing prices ... */
  lemma FirstRejectionRangeIsClearingSet(d: seq<Unit>, s: seq<Unit>, p: int)
    requires FirstRejectionWalk(d, s).units > 1
    ensures PriceRange(FirstRejectionWalk(d, s)).Some?
    ensures var (low, high) := PriceRange(FirstRejectionWalk(d, s)).value;
            low <= p <= high <==> Clears(d, s, FirstRejectionWalk(d, s).units, p)
  {
  }

  /** ... and on sorted curves with non-negative values and costs below NoCost it is not empty. */
  lemma FirstRejectionRangeNonEmpty(d: seq<Unit>, s: seq<Unit>)
    requires Curves(d, s)
    requires forall i :: 0 <= i < |d| ==> d[i].1 >= 0
    requires forall i :: 0 <= i < |s| ==> s[i].1 <= NoCost
    requires FirstRejectionWalk(d, s).units > 1
    ensures PriceRange(FirstRejectionWalk(d, s)).Some?
    ensures PriceRange(FirstRejectionWalk(d, s)).value.0 <= PriceRange(FirstRejectionWalk(d, s)).value.1
  {
    var k := AcceptedPrefix(d, s);
    AcceptedPrefixIsFirstRejection(d, s);
    assert Accepted(d, s, k - 1);
    if k < Pairs(d, s) {
      assert Amount(d[k - 1]) >= Amount(d[k]);
      assert Amount(s[k - 1]) <= Amount(s[k]);
    }
  }

  /** On sorted curves the walk without break agrees with the walk that stops: after the first
      rejection every pair is rejected, so only the rejected pair differs (it is the last pair
      instead of the first rejected one). */
  lemma {:induction false} EveryPairWalkOnCurves(d: seq<Unit>, s: seq<Unit>, n: nat)
    requires Curves(d, s)
    requires n <= Pairs(d, s)
    ensures var w := EveryPairWalk(d, s, n);
            var k := Min(n, AcceptedPrefix(d, s));
            && w.units == k
            && w.surplus == PairSurplus(d, s, k)
            && w.lastValue == (if k > 0 then d[k - 1].1 else 0)
            && w.lastCost == (if k > 0 then s[k - 1].1 else 0)
            && w.rejectedValue == (if n > AcceptedPrefix(d, s) then d[n - 1].1 else 0)
            && w.rejectedCost == (if n > AcceptedPrefix(d, s) then s[n - 1].1 else NoCost)
  {
    AcceptedPrefixIsFirstRejection(d, s);
    if n > 0 {
      EveryPairWalkOnCurves(d, s, n - 1);
      if n > AcceptedPrefix(d, s) {
        RejectionPersists(d, s, AcceptedPrefix(d, s), n - 1);
      } else {
        assert Accepted(d, s, n - 1);
      }
    }
  }

  /** Hence on sorted curves both versions report the same equilibrium quantity and surplus. */
  lemma EveryPairWalkAgreesOnQuantity(d: seq<Unit>, s: seq<Unit>)
    requires Curves(d, s)
    ensures EveryPairWalk(d, s, Pairs(d, s)).units == FirstRejectionWalk(d, s).units
    ensures EveryPairWalk(d, s, Pairs(d, s)).surplus == FirstRejectionWalk(d, s).surplus
  {
    EveryPairWalkOnCurves(d, s, Pairs(d, s));
  }

  /** On sorted curves the range without break contains the range with break. */
  lemma EveryPairRangeContainsFirstRejectionRange(d: seq<Unit>, s: seq<Unit>)
    requires Curves(d, s)
    requires FirstRejectionWalk(d, s).units > 1
    ensures PriceRange(EveryPairWalk(d, s, Pairs(d, s))).Some?
    ensures var (low, high) := PriceRange(EveryPairWalk(d, s, Pairs(d, s))).value;
            var (low0, high0) := PriceRange(FirstRejectionWalk(d, s)).value;
            low <= low0 && high0 <= high
  {
    var n := Pairs(d, s);
    var k := AcceptedPrefix(d, s);
    EveryPairWalkOnCurves(d, s, n);
    if k < n {
      if k < n - 1 {
        assert Amount(d[k]) >= Amount(d[n - 1]);
        assert Amount(s[k]) <= Amount(s[n - 1]);
      }
    }
  }

  /** The demand [100, 90, 50, 20] against the supply [10, 20, 60, 70]: two units trade, the
      clearing prices are 50 .. 60, but the walk without break reports 20 .. 70 because the last
      rejected pair (20, 70) overwrites the first (50, 60). At 30 the third buyer (value 50)
      would still buy, so 30 does not clear. */
  lemma EveryPairRangeAdmitsNonClearingPrice()
    ensures var d := [("b1", 100), ("b2", 90), ("b3", 50), ("b4", 20)];
            var s := [("s1", 10), ("s2", 20), ("s3", 60), ("s4", 70)];
            && Curves(d, s)
            && FirstRejectionWalk(d, s).units == 2
            && PriceRange(FirstRejectionWalk(d, s)) == Some((50, 60))
            && PriceRange(EveryPairWalk(d, s, Pairs(d, s))) == Some((20, 70))
            && !Clears(d, s, 2, 30)
  {
    var d := [("b1", 100), ("b2", 90), ("b3", 50), ("b4", 20)];
    var s := [("s1", 10), ("s2", 20), ("s3", 60), ("s4", 70)];
    assert Curves(d, s);
    assert AcceptedPrefix(d[2..], s[2..]) == 0;
    assert d[1..][1..] == d[2..] && s[1..][1..] == s[2..];
    assert AcceptedPrefix(d[1..], s[1..]) == 1;
    assert AcceptedPrefix(d, s) == 2;
    assert PairSurplus(d, s, 2) == 160;
    assert FirstRejectionWalk(d, s) == Walk(2, 160, 90, 20, 50, 60);
    var w1 := EveryPairWalk(d, s, 1);
    assert w1 == Walk(1, 90, 100, 10, 0, NoCost);
    var w2 := EveryPairWalk(d, s, 2);
    assert w2 == Walk(2, 160, 90, 20, 0, NoCost);
    var w3 := EveryPairWalk(d, s, 3);
    assert w3 == Walk(2, 160, 90, 20, 50, 60);
    var w4 := EveryPairWalk(d, s, 4);
    assert w4 == Walk(2, 160, 90, 20, 20, 70);
  }
}
