/**
 * The payoff functions a trader is built with: a buyer's utility and a
 * seller's profit after q units, given its money, its values or costs and
 * the prices it traded at. The same two formulas appear in every version of
 * the agent builders.
 */
module Payoffs {

  /** Which of the two payoff functions a trader carries. */
  datatype PayoffKind = UtilityPayoff | ProfitPayoff

  /** Python's slice s[0:q]: the first q items, all of them when q is too large, and
      all but the last -q when q is negative. */
  function Head<T>(s: seq<T>, q: int): (h: seq<T>)
    ensures 0 <= q <= |s| ==> h == s[..q]
    ensures q > |s| ==> h == s
    ensures q < 0 ==> h == s[..if |s| + q < 0 then 0 else |s| + q]
  {
    if q > |s| then s
    else if q >= 0 then s[..q]
    else if |s| + q < 0 then []
    else s[..|s| + q]
  }

  /** Python's sum of a list of integers. */
  function Sum(s: seq<int>): int
  {
    if s == [] then 0 else Sum(s[..|s| - 1]) + s[|s| - 1]
  }

  /** The value of q units bought, plus money, minus what was paid. */
  function Utility(q: int, m: int, v: seq<int>, p: seq<int>): int
  {
    Sum(Head(v, q)) + m - Sum(Head(p, q))
  }

  /** Money plus what was received for q units sold, minus their cost. */
  function Profit(q: int, m: int, c: seq<int>, p: seq<int>): int
  {
    m + Sum(Head(p, q)) - Sum(Head(c, q))
  }

  /** The payoff function named by the kind, on the trader's own schedule. */
  function Payoff(kind: PayoffKind, q: int, m: int, schedule: seq<int>, p: seq<int>): int
  {
    if kind == UtilityPayoff then Utility(q, m, schedule, p) else Profit(q, m, schedule, p)
  }

  lemma SumOfSnoc(s: seq<int>, k: int)
    requires 0 <= k < |s|
    ensures Sum(s[..k + 1]) == Sum(s[..k]) + s[k]
  {
    assert s[..k + 1][..k] == s[..k];
  }

  /** A trader that has traded nothing keeps exactly its money. */
  lemma NoTradeKeepsMoney(m: int, v: seq<int>, c: seq<int>, p: seq<int>)
    ensures Utility(0, m, v, p) == m
    ensures Profit(0, m, c, p) == m
  {
    assert Head(v, 0) == [] && Head(c, 0) == [] && Head(p, 0) == [];
  }

  /** One more unit bought at price p[q] adds its value less the price. */
  lemma UtilityGrowsByUnitSurplus(q: int, m: int, v: seq<int>, p: seq<int>)
    requires 0 <= q < |v| && q < |p|
    ensures Utility(q + 1, m, v, p) == Utility(q, m, v, p) + v[q] - p[q]
  {
    SumOfSnoc(v, q);
    SumOfSnoc(p, q);
  }

  /** One more unit sold at price p[q] adds the price less its cost. */
  lemma ProfitGrowsByUnitSurplus(q: int, m: int, c: seq<int>, p: seq<int>)
    requires 0 <= q < |c| && q < |p|
    ensures Profit(q + 1, m, c, p) == Profit(q, m, c, p) + p[q] - c[q]
  {
    SumOfSnoc(c, q);
    SumOfSnoc(p, q);
  }

  /** When a buyer and a seller trade q units at the same prices, the prices cancel:
      their joint payoff is their money plus the values less the costs of those units. */
  lemma JointPayoffIgnoresPrices(q: int, mb: int, ms: int, v: seq<int>, c: seq<int>, p: seq<int>, p2: seq<int>)
    ensures Utility(q, mb, v, p) + Profit(q, ms, c, p) == Utility(q, mb, v, p2) + Profit(q, ms, c, p2)
    ensures Utility(q, mb, v, p) + Profit(q, ms, c, p) == mb + ms + Sum(Head(v, q)) - Sum(Head(c, q))
  {
  }
}
