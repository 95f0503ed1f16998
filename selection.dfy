/**
 * How a trader reads the order book: the offers of one side in book order, a
 * random pick among them (ZID) or the best of them (ZIDP's find_opt).
 */
module Selection {
  import opened Wrappers
  import opened Protocol

  /** The (trader id, amount) pairs of the live orders of the given side, in book order. */
  function Matching(book: Book, side: Side): seq<(string, int)>
  {
    if book == [] then []
    else
      var (id, slot) := book[|book| - 1];
      Matching(book[..|book| - 1], side)
        + (if slot.Some? && slot.value.side == side then [(id, slot.value.amount)] else [])
  }

  /** An offer is collected exactly when the book holds a live order of that side, id and amount. */
  lemma {:induction false} MatchingMembership(book: Book, side: Side, id: string, amount: int)
    ensures (id, amount) in Matching(book, side)
            <==> exists i :: 0 <= i < |book| && book[i] == (id, Some(Order(side, amount)))
  {
    if book != [] {
      var init := book[..|book| - 1];
      MatchingMembership(init, side, id, amount);
      if (id, amount) in Matching(book, side) && (id, amount) !in Matching(init, side) {
        assert book[|book| - 1] == (id, Some(Order(side, amount)));
      }
      if exists i :: 0 <= i < |book| && book[i] == (id, Some(Order(side, amount))) {
        var i :| 0 <= i < |book| && book[i] == (id, Some(Order(side, amount)));
        if i < |book| - 1 {
          assert init[i] == book[i];
        }
      }
    }
  }

  /** No more offers than book entries. */
  lemma {:induction false} MatchingLength(book: Book, side: Side)
    ensures |Matching(book, side)| <= |book|
  {
    if book != [] {
      MatchingLength(book[..|book| - 1], side);
    }
  }

  /** The collection loop of transact: offers of one side, skipping cleared slots. */
  method CollectOffers(book: Book, side: Side) returns (offers: seq<(string, int)>)
    ensures offers == Matching(book, side)
  {
    offers := [];
    for i := 0 to |book|
      invariant offers == Matching(book[..i], side)
    {
      assert book[..i + 1][..i] == book[..i];
      var (id, slot) := book[i];
      if slot.None? {
        continue;
      }
      if slot.value.side == side {
        offers := offers + [(id, slot.value.amount)];
      }
    }
    assert book[..|book|] == book;
  }

  /** The m_type argument of find_opt: the lowest ask or the highest bid. */
  datatype Extreme = Lowest | Highest

  /** a improves on b in the sense of find_opt's strict comparison. */
  predicate Improves(m: Extreme, a: int, b: int)
  {
    if m == Lowest then a < b else a > b
  }

  /** The offer find_opt ends with after scanning the list from the front. */
  function ExtremeOf(m: Extreme, offers: seq<(string, int)>): (best: (string, int))
    requires |offers| > 0
  {
    if |offers| == 1 then offers[0]
    else
      var sofar := ExtremeOf(m, offers[..|offers| - 1]);
      var last := offers[|offers| - 1];
      if Improves(m, last.1, sofar.1) then last else sofar
  }

  /** best is the first offer of the list whose amount no other offer improves on. */
  ghost predicate IsFirstExtreme(m: Extreme, offers: seq<(string, int)>, best: (string, int))
  {
    exists k :: 0 <= k < |offers| && offers[k] == best
      && (forall j :: 0 <= j < |offers| ==> !Improves(m, offers[j].1, best.1))
      && (forall j :: 0 <= j < k ==> offers[j].1 != best.1)
  }

  /** find_opt returns the extreme offer and, among equal amounts, the earliest one. */
  lemma {:induction false} ExtremeOfIsFirstExtreme(m: Extreme, offers: seq<(string, int)>)
    requires |offers| > 0
    ensures IsFirstExtreme(m, offers, ExtremeOf(m, offers))
  {
    if |offers| == 1 {
      assert offers[0] == ExtremeOf(m, offers);
    } else {
      var init := offers[..|offers| - 1];
      ExtremeOfIsFirstExtreme(m, init);
      var sofar := ExtremeOf(m, init);
      var k :| 0 <= k < |init| && init[k] == sofar
        && (forall j :: 0 <= j < |init| ==> !Improves(m, init[j].1, sofar.1))
        && (forall j :: 0 <= j < k ==> init[j].1 != sofar.1);
      var last := offers[|offers| - 1];
      if Improves(m, last.1, sofar.1) {
        var n := |offers| - 1;
        forall j | 0 <= j < |offers|
          ensures !Improves(m, offers[j].1, last.1)
        {
          if j < n {
            assert offers[j] == init[j];
          }
        }
        forall j | 0 <= j < n
          ensures offers[j].1 != last.1
        {
          assert offers[j] == init[j];
        }
      } else {
        forall j | 0 <= j < |offers|
          ensures !Improves(m, offers[j].1, sofar.1)
        {
          if j < |offers| - 1 {
            assert offers[j] == init[j];
          }
        }
        assert offers[k] == sofar;
        forall j | 0 <= j < k
          ensures offers[j].1 != sofar.1
        {
          assert offers[j] == init[j];
        }
      }
    }
  }

  /** The characterisation pins the offer down: at most one offer satisfies it. */
  lemma FirstExtremeIsUnique(m: Extreme, offers: seq<(string, int)>, b1: (string, int), b2: (string, int))
    requires IsFirstExtreme(m, offers, b1) && IsFirstExtreme(m, offers, b2)
    ensures b1 == b2
  {
    var k1 :| 0 <= k1 < |offers| && offers[k1] == b1
      && (forall j :: 0 <= j < |offers| ==> !Improves(m, offers[j].1, b1.1))
      && (forall j :: 0 <= j < k1 ==> offers[j].1 != b1.1);
    var k2 :| 0 <= k2 < |offers| && offers[k2] == b2
      && (forall j :: 0 <= j < |offers| ==> !Improves(m, offers[j].1, b2.1))
      && (forall j :: 0 <= j < k2 ==> offers[j].1 != b2.1);
    assert !Improves(m, offers[k1].1, b2.1) && !Improves(m, offers[k2].1, b1.1);
    assert b1.1 == b2.1;
    assert k1 == k2;
  }

  /** find_opt: start from the first offer, replace it by any later one that strictly improves. */
  method FindOpt(m: Extreme, offers: seq<(string, int)>) returns (best: (string, int))
    requires |offers| > 0
    ensures best == ExtremeOf(m, offers)
  {
    best := offers[0];
    for i := 0 to |offers|
      invariant i == 0 ==> best == offers[0]
      invariant i > 0 ==> best == ExtremeOf(m, offers[..i])
    {
      var (x, y) := offers[i];
      if i > 0 {
        assert offers[..i + 1][..i] == offers[..i];
      } else {
        assert offers[..1] == [offers[0]];
      }
      if m == Highest && y > best.1 {
        best := (x, y);
      }
      if m == Lowest && y < best.1 {
        best := (x, y);
      }
    }
    assert offers[..|offers|] == offers;
  }
}
