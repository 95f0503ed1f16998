/**
 * The decision rules the ZID family shares across versions: which standing
 * offer a trader looks at when it may accept (a random one for ZID and ZIDA,
 * the best one for ZIDP, ZIDPA and ZIDPR), when it accepts it, and the
 * direction lists the movement rules draw from.
 */
module Strategies {
  import opened Wrappers
  import opened Messages
  import opened Protocol
  import opened Chance
  import opened Selection

  /** The five strategy classes. */
  datatype Strategy = ZID | ZIDA | ZIDP | ZIDPA | ZIDPR

  /** ZIDP and its subclasses take the best offer (find_opt); ZID and ZIDA take a random one. */
  predicate Picky(s: Strategy)
  {
    s == ZIDP || s == ZIDPA || s == ZIDPR
  }

  /** find_opt's mode for the offers an acceptor scans: 'min' over asks, 'max' over bids. */
  function ModeFor(side: Side): Extreme
  {
    if side == Ask then Lowest else Highest
  }

  /** The counter-offer an acceptor considers: find_opt's pick or rnd.choice's pick. */
  function Target(picky: bool, side: Side, offers: seq<(string, int)>, choice: nat): (t: (string, int))
    requires |offers| > 0
    ensures t in offers
    ensures picky ==> forall o :: o in offers ==> !Improves(ModeFor(side), o.1, t.1)
  {
    if picky then
      ExtremeOfIsFirstExtreme(ModeFor(side), offers);
      ExtremeOf(ModeFor(side), offers)
    else Choose(offers, choice)
  }

  /** A buyer accepts an ask at most its willingness to pay; a seller accepts a bid at least its willingness to accept. */
  predicate Affordable(asBuyer: bool, reservation: int, amount: int)
  {
    if asBuyer then reservation >= amount else reservation <= amount
  }

  /**
   * The reply of transact once the reservation price is drawn: BUY or SELL naming
   * the considered counter-offer's trader when it is affordable, NULL otherwise
   * or when there is nothing to consider.
   */
  function Accept(name: string, asBuyer: bool, picky: bool, reservation: int,
                  offers: seq<(string, int)>, choice: nat): (m: Msg)
    ensures m.sender == name && m.receiver == "BARGAIN"
    ensures m.directive in {"BUY", "SELL", "NULL"}
  {
    if |offers| == 0 then NullReply(name)
    else
      var t := Target(picky, if asBuyer then Ask else Bid, offers, choice);
      if !Affordable(asBuyer, reservation, t.1) then NullReply(name)
      else if asBuyer then Message("BUY", name, "BARGAIN", Counterparty(t.0))
      else Message("SELL", name, "BARGAIN", Counterparty(t.0))
  }

  /**
   * An acceptance names a trader whose offer is among those scanned and is
   * affordable; buyers only BUY and sellers only SELL.
   */
  lemma AcceptNamesAffordableOffer(name: string, asBuyer: bool, picky: bool, reservation: int,
                                   offers: seq<(string, int)>, choice: nat)
    ensures var m := Accept(name, asBuyer, picky, reservation, offers, choice);
            m.directive != "NULL" ==>
              && m.directive == (if asBuyer then "BUY" else "SELL")
              && m.payload.Counterparty?
              && exists amount :: (m.payload.id, amount) in offers && Affordable(asBuyer, reservation, amount)
  {
    var m := Accept(name, asBuyer, picky, reservation, offers, choice);
    if m.directive != "NULL" {
      var t := Target(picky, if asBuyer then Ask else Bid, offers, choice);
      assert t in offers && Affordable(asBuyer, reservation, t.1);
    }
  }

  /**
   * A best-price acceptor never misses a deal: it accepts exactly when some
   * scanned offer is affordable.
   */
  lemma PickyAcceptsIffSomeOfferAffordable(name: string, asBuyer: bool, reservation: int,
                                           offers: seq<(string, int)>, choice: nat)
    ensures Accept(name, asBuyer, true, reservation, offers, choice).directive != "NULL"
            <==> exists o :: o in offers && Affordable(asBuyer, reservation, o.1)
  {
    if exists o :: o in offers && Affordable(asBuyer, reservation, o.1) {
      var o :| o in offers && Affordable(asBuyer, reservation, o.1);
      var t := Target(true, if asBuyer then Ask else Bid, offers, choice);
      assert !Improves(ModeFor(if asBuyer then Ask else Bid), o.1, t.1);
    }
  }

  /** A random-pick acceptor accepts exactly when the drawn offer is affordable. */
  lemma RandomAcceptsIffDrawnOfferAffordable(name: string, asBuyer: bool, reservation: int,
                                             offers: seq<(string, int)>, choice: nat)
    requires |offers| > 0
    ensures Accept(name, asBuyer, false, reservation, offers, choice).directive != "NULL"
            <==> Affordable(asBuyer, reservation, Choose(offers, choice).1)
  {
  }

  /** [-1, 0, +1]: the list every unbiased move draws each component from. */
  const Unit: seq<int> := [-1, 0, 1]

  /** A movement idea as rnd.choice draws it, one component at a time. */
  function Draw(dirs: seq<int>, x: nat, y: nat): (step: (int, int))
    requires |dirs| > 0
    ensures step.0 in dirs && step.1 in dirs
  {
    (Choose(dirs, x), Choose(dirs, y))
  }

  /**
   * The direction list of the strategy path of move_requested. ZID and ZIDP
   * always draw from [-1, 0, +1]; the affinity variants stay put while the
   * contract flag holds unless the location is short of agents; ZIDPR draws
   * from [-1, +1] whenever more than two traders share its location.
   */
  function Directions(s: Strategy, flag: bool, short: bool, crowded: bool): (dirs: seq<int>)
    ensures |dirs| > 0
    ensures forall d :: d in dirs ==> d in Unit
    ensures s == ZIDPR && crowded ==> forall d :: d in dirs ==> d != 0
    ensures (s == ZID || s == ZIDP || !flag || short) && !(s == ZIDPR && crowded) ==> dirs == Unit
    ensures s != ZID && s != ZIDP && flag && !short && !(s == ZIDPR && crowded) ==> forall d :: d in dirs ==> d == 0
  {
    if s == ZID || s == ZIDP then Unit
    else if s == ZIDPR && crowded then [-1, 1]
    else if flag && !short then [0, 0, 0]
    else Unit
  }

  /** Drawing from [-1, +1] never leaves a component at rest. */
  lemma DrawFromCrowdedAlwaysMoves(x: nat, y: nat)
    ensures var step := Draw([-1, 1], x, y); step.0 != 0 && step.1 != 0
  {
    assert Choose([-1, 1], x) in [-1, 1];
    assert Choose([-1, 1], y) in [-1, 1];
  }
}
