/**
 * The bargaining engine of modules_v2/dm_bargain.py. Each round the agents
 * are shuffled and every order-book slot is cleared; in the OFFER phase each
 * agent's BID or ASK replaces its own slot, and in the TRANSACT phase a BUY
 * or SELL that names a trader with a live slot settles at that trader's
 * resting amount, clears both slots, informs both parties and is written to
 * the ledger together with each party's unit and value or cost.
 */
module Bargaining {
  import opened Wrappers
  import opened Messages
  import opened Protocol
  import opened Chance
  import opened Selection
  import opened Dicts
  import opened AgentsCovid

  /** One offer_history tuple (round, trader id, "BID" / "ASK" / "BUY" / "SELL", amount). */
  datatype Entry = Entry(round: int, trader: string, kind: string, amount: int)

  /** The extended contract (round, price, buyer, seller, buyer's unit and value, seller's unit and cost). */
  datatype Settlement = Settlement(round: int, price: int, buyer: string, seller: string,
                                   buyerUnit: nat, buyerValue: int, sellerUnit: nat, sellerCost: int)

  /** How a step or a whole run ends: normally, by returning a BAD message, or by raising. */
  datatype Outcome = Normal | Returned(bad: Msg) | Raised(error: string)

  /** A settlement no party regrets: the price lies between the seller's cost and the buyer's value. */
  predicate Fair(s: Settlement)
  {
    s.sellerCost <= s.price <= s.buyerValue
  }

  /** The order book as the dictionary's items in insertion order: what OFFER and TRANSACT carry. */
  function BookOf(keys: seq<string>, m: map<string, Slot>): (b: Book)
    requires forall k :: k in keys ==> k in m
    ensures |b| == |keys| && forall i :: 0 <= i < |keys| ==> b[i] == (keys[i], m[keys[i]])
  {
    seq(|keys|, i requires 0 <= i < |keys| => (keys[i], m[keys[i]]))
  }

  /** Every offer a trader can collect from the shown book is the resting order under that id. */
  lemma CollectedOfferIsResting(keys: seq<string>, m: map<string, Slot>, side: Side, id: string, amount: int)
    requires forall k :: k in keys ==> k in m
    requires (id, amount) in Matching(BookOf(keys, m), side)
    ensures id in m && m[id] == Some(Order(side, amount))
  {
    MatchingMembership(BookOf(keys, m), side, id, amount);
  }

  /** The slot entries make_bargaining_order writes: None for every name. */
  function ClearedSlots(names: seq<string>): (m: map<string, Slot>)
    ensures forall n :: n in m <==> n in names
    ensures forall n :: n in m ==> m[n] == None
  {
    map n | n in names :: None
  }

  /** The agent_lookup entries make_bargaining_order writes: each name's last position. */
  function LookupOf(names: seq<string>): map<string, nat>
  {
    if names == [] then map[]
    else LookupOf(names[..|names| - 1])[names[|names| - 1] := |names| - 1]
  }

  /** With distinct names, the lookup sends each name to its own position and knows no other name. */
  lemma {:induction false} LookupOfFindsPositions(names: seq<string>)
    requires forall i, j :: 0 <= i < j < |names| ==> names[i] != names[j]
    ensures forall n :: n in LookupOf(names) <==> n in names
    ensures forall i :: 0 <= i < |names| ==> LookupOf(names)[names[i]] == i
  {
    if names != [] {
      var init := names[..|names| - 1];
      LookupOfFindsPositions(init);
      forall i | 0 <= i < |init|
        ensures init[i] != names[|names| - 1]
      {
        assert init[i] == names[i];
      }
      forall n | n in names
        ensures n in LookupOf(names)
      {
        var i :| 0 <= i < |names| && names[i] == n;
        if i < |init| {
          assert init[i] == n;
        }
      }
      forall i | 0 <= i < |names|
        ensures LookupOf(names)[names[i]] == i
      {
        if i < |init| {
          assert init[i] == names[i];
        }
      }
    }
  }

  /** The key order after the names are assigned in turn: unseen names join at the end. */
  function Enrol(keys: seq<string>, names: seq<string>): seq<string>
  {
    if names == [] then keys
    else
      var e := Enrol(keys, names[..|names| - 1]);
      if names[|names| - 1] in e then e else e + [names[|names| - 1]]
  }

  /** One turn of make_bargaining_order's loop extends each specification by the next name. */
  lemma ClearingStep(m: map<string, Slot>, lookup: map<string, nat>, keys: seq<string>, names: seq<string>, k: nat)
    requires k < |names|
    ensures (m + ClearedSlots(names[..k]))[names[k] := None] == m + ClearedSlots(names[..k + 1])
    ensures (lookup + LookupOf(names[..k]))[names[k] := k] == lookup + LookupOf(names[..k + 1])
    ensures var e := Enrol(keys, names[..k]);
            Enrol(keys, names[..k + 1]) == if names[k] in e then e else e + [names[k]]
  {
    assert names[..k + 1][..k] == names[..k];
    assert ClearedSlots(names[..k + 1]) == ClearedSlots(names[..k])[names[k] := None];
  }

  /**
   * The loop of make_bargaining_order over the shuffled names: each name's
   * slot becomes None (a new name joins the key order at the end) and its
   * lookup entry becomes its position.
   */
  method ClearSlots(book0: map<string, Slot>, keys0: seq<string>, lookup0: map<string, nat>, names: seq<string>)
    returns (book: map<string, Slot>, keys: seq<string>, lookup: map<string, nat>)
    requires Ordered(keys0, book0)
    ensures book == book0 + ClearedSlots(names)
    ensures keys == Enrol(keys0, names)
    ensures Ordered(keys, book)
    ensures lookup == lookup0 + LookupOf(names)
  {
    book, keys, lookup := book0, keys0, lookup0;
    for k := 0 to |names|
      invariant book == book0 + ClearedSlots(names[..k])
      invariant keys == Enrol(keys0, names[..k])
      invariant Ordered(keys, book)
      invariant lookup == lookup0 + LookupOf(names[..k])
    {
      var name := names[k];
      ClearingStep(book0, lookup0, keys0, names, k);
      assert name in keys <==> name in book;
      AssignKeepsOrdered(keys, book, name, None);
      keys := KeysAfterAssign(keys, book, name);
      book := book[name := None];
      lookup := lookup[name := k];
    }
    assert names[..|names|] == names;
  }

  /**
   * The resting order in a trader's slot is one that trader could have posted
   * for its current unit: it has a unit left, the order is on its own side and
   * within the range of its current unit's draw.
   */
  predicate SlotHonest(t: Trader, s: Slot)
    reads t
  {
    s.Some? ==>
      && !t.Exhausted() && t.curUnit < |t.Schedule()|
      && s.value.side == PostedSide(t.role)
      && t.ReservationLow() <= s.value.amount <= t.ReservationHigh()
  }

  /** The side an OFFER-phase directive posts. */
  function SideOf(directive: string): Side
  {
    if directive == "BID" then Bid else Ask
  }

  /** The trader a BUY or SELL names, if its payload names one. */
  function Named(reply: Msg): Option<string>
  {
    if reply.payload.Counterparty? then Some(reply.payload.id) else None
  }

  /** The contract a BUY or SELL makes at the resting price: a BUY's sender buys, a SELL's sender sells. */
  function ContractOf(round: int, reply: Msg, other: string, price: int): Contract
  {
    if reply.directive == "BUY" then Contract(round, price, reply.sender, other)
    else Contract(round, price, other, reply.sender)
  }

  /** Every agent is drawable and owns a slot of m that is empty or holds an offer it could make. */
  ghost predicate HonestBook(ts: seq<Trader>, m: map<string, Slot>)
    reads ts
  {
    forall t :: t in ts ==> t.Drawable() && t.name in m && SlotHonest(t, m[t.name])
  }

  /** A book of empty slots, one per drawable agent, is honest. */
  lemma EmptyBookIsHonest(ts: seq<Trader>, m: map<string, Slot>)
    requires forall t :: t in ts ==> t.Drawable() && t.name in m && m[t.name] == None
    ensures HonestBook(ts, m)
  {
  }

  /** Posting an offer its owner could make keeps the book honest and over the agents' names: no other agent's slot moves. */
  lemma PostKeepsHonest(ts: seq<Trader>, keys: seq<string>, m: map<string, Slot>, a: Trader, slot: Slot)
    requires DistinctNames(ts) && a in ts
    requires BookedOver(keys, m, ts) && HonestBook(ts, m) && SlotHonest(a, slot)
    ensures BookedOver(KeysAfterAssign(keys, m, a.name), m[a.name := slot], ts)
    ensures HonestBook(ts, m[a.name := slot])
  {
    AssignKeepsOrdered(keys, m, a.name, slot);
    var j :| 0 <= j < |ts| && ts[j] == a;
    assert Names(ts)[j] == a.name;
    forall t | t in ts
      ensures t.name in m[a.name := slot] && SlotHonest(t, m[a.name := slot][t.name])
    {
      if t.name == a.name {
        NameIdentifies(ts, t, a);
      }
    }
  }

  /** Among agents with distinct names, a name identifies the agent. */
  lemma NameIdentifies(ts: seq<Trader>, t: Trader, u: Trader)
    requires DistinctNames(ts) && t in ts && u in ts && t.name == u.name
    ensures t == u
  {
    var i :| 0 <= i < |ts| && ts[i] == t;
    var j :| 0 <= j < |ts| && ts[j] == u;
    assert i == j;
  }

  /** The engine's OFFER message to t and t's answer: its offer for the draw, nothing changed. */
  method AskOffer(t: Trader, book: Book, draw: nat) returns (r: Result<Msg>)
    requires t.Drawable()
    modifies t
    ensures r == old(t.OfferReply(draw)) && unchanged(t)
    ensures r.Success?
  {
    t.DrawableRepliesSucceed(NoPayload, draw, 0);
    r := t.ProcessMessage(Message("OFFER", "BARGAIN", t.name, BookView(book)), Draws(draw, 0, false, 0, 0, []));
  }

  /** The engine's TRANSACT message to t and t's answer: its acceptance decision, nothing changed. */
  method AskAcceptance(t: Trader, book: Book, price: nat, choice: nat) returns (r: Result<Msg>)
    requires t.Drawable()
    modifies t
    ensures r == old(t.TransactReply(BookView(book), price, choice)) && unchanged(t)
    ensures r.Success?
  {
    t.DrawableRepliesSucceed(BookView(book), price, choice);
    r := t.ProcessMessage(Message("TRANSACT", "BARGAIN", t.name, BookView(book)), Draws(price, choice, false, 0, 0, []));
  }

  /**
   * After a shuffle of agents with distinct names, the cleared book and the
   * rebuilt lookup cover exactly the agents' names: every slot is empty and
   * each name finds its agent's new position.
   */
  lemma ShuffledBook(ts: seq<Trader>, p: seq<nat>, m: map<string, Slot>, lookup: map<string, nat>)
    requires IsPermutation(p, |ts|) && DistinctNames(ts)
    requires forall id :: id in m ==> id in Names(ts)
    requires forall t :: t in ts ==> t.Drawable()
    ensures var ys := Apply(ts, p);
            var book := m + ClearedSlots(Names(ys));
            var index := lookup + LookupOf(Names(ys));
            && IndexedBy(ys, index)
            && (forall id :: id in book ==> id in Names(ys))
            && HonestBook(ys, book)
  {
    var ys := Apply(ts, p);
    ShuffleKeepsNamesDistinct(ts, p);
    FreshLookupIndexes(ys, lookup);
    NamesOfApply(ts, p);
    ApplyKeepsItems(Names(ts), p);
    ApplyKeepsItems(ts, p);
    FreshBookIsHonest(ys, m);
  }

  /** Overwriting a lookup with the positions of distinct names indexes them. */
  lemma FreshLookupIndexes(ys: seq<Trader>, lookup: map<string, nat>)
    requires DistinctNames(ys)
    ensures IndexedBy(ys, lookup + LookupOf(Names(ys)))
  {
    LookupOfFindsPositions(Names(ys));
  }

  /** A book whose every agent gets an empty slot is honest while the agents are drawable. */
  lemma FreshBookIsHonest(ys: seq<Trader>, m: map<string, Slot>)
    requires forall t :: t in ys ==> t.Drawable()
    ensures HonestBook(ys, m + ClearedSlots(Names(ys)))
  {
    forall t | t in ys
      ensures t.name in Names(ys)
    {
      var i :| 0 <= i < |ys| && ys[i] == t;
      assert Names(ys)[i] == t.name;
    }
    EmptyBookIsHonest(ys, m + ClearedSlots(Names(ys)));
  }

  /** lookup maps each of the distinct names of ts to its agent's position. */
  ghost predicate IndexedBy(ts: seq<Trader>, lookup: map<string, nat>)
  {
    && DistinctNames(ts)
    && (forall i :: 0 <= i < |ts| ==> ts[i].name in lookup && lookup[ts[i].name] == i)
  }

  /** The book m, with key order keys, is a dictionary over the names of ts. */
  ghost predicate BookedOver(keys: seq<string>, m: map<string, Slot>, ts: seq<Trader>)
  {
    && Ordered(keys, m)
    && (forall id :: id in m ==> id in Names(ts))
  }

  /** The agent agent_lookup finds under a name. */
  function Party(ts: seq<Trader>, lookup: map<string, nat>, id: string): Trader
    requires id in lookup && lookup[id] < |ts|
  {
    ts[lookup[id]]
  }

  /** What process_contract raises before it informs anyone, if anything. */
  function Fault(ts: seq<Trader>, lookup: map<string, nat>, c: Contract): Option<string>
    reads ts
  {
    if c.buyer !in lookup then Some("KeyError")
    else if lookup[c.buyer] >= |ts| then Some("IndexError")
    else if c.seller !in lookup then Some("KeyError")
    else if lookup[c.seller] >= |ts| then Some("IndexError")
    else
      var s := Party(ts, lookup, c.seller);
      var b := Party(ts, lookup, c.buyer);
      if s.curUnit >= |s.costs| then Some("IndexError")
      else if b.curUnit >= |b.values| then Some("IndexError")
      else None
  }

  /** The ledger entry of a contract: each party's unit and value or cost before they are told. */
  function LedgerEntry(ts: seq<Trader>, lookup: map<string, nat>, c: Contract): Settlement
    reads ts
    requires Fault(ts, lookup, c).None?
  {
    var b := Party(ts, lookup, c.buyer);
    var s := Party(ts, lookup, c.seller);
    Settlement(c.round, c.price, c.buyer, c.seller, b.curUnit, b.values[b.curUnit], s.curUnit, s.costs[s.curUnit])
  }

  /**
   * A contract process_contract settles without raising: both parties are
   * found, different, under their own names, the buyer a BUYER and the
   * seller not, and the price between the seller's cost and the buyer's value.
   */
  ghost predicate Settles(ts: seq<Trader>, lookup: map<string, nat>, c: Contract)
    reads ts
  {
    && Fault(ts, lookup, c).None?
    && Party(ts, lookup, c.buyer) != Party(ts, lookup, c.seller)
    && Party(ts, lookup, c.buyer).name == c.buyer && Party(ts, lookup, c.seller).name == c.seller
    && Party(ts, lookup, c.buyer).role == Buyer && Party(ts, lookup, c.seller).role != Buyer
    && Fair(LedgerEntry(ts, lookup, c))
  }

  /**
   * What a BUY or SELL of agent i, answering the book as shown, settles:
   * the named trader has a live slot, and the contract at that slot's amount
   * settles fairly between two different agents.
   */
  lemma AcceptanceIsFair(ts: seq<Trader>, keys: seq<string>, m: map<string, Slot>, lookup: map<string, nat>,
                         i: nat, reply: Msg, round: int)
    requires IndexedBy(ts, lookup) && BookedOver(keys, m, ts) && HonestBook(ts, m) && i < |ts|
    requires var a := ts[i];
             && reply.sender == a.name
             && reply.directive == (if a.role == Buyer then "BUY" else "SELL")
             && !a.Exhausted() && a.curUnit < |a.Schedule()|
             && reply.payload.Counterparty?
             && exists amount :: (reply.payload.id, amount) in Matching(BookOf(keys, m), AcceptedSide(a.role))
                                 && (if a.role == Buyer then amount <= a.ReservationHigh()
                                     else a.ReservationLow() <= amount)
    ensures var id := reply.payload.id;
            && id in m && m[id].Some?
            && Settles(ts, lookup, ContractOf(round, reply, id, m[id].value.amount))
  {
    var a := ts[i];
    var id := reply.payload.id;
    var amount :| (id, amount) in Matching(BookOf(keys, m), AcceptedSide(a.role))
                  && (if a.role == Buyer then amount <= a.ReservationHigh() else a.ReservationLow() <= amount);
    CollectedOfferIsResting(keys, m, AcceptedSide(a.role), id, amount);
    assert id in Names(ts);
    var j :| 0 <= j < |ts| && ts[j].name == id;
    var o := ts[j];
    assert o in ts;
    assert SlotHonest(o, m[o.name]);
    assert PostedSide(o.role) == AcceptedSide(a.role);
    var c := ContractOf(round, reply, id, amount);
    assert a.role == Buyer <==> o.role != Buyer;
    if a.role == Buyer {
      assert Party(ts, lookup, c.buyer) == a && Party(ts, lookup, c.seller) == o;
    } else {
      assert Party(ts, lookup, c.buyer) == o && Party(ts, lookup, c.seller) == a;
    }
  }

  /** The engine's CONTRACT message to the party t, addressed to id: t books the deal, and stays drawable. */
  method Inform(t: Trader, c: Contract, id: string) returns (r: Result<Msg>)
    modifies t
    ensures id == t.name ==> t.ContractedFrom(Deal(c), r)
    ensures id == t.name && old(t.Drawable()) ==> t.Drawable()
  {
    r := t.ProcessMessage(Message("CONTRACT", "BARGAIN", id, Deal(c)), NoDraws);
  }

  /** The message run returns on an unrecognised directive. */
  function BadReply(asked: string): Msg
  {
    Message("BAD", asked, "BARGAIN", Note("Unrecognized Directive"))
  }

  /** The draws no CONTRACT handler uses. */
  const NoDraws := Draws(0, 0, false, 0, 0, [])

  class Bargain {
    const rounds: int
    var agents: seq<Trader>
    var offerHistory: seq<Entry>
    var contracts: seq<Settlement>
    var orderBook: map<string, Slot>
    var bookKeys: seq<string>
    var agentOrder: seq<Trader>
    var agentLookup: map<string, nat>

    constructor (rounds: int)
      ensures this.rounds == rounds
      ensures agents == [] && offerHistory == [] && contracts == []
      ensures orderBook == map[] && bookKeys == [] && agentOrder == [] && agentLookup == map[]
    {
      this.rounds := rounds;
      agents := [];
      offerHistory := [];
      contracts := [];
      orderBook := map[];
      bookKeys := [];
      agentOrder := [];
      agentLookup := map[];
    }

    /** set_agents. */
    method SetAgents(a: seq<Trader>)
      modifies this
      ensures agents == a
      ensures offerHistory == old(offerHistory) && contracts == old(contracts)
      ensures orderBook == old(orderBook) && bookKeys == old(bookKeys)
      ensures agentOrder == old(agentOrder) && agentLookup == old(agentLookup)
    {
      agents := a;
    }

    /** get_contracts. */
    function GetContracts(): seq<Settlement>
      reads this`contracts
    {
      contracts
    }

    /** The order book as shown to the agents. */
    function View(): Book
      reads this`bookKeys, this`orderBook
      requires Ordered(bookKeys, orderBook)
    {
      BookOf(bookKeys, orderBook)
    }

    /** agent_lookup maps each distinct name to its agent's position. */
    ghost predicate Indexed()
      reads this`agentOrder, this`agentLookup
    {
      IndexedBy(agentOrder, agentLookup)
    }

    /** The order book is a dictionary over the agents' names. */
    ghost predicate Booked()
      reads this`agentOrder, this`bookKeys, this`orderBook
    {
      BookedOver(bookKeys, orderBook, agentOrder)
    }

    /** Every agent is drawable and owns a slot that is empty or holds an offer it could make. */
    ghost predicate Honest()
      reads this`agentOrder, this`orderBook, agentOrder
    {
      HonestBook(agentOrder, orderBook)
    }

    /** Every settlement lies between the seller's cost and the buyer's value. */
    ghost predicate LedgerFair()
      reads this`contracts
    {
      forall s :: s in contracts ==> Fair(s)
    }

    /** The state the phases keep: consistent lookups, honest slots, drawable agents, fair settlements. */
    ghost predicate Trading()
      reads this`agentOrder, this`agentLookup, this`bookKeys, this`orderBook, this`contracts, agentOrder
    {
      Indexed() && Booked() && Honest() && LedgerFair()
    }

    /**
     * make_bargaining_order: the agents are shuffled by p; then every agent's
     * slot is set to None and agent_lookup maps its name to its new position.
     */
    method MakeBargainingOrder(p: seq<nat>)
      requires IsPermutation(p, |agentOrder|)
      requires Ordered(bookKeys, orderBook)
      modifies this`agentOrder, this`orderBook, this`bookKeys, this`agentLookup
      ensures agentOrder == Apply(old(agentOrder), p)
      ensures orderBook == old(orderBook) + ClearedSlots(Names(agentOrder))
      ensures bookKeys == Enrol(old(bookKeys), Names(agentOrder))
      ensures Ordered(bookKeys, orderBook)
      ensures agentLookup == old(agentLookup) + LookupOf(Names(agentOrder))
      ensures agents == old(agents) && offerHistory == old(offerHistory) && contracts == old(contracts)
    {
      var order := Apply(agentOrder, p);
      var book, keys, lookup := ClearSlots(orderBook, bookKeys, agentLookup, Names(order));
      agentOrder, orderBook, bookKeys, agentLookup := order, book, keys, lookup;
    }

    /**
     * One OFFER-phase reply: NULL changes nothing; a BID or ASK overwrites the
     * sender's slot and is logged; anything else ends the run with BAD.
     */
    method OfferStep(round: int, asked: string, reply: Msg) returns (outcome: Outcome)
      requires Ordered(bookKeys, orderBook)
      requires reply.directive == "BID" || reply.directive == "ASK" ==> reply.payload.Amount?
      modifies this`orderBook, this`bookKeys, this`offerHistory
      ensures Ordered(bookKeys, orderBook)
      ensures agents == old(agents) && agentOrder == old(agentOrder) && agentLookup == old(agentLookup)
      ensures contracts == old(contracts)
      ensures reply.directive == "BID" || reply.directive == "ASK" ==>
                && outcome == Normal
                && orderBook == old(orderBook)[reply.sender := Some(Order(SideOf(reply.directive), reply.payload.amount))]
                && bookKeys == KeysAfterAssign(old(bookKeys), old(orderBook), reply.sender)
                && offerHistory == old(offerHistory) + [Entry(round, reply.sender, reply.directive, reply.payload.amount)]
      ensures reply.directive != "BID" && reply.directive != "ASK" ==>
                && outcome == (if reply.directive == "NULL" then Normal else Returned(BadReply(asked)))
                && orderBook == old(orderBook) && bookKeys == old(bookKeys) && offerHistory == old(offerHistory)
    {
      if reply.directive == "NULL" {
        return Normal;
      } else if reply.directive == "BID" || reply.directive == "ASK" {
        var amount := reply.payload.amount;
        AssignKeepsOrdered(bookKeys, orderBook, reply.sender, Some(Order(SideOf(reply.directive), amount)));
        bookKeys := KeysAfterAssign(bookKeys, orderBook, reply.sender);
        orderBook := orderBook[reply.sender := Some(Order(SideOf(reply.directive), amount))];
        offerHistory := offerHistory + [Entry(round, reply.sender, reply.directive, amount)];
        return Normal;
      } else {
        return Returned(BadReply(asked));
      }
    }

    /**
     * One TRANSACT-phase reply: NULL changes nothing; a BUY or SELL naming a
     * trader with no slot raises KeyError, one naming a cleared slot changes
     * nothing, and one naming a live slot is logged and yields the contract at
     * the resting amount, the BUY's sender as buyer or the SELL's as seller;
     * anything else ends the run with BAD.
     */
    method TransactStep(round: int, asked: string, reply: Msg) returns (outcome: Outcome, deal: Option<Contract>)
      modifies this`offerHistory
      ensures orderBook == old(orderBook) && bookKeys == old(bookKeys)
      ensures agents == old(agents) && agentOrder == old(agentOrder) && agentLookup == old(agentLookup)
      ensures contracts == old(contracts)
      ensures reply.directive == "NULL" ==> outcome == Normal && deal == None && offerHistory == old(offerHistory)
      ensures reply.directive != "NULL" && reply.directive != "BUY" && reply.directive != "SELL" ==>
                outcome == Returned(BadReply(asked)) && deal == None && offerHistory == old(offerHistory)
      ensures (reply.directive == "BUY" || reply.directive == "SELL") &&
              (Named(reply).None? || Named(reply).value !in orderBook) ==>
                outcome == Raised("KeyError") && deal == None && offerHistory == old(offerHistory)
      ensures (reply.directive == "BUY" || reply.directive == "SELL") &&
              Named(reply).Some? && Named(reply).value in orderBook && orderBook[Named(reply).value].None? ==>
                outcome == Normal && deal == None && offerHistory == old(offerHistory)
      ensures (reply.directive == "BUY" || reply.directive == "SELL") &&
              Named(reply).Some? && Named(reply).value in orderBook && orderBook[Named(reply).value].Some? ==>
                var other := Named(reply).value;
                var price := orderBook[other].value.amount;
                && outcome == Normal
                && deal == Some(ContractOf(round, reply, other, price))
                && offerHistory == old(offerHistory) + [Entry(round, reply.sender, reply.directive, price)]
    {
      deal := None;
      if reply.directive == "NULL" {
        return Normal, None;
      } else if reply.directive == "BUY" || reply.directive == "SELL" {
        if !reply.payload.Counterparty? || reply.payload.id !in orderBook {
          return Raised("KeyError"), None;
        }
        var other := reply.payload.id;
        if orderBook[other] == None {
          return Normal, None;
        }
        var price := orderBook[other].value.amount;
        offerHistory := offerHistory + [Entry(round, reply.sender, reply.directive, price)];
        if reply.directive == "BUY" {
          deal := Some(Contract(round, price, reply.sender, other));
        } else {
          deal := Some(Contract(round, price, other, reply.sender));
        }
        outcome := Normal;
      } else {
        return Returned(BadReply(asked)), None;
      }
    }

    /** The first step of process_contract: both parties' slots are set to None. */
    method ClearParties(c: Contract)
      requires Ordered(bookKeys, orderBook)
      modifies this`orderBook, this`bookKeys
      ensures Ordered(bookKeys, orderBook)
      ensures orderBook == old(orderBook)[c.buyer := None][c.seller := None]
      ensures bookKeys == KeysAfterAssign(KeysAfterAssign(old(bookKeys), old(orderBook), c.buyer),
                                          old(orderBook)[c.buyer := None], c.seller)
    {
      AssignKeepsOrdered(bookKeys, orderBook, c.buyer, None);
      bookKeys := KeysAfterAssign(bookKeys, orderBook, c.buyer);
      orderBook := orderBook[c.buyer := None];
      AssignKeepsOrdered(bookKeys, orderBook, c.seller, None);
      bookKeys := KeysAfterAssign(bookKeys, orderBook, c.seller);
      orderBook := orderBook[c.seller := None];
    }

    /**
     * process_contract: both slots are cleared; then, unless a party cannot be
     * found or has no entry for its current unit, both parties receive CONTRACT
     * and the extended contract, read before they were told, joins the ledger.
     */
    method ProcessContract(c: Contract) returns (outcome: Outcome, buyerReply: Result<Msg>, sellerReply: Result<Msg>)
      requires Ordered(bookKeys, orderBook)
      modifies this`orderBook, this`bookKeys, this`contracts, agentOrder
      ensures Ordered(bookKeys, orderBook)
      ensures orderBook == old(orderBook)[c.buyer := None][c.seller := None]
      ensures bookKeys == KeysAfterAssign(KeysAfterAssign(old(bookKeys), old(orderBook), c.buyer),
                                          old(orderBook)[c.buyer := None], c.seller)
      ensures agents == old(agents) && agentOrder == old(agentOrder) && agentLookup == old(agentLookup)
      ensures offerHistory == old(offerHistory)
      ensures outcome == (if old(Fault(agentOrder, agentLookup, c)).Some? then Raised(old(Fault(agentOrder, agentLookup, c)).value) else Normal)
      ensures outcome == Normal ==> contracts == old(contracts) + [old(LedgerEntry(agentOrder, agentLookup, c))]
      ensures outcome != Normal ==> contracts == old(contracts)
      ensures outcome != Normal ==> forall t :: t in agentOrder ==> unchanged(t)
      ensures outcome == Normal ==>
                var b := Party(agentOrder, agentLookup, c.buyer);
                var s := Party(agentOrder, agentLookup, c.seller);
                && (forall t :: t in agentOrder && t != b && t != s ==> unchanged(t))
                && (b != s && b.name == c.buyer && s.name == c.seller ==>
                      && b.ContractedFrom(Deal(c), buyerReply) && s.ContractedFrom(Deal(c), sellerReply)
                      && (old(b.Drawable()) ==> b.Drawable()) && (old(s.Drawable()) ==> s.Drawable()))
    {
      buyerReply, sellerReply := Failure("not sent"), Failure("not sent");
      ClearParties(c);

      if c.buyer !in agentLookup {
        return Raised("KeyError"), buyerReply, sellerReply;
      }
      var buyerIndex := agentLookup[c.buyer];
      if buyerIndex >= |agentOrder| {
        return Raised("IndexError"), buyerReply, sellerReply;
      }
      var buyerAgent := agentOrder[buyerIndex];
      if c.seller !in agentLookup {
        return Raised("KeyError"), buyerReply, sellerReply;
      }
      var sellerIndex := agentLookup[c.seller];
      if sellerIndex >= |agentOrder| {
        return Raised("IndexError"), buyerReply, sellerReply;
      }
      var sellerAgent := agentOrder[sellerIndex];

      var sCurUnit := sellerAgent.curUnit;
      if sCurUnit >= |sellerAgent.costs| {
        return Raised("IndexError"), buyerReply, sellerReply;
      }
      var sCurCost := sellerAgent.costs[sCurUnit];
      var bCurUnit := buyerAgent.curUnit;
      if bCurUnit >= |buyerAgent.values| {
        return Raised("IndexError"), buyerReply, sellerReply;
      }
      var bCurValue := buyerAgent.values[bCurUnit];

      buyerReply := Inform(buyerAgent, c, c.buyer);
      sellerReply := Inform(sellerAgent, c, c.seller);

      contracts := contracts + [Settlement(c.round, c.price, c.buyer, c.seller, bCurUnit, bCurValue, sCurUnit, sCurCost)];
      outcome := Normal;
    }

    /**
     * Agent i's answer to OFFER: NULL, or a BID or ASK whose posting keeps
     * the book honest and over the agents' names.
     */
    method AskToOffer(i: nat, draw: nat) returns (reply: Msg)
      requires Trading() && i < |agentOrder|
      modifies agentOrder[i]
      ensures unchanged(agentOrder[i])
      ensures reply.sender == agentOrder[i].name
      ensures reply.directive == "NULL" || reply.directive == "BID" || reply.directive == "ASK"
      ensures reply.directive != "NULL" ==>
                && reply.payload.Amount?
                && var slot := Some(Order(SideOf(reply.directive), reply.payload.amount));
                   && BookedOver(KeysAfterAssign(bookKeys, orderBook, reply.sender), orderBook[reply.sender := slot], agentOrder)
                   && HonestBook(agentOrder, orderBook[reply.sender := slot])
    {
      var agent := agentOrder[i];
      var r := AskOffer(agent, View(), draw);
      reply := r.value;
      if reply.directive != "NULL" {
        PostKeepsHonest(agentOrder, bookKeys, orderBook, agent, Some(Order(SideOf(reply.directive), reply.payload.amount)));
      }
    }

    /** One OFFER turn: agent i is shown the book and its offer, if any, is posted. */
    method OfferTurn(round: int, i: nat, draw: nat) returns (outcome: Outcome)
      requires Trading() && i < |agentOrder|
      modifies this`orderBook, this`bookKeys, this`offerHistory, agentOrder[i]
      ensures outcome == Normal
      ensures Trading()
      ensures agents == old(agents) && agentOrder == old(agentOrder) && agentLookup == old(agentLookup)
      ensures contracts == old(contracts)
      ensures old(offerHistory) <= offerHistory
      ensures unchanged(agentOrder[i])
    {
      var reply := AskToOffer(i, draw);
      outcome := OfferStep(round, agentOrder[i].name, reply);
    }

    /**
     * The OFFER phase: every agent in turn is shown the book and asked for an
     * offer. Agents of this model only answer BID, ASK or NULL, so the phase
     * always runs to the end.
     */
    method OfferPhase(round: int, draws: seq<nat>)
      requires Trading()
      requires |draws| == |agentOrder|
      modifies this`orderBook, this`bookKeys, this`offerHistory, agentOrder
      ensures Trading()
      ensures agents == old(agents) && agentOrder == old(agentOrder) && agentLookup == old(agentLookup)
      ensures contracts == old(contracts)
      ensures old(offerHistory) <= offerHistory
      ensures forall t :: t in agentOrder ==> unchanged(t)
    {
      var i := 0;
      while i < |agentOrder|
        invariant 0 <= i <= |agentOrder|
        invariant Trading()
        invariant agents == old(agents) && agentOrder == old(agentOrder) && agentLookup == old(agentLookup)
        invariant contracts == old(contracts)
        invariant old(offerHistory) <= offerHistory
        invariant forall t :: t in agentOrder ==> unchanged(t)
      {
        var _ := OfferTurn(round, i, draws[i]);
        i := i + 1;
      }
    }

    /**
     * process_contract for a fair deal between two different agents, both
     * found under their own names: nobody raises, the ledger gains the deal,
     * and the engine's invariant survives the two parties' updates.
     */
    method Settle(c: Contract) returns (outcome: Outcome)
      requires Trading() && Settles(agentOrder, agentLookup, c)
      modifies this`orderBook, this`bookKeys, this`contracts, agentOrder
      ensures outcome == Normal
      ensures Trading()
      ensures agents == old(agents) && agentOrder == old(agentOrder) && agentLookup == old(agentLookup)
      ensures contracts == old(contracts) + [old(LedgerEntry(agentOrder, agentLookup, c))]
      ensures offerHistory == old(offerHistory)
    {
      ghost var b, s := Party(agentOrder, agentLookup, c.buyer), Party(agentOrder, agentLookup, c.seller);
      outcome := Conclude(c, b, s);
      forall t | t in agentOrder
        ensures t.Drawable() && t.name in orderBook && SlotHonest(t, orderBook[t.name])
      {
        if t != b && t != s {
          assert old(t.Drawable() && SlotHonest(t, orderBook[t.name])) && unchanged(t);
        }
      }
    }

    /** Settle's call of process_contract, with what the rest of Settle needs of it. */
    method Conclude(c: Contract, ghost b: Trader, ghost s: Trader) returns (outcome: Outcome)
      requires Ordered(bookKeys, orderBook) && Settles(agentOrder, agentLookup, c)
      requires b == Party(agentOrder, agentLookup, c.buyer) && s == Party(agentOrder, agentLookup, c.seller)
      requires b.Drawable() && s.Drawable()
      modifies this`orderBook, this`bookKeys, this`contracts, agentOrder
      ensures outcome == Normal && b.Drawable() && s.Drawable()
      ensures Ordered(bookKeys, orderBook)
      ensures orderBook == old(orderBook)[b.name := None][s.name := None]
      ensures agents == old(agents) && agentOrder == old(agentOrder) && agentLookup == old(agentLookup)
      ensures contracts == old(contracts) + [old(LedgerEntry(agentOrder, agentLookup, c))]
      ensures offerHistory == old(offerHistory)
      ensures forall t :: t in agentOrder && t != b && t != s ==> unchanged(t)
    {
      var buyerReply, sellerReply;
      outcome, buyerReply, sellerReply := ProcessContract(c);
    }

    /**
     * Agent i's answer to TRANSACT: NULL, or a BUY or SELL naming a trader
     * with a live order that settles fairly at that order's amount.
     */
    method AskToAccept(round: int, i: nat, price: nat, choice: nat) returns (reply: Msg)
      requires Trading() && i < |agentOrder|
      modifies agentOrder[i]
      ensures unchanged(agentOrder[i]) && Trading()
      ensures reply.sender == agentOrder[i].name
      ensures reply.directive == "NULL" || reply.directive == "BUY" || reply.directive == "SELL"
      ensures reply.directive != "NULL" ==>
                && reply.payload.Counterparty?
                && var id := reply.payload.id;
                   && id in orderBook && orderBook[id].Some?
                   && Settles(agentOrder, agentLookup, ContractOf(round, reply, id, orderBook[id].value.amount))
    {
      var agent := agentOrder[i];
      var r := AskAcceptance(agent, View(), price, choice);
      reply := r.value;
      if reply.directive != "NULL" {
        AcceptanceIsFair(agentOrder, bookKeys, orderBook, agentLookup, i, reply, round);
      }
    }

    /**
     * One TRANSACT turn: agent i is shown the book; an acceptance of a live
     * order is logged and settled at once with both parties. An agent of this
     * model never sends a directive the turn rejects nor names an unknown
     * trader, so the turn always ends normally, and a settlement is fair.
     */
    method TransactTurn(round: int, i: nat, price: nat, choice: nat) returns (outcome: Outcome)
      requires Trading() && i < |agentOrder|
      modifies this`orderBook, this`bookKeys, this`offerHistory, this`contracts, agentOrder
      ensures outcome == Normal
      ensures Trading()
      ensures agents == old(agents) && agentOrder == old(agentOrder) && agentLookup == old(agentLookup)
      ensures old(contracts) <= contracts && |contracts| <= |old(contracts)| + 1
      ensures old(offerHistory) <= offerHistory
    {
      var reply := AskToAccept(round, i, price, choice);
      var deal;
      outcome, deal := TransactStep(round, agentOrder[i].name, reply);
      if deal.Some? {
        outcome := Settle(deal.value);
      }
    }

    /** The TRANSACT phase: a TRANSACT turn for every agent in order. */
    method TransactPhase(round: int, draws: seq<(nat, nat)>)
      requires Trading()
      requires |draws| == |agentOrder|
      modifies this`orderBook, this`bookKeys, this`offerHistory, this`contracts, agentOrder
      ensures Trading()
      ensures agents == old(agents) && agentOrder == old(agentOrder) && agentLookup == old(agentLookup)
      ensures old(contracts) <= contracts && |contracts| <= |old(contracts)| + |agentOrder|
      ensures old(offerHistory) <= offerHistory
    {
      var i := 0;
      while i < |agentOrder|
        invariant 0 <= i <= |agentOrder|
        invariant Trading()
        invariant agents == old(agents) && agentOrder == old(agentOrder) && agentLookup == old(agentLookup)
        invariant old(contracts) <= contracts && |contracts| <= |old(contracts)| + i
        invariant old(offerHistory) <= offerHistory
      {
        var _ := TransactTurn(round, i, draws[i].0, draws[i].1);
        i := i + 1;
      }
    }

    /** What holds between rounds: distinct names, a book over them, drawable agents, fair settlements. */
    ghost predicate Between()
      reads this`agentOrder, this`bookKeys, this`orderBook, this`contracts, agentOrder
    {
      && DistinctNames(agentOrder)
      && Booked()
      && (forall t :: t in agentOrder ==> t.Drawable())
      && LedgerFair()
    }

    /**
     * The start of a round: the shuffle of make_bargaining_order, which also
     * reorders agents (agent_order is the same list), leaves the agents
     * ready to trade, each with an empty slot.
     */
    method StartRound(p: seq<nat>)
      requires Between() && agents == agentOrder
      requires IsPermutation(p, |agentOrder|)
      modifies this`agents, this`agentOrder, this`orderBook, this`bookKeys, this`agentLookup
      ensures Trading() && agents == agentOrder
      ensures agentOrder == Apply(old(agentOrder), p)
      ensures offerHistory == old(offerHistory) && contracts == old(contracts)
    {
      ghost var ts, m, lookup := agentOrder, orderBook, agentLookup;
      MakeBargainingOrder(p);
      agents := agentOrder;
      ShuffledBook(ts, p, m, lookup);
    }

    /** One iteration of run's loop: shuffle, then an offer phase and a transaction phase. */
    method PlayRound(round: int, p: seq<nat>, offerDraws: seq<nat>, transactDraws: seq<(nat, nat)>)
      requires Between() && agents == agentOrder
      requires IsPermutation(p, |agentOrder|)
      requires |offerDraws| == |agentOrder| && |transactDraws| == |agentOrder|
      modifies this`agents, this`agentOrder, this`orderBook, this`bookKeys, this`agentLookup,
               this`offerHistory, this`contracts, agentOrder
      ensures Between() && agents == agentOrder
      ensures agentOrder == Apply(old(agentOrder), p)
      ensures old(offerHistory) <= offerHistory
      ensures old(contracts) <= contracts && |contracts| <= |old(contracts)| + |agentOrder|
    {
      ghost var before := agentOrder;
      ApplyKeepsItems(agentOrder, p);
      StartRound(p);
      assert forall i :: 0 <= i < |agentOrder| ==> agentOrder[i] in before;
      OfferPhase(round, offerDraws);
      TransactPhase(round, transactDraws);
    }

    /**
     * run: each round shuffles the agents with the round's permutation,
     * clears every slot, then runs the OFFER and TRANSACT phases. The order
     * book and the ledger start empty and the offer history is only ever
     * extended. With agents of this model no round ends early, every
     * settlement lies between the seller's cost and the buyer's value, and
     * each round settles at most one contract per agent turn.
     */
    method Run(perms: seq<seq<nat>>, offerDraws: seq<seq<nat>>, transactDraws: seq<seq<(nat, nat)>>)
      requires DistinctNames(agents)
      requires forall t :: t in agents ==> t.Drawable()
      requires rounds <= |perms| && rounds <= |offerDraws| && rounds <= |transactDraws|
      requires forall r :: 0 <= r < |perms| ==> IsPermutation(perms[r], |agents|)
      requires forall r :: 0 <= r < |offerDraws| ==> |offerDraws[r]| == |agents|
      requires forall r :: 0 <= r < |transactDraws| ==> |transactDraws[r]| == |agents|
      modifies this, agents
      ensures old(offerHistory) <= offerHistory
      ensures forall s :: s in contracts ==> Fair(s)
      ensures |agents| == |old(agents)| && forall t :: t in agents <==> t in old(agents)
      ensures Booked() && agentOrder == agents
      ensures rounds <= 0 ==> contracts == [] && orderBook == map[] && agents == old(agents)
      ensures |contracts| <= (if rounds < 0 then 0 else rounds) * |agents|
    {
      agentOrder := agents;
      orderBook := map[];
      bookKeys := [];
      contracts := [];
      var round := 0;
      while round < rounds
        invariant Between() && agents == agentOrder
        invariant |agentOrder| == |old(agents)| && forall t :: t in agentOrder <==> t in old(agents)
        invariant forall i :: 0 <= i < |agentOrder| ==> agentOrder[i] in old(agents)
        invariant old(offerHistory) <= offerHistory
        invariant 0 <= round <= (if rounds < 0 then 0 else rounds) && |contracts| <= round * |agentOrder|
        invariant round == 0 ==> contracts == [] && orderBook == map[] && agents == old(agents)
      {
        ApplyKeepsItems(agentOrder, perms[round]);
        PlayRound(round, perms[round], offerDraws[round], transactDraws[round]);
        assert (round + 1) * |agentOrder| == round * |agentOrder| + |agentOrder|;
        round := round + 1;
      }
    }
  }
}
