/**
 * The vocabulary the institutions and the traders share: roles, orders, the
 * order book that the bargaining engine shows to every trader, contracts and
 * the payloads that messages carry.
 */
module Protocol {
  import opened Wrappers
  import opened Messages

  /** The trader types "BUYER", "SELLER" and "TRADER" (a trader on both sides). */
  datatype Role = Buyer | Seller | TwoSided

  /** The two kinds of standing order, "BID" and "ASK". */
  datatype Side = Bid | Ask

  /** An order-book entry (offer type, amount). */
  datatype Order = Order(side: Side, amount: int)

  /** One slot of the order book: None once cleared or before the trader's first offer. */
  type Slot = Option<Order>

  /** The order-book dictionary as its items, in the dictionary's iteration (insertion) order. */
  type Book = seq<(string, Slot)>

  /** The tuple (round, price, buyer id, seller id) of a contract. */
  datatype Contract = Contract(round: int, price: int, buyer: string, seller: string)

  /** Everything a message can carry in this model. */
  datatype Payload =
    | NoPayload                                  // None
    | BookView(entries: Book)                    // the order book shown with OFFER and TRANSACT
    | Deal(contract: Contract)                   // the payload of CONTRACT
    | Amount(amount: int)                        // a bid, an ask, or a reported quantity
    | Counterparty(id: string)                   // the payload of BUY and SELL
    | Step(dx: int, dy: int)                     // a movement idea
    | Note(text: string)                         // a status or error text such as "01 Wrong Receiver"
    | QuantityQuery(propertyRight: string, itemType: string)
    | MoneyQuery(currency: string)
    | CurrencyName(currency: string)

  type Msg = Message<Payload>

  /** The reply every trader sends when it has nothing to offer or accept. */
  function NullReply(name: string): (m: Msg)
    ensures m.directive == "NULL" && m.sender == name && m.receiver == "BARGAIN"
  {
    Message("NULL", name, "BARGAIN", NoPayload)
  }

  /** The side a trader of the given role posts: a buyer bids, every other trader asks. */
  function PostedSide(role: Role): Side
  {
    if role == Buyer then Bid else Ask
  }

  /** The side a trader of the given role accepts from: a buyer takes asks, every other trader bids. */
  function AcceptedSide(role: Role): (s: Side)
    ensures s != PostedSide(role)
  {
    if role == Buyer then Ask else Bid
  }
}
