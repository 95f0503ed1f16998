# dm_markets in Dafny

A model of the decentralised double-auction markets of dm_markets. Traders
with a zero-intelligence strategy (ZID and its variants ZIDA, ZIDP, ZIDPA and
ZIDPR) wander a grid, post bids and asks into a bargaining engine's order
book and accept standing offers of the other side. A spot market environment
computes the competitive equilibrium that such trading is measured against.

The model covers:

- the bargaining engine of `modules_v2/dm_bargain.py`. It shuffles the agents
  each round, collects the OFFER phase's bids and asks into an order book of
  one slot per agent, and settles BUY and SELL replies at the counterparty's
  resting price. It also keeps the contract ledger and the offer history;
- the traders of `modules_v3/environment/dm_agents.py` and
  `modules_vCOVID/environment/dm_agents.py`. This covers message dispatch,
  start, offer, transact, contract, the movement rules, the best-price choice
  `find_opt`, the quantity and money reports, and the COVID version's reset
  flag with its START, WEEK, PERIOD, WINDOW and MIN_AGENTS rules;
- the older single-step traders of `modules/dm_zid.py` and `modules/dm_zida.py`,
  whose `action_requested` bids or accepts in one reply, with ZIDA's movement
  bias;
- the immutable message envelope of `modules_v2/dm_message_model.py`;
- the two spot market environments, `modules/dm_env.py` and the ONE_TYPE
  parts of `modules_v3/environment/dm_env.py`. These compute demand and
  supply curves, the equilibrium quantity, the maximal surplus and the price
  range;
- the grid travel step of `modules/dm_travel.py`. It drives the trader of
  `modules_vCOVID/environment/dm_agents.py`: the older traders' base class,
  which would handle MOVE_REQUESTED, `set_location` and `set_num_at_loc`,
  is not available, and that trader is the given one with all three;
- the agent builders `modules_vCOVID/environment/env_make_agents.py`,
  `modules/dm.make_market.py` and `modules/dm_utils.py`. These cover the
  payoff functions, the reservation schedule generator, role and name
  assignment, the test populations and the market they define.

Classes whose fields the source updates in place are Dafny classes, and
their methods state the whole new state. The bargaining engine, the
traders, both market environments, the travel step and the agent makers
are of this kind. Values are datatypes and functions. Randomness is an input:

- a `randint(a, b)` is a natural number `d` mapped to `a + d % (b - a + 1)`;
- a `choice` from a list is an index taken modulo the list's length;
- a shuffle is a permutation given as a sequence of indices.

Lemmas show that each such draw reaches exactly the values the source can
produce. Python dictionaries that are iterated keep their insertion order as
a key sequence next to the map. Integers are unbounded, as in Python.

Errors the source raises are modelled as a `Result` failure carrying the
exception's name, e.g. `Failure("IndexError")`. Python's `None` and a missing
attribute are modelled as `Option`.

## Model

| member | source | states |
|---|---|---|
| AgentsCovid.CountIn | modules_vCOVID/environment/dm_agents.py:224-227 | the number of the span's periods found among the periods traded in never exceeds the span's length |
| AgentsCovid.Hits | modules_vCOVID/environment/dm_agents.py:225-226 | a period is counted exactly when it lies in the span and was traded in |
| AgentsCovid.CountInIsDistinctHits | modules_vCOVID/environment/dm_agents.py:224-227 | over a span without repeated periods, the window count is the number of distinct periods traded in |
| AgentsCovid.MoveFlag | modules_vCOVID/environment/dm_agents.py:283-310 | under PERIOD the flag is down after every move request; a move request never raises the flag; without an error draw ZID and ZIDP keep it |
| AgentsCovid.Trader.constructor | modules_vCOVID/environment/dm_agents.py:12-61 | a new trader has no schedule, nothing traded, no units, the flag down, no agents counted at its location, period -1, no periods traded in and no trades this week |
| AgentsCovid.Trader.SetValues | modules_vCOVID/environment/dm_agents.py:104-110 | the values become the list, max_units its length and cur_unit 0; nothing else changes |
| AgentsCovid.Trader.SetCosts | modules_vCOVID/environment/dm_agents.py:112-118 | the costs become the list, max_units its length and cur_unit 0; nothing else changes |
| AgentsCovid.Trader.SetLocation | modules_vCOVID/environment/dm_agents.py:120-124 | only the location changes |
| AgentsCovid.Trader.SetNumAtLoc | modules_vCOVID/environment/dm_agents.py:132-134 | only the count of agents at the location changes |
| AgentsCovid.Trader.GetPayoff | modules_vCOVID/environment/dm_agents.py:193-199 | a buyer or seller gets its payoff, a two-sided trader none; with nothing traded the payoff is the money held |
| AgentsCovid.Trader.Start | modules_vCOVID/environment/dm_agents.py:244-271 | both counters become 0 and max_units the schedule's length; START clears the flag; WEEK sets it exactly when the week's trades reached the minimum and then zeroes the week's count; other fields unchanged |
| AgentsCovid.Trader.ReceiveContract | modules_vCOVID/environment/dm_agents.py:407-447 | the flag is set in every case; a contract naming the trader on its own side advances both counters by one and counts the trade for WEEK or records the period for WINDOW; any other contract is answered with "08" (buyer) or "09" (seller) and changes no counter |
| AgentsCovid.Trader.OfferReply | modules_vCOVID/environment/dm_agents.py:312-336 | NULL exactly when cur_unit >= max_units; otherwise a BID (buyer) or ASK (seller) whose amount lies between the current unit's lower and upper reservation |
| AgentsCovid.Trader.OfferReachesEveryAmount | modules_vCOVID/environment/dm_agents.py:326-336 | every amount of the current unit's inclusive randint range is offered for some draw |
| AgentsCovid.Trader.TransactReply | modules_vCOVID/environment/dm_agents.py:338-405 | NULL once every unit is traded; a BUY or SELL names a live order of the other side whose amount is within the trader's drawn willingness (at most the value for a buyer, at least the cost for a seller) |
| AgentsCovid.Trader.DrawableRepliesSucceed | modules_vCOVID/environment/dm_agents.py:312-405 | a trader whose reachable units all have a schedule entry and a non-empty range never raises on OFFER, nor on TRANSACT given an order book |
| AgentsCovid.Trader.Transact | modules_vCOVID/environment/dm_agents.py:338-405 | the offer-collection loop and the choice of ZID (random) or ZIDP (find_opt) compute exactly the transact reply |
| AgentsCovid.Trader.MoveReply | modules_vCOVID/environment/dm_agents.py:273-310 | a MOVE to Travel with each component in {-1, 0, 1}; without an error draw, a trader past its last unit stays, ZIDPR at a crowded point (more than 2) changes both coordinates, and a flagged affinity trader at a well-attended point stays |
| AgentsCovid.Trader.UpdateFlagWindow | modules_vCOVID/environment/dm_agents.py:222-231 | the flag is set exactly when at least reset_flag_min_trades of the span's periods were traded in; nothing else changes |
| AgentsCovid.Trader.MoveRequested | modules_vCOVID/environment/dm_agents.py:283-310 | an affinity trader (ZIDA, ZIDPA, ZIDPR) with its flag set, no error draw and a MIN_AGENTS rule without a minimum raises TypeError and changes nothing (lines 482, 625, 680 compare num_at_loc with None); with the minimum given it never raises; otherwise the reply is the MOVE reply, the flag ends as the move rule gives, under WINDOW the period advances by one, and nothing else changes. The ZIDA, ZIDPA and ZIDPR overrides (lines 456-500, 596-643, 653-705) are the same method's strategy cases |
| AgentsCovid.Trader.ProcessMessage | modules_vCOVID/environment/dm_agents.py:146-175 | a message for another receiver is answered "01 Wrong Receiver" and a directive outside START, MOVE_REQUESTED, OFFER, TRANSACT and CONTRACT with "02 Unexpected Directive"; neither changes the trader; every other message gets its handler's reply and state change, including the TypeError of move_requested |
| AgentsCovid.NewTrader | modules_vCOVID/environment/dm_agents.py:52-54 | WINDOW without a window size raises ValueError and builds nothing; otherwise a fresh trader as the constructor leaves it |
| AgentsCovid.NamesOfApply | modules_v2/dm_bargain.py:32-40 | the names of shuffled agents are the shuffled names |
| AgentsCovid.ShuffleKeepsNamesDistinct | modules_v2/dm_bargain.py:32-40 | shuffling agents with distinct names keeps their names distinct |
| AgentsLegacy.Involves | modules/dm_zida.py:38-40 | a record is judged by its last and second-to-last fields and names the trader exactly when one of them is its name; a record too short to index raises IndexError |
| AgentsLegacy.CountInvolving | modules/dm_zida.py:38-40 | the number of a day's records that name the trader is at most the number of records, and is an IndexError exactly when some record lacks those fields |
| AgentsLegacy.UninvolvedCountsZero | modules/dm_zida.py:38-40 | a trader named in none of the day's records gets bias 0 |
| AgentsLegacy.AllInvolvedCountsEvery | modules/dm_zida.py:38-40 | a trader named in every record of the day gets one bias per record |
| AgentsLegacy.Bias | modules/dm_zida.py:29-40 | the bias is 0 when there are no contracts or the latest week has at most one day |
| AgentsLegacy.BiasedDirections | modules/dm_zida.py:41 | the direction list has 3 + 10 * bias entries, all in {-1, 0, 1} |
| AgentsLegacy.BiasedDirectionsCounts | modules/dm_zida.py:41 | -1 and +1 appear once each in the direction list, and 0 appears 1 + 10 * bias times |
| AgentsLegacy.Trader.constructor | modules_vCOVID/environment/dm_agents.py:12-61 | a ZID or ZIDA trader starts with no schedule, nothing traded and no units |
| AgentsLegacy.Trader.SetValues | modules_vCOVID/environment/dm_agents.py:104-110 | the values become the list, max_units its length and cur_unit 0; costs, units traded and location unchanged |
| AgentsLegacy.Trader.SetCosts | modules_vCOVID/environment/dm_agents.py:112-118 | the costs become the list, max_units its length and cur_unit 0; values, units traded and location unchanged |
| AgentsLegacy.Trader.Start | modules/dm_zid.py:7-20 | both counters become 0, max_units the length of the values (buyer) or costs (seller); the reply is "Initial" with "Initialized"; schedules and location unchanged. ZIDA's start (modules/dm_zida.py:8-21) is the same |
| AgentsLegacy.Trader.ActionReply | modules/dm_zid.py:38-104 | NULL exactly when cur_unit >= max_units; otherwise a BID or ASK whose amount lies in the current unit's reservation range, or a BUY or SELL naming a standing order of the other side that the drawn amount can afford. ZIDA's action_requested (modules/dm_zida.py:54-121) follows the same rule |
| AgentsLegacy.Trader.AcceptsIffChosenOfferAffordable | modules/dm_zid.py:52-104 | a trader with a unit to trade accepts exactly when an order of the other side stands and the randomly chosen one is affordable at the drawn amount; otherwise it posts the drawn amount |
| AgentsLegacy.Trader.ActionRequested | modules/dm_zid.py:38-104 | the offer-collection loop, the random choice and the affordability test compute exactly the action reply |
| AgentsLegacy.Trader.MoveReply | modules/dm_zid.py:22-36 | a MOVE to Travel with each component in {-1, 0, 1}, and (0, 0) when cur_unit > max_units |
| AgentsLegacy.Trader.CountBias | modules/dm_zida.py:29-40 | the bias loop over the second-to-last day of the latest week computes exactly the bias function |
| AgentsLegacy.Trader.MoveRequested | modules/dm_zida.py:23-52 | ZID moves with bias 0; ZIDA draws from the list biased by its contract count, and an untestable record raises |
| AgentsLegacy.Trader.ReceiveContract | modules/dm_zid.py:106-134 | a contract naming the trader on its own side advances both counters by one and answers "10 Units Updated"; any other is answered "08" (buyer) or "09" (seller) and changes nothing. ZIDA's contract (modules/dm_zida.py:123-151) is the same |
| AgentsV3.Recorded | modules_v3/environment/dm_agents.py:260-268 | after a quantity report the asked right and item are present with the quantity reported; every existing entry keeps its amount; the only possible new entry is the asked one |
| AgentsV3.RecordedIsIdempotent | modules_v3/environment/dm_agents.py:256-271 | a second report of the same right and item returns the same quantity and changes nothing more |
| AgentsV3.WithCurrency | modules_v3/environment/dm_agents.py:296-300 | after a currency lookup the currency is present with the amount reported, the keys grow by at most that currency, and every existing amount is kept |
| AgentsV3.WithCurrencyIsIdempotent | modules_v3/environment/dm_agents.py:293-303 | looking the same currency up again reports the same amount and inserts nothing |
| AgentsV3.Trader.constructor | modules_v3/environment/dm_agents.py:43-85 | a new trader has no schedule, nothing traded, no units, the flag down, no agents counted at its location and empty quantity and currency books |
| AgentsV3.Trader.SetValues | modules_v3/environment/dm_agents.py:129-135 | the values become the list, max_units its length and cur_unit 0; nothing else changes |
| AgentsV3.Trader.SetCosts | modules_v3/environment/dm_agents.py:137-143 | the costs become the list, max_units its length and cur_unit 0; nothing else changes |
| AgentsV3.Trader.Start | modules_v3/environment/dm_agents.py:325-338 | both counters become 0 and max_units the length of the values (buyer) or costs (otherwise); the reply is "Initial" with "Initialized"; nothing else changes |
| AgentsV3.Trader.OfferReply | modules_v3/environment/dm_agents.py:357-384 | NULL exactly when cur_unit >= max_units; a TRADER otherwise gives no reply; a buyer BIDs and a seller ASKs an amount in the current unit's range [lower_bound, value] or [cost, upper_bound] |
| AgentsV3.Trader.OfferReachesEveryAmount | modules_v3/environment/dm_agents.py:370-381 | every amount of the current unit's inclusive randint range is offered for some draw |
| AgentsV3.Trader.TransactReply | modules_v3/environment/dm_agents.py:386-456 | NULL once every unit is traded; no reply from a TRADER under ZID; a BUY or SELL names a live order of the other side whose amount the drawn willingness covers (WTP >= ask, WTA <= bid). ZIDP's transact (lines 533-601) is the strategy's case |
| AgentsV3.Trader.DrawableRepliesSucceed | modules_v3/environment/dm_agents.py:357-456 | a buyer or seller whose reachable units all have a schedule entry and a non-empty range never raises on OFFER, nor on TRANSACT given an order book |
| AgentsV3.Trader.Transact | modules_v3/environment/dm_agents.py:386-456 | the offer-collection loop, find_opt or the random choice, and the acceptance test compute exactly the transact reply |
| AgentsV3.Trader.ReceiveContract | modules_v3/environment/dm_agents.py:458-487 | the flag is set in every case; a contract naming the trader on its own side advances both counters by one and answers "10 Units Updated"; any other is answered "08" (buyer) or "09" (seller) and changes no counter |
| AgentsV3.Trader.MoveReply | modules_v3/environment/dm_agents.py:340-355 | a MOVE to Travel with each component in {-1, 0, 1}; (0, 0) when cur_unit > max_units; ZIDA and ZIDPA stay while the flag is set (lines 496-515, 610-628); ZIDPR at a point with more than two agents changes both coordinates, and otherwise stays while flagged (lines 637-660) |
| AgentsV3.Trader.MoveRequested | modules_v3/environment/dm_agents.py:340-355 | the reply is the MOVE reply; ZID and ZIDP clear the flag and the affinity variants keep it; nothing else changes |
| AgentsV3.Trader.ReportQuantity | modules_v3/environment/dm_agents.py:256-271 | the reply, tagged "right\|item", carries the stored quantity or 0; the books become the recorded books; a payload that is not a query raises TypeError |
| AgentsV3.Trader.ReportMoney | modules_v3/environment/dm_agents.py:293-303 | the reply carries the stored amount of the currency or 0, and a missing currency is inserted as 0 |
| AgentsV3.Trader.RepayLoan | modules_v3/environment/dm_agents.py:305-316 | the reply carries the whole amount on hand, and the amount held is not lowered |
| AgentsV3.Trader.RequestMoney | modules_v3/environment/dm_agents.py:273-291 | a buyer or seller fails with UnboundLocalError and changes nothing; a TRADER inserts a missing currency as 0 and then fails with KeyError on the valuations |
| AgentsV3.Trader.Answer | modules_v3/environment/dm_agents.py:193-196 | OFFER gets the offer reply and TRANSACT the transact reply |
| AgentsV3.Trader.ProcessMessage | modules_v3/environment/dm_agents.py:171-209 | a message for another receiver is answered "01 Wrong Receiver" and a directive outside the nine valid ones "02 Unexpected Directive"; neither changes the trader; the report directives change only the books; every other directive gets its handler's reply and state change |
| Bargaining.BookOf | modules_v2/dm_bargain.py:103 | the book an agent is shown lists every slot of the order book, in the dictionary's insertion order |
| Bargaining.CollectedOfferIsResting | modules_v2/dm_bargain.py:133-135 | every offer a trader can collect from the shown book is the order resting in that trader's slot |
| Bargaining.ClearedSlots | modules_v2/dm_bargain.py:37-39 | the slots written by make_bargaining_order are exactly the agents' names, each set to None |
| Bargaining.LookupOfFindsPositions | modules_v2/dm_bargain.py:37-40 | with distinct names, agent_lookup sends each name to its position in the shuffled order and knows no other name |
| Bargaining.ClearingStep | modules_v2/dm_bargain.py:37-40 | one turn of the clearing loop extends the cleared slots, the lookup and the key order by the next name |
| Bargaining.ClearSlots | modules_v2/dm_bargain.py:37-40 | the clearing loop sets every name's slot to None, appends unseen names to the key order, and maps each name to its last position |
| Bargaining.EmptyBookIsHonest | modules_v2/dm_bargain.py:37-39 | a book of empty slots, one per drawable agent, holds no order an agent could not have made |
| Bargaining.PostKeepsHonest | modules_v2/dm_bargain.py:113-122 | posting an offer its owner could make keeps the book over the agents' names and moves no other agent's slot |
| Bargaining.NameIdentifies | modules_v2/dm_bargain.py:54-57 | among agents with distinct names, a name identifies the agent |
| Bargaining.AskOffer | modules_v2/dm_bargain.py:103-104 | the OFFER message gets the agent's offer reply, changes nothing, and succeeds for a drawable agent |
| Bargaining.AskAcceptance | modules_v2/dm_bargain.py:135-136 | the TRANSACT message gets the agent's transact reply, changes nothing, and succeeds for a drawable agent |
| Bargaining.ShuffledBook | modules_v2/dm_bargain.py:32-40 | after a shuffle of agents with distinct names, each name finds its agent's new position, the book covers only the agents' names, and every slot is empty |
| Bargaining.FreshLookupIndexes | modules_v2/dm_bargain.py:37-40 | overwriting the lookup with the positions of distinct names indexes every agent |
| Bargaining.FreshBookIsHonest | modules_v2/dm_bargain.py:37-39 | a book whose every agent has an empty slot is honest while the agents are drawable |
| Bargaining.AcceptanceIsFair | modules_v2/dm_bargain.py:145-167 | a BUY or SELL that an agent sends in answer to the shown book names a live slot, and the contract at that slot's resting amount settles between two different agents at a price between the seller's cost and the buyer's value |
| Bargaining.Inform | modules_v2/dm_bargain.py:69-72 | the CONTRACT message books the deal with the party as its contract handler does, and a drawable party stays drawable |
| Bargaining.Bargain.constructor | modules_v2/dm_bargain.py:6-17 | a new engine has the number of rounds, no agents, an empty history, ledger, book and lookup |
| Bargaining.Bargain.SetAgents | modules_v2/dm_bargain.py:175-176 | only the agent list changes |
| Bargaining.Bargain.MakeBargainingOrder | modules_v2/dm_bargain.py:32-40 | the agent order is shuffled by the permutation; every agent's slot becomes None; agent_lookup maps each name to its new position; agents, history and ledger unchanged |
| Bargaining.Bargain.OfferStep | modules_v2/dm_bargain.py:110-125 | a BID or ASK overwrites the sender's slot with (type, amount) and is appended to offer_history; NULL changes nothing; any other directive ends the run with BAD "Unrecognized Directive" and changes nothing |
| Bargaining.Bargain.TransactStep | modules_v2/dm_bargain.py:142-170 | NULL changes nothing; a BUY or SELL naming a None slot creates no contract and changes nothing; one naming a live slot is logged at that slot's resting amount and yields the contract with the BUY's sender as buyer or the SELL's as seller; a name without a slot raises KeyError; any other directive ends the run with BAD |
| Bargaining.Bargain.ClearParties | modules_v2/dm_bargain.py:50-51 | both parties' slots become None and nothing else in the book changes |
| Bargaining.Bargain.ProcessContract | modules_v2/dm_bargain.py:42-76 | both slots become None; the ledger grows by exactly the extended contract, with each party's cur_unit and value or cost read before the CONTRACT messages; each party books the deal and no other agent changes; a missing party or schedule entry raises before anyone is told and adds no entry |
| Bargaining.Bargain.AskToOffer | modules_v2/dm_bargain.py:102-107 | an agent's answer to OFFER is NULL, BID or ASK from itself, and posting it keeps the book honest |
| Bargaining.Bargain.OfferTurn | modules_v2/dm_bargain.py:99-122 | one OFFER turn keeps the trading invariant, changes no agent and no contract, and only extends the offer history |
| Bargaining.Bargain.OfferPhase | modules_v2/dm_bargain.py:99-125 | the OFFER phase keeps the trading invariant, changes no agent or contract, and only extends the offer history |
| Bargaining.Bargain.Settle | modules_v2/dm_bargain.py:152-156 | a fair acceptance is settled: the ledger grows by its entry and the trading invariant is kept |
| Bargaining.Bargain.Conclude | modules_v2/dm_bargain.py:156 | process_contract on two different drawable parties clears both slots, appends the ledger entry and changes no other agent |
| Bargaining.Bargain.AskToAccept | modules_v2/dm_bargain.py:134-139 | an agent's answer to TRANSACT is NULL, BUY or SELL from itself, and an acceptance names a live slot it can settle fairly |
| Bargaining.Bargain.TransactTurn | modules_v2/dm_bargain.py:131-167 | one TRANSACT turn keeps the trading invariant and adds at most one ledger entry |
| Bargaining.Bargain.TransactPhase | modules_v2/dm_bargain.py:131-170 | the TRANSACT phase keeps the trading invariant, only extends the ledger and the history, and adds at most one contract per agent |
| Bargaining.Bargain.StartRound | modules_v2/dm_bargain.py:98 | the round starts from the shuffled agents with all slots empty and the trading invariant established |
| Bargaining.Bargain.PlayRound | modules_v2/dm_bargain.py:97-170 | a round shuffles the agents by its permutation and then runs both phases; the history is only extended, and the ledger gains at most one contract per agent |
| Bargaining.Bargain.Run | modules_v2/dm_bargain.py:83-173 | run resets the book and the ledger (lines 92-94): with no rounds both stay empty and the agents keep their order; offer_history is only extended; the book ends ordered over the agents' names; every settlement lies between the seller's cost and the buyer's value; at most rounds times the number of agents contracts are made; the agents are the same objects |
| Chance.Pick | modules/dm_zid.py:53 | the value of randint(lo, hi) lies in the inclusive range [lo, hi] |
| Chance.PickReachesEveryValue | modules/dm_zid.py:80 | every value of the inclusive range is the outcome of some draw |
| Chance.Choose | modules/dm_zid.py:32-33 | the value of rnd.choice(xs) is an element of xs |
| Chance.ChooseReachesEveryElement | modules/dm_zid.py:64 | every element of the list is the outcome of some draw |
| Chance.Apply | modules_v2/dm_bargain.py:36 | the shuffled list has the same length and position i holds the item the permutation sends there |
| Chance.ApplyKeepsItems | modules_v2/dm_bargain.py:36 | a shuffle neither loses nor invents an item |
| Chance.ApplyKeepsDistinct | modules_v2/dm_bargain.py:36 | a shuffle keeps distinct items distinct |
| Decimal.NatToString | modules_vCOVID/environment/env_make_agents.py:156-168 | str of a natural number is a non-empty string of decimal digits |
| Decimal.IntToString | modules_vCOVID/environment/env_make_agents.py:156-168 | str of an integer is non-empty |
| Decimal.NatToStringInjective | modules_vCOVID/environment/env_make_agents.py:156-168 | different natural numbers have different decimal spellings |
| Decimal.IntToStringInjective | modules_vCOVID/environment/env_make_agents.py:156-168 | str is injective on all integers |
| Decimal.PrefixedIntInjective | modules_vCOVID/environment/env_make_agents.py:156-168 | a fixed prefix followed by str(n) determines n |
| Dicts.AssignKeepsOrdered | modules_v2/dm_bargain.py:116 | after d[k] = v the key order still lists every key once in insertion order: a new key goes last and an existing key keeps its place |
| Messages.Message.Unpack | modules_v2/dm_message_model.py:28-33 | unpack returns the fields from which the same message is rebuilt |
| Payoffs.Head | modules/dm_utils.py:46-47 | the slice v[0:q] is the first q items, the whole list when q is too large, and all but the last -q when q is negative |
| Payoffs.NoTradeKeepsMoney | modules/dm_utils.py:39-59 | utility and profit both equal the money when q = 0 |
| Payoffs.UtilityGrowsByUnitSurplus | modules_vCOVID/environment/env_make_agents.py:42-51 | one more unit bought adds its value less its price to the utility |
| Payoffs.ProfitGrowsByUnitSurplus | modules_vCOVID/environment/env_make_agents.py:53-62 | one more unit sold adds its price less its cost to the profit |
| Payoffs.JointPayoffIgnoresPrices | modules/dm.make_market.py:24-44 | when a buyer and a seller trade q units at the same prices, the sum of utility and profit does not depend on the prices and equals both moneys plus the first q values less the first q costs |
| Protocol.NullReply | modules_v3/environment/dm_agents.py:364-367 | the NULL reply comes from the trader and goes to BARGAIN |
| Protocol.AcceptedSide | modules_v3/environment/dm_agents.py:400-452 | a trader accepts from the side it does not post on |
| Payoffs.SumOfSnoc | modules/dm_utils.py:46-47 | the sum of the first k + 1 items is the sum of the first k plus item k |
| Equilibrium.Tag | modules/dm_env.py:103-105 | every amount of one trader's list becomes a (trader id, amount) unit, in list order |
| Equilibrium.UnitsMembership | modules/dm_env.py:103-105 | a (id, amount) unit is in the flattened list exactly when id is a key and the amount is in its list |
| Equilibrium.CollectUnits | modules/dm_env.py:102-105 | the nested loop yields every key's amounts, keys in dictionary order |
| Equilibrium.CurvesAreSortedRearrangements | modules/dm_env.py:106-119 | the demand curve is non-increasing and the supply curve non-decreasing in amount, and each holds exactly the collected units |
| Equilibrium.AcceptedPrefix | modules/dm_env.py:151-162 | the number of leading pairs that trade never exceeds the number of pairs zip yields |
| Equilibrium.AcceptedPrefixIsFirstRejection | modules/dm_env.py:151-162 | every pair before AcceptedPrefix trades, and the pair at AcceptedPrefix, if any, does not |
| Equilibrium.FirstRejectionIsAcceptedPrefix | modules/dm_env.py:151-162 | conversely, a count k with every earlier pair trading and pair k rejected (or k the number of pairs) is AcceptedPrefix |
| Equilibrium.WalkUntilRejected | modules/dm_env.py:144-162 | the loop with break ends with the count and surplus of the leading trading pairs, the last trading pair, and the first rejected pair or the defaults 0 and 999999999 |
| Equilibrium.WalkEveryPair | modules_v3/environment/dm_env.py:251-268 | the loop without break ends with the recursive EveryPairWalk over all pairs |
| Equilibrium.FirstRejectionWalkBounds | modules/dm_env.py:151-162 | eq_units is at most the number of pairs and max_surplus is never negative |
| Equilibrium.AcceptedSurplusNonNegative | modules/dm_env.py:156-158 | the surplus of pairs that all trade is non-negative |
| Equilibrium.RejectionPersists | modules/dm_env.py:151-162 | on sorted curves, once a pair is rejected every later pair is rejected |
| Equilibrium.FirstRejectionSurplusIsMaximal | modules/dm_env.py:151-162 | on sorted curves, max_surplus is at least the surplus of any number of leading pairs |
| Equilibrium.SurplusGrowsOverAccepted | modules/dm_env.py:156-158 | adding trading pairs never lowers the surplus |
| Equilibrium.SurplusShrinksOverRejected | modules/dm_env.py:159-162 | on sorted curves, adding pairs past the first rejection never raises the surplus |
| Equilibrium.FirstRejectionRangeIsClearingSet | modules/dm_env.py:164-166 | when more than one unit trades, a price lies in [eq_price_low, eq_price_high] exactly when the last trading buyer and seller accept it and the first rejected pair does not both accept it |
| Equilibrium.FirstRejectionRangeNonEmpty | modules/dm_env.py:164-166 | on sorted curves with values at least 0 and costs at most 999999999, eq_price_low <= eq_price_high |
| Equilibrium.EveryPairWalkOnCurves | modules_v3/environment/dm_env.py:258-268 | on sorted curves the walk without break has the same count, surplus and last trading pair as the walk with break; its rejected pair is the last pair when any pair is rejected |
| Equilibrium.EveryPairWalkAgreesOnQuantity | modules_v3/environment/dm_env.py:258-268 | on sorted curves both versions report the same eq_units and max_surplus |
| Equilibrium.EveryPairRangeContainsFirstRejectionRange | modules_v3/environment/dm_env.py:270-273 | on sorted curves the range without break contains the range with break |
| Equilibrium.EveryPairRangeAdmitsNonClearingPrice | modules_v3/environment/dm_env.py:258-273 | for demand [100, 90, 50, 20] and supply [10, 20, 60, 70] the version without break reports 20 .. 70 instead of 50 .. 60, and 30 in that range does not clear |
| MarketEnv.TraderIdsAreDistinct | modules/dm_env.py:36-42 | "buyer" + str(n) and "seller" + str(n) name each number once, and no buyer key is a seller key |
| MarketEnv.NumberedIds | modules/dm_env.py:36-42 | range(count) yields count keys, none for a negative count |
| MarketEnv.EmptySchedules | modules/dm_env.py:36-42 | the dictionary holds exactly the numbered keys, each with an empty list |
| MarketEnv.NumberedIdsAreOrdered | modules/dm_env.py:36-42 | the numbered keys are distinct, so they are a valid key order of that dictionary |
| MarketEnv.EmptyRoster | modules/dm_env.py:36-42 | the constructor's loop builds exactly those keys, in order, each with an empty list |
| MarketEnv.SpotMarketEnvironment.constructor | modules/dm_env.py:16-42 | name and counts stored, buyer0.. and seller0.. with empty lists, empty curves and no equilibrium yet |
| MarketEnv.SpotMarketEnvironment.AddBuyer | modules/dm_env.py:69-79 | the buyer's entry becomes the values (a new key goes last), every other buyer and everything else is unchanged, and get_buyer_values returns the values |
| MarketEnv.SpotMarketEnvironment.AddSeller | modules/dm_env.py:84-94 | the seller's entry becomes the costs, every other seller and everything else is unchanged, and get_seller_costs returns the costs |
| MarketEnv.SpotMarketEnvironment.MakeDemand | modules/dm_env.py:99-108 | demand becomes every buyer's values tagged with the buyer's key, sorted from high to low: non-increasing and a rearrangement of those units; nothing else changes |
| MarketEnv.SpotMarketEnvironment.MakeSupply | modules/dm_env.py:110-119 | supply becomes every seller's costs, sorted from low to high: non-decreasing and a rearrangement of those units; nothing else changes |
| MarketEnv.SpotMarketEnvironment.CalcEquilibrium | modules/dm_env.py:136-168 | eq_units and max_surplus come from the walk that stops at the first rejected pair, the price range is set only when more than one unit trades, eq_units is at most the number of pairs, max_surplus is non-negative and, on sorted curves, no number of leading pairs has more surplus |
| MarketEnvV3.Schedules.Assign | modules_v3/environment/dm_env.py:109-115 | d[id] = xs keeps a valid key order, changes only id's entry, and puts a new key last |
| MarketEnvV3.Record | modules_v3/environment/dm_env.py:250-273 | the walk's quantity and surplus are always stored; the price range is replaced only when more than one unit trades, otherwise the previous prices stay |
| MarketEnvV3.SpotMarketEnvironment.constructor | modules_v3/environment/dm_env.py:17-79 | name, counts, item types and market type stored; buyer0.. and seller0.. with empty lists; empty curves, no equilibrium; an empty table for every item type |
| MarketEnvV3.SpotMarketEnvironment.AddBuyer | modules_v3/environment/dm_env.py:105-127 | ONE_TYPE assigns in the market's table, TWO_TYPE in the item type's table (KeyError for an unknown type, nothing changed), any other type does nothing; afterwards get_buyer_values returns the values and every other buyer's answer is unchanged |
| MarketEnvV3.SpotMarketEnvironment.AddSeller | modules_v3/environment/dm_env.py:131-152 | the same for a seller's costs and get_seller_costs |
| MarketEnvV3.SpotMarketEnvironment.MakeDemand | modules_v3/environment/dm_env.py:156-175 | ONE_TYPE: demand is every buyer's units sorted high to low; TWO_TYPE: each listed item type's demand is rebuilt from its own table and the market's demand is untouched; otherwise nothing changes |
| MarketEnvV3.SpotMarketEnvironment.MakeSupply | modules_v3/environment/dm_env.py:189-208 | the same for supply, sorted low to high |
| MarketEnvV3.SpotMarketEnvironment.CalcEquilibrium | modules_v3/environment/dm_env.py:242-310 | ONE_TYPE records the walk over every pair of the market's curves; TWO_TYPE records it for every item type; otherwise nothing changes |
| MarketEnvV3.MakeEachCurve | modules_v3/environment/dm_env.py:168-175 | every listed item type gets its curve rebuilt from its own schedules, and every other key's book is untouched |
| MarketEnvV3.RebuildCurve | modules_v3/environment/dm_env.py:168-175 | one item type's demand (or supply) curve is its schedules' units sorted by amount, the rest of its book unchanged |
| MarketEnvV3.CalcEach | modules_v3/environment/dm_env.py:283-308 | every listed item type gets its equilibrium recorded from its own curves, and every other key's book is untouched |
| MarketEnvV3.RecordIsIdempotent | modules_v3/environment/dm_env.py:283-308 | recording the same walk twice leaves what one recording leaves, so a type listed twice ends the same |
| MarketEnvV3.RecordedQuantityOnCurves | modules_v3/environment/dm_env.py:250-273 | on sorted curves the recorded eq_units and max_surplus equal those of the walk that stops at the first rejection |
| Travel.Landing | modules/dm_travel.py:57-73 | the agent lands on loc + step when both coordinates stay in 0 .. grid_dimension - 1, and stays at loc otherwise |
| Travel.LandingIsReachable | modules/dm_travel.py:57-73 | a unit step lands on loc or a neighbouring point, and an agent on the grid stays on it |
| Travel.Locations | modules/dm_travel.py:27-28 | the list of the agents' locations, read in agent order |
| Travel.NumsAtLoc | modules/dm_travel.py:47 | the counts the agents were last told, read in agent order |
| Travel.AtPoint | modules/dm_travel.py:27-32 | the agents listed at a point are agents of the list |
| Travel.AtPointAbsent | modules/dm_travel.py:27-32 | nobody is listed at a point no agent is located at |
| Travel.AtPointLocated | modules/dm_travel.py:27-32 | with distinct names, an agent is listed at a point exactly when it is located there |
| Travel.AtPointDistinct | modules/dm_travel.py:27-32 | the names listed at a point stay distinct |
| Travel.LocateGathers | modules/dm_travel.py:25-32 | locate_agents keeps a valid key order, its keys are the old keys and every agent's location, and each point's list is its old list followed by the agents located there, in agent order |
| Travel.LocateKeys | modules/dm_travel.py:25-32 | locate_agents keeps a valid key order, and its keys are the old keys and every agent's location |
| Travel.StartedRecordsStart | modules/dm_travel.py:18-21 | setup_agents_history gives each agent the one-location history [its location] and leaves every other name's history alone |
| Travel.PositionsIn | modules/dm_travel.py:41 | every located agent's point has a position among the grid's keys |
| Travel.OthersNotListed | modules/dm_travel.py:41-47 | an agent located elsewhere is neither listed at a point nor named among its agents |
| Travel.PointList | modules/dm_travel.py:41-45 | the list at the k-th key holds exactly the agents whose key position is k, with distinct names, and no name outside the agent list |
| Travel.PlacedGrid | modules/dm_travel.py:25-32 | a grid located from an empty one holds at each point exactly the agents located there, and every agent's location is a key |
| Travel.Travel.constructor | modules/dm_travel.py:7-12 | the grid dimension and the agents are stored, and grid and history start empty |
| Travel.Travel.SetupAgentsHistory | modules/dm_travel.py:18-21 | the history becomes the old history with every agent's name mapped to [its location] |
| Travel.Travel.LocateAgents | modules/dm_travel.py:25-32 | the grid becomes what locate_agents' loop builds from the old grid and the agents' locations |
| Travel.Travel.StartTravel | modules/dm_travel.py:14-16 | on an empty grid: every history starts at the agent's location and the grid holds at each point exactly the agents there |
| Travel.Travel.Turn | modules/dm_travel.py:46-73 | the agent learns how many share its point, its step is a unit step, it lands per the on-grid test, and its history gains exactly the location it ends at |
| Travel.Travel.MovePoint | modules/dm_travel.py:42-73 | every agent of a point, in shuffled order, takes one turn: its history gains its new location, which is reachable from its old one, it was told the point's head count, and no other history changes |
| Travel.Travel.TakeTurns | modules/dm_travel.py:46-73 | the same for an already shuffled order |
| Travel.Travel.TakeTurn | modules/dm_travel.py:46-73 | the j-th turn changes only the j-th agent and its history entry |
| Travel.TurnAdvances | modules/dm_travel.py:46-73 | one more turn (the agent moves to a reachable point, is told the count, and that point is appended to its own entry) keeps the bookkeeping of the turns taken |
| Travel.Travel.Run | modules/dm_travel.py:40-75 | for agents whose MIN_AGENTS rules carry a minimum, every agent takes exactly one turn: its history gains exactly its new location, reachable from its old one; it was told how many agents shared its old point; other histories are unchanged; and the grid is rebuilt from the new locations |
| Travel.Travel.VisitAll | modules/dm_travel.py:41-73 | the loop over the points gives every agent its turn, with the same guarantees as run |
| Travel.Travel.VisitKeys | modules/dm_travel.py:41-73 | the loop over the grid's keys, in key order, with the same guarantees |
| Travel.Travel.VisitEachKey | modules/dm_travel.py:41-73 | after the loop every key of the grid has been visited: each agent took its turn at its point, and no history but theirs changed |
| Travel.Travel.Regrid | modules/dm_travel.py:74-75 | the grid is emptied and rebuilt from the agents' locations |
| Travel.Travel.VisitPoint | modules/dm_travel.py:42-73 | visiting the k-th key gives its agents their turns and leaves agents of later keys where they were |
| Travel.Travel.VisitList | modules/dm_travel.py:42-73 | the agents of the k-th key take their turns; agents of later keys stay put and keep their history |
| MakeAgentsCovid.Interval | modules_vCOVID/environment/env_make_agents.py:114 | int((ub - lb) / 4) truncates toward zero: for lb <= ub it is the floor of a quarter of the span, for ub < lb the ceiling |
| MakeAgentsCovid.DrawRangesAgree | modules_vCOVID/environment/env_make_agents.py:114-130 | a buyer's range [lb + interval, ub] is empty exactly when a seller's [lb, ub - interval] is, and for lb <= ub both lie within [lb, ub] |
| MakeAgentsCovid.Picks | modules_vCOVID/environment/env_make_agents.py:119-121 | one draw per unit, each within the inclusive range |
| MakeAgentsCovid.ResValuesAreSortedSchedules | modules_vCOVID/environment/env_make_agents.py:114-130 | a drawn schedule has num_units entries, falls for a buyer and rises for a seller, and every entry lies in the side's range |
| MakeAgentsCovid.DigitsBeforeUnderscore | modules_vCOVID/environment/env_make_agents.py:157-168 | two digit strings each followed by "_" can begin equal strings only if they are equal |
| MakeAgentsCovid.NumberedNameInjective | modules_vCOVID/environment/env_make_agents.py:157-168 | a prefix, a positive number and "_" determine the number |
| MakeAgentsCovid.AgentNamesDistinct | modules_vCOVID/environment/env_make_agents.py:155-168 | no two traders of one population get the same name, whatever their strategies |
| MakeAgentsCovid.CopiesMultiset | modules_vCOVID/environment/env_make_agents.py:147-148 | n copies of one strategy hold it n times and no other |
| MakeAgentsCovid.ExpandCounts | modules_vCOVID/environment/env_make_agents.py:144-149 | the expanded list has one entry per counted trader, and each strategy as often as its counts add up to |
| MakeAgentsCovid.ExpandTypes | modules_vCOVID/environment/env_make_agents.py:144-148 | the nested append loop yields Expand(trader_types) |
| MakeAgentsCovid.Spots | modules_vCOVID/environment/env_make_agents.py:96-100 | one location per trader, each on the grid_size x grid_size grid |
| MakeAgentsCovid.TestNamesDistinct | modules_vCOVID/environment/env_make_agents.py:69-77 | the eight test names differ |
| MakeAgentsCovid.TestRosterDistinct | modules_vCOVID/environment/env_make_agents.py:92 | traders carrying the test names, in order, have distinct names |
| MakeAgentsCovid.NewTestTrader | modules_vCOVID/environment/env_make_agents.py:69-87 | a fresh ZID trader with 500 money at (0, 0), bounds 20 and 100, values [100, 90, 50, 20] or costs [10, 20, 30, 40] |
| MakeAgentsCovid.Enter | modules_vCOVID/environment/env_make_agents.py:203-210 | a buyer at position i has its values stored under buyer i, any other trader its costs under seller i - half; the other table, the curves and the equilibrium do not change |
| MakeAgentsCovid.EnterAll | modules_vCOVID/environment/env_make_agents.py:203-210 | after the loop every buyer's values are under its position and every other trader's costs under its position less half |
| MakeAgentsCovid.EnterNext | modules_vCOVID/environment/env_make_agents.py:203-210 | one more pass of the loop keeps every earlier trader's entry and adds the i-th one |
| MakeAgentsCovid.Entries | modules_vCOVID/environment/env_make_agents.py:203-210 | one entry per trader: whether it is a buyer, and its values if so, its costs otherwise |
| MakeAgentsCovid.BuyersAdvance | modules_vCOVID/environment/env_make_agents.py:203-210 | storing trader i's values under buyer i, or leaving the buyers' table alone for a seller, keeps every earlier buyer's values and covers trader i |
| MakeAgentsCovid.SellersAdvance | modules_vCOVID/environment/env_make_agents.py:203-210 | storing trader i's costs under seller i - half, or leaving the sellers' table alone for a buyer, keeps every earlier seller's costs and covers trader i |
| MakeAgentsCovid.SellerKept | modules_vCOVID/environment/env_make_agents.py:203-210 | storing one seller's costs leaves every other seller's costs in place |
| MakeAgentsCovid.Price | modules_vCOVID/environment/env_make_agents.py:211-213 | the curves are built from the schedules and the equilibrium recorded from them; the schedules are unchanged |
| MakeAgentsCovid.BuildMarket | modules_vCOVID/environment/env_make_agents.py:201-213 | a fresh one-type market named market_name with half buyers and half sellers, filled from the agent list and priced |
| MakeAgentsCovid.TestRoster | modules_vCOVID/environment/env_make_agents.py:69-92 | eight fresh test traders in the order B1, S1, B2, S2, B3, S3, B4, S4 |
| MakeAgentsCovid.TestRosterDrawable | modules_vCOVID/environment/env_make_agents.py:69-92 | every test trader can draw every bid and ask the bargaining rounds ask of it (values at least 20, costs at most 100) |
| MakeAgentsCovid.DrawRangeInBounds | modules_vCOVID/environment/env_make_agents.py:114-126 | a non-empty range of gen_res_values lies inside [lb, ub] |
| MakeAgentsCovid.MadeIsDrawable | modules_vCOVID/environment/env_make_agents.py:154-187 | a trader as make_agents builds it can draw every bid and ask: a buyer's values are at least its lower bound, a seller's costs at most its upper bound |
| MakeAgentsCovid.AgentMaker.MadeAgentsDrawable | modules_vCOVID/environment/env_make_agents.py:154-187 | every trader make_agents builds can draw every bid and ask the bargaining rounds ask of it |
| MakeAgentsCovid.TestBuyers | modules_vCOVID/environment/env_make_agents.py:68-82 | four fresh ZID buyers B1..B4 at (0, 0) with bounds 20 and 100 and values [100, 90, 50, 20] |
| MakeAgentsCovid.TestSellers | modules_vCOVID/environment/env_make_agents.py:73-87 | four fresh ZID sellers S1..S4 at (0, 0) with bounds 20 and 100 and costs [10, 20, 30, 40] |
| MakeAgentsCovid.AgentMaker.constructor | modules_vCOVID/environment/env_make_agents.py:18-40 | the settings are stored; no agents, no locations, no market |
| MakeAgentsCovid.AgentMaker.GenResValues | modules_vCOVID/environment/env_make_agents.py:109-130 | ValueError exactly when there is a unit to draw and the side's range is empty; otherwise num_units entries within the range, sorted down for a buyer and up for a seller |
| MakeAgentsCovid.AgentMaker.MakeLocations | modules_vCOVID/environment/env_make_agents.py:94-100 | ValueError exactly when a trader needs a location on an empty grid; otherwise one on-grid location per trader |
| MakeAgentsCovid.AgentMaker.BuildAgent | modules_vCOVID/environment/env_make_agents.py:155-185 | trader t fails exactly on an invalid reset configuration or an empty draw range; otherwise it is named, placed and given its role, payoff, strategy and drawn schedule |
| MakeAgentsCovid.AgentMaker.BuildAll | modules_vCOVID/environment/env_make_agents.py:154-187 | num_traders fresh traders, trader t built as BuildAgent says, with distinct names, or the first failure |
| MakeAgentsCovid.AgentMaker.MadeAppended | modules_vCOVID/environment/env_make_agents.py:154-187 | the trader built for position t extends the list of traders built so far |
| MakeAgentsCovid.AgentMaker.MakeAgents | modules_vCOVID/environment/env_make_agents.py:132-187 | fails with ValueError (locations, configuration, empty range) or AssertionError (counts not adding up to num_traders), exactly in those cases, leaving the agents untouched when the failure precedes building; otherwise num_traders fresh, distinctly named traders, trader t with the t-th shuffled strategy, the t-th location and the t-th drawn schedule |
| MakeAgentsCovid.AgentMaker.MakeTestAgents | modules_vCOVID/environment/env_make_agents.py:64-92 | eight distinctly named test traders, buyers and sellers alternating; num_traders 8 and num_units 4 |
| MakeAgentsCovid.AgentMaker.MakeMarket | modules_vCOVID/environment/env_make_agents.py:197-213 | a fresh one-type market with num_traders // 2 buyers and sellers, buyer i holding the values of the buyer at position i, seller i - num_traders // 2 the costs of any other trader at position i, priced |
| MakeMarketLegacy.Enter | modules/dm.make_market.py:88-96 | a buyer at position i is stored as buyer i, any other trader as seller i - half; no other schedule, curve or equilibrium changes |
| MakeMarketLegacy.EnterAll | modules/dm.make_market.py:88-96 | after the loop every buyer's values are under its position and every other trader's costs under its position less half |
| MakeMarketLegacy.Price | modules/dm.make_market.py:97-99 | the curves are built from the schedules and the equilibrium is the walk that stops at the first rejection; the schedules are unchanged |
| MakeMarketLegacy.BuildMarket | modules/dm.make_market.py:83-99 | a fresh market named market_name with half buyers and half sellers, filled from the agent list and priced |
| MakeMarketLegacy.AgentMaker.constructor | modules/dm.make_market.py:16-22 | the settings are stored; no agents and no market |
| MakeMarketLegacy.AgentMaker.MakeTestAgents | modules/dm.make_market.py:46-74 | IndexError exactly when there is no trader class, with nothing changed; otherwise eight test traders of the first class, buyers and sellers alternating, num_traders 8 and num_units 4 |
| MakeMarketLegacy.AgentMaker.MakeMarket | modules/dm.make_market.py:83-99 | a fresh market with num_traders // 2 buyers and sellers, filled by list position and priced |
| LegacyTestAgents.NewTestTrader | modules/dm_utils.py:5-21 | a fresh trader of the given class with 500 money at its location, the given bounds, and values [100, 90, 50, 20] or costs [10, 20, 30, 40] |
| LegacyTestAgents.TestRoster | modules/dm_utils.py:5-25 | eight fresh test traders of one class in the order B1, S1, B2, S2, B3, S3, B4, S4, at their fixed locations |
| LegacyTestAgents.TestBuyers | modules/dm_utils.py:5-18 | four fresh buyers B1..B4 of one class at (0, 0), (1, 2), (0, 0), (1, 2) with values [100, 90, 50, 20] |
| LegacyTestAgents.TestSellers | modules/dm_utils.py:10-23 | four fresh sellers S1..S4 of one class at (0, 0), (2, 1), (0, 0), (2, 1) with costs [10, 20, 30, 40] |
| LegacyTestAgents.DistinctTraders | modules/dm_utils.py:25 | traders carrying the eight test names are eight different objects |
| LegacyTestAgents.TestAgents | modules/dm_utils.py:3-33 | the ZID test roster, each trader started once in list order, the i-th reply being the i-th trader's "Initialized" note |
| AgentsCovid.Names | modules_vCOVID/environment/dm_agents.py:12-20 | the agents' names, one per agent, in list order |
| AgentsLegacy.ZerosMultiset | modules/dm_zida.py:29-41 | n zeros hold 0 exactly n times and nothing else |
| Decimal.DigitChar | modules_vCOVID/environment/env_make_agents.py:157-168 | the character of a digit 0 .. 9 lies in '0' .. '9' |
| Selection.MatchingMembership | modules_v3/environment/dm_agents.py:402-409 | an (id, amount) offer is collected exactly when the book holds a live order of that side, id and amount |
| Selection.MatchingLength | modules_v3/environment/dm_agents.py:402-409 | no more offers are collected than the book has entries |
| Selection.CollectOffers | modules_v3/environment/dm_agents.py:402-409 | the loop that skips cleared slots and keeps one side yields the offers of that side in book order |
| Selection.ExtremeOfIsFirstExtreme | modules_v3/environment/dm_agents.py:520-531 | find_opt's pick is an offer of the list that no offer strictly improves on, and no earlier offer has its amount |
| Selection.FirstExtremeIsUnique | modules_v3/environment/dm_agents.py:520-531 | at most one offer meets that description, so it determines find_opt's result |
| Selection.FindOpt | modules_v3/environment/dm_agents.py:520-531 | the loop over a non-empty list ends with ExtremeOf, the earliest lowest ask or highest bid |
| Sorting.ConsKeepsOrder | modules/dm_env.py:106-107 | an item that may precede every item of a sorted list may head it |
| Sorting.InsertKeepsOrder | modules/dm_env.py:106-107 | inserting into a sorted list keeps it sorted and adds exactly the item |
| Sorting.SortByIsSorted | modules/dm_env.py:106-107 | sorted returns its input, as a multiset, in the requested order |
| Sorting.SortByLength | modules/dm_env.py:106-107 | sorted keeps the length |
| Strategies.Target | modules_v3/environment/dm_agents.py:411-412 | the counter-offer considered is one of the offers, and for a ZIDP-family trader no offer beats it |
| Strategies.Accept | modules_v3/environment/dm_agents.py:398-452 | the transact reply goes from the trader to BARGAIN and is BUY, SELL or NULL |
| Strategies.AcceptNamesAffordableOffer | modules_v3/environment/dm_agents.py:411-444 | a BUY comes only from a buyer and a SELL only from a seller, and it names a trader whose scanned offer is affordable at the drawn reservation price |
| Strategies.PickyAcceptsIffSomeOfferAffordable | modules_v3/environment/dm_agents.py:533-601 | a ZIDP-family trader accepts exactly when some scanned offer is affordable |
| Strategies.RandomAcceptsIffDrawnOfferAffordable | modules_v3/environment/dm_agents.py:411-448 | a ZID or ZIDA trader accepts exactly when the offer rnd.choice drew is affordable |
| Strategies.Draw | modules_v3/environment/dm_agents.py:510-511 | both components of the step come from the direction list |
| Strategies.Directions | modules_vCOVID/environment/dm_agents.py:653-696 | the direction list is non-empty and within [-1, 0, +1]; ZIDPR on a crowded point never draws 0; ZID and ZIDP, a clear flag or a short location give [-1, 0, +1]; otherwise the affinity variants draw only 0 |
| Strategies.DrawFromCrowdedAlwaysMoves | modules_v3/environment/dm_agents.py:647-656 | drawing from [-1, +1] moves on both axes |

## Left out

- Random draws are inputs. The distributions of `rnd` and `np.random` are not modelled, and neither is the float comparison of `movement_error_rate` with a uniform draw, which is a boolean draw here.
- The span of `update_flag_window` (`modules_vCOVID/environment/dm_agents.py:223`) is an input. `np.max(x, 0)` is a reduction over an axis, not a clamp at 0, so its value is not derived.
- `get_payoff` calls a payoff function injected at construction. The model names one of the two payoff functions of the agent builders (utility or profit) instead of holding an arbitrary function.
- `modules_vCOVID/environment/dm_env.py` is not part of this model. The COVID agent builder's `make_market` uses the ONE_TYPE market of `modules_v3/environment/dm_env.py` in its place.
- `modules/dm_agents.py`, the base class of the older traders, is not part of this model. Their constructor, `set_values` and `set_costs` follow the base Trader of `modules_vCOVID/environment/dm_agents.py` (lines 12-61 and 104-118), which `modules/dm_utils.py` calls with the same arguments. Their price bounds are constructor parameters. `test_agents` sends START straight to the start handler, because the base class's dispatch is not available.
- `set_locations` of `env_make_agents.py` is not modelled; `make_locations` is, with its draws as inputs.
- The TWO_TYPE averaging of `modules_v3/environment/dm_env.py` (pandas and true division) produces floats. It is left out, and MakeDemand, MakeSupply and CalcEquilibrium leave the market-wide curves and equilibrium unchanged in a TWO_TYPE market.
- `modules_v3/institutions/dm_bargain.py` does not run: it uses undefined names and calls `process_contract` with the wrong arity. `modules_v2/institutions/dm_sbn_spot_bargain.py` subclasses a class that is not available. `modules_v2/institutions/dm_property_rights.py.py` only stores three fields. None of them is modelled.
- The accessors `get_offer_history`, `get_prices` and `print_payoffs` of `modules_v2/dm_bargain.py` fail when called (a list called as a function, four names unpacked from eight fields). They are not modelled.
- Plotting, printing, debug output and `__repr__` are not modelled, including `show_*`, `print_*`, `received_msg` and `returned_msg`.
- The simulations of `modules_vCOVID/simulations/` are not modelled: they orchestrate many runs and average floats.
- Python's reference semantics for the lists handed to `set_values` and `set_costs` are not modelled. Schedules are values, so a caller mutating its list afterwards does not change the trader.
- Bargaining.Bargain.Run: requires every agent to be drawable (`Trader.Drawable`). An agent whose current unit's value is below its lower bound, or whose cost is above its upper bound, makes `randint` raise ValueError (`modules_vCOVID/environment/dm_agents.py:327, 332`); a max_units beyond the schedule makes the schedule lookup raise IndexError. The model does not follow these aborts of the run. The traders that make_agents and make_test_agents build are drawable (MakeAgentsCovid.AgentMaker.MadeAgentsDrawable, MakeAgentsCovid.TestRosterDrawable), and a settlement keeps its parties drawable.
- Travel.Travel.Run: requires the grid placed by `start_travel` (`modules/dm_travel.py:74-75`), a history entry for every agent (line 41 appends to it) and every MIN_AGENTS rule to carry its minimum. Otherwise the source raises KeyError or, through AgentsCovid.Trader.MoveRequested, TypeError in the middle of the run; the model does not follow that abort.
- MarketEnvV3.SpotMarketEnvironment.constructor: does not model the top-level keys "buyer<n>" and "seller<n>" that the constructor's second loop (`modules_v3/environment/dm_env.py:71-78`) adds to i_buyers and i_sellers, each holding an empty list. So in a TWO_TYPE market, add_buyer, add_seller, get_buyer_values and get_seller_costs with an item type spelled like such an id raise TypeError in the source, where the model reports a missing key (AddBuyer's ok false, Failure("KeyError")). An item type spelled like such an id has its table replaced by the empty list, after which make_demand raises AttributeError; the model keeps the table.
- The movement handlers return (0, 0) only when `cur_unit > max_units`, as written. A trader that has used all its units (`cur_unit == max_units`) still draws a step. The model follows the code.
- `make_market` stores the seller at list position i as seller i - num_traders // 2. For the alternating test list this gives the ids -3, -1, 1 and 3 to the sellers. Buyers land on ids 0, 2, 4 and 6, next to the empty buyers 1 and 3 made by the constructor. The curves, and so the equilibrium, are the same as with consecutive ids, because empty schedules add no units. The model keeps the ids as written.

## Findings

| source | as written | input that shows it | evidently intended | confidence | as-written member | corrected member |
|---|---|---|---|---|---|---|
| modules_v3/environment/dm_env.py:258-273 | the ONE_TYPE equilibrium loop has no `break`, so `first_rejected_value` and `first_rejected_cost` end up holding the last rejected pair rather than the first | demand [100, 90, 50, 20], supply [10, 20, 60, 70]: the range is 20 .. 70 instead of 50 .. 60, and at 30 the third buyer would still buy | stop at the first rejected pair, as `modules/dm_env.py:151-162` does and as the variable names say; then the range is exactly the set of clearing prices | high (not executed) | Equilibrium.EveryPairRangeAdmitsNonClearingPrice | Equilibrium.FirstRejectionRangeIsClearingSet |

The quantity and the surplus are not affected on sorted curves (Equilibrium.EveryPairWalkAgreesOnQuantity). Only the price range differs, and it always contains the correct one (Equilibrium.EveryPairRangeContainsFirstRejectionRange). The original environment and its agent builder use the walk that stops at the first rejection. MarketEnvV3 keeps the walk without `break`, because it models that file as written.
