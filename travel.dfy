/**
 * The travel institution of modules/dm_travel.py. The grid is a dictionary
 * from a point to the list of agents standing there, in the order they were
 * placed; the history is a dictionary from an agent's name to the locations
 * it has occupied. A run visits the points in the grid's key order, tells
 * each agent of a point, in shuffled order, how many agents share the point,
 * asks it where it wants to move, and applies the move only when both new
 * coordinates stay on the grid; then the grid is rebuilt.
 */
module Travel {
  import opened Wrappers
  import opened Messages
  import opened Protocol
  import opened Chance
  import opened Dicts
  import opened Strategies
  import opened AgentsCovid

  type Point = (int, int)

  /** A point of the grid_dimension x grid_dimension grid. */
  predicate OnGrid(p: Point, dim: int)
  {
    0 <= p.0 <= dim - 1 && 0 <= p.1 <= dim - 1
  }

  /**
   * Where a MOVE (dx, dy) from loc ends: at the target when both of its
   * coordinates are on the grid, and at loc otherwise; never half way.
   */
  function Landing(loc: Point, dx: int, dy: int, dim: int): (l: Point)
    ensures l == (loc.0 + dx, loc.1 + dy) || l == loc
    ensures OnGrid((loc.0 + dx, loc.1 + dy), dim) ==> l == (loc.0 + dx, loc.1 + dy)
    ensures !OnGrid((loc.0 + dx, loc.1 + dy), dim) ==> l == loc
  {
    if 0 <= loc.0 + dx && loc.0 + dx <= dim - 1 then
      if 0 <= loc.1 + dy && loc.1 + dy <= dim - 1 then (loc.0 + dx, loc.1 + dy) else loc
    else loc
  }

  /** One turn of travel can take an agent to a neighbouring point of the grid, or leave it where it is. */
  predicate Reachable(from: Point, to: Point, dim: int)
  {
    to == from || (OnGrid(to, dim) && -1 <= to.0 - from.0 <= 1 && -1 <= to.1 - from.1 <= 1)
  }

  /** A unit step lands on a reachable point, and an agent on the grid stays on it. */
  lemma LandingIsReachable(loc: Point, dx: int, dy: int, dim: int)
    requires dx in Unit && dy in Unit
    ensures Reachable(loc, Landing(loc, dx, dy, dim), dim)
    ensures OnGrid(loc, dim) ==> OnGrid(Landing(loc, dx, dy, dim), dim)
  {
  }

  /** Every agent's MIN_AGENTS rule comes with its minimum, so no move request raises. */
  predicate MinimaGiven(ts: seq<Trader>)
  {
    forall t :: t in ts ==> MinimumGiven(t.reset)
  }

  /** The agents' locations, read in list order. */
  function Locations(ts: seq<Trader>): (locs: seq<Point>)
    reads ts
    ensures |locs| == |ts| && forall i :: 0 <= i < |ts| ==> locs[i] == ts[i].location
  {
    seq(|ts|, i requires 0 <= i < |ts| reads ts => ts[i].location)
  }

  /** The counts the agents were last told, read in list order. */
  function NumsAtLoc(ts: seq<Trader>): (nums: seq<int>)
    reads ts
    ensures |nums| == |ts| && forall i :: 0 <= i < |ts| ==> nums[i] == ts[i].numAtLoc
  {
    seq(|ts|, i requires 0 <= i < |ts| reads ts => ts[i].numAtLoc)
  }

  /** The bookkeeping of one point's turns, on snapshots of the agents named names: the first j
      have taken their turn (their history entry gained the location they stand on, which is
      reachable from where they stood, and they were told count), the others stand where they
      stood, and no other history entry changed. */
  ghost predicate TurnsTakenIn(names: seq<string>, j: int, count: int, history: map<string, seq<Point>>,
                               locs: seq<Point>, nums: seq<int>, h0: map<string, seq<Point>>,
                               locs0: seq<Point>, dim: int)
    requires 0 <= j <= |names| && |locs| == |nums| == |locs0| == |names|
  {
    && history.Keys == h0.Keys
    && (forall i :: 0 <= i < j ==>
          && names[i] in h0
          && history[names[i]] == h0[names[i]] + [locs[i]]
          && Reachable(locs0[i], locs[i], dim)
          && nums[i] == count)
    && (forall i :: j <= i < |names| ==> locs[i] == locs0[i])
    && (forall id :: id in history && id !in names[..j] ==> history[id] == h0[id])
  }

  /** One more turn keeps the bookkeeping: the j-th agent, whose entry is still h0's, moves to a
      reachable point, is told count and has that point appended to its entry. */
  lemma TurnAdvances(names: seq<string>, j: int, count: int, history: map<string, seq<Point>>,
                     locs: seq<Point>, nums: seq<int>, h0: map<string, seq<Point>>,
                     locs0: seq<Point>, dim: int, l: Point)
    requires 0 <= j < |names| && |locs| == |nums| == |locs0| == |names|
    requires forall a, b :: 0 <= a < b < |names| ==> names[a] != names[b]
    requires names[j] in h0
    requires TurnsTakenIn(names, j, count, history, locs, nums, h0, locs0, dim)
    requires Reachable(locs0[j], l, dim)
    ensures TurnsTakenIn(names, j + 1, count, history[names[j] := history[names[j]] + [l]],
                         locs[j := l], nums[j := count], h0, locs0, dim)
  {
    assert names[..j + 1] == names[..j] + [names[j]];
    assert names[j] !in names[..j] by {
      forall i | 0 <= i < j
        ensures names[..j][i] != names[j]
      {
      }
    }
  }

  /** The agents whose location is p, in list order. */
  function AtPoint(ts: seq<Trader>, locs: seq<Point>, p: Point): (r: seq<Trader>)
    requires |ts| == |locs|
    ensures forall j :: 0 <= j < |r| ==> r[j] in ts
  {
    if ts == [] then []
    else AtPoint(ts[..|ts| - 1], locs[..|locs| - 1], p) + (if locs[|locs| - 1] == p then [ts[|ts| - 1]] else [])
  }

  /** Nobody stands at a point no agent is located at. */
  lemma {:induction false} AtPointAbsent(ts: seq<Trader>, locs: seq<Point>, p: Point)
    requires |ts| == |locs| && p !in locs
    ensures AtPoint(ts, locs, p) == []
  {
    if ts != [] {
      assert p !in locs[..|locs| - 1];
      AtPointAbsent(ts[..|ts| - 1], locs[..|locs| - 1], p);
    }
  }

  /** Among agents with distinct names, each agent stands in the list of its own location and in no other list. */
  lemma {:induction false} AtPointLocated(ts: seq<Trader>, locs: seq<Point>, p: Point)
    requires |ts| == |locs| && DistinctNames(ts)
    ensures forall i :: 0 <= i < |ts| ==> (ts[i] in AtPoint(ts, locs, p) <==> locs[i] == p)
  {
    if ts != [] {
      var n := |ts| - 1;
      var init, ilocs := ts[..n], locs[..n];
      AtPointLocated(init, ilocs, p);
      var r0 := AtPoint(init, ilocs, p);
      assert ts[n] !in r0 by {
        forall j | 0 <= j < |r0|
          ensures r0[j] != ts[n]
        {
          var i :| 0 <= i < |init| && init[i] == r0[j];
          assert ts[i].name != ts[n].name;
        }
      }
      forall i | 0 <= i < n
        ensures ts[i] in AtPoint(ts, locs, p) <==> locs[i] == p
      {
        assert init[i] == ts[i] && ilocs[i] == locs[i];
        assert ts[i] != ts[n] by { assert ts[i].name != ts[n].name; }
      }
    }
  }

  /** The list of any point keeps the agents' names distinct. */
  lemma {:induction false} AtPointDistinct(ts: seq<Trader>, locs: seq<Point>, p: Point)
    requires |ts| == |locs| && DistinctNames(ts)
    ensures DistinctNames(AtPoint(ts, locs, p))
  {
    if ts != [] {
      var n := |ts| - 1;
      var init, ilocs := ts[..n], locs[..n];
      AtPointDistinct(init, ilocs, p);
      var r0 := AtPoint(init, ilocs, p);
      forall j | 0 <= j < |r0|
        ensures r0[j].name != ts[n].name
      {
        var i :| 0 <= i < |init| && init[i] == r0[j];
        assert ts[i] == r0[j];
      }
    }
  }

  /**
   * locate_agents' loop as a function: each agent, in list order, is appended
   * to the list of its location; a location seen for the first time becomes
   * the last key.
   */
  function Locate(keys: seq<Point>, g: map<Point, seq<Trader>>, ts: seq<Trader>, locs: seq<Point>)
    : (seq<Point>, map<Point, seq<Trader>>)
    requires |ts| == |locs|
  {
    if ts == [] then (keys, g)
    else
      var prior := Locate(keys, g, ts[..|ts| - 1], locs[..|locs| - 1]);
      var p, t := locs[|locs| - 1], ts[|ts| - 1];
      if p in prior.1 then (prior.0, prior.1[p := prior.1[p] + [t]])
      else (prior.0 + [p], prior.1[p := [t]])
  }

  lemma AppendAssociates<T>(a: seq<T>, b: seq<T>, c: seq<T>)
    ensures (a + b) + c == a + (b + c)
  {
  }

  /** The keys locate_agents leaves are the old keys and every agent's location, each once. */
  lemma {:induction false} LocateKeys(keys: seq<Point>, g: map<Point, seq<Trader>>, ts: seq<Trader>, locs: seq<Point>)
    requires |ts| == |locs| && Ordered(keys, g)
    ensures Ordered(Locate(keys, g, ts, locs).0, Locate(keys, g, ts, locs).1)
    ensures forall p :: p in Locate(keys, g, ts, locs).1 <==> p in g || p in locs
  {
    if ts != [] {
      var n := |ts| - 1;
      LocateKeys(keys, g, ts[..n], locs[..n]);
      assert locs == locs[..n] + [locs[n]];
    }
  }

  /**
   * What locate_agents leaves: the grid's keys are the old keys and every
   * agent's location, each once, and the list at a point is the old list
   * followed by the agents located there, in list order.
   */
  lemma {:induction false} LocateGathers(keys: seq<Point>, g: map<Point, seq<Trader>>, ts: seq<Trader>, locs: seq<Point>)
    requires |ts| == |locs| && Ordered(keys, g)
    ensures Ordered(Locate(keys, g, ts, locs).0, Locate(keys, g, ts, locs).1)
    ensures forall p :: p in Locate(keys, g, ts, locs).1 <==> p in g || p in locs
    ensures forall p :: p in Locate(keys, g, ts, locs).1 ==>
              Locate(keys, g, ts, locs).1[p] == (if p in g then g[p] else []) + AtPoint(ts, locs, p)
  {
    LocateKeys(keys, g, ts, locs);
    if ts != [] {
      var n := |ts| - 1;
      var init, ilocs := ts[..n], locs[..n];
      LocateGathers(keys, g, init, ilocs);
      var prior := Locate(keys, g, init, ilocs).1;
      var after := Locate(keys, g, ts, locs).1;
      var p := locs[n];
      if p !in prior {
        AtPointAbsent(init, ilocs, p);
      }
      forall q | q in after
        ensures after[q] == (if q in g then g[q] else []) + AtPoint(ts, locs, q)
      {
        var before := if q in g then g[q] else [];
        var here := AtPoint(init, ilocs, q);
        if q != p {
          assert AtPoint(ts, locs, q) == here + [] == here;
          assert after[q] == prior[q];
        } else if p in prior {
          assert AtPoint(ts, locs, q) == here + [ts[n]];
          assert after[q] == (before + here) + [ts[n]];
          AppendAssociates(before, here, [ts[n]]);
        } else {
          assert AtPoint(ts, locs, q) == [] + [ts[n]];
          assert after[q] == [ts[n]];
        }
      }
    }
  }

  /** setup_agents_history's loop as a function: history[name] = [location], agent by agent. */
  function Started(h: map<string, seq<Point>>, ts: seq<Trader>, locs: seq<Point>): map<string, seq<Point>>
    requires |ts| == |locs|
  {
    if ts == [] then h
    else Started(h, ts[..|ts| - 1], locs[..|locs| - 1])[ts[|ts| - 1].name := [locs[|locs| - 1]]]
  }

  /**
   * With distinct names, every agent's history is its starting location
   * alone, and the history of any other name is what it was.
   */
  lemma {:induction false} StartedRecordsStart(h: map<string, seq<Point>>, ts: seq<Trader>, locs: seq<Point>)
    requires |ts| == |locs| && DistinctNames(ts)
    ensures forall i :: 0 <= i < |ts| ==> ts[i].name in Started(h, ts, locs) && Started(h, ts, locs)[ts[i].name] == [locs[i]]
    ensures forall id :: id !in Names(ts) ==>
              (id in Started(h, ts, locs) <==> id in h) && (id in h ==> Started(h, ts, locs)[id] == h[id])
  {
    if ts != [] {
      var n := |ts| - 1;
      StartedRecordsStart(h, ts[..n], locs[..n]);
      forall i | 0 <= i < n
        ensures ts[..n][i] == ts[i] && locs[..n][i] == locs[i] && ts[i].name != ts[n].name
      {
      }
      forall id, i | id !in Names(ts) && 0 <= i < n
        ensures Names(ts[..n])[i] != id
      {
        assert Names(ts)[i] == Names(ts[..n])[i];
      }
      forall id | id !in Names(ts)
        ensures id != ts[n].name
      {
        assert Names(ts)[n] == ts[n].name;
      }
    }
  }

  /** The place of each location among the grid's keys. */
  ghost function PositionsIn(keys: seq<Point>, locs: seq<Point>): (pos: seq<nat>)
    requires forall i :: 0 <= i < |locs| ==> locs[i] in keys
    ensures |pos| == |locs| && forall i :: 0 <= i < |locs| ==> pos[i] < |keys| && keys[pos[i]] == locs[i]
  {
    seq(|locs|, i requires 0 <= i < |locs| => var j :| 0 <= j < |keys| && keys[j] == locs[i]; j)
  }

  /** With distinct names, an agent located elsewhere is neither in a point's list nor named there. */
  lemma OthersNotListed(ts: seq<Trader>, locs: seq<Point>, p: Point, i: int)
    requires |ts| == |locs| && DistinctNames(ts) && 0 <= i < |ts| && locs[i] != p
    ensures ts[i] !in AtPoint(ts, locs, p) && ts[i].name !in Names(AtPoint(ts, locs, p))
  {
    var r := AtPoint(ts, locs, p);
    AtPointLocated(ts, locs, p);
    AtPointDistinct(ts, locs, p);
    forall j | 0 <= j < |r|
      ensures Names(r)[j] != ts[i].name
    {
      var i' :| 0 <= i' < |ts| && ts[i'] == r[j];
      assert Names(ts)[i'] != Names(ts)[i];
    }
  }

  /** The list of the point at key position k holds, with distinct names, exactly the agents whose
      key position is k; every other agent and every name outside the agents is absent from it. */
  lemma PointList(ts: seq<Trader>, locs: seq<Point>, pos: seq<nat>, keys: seq<Point>, k: int)
    requires |locs| == |ts| && |pos| == |ts| && DistinctNames(ts) && 0 <= k < |keys|
    requires forall a, b :: 0 <= a < b < |keys| ==> keys[a] != keys[b]
    requires forall i :: 0 <= i < |ts| ==> pos[i] < |keys| && keys[pos[i]] == locs[i]
    ensures var list := AtPoint(ts, locs, keys[k]);
            && DistinctNames(list)
            && (forall j :: 0 <= j < |list| ==> list[j] in ts)
            && (forall i :: 0 <= i < |ts| && pos[i] == k ==> ts[i] in list && locs[i] == keys[k])
            && (forall i :: 0 <= i < |ts| && pos[i] != k ==> ts[i] !in list && ts[i].name !in Names(list))
            && (forall id :: id !in Names(ts) ==> id !in Names(list))
  {
    var p := keys[k];
    var list := AtPoint(ts, locs, p);
    AtPointLocated(ts, locs, p);
    AtPointDistinct(ts, locs, p);
    forall i | 0 <= i < |ts| && pos[i] != k
      ensures ts[i] !in list && ts[i].name !in Names(list)
    {
      OthersNotListed(ts, locs, p, i);
    }
    forall id | id !in Names(ts)
      ensures id !in Names(list)
    {
      forall j | 0 <= j < |list|
        ensures Names(list)[j] != id
      {
        var i :| 0 <= i < |ts| && ts[i] == list[j];
        assert Names(ts)[i] == list[j].name;
      }
    }
  }

  /** A grid located from scratch: each point holds exactly the agents located there, and every location is a key. */
  lemma PlacedGrid(keys: seq<Point>, g: map<Point, seq<Trader>>, ts: seq<Trader>, locs: seq<Point>)
    requires |ts| == |locs| && (keys, g) == Locate([], map[], ts, locs)
    ensures Ordered(keys, g)
    ensures forall q :: q in g ==> g[q] == AtPoint(ts, locs, q)
    ensures forall i :: 0 <= i < |locs| ==> locs[i] in keys
  {
    var r := Locate([], map[], ts, locs);
    LocateGathers([], map[], ts, locs);
    assert keys == r.0 && g == r.1;
    forall q | q in g
      ensures g[q] == AtPoint(ts, locs, q)
    {
      assert g[q] == [] + AtPoint(ts, locs, q);
    }
    forall i | 0 <= i < |locs|
      ensures locs[i] in keys
    {
      assert locs[i] in g;
    }
  }

  class Travel {
    const gridDimension: int
    const agents: seq<Trader>
    /** grid: the agents at each point, with the dictionary's key order. */
    var grid: map<Point, seq<Trader>>
    var gridKeys: seq<Point>
    var history: map<string, seq<Point>>

    constructor (gridDimension: int, agents: seq<Trader>)
      ensures this.gridDimension == gridDimension && this.agents == agents
      ensures grid == map[] && gridKeys == [] && history == map[]
    {
      this.gridDimension := gridDimension;
      this.agents := agents;
      grid, gridKeys, history := map[], [], map[];
    }

    /** The grid is the one locate_agents builds from an empty grid and the agents' current locations. */
    ghost predicate Placed()
      reads this`grid, this`gridKeys, agents
    {
      && (gridKeys, grid) == Locate([], map[], agents, Locations(agents))
      && Ordered(gridKeys, grid)
      && (forall i :: 0 <= i < |agents| ==> agents[i].location in grid)
    }

    /** setup_agents_history. */
    method SetupAgentsHistory()
      modifies this`history
      ensures history == Started(old(history), agents, Locations(agents))
    {
      for i := 0 to |agents|
        invariant history == Started(old(history), agents[..i], Locations(agents)[..i])
      {
        assert agents[..i + 1][..i] == agents[..i];
        assert Locations(agents)[..i + 1][..i] == Locations(agents)[..i];
        var agent := agents[i];
        var loc := agent.location;
        history := history[agent.name := [loc]];
      }
      assert agents[..|agents|] == agents;
      assert Locations(agents)[..|agents|] == Locations(agents);
    }

    /** locate_agents. */
    method LocateAgents()
      modifies this`grid, this`gridKeys
      ensures (gridKeys, grid) == Locate(old(gridKeys), old(grid), agents, Locations(agents))
    {
      for i := 0 to |agents|
        invariant (gridKeys, grid) == Locate(old(gridKeys), old(grid), agents[..i], Locations(agents)[..i])
      {
        assert agents[..i + 1][..i] == agents[..i];
        assert Locations(agents)[..i + 1][..i] == Locations(agents)[..i];
        var agent := agents[i];
        var loc := agent.location;
        if loc in grid {
          grid := grid[loc := grid[loc] + [agent]];
        } else {
          gridKeys := gridKeys + [loc];
          grid := grid[loc := [agent]];
        }
      }
      assert agents[..|agents|] == agents;
      assert Locations(agents)[..|agents|] == Locations(agents);
    }

    /** start_travel on a fresh grid: every agent's history starts at its location, and the grid is placed. */
    method StartTravel()
      requires grid == map[] && gridKeys == []
      modifies this`history, this`grid, this`gridKeys
      ensures history == Started(old(history), agents, Locations(agents))
      ensures Placed()
    {
      SetupAgentsHistory();
      LocateAgents();
      LocateGathers([], map[], agents, Locations(agents));
    }

    /**
     * One agent's turn in run: num_at_loc is set, MOVE_REQUESTED is sent, and
     * the MOVE reply's step is applied when it stays on the grid; either way
     * the location the agent ends at is appended to its history.
     */
    method Turn(agent: Trader, count: int, d: Draws) returns (step: (int, int))
      requires agent.name in history && MinimumGiven(agent.reset)
      modifies agent, this`history
      ensures agent.numAtLoc == count
      ensures step.0 in Unit && step.1 in Unit
      ensures agent.location == Landing(old(agent.location), step.0, step.1, gridDimension)
      ensures history == old(history)[agent.name := old(history[agent.name]) + [agent.location]]
    {
      agent.SetNumAtLoc(count);
      var msg := Message("MOVE_REQUESTED", "TRAVEL", agent.name, Note("  "));
      var returnMsg := agent.ProcessMessage(msg, d);
      step := (0, 0);
      if returnMsg.Success? && returnMsg.value.directive == "MOVE" && returnMsg.value.payload.Step? {
        step := (returnMsg.value.payload.dx, returnMsg.value.payload.dy);
        var loc := agent.location;
        if 0 <= loc.0 + step.0 && loc.0 + step.0 <= gridDimension - 1 {
          if 0 <= loc.1 + step.1 && loc.1 + step.1 <= gridDimension - 1 {
            var location := (loc.0 + step.0, loc.1 + step.1);
            agent.SetLocation(location);
            history := history[agent.name := history[agent.name] + [location]];
          } else {
            agent.SetLocation(loc);
            history := history[agent.name := history[agent.name] + [loc]];
          }
        } else {
          agent.SetLocation(loc);
          history := history[agent.name := history[agent.name] + [loc]];
        }
      }
    }

    /**
     * The body of run's loop for one point: the point's agents, in the
     * shuffled order, each take a turn knowing how many share the point.
     */
    method MovePoint(list: seq<Trader>, perm: seq<nat>, ds: seq<Draws>)
      requires DistinctNames(list) && IsPermutation(perm, |list|) && |ds| == |list|
      requires forall t :: t in list ==> t.name in history
      requires MinimaGiven(list)
      modifies this`history, list
      ensures history.Keys == old(history.Keys)
      ensures forall t :: t in list ==>
                && history[t.name] == old(history[t.name]) + [t.location]
                && Reachable(old(t.location), t.location, gridDimension)
                && t.numAtLoc == |list|
      ensures forall id :: id in history && id !in Names(list) ==> history[id] == old(history[id])
    {
      var agentOrder := Apply(list, perm);
      ApplyKeepsItems(list, perm);
      ShuffleKeepsNamesDistinct(list, perm);
      assert forall j :: 0 <= j < |agentOrder| ==> agentOrder[j] in list;
      TakeTurns(agentOrder, |list|, ds);
      forall id, i | id !in Names(list) && 0 <= i < |agentOrder|
        ensures Names(agentOrder)[i] != id
      {
        var k :| 0 <= k < |list| && list[k] == agentOrder[i];
        assert Names(list)[k] == agentOrder[i].name;
      }
    }

    /** The first j agents of order have taken their turn and the others have not moved; only
        their history entries differ from h0. */
    ghost predicate TurnsTaken(order: seq<Trader>, j: int, count: int, h0: map<string, seq<Point>>, locs0: seq<Point>)
      reads this`history, order
      requires 0 <= j <= |order| == |locs0|
    {
      TurnsTakenIn(Names(order), j, count, history, Locations(order), NumsAtLoc(order), h0, locs0, gridDimension)
    }

    /** The turns of one point's agents, in the shuffled order. */
    method TakeTurns(order: seq<Trader>, count: int, ds: seq<Draws>)
      requires DistinctNames(order) && |ds| == |order|
      requires forall t :: t in order ==> t.name in history
      requires MinimaGiven(order)
      modifies this`history, order
      ensures history.Keys == old(history.Keys)
      ensures forall t :: t in order ==>
                && history[t.name] == old(history[t.name]) + [t.location]
                && Reachable(old(t.location), t.location, gridDimension)
                && t.numAtLoc == count
      ensures forall id :: id in history && id !in Names(order) ==> history[id] == old(history[id])
    {
      ghost var h0, locs0 := history, Locations(order);
      assert order[..0] == [];
      for j := 0 to |order|
        invariant TurnsTaken(order, j, count, h0, locs0)
      {
        TakeTurn(order, j, count, ds[j], h0, locs0);
      }
      assert order[..|order|] == order;
      forall t | t in order
        ensures && history[t.name] == old(history[t.name]) + [t.location]
                && Reachable(old(t.location), t.location, gridDimension)
                && t.numAtLoc == count
      {
        var i :| 0 <= i < |order| && order[i] == t;
      }
    }

    /** The j-th turn of TakeTurns: only the j-th agent and its history entry change. */
    method TakeTurn(order: seq<Trader>, j: int, count: int, d: Draws,
                    ghost h0: map<string, seq<Point>>, ghost locs0: seq<Point>)
      requires 0 <= j < |order| && DistinctNames(order) && |locs0| == |order| && MinimaGiven(order)
      requires forall t :: t in order ==> t.name in h0
      requires TurnsTaken(order, j, count, h0, locs0)
      modifies this`history, order[j]
      ensures TurnsTaken(order, j + 1, count, h0, locs0)
    {
      var agent := order[j];
      ghost var h, locs, nums := history, Locations(order), NumsAtLoc(order);
      var step := Turn(agent, count, d);
      LandingIsReachable(locs0[j], step.0, step.1, gridDimension);
      assert Locations(order) == locs[j := agent.location] && NumsAtLoc(order) == nums[j := count] by {
        forall i | 0 <= i < |order| && i != j
          ensures order[i] != agent
        {
          assert order[i].name != agent.name;
        }
      }
      TurnAdvances(Names(order), j, count, h, locs, nums, h0, locs0, gridDimension, agent.location);
    }

    /**
     * run, once the agents are placed: every agent takes exactly one turn,
     * so its history gains exactly one location, the one it ends at, which is
     * its old location or a neighbouring point of the grid; it was told how
     * many agents shared its old point; and the grid is rebuilt from the new
     * locations.
     */
    method Run(perms: seq<seq<nat>>, draws: seq<seq<Draws>>)
      requires Placed() && DistinctNames(agents) && MinimaGiven(agents)
      requires forall i :: 0 <= i < |agents| ==> agents[i].name in history
      requires |perms| == |gridKeys| && |draws| == |gridKeys|
      requires forall k :: 0 <= k < |gridKeys| ==>
                 IsPermutation(perms[k], |grid[gridKeys[k]]|) && |draws[k]| == |grid[gridKeys[k]]|
      modifies this`grid, this`gridKeys, this`history, agents
      ensures Placed()
      ensures history.Keys == old(history.Keys)
      ensures forall i :: 0 <= i < |agents| ==>
                history[agents[i].name] == old(history[agents[i].name]) + [agents[i].location]
      ensures forall i :: 0 <= i < |agents| ==> Reachable(old(agents[i].location), agents[i].location, gridDimension)
      ensures forall i :: 0 <= i < |agents| ==> agents[i].numAtLoc == |old(grid[agents[i].location])|
      ensures forall id :: id in history && id !in Names(agents) ==> history[id] == old(history[id])
    {
      VisitAll(perms, draws);
      Regrid();
    }

    /** run's loop, once each agent's location is tied to the position of its point among the grid's keys. */
    method VisitAll(perms: seq<seq<nat>>, draws: seq<seq<Draws>>)
      requires Placed() && DistinctNames(agents) && MinimaGiven(agents)
      requires forall i :: 0 <= i < |agents| ==> agents[i].name in history
      requires |perms| == |gridKeys| && |draws| == |gridKeys|
      requires forall k :: 0 <= k < |gridKeys| ==>
                 IsPermutation(perms[k], |grid[gridKeys[k]]|) && |draws[k]| == |grid[gridKeys[k]]|
      modifies this`history, agents
      ensures history.Keys == old(history.Keys)
      ensures forall i :: 0 <= i < |agents| ==>
                history[agents[i].name] == old(history[agents[i].name]) + [agents[i].location]
      ensures forall i :: 0 <= i < |agents| ==> Reachable(old(agents[i].location), agents[i].location, gridDimension)
      ensures forall i :: 0 <= i < |agents| ==> agents[i].numAtLoc == |old(grid[agents[i].location])|
      ensures forall id :: id in history && id !in Names(agents) ==> history[id] == old(history[id])
    {
      ghost var locs := Locations(agents);
      PlacedGrid(gridKeys, grid, agents, locs);
      ghost var pos := PositionsIn(gridKeys, locs);
      VisitKeys(perms, draws, locs, pos, history);
    }

    /** The first k keys of the grid have been visited: every agent standing on one of them (its
        key position is below k) has taken its turn, told how many shared its point, and every
        other agent stands where it stood; no history entry but theirs has changed since h0. */
    ghost predicate KeysVisited(k: int, locs: seq<Point>, pos: seq<nat>, h0: map<string, seq<Point>>)
      reads this, agents
      requires |locs| == |agents| && |pos| == |agents|
    {
      && history.Keys == h0.Keys
      && (forall i :: 0 <= i < |agents| && pos[i] < k ==>
            && agents[i].name in history && agents[i].name in h0
            && history[agents[i].name] == h0[agents[i].name] + [agents[i].location]
            && Reachable(locs[i], agents[i].location, gridDimension)
            && locs[i] in grid && agents[i].numAtLoc == |grid[locs[i]]|)
      && (forall i :: 0 <= i < |agents| && k <= pos[i] ==>
            && agents[i].name in history && agents[i].name in h0
            && agents[i].location == locs[i] && history[agents[i].name] == h0[agents[i].name])
      && (forall id :: id in history && id !in Names(agents) ==> id in h0 && history[id] == h0[id])
    }

    /** run's loop over the grid's keys, in key order. */
    method VisitKeys(perms: seq<seq<nat>>, draws: seq<seq<Draws>>, ghost locs: seq<Point>, ghost pos: seq<nat>,
                     ghost h0: map<string, seq<Point>>)
      requires Ordered(gridKeys, grid) && DistinctNames(agents) && MinimaGiven(agents)
      requires |perms| == |gridKeys| && |draws| == |gridKeys|
      requires forall k :: 0 <= k < |gridKeys| ==>
                 IsPermutation(perms[k], |grid[gridKeys[k]]|) && |draws[k]| == |grid[gridKeys[k]]|
      requires |locs| == |agents| && forall i :: 0 <= i < |agents| ==> agents[i].location == locs[i]
      requires |pos| == |agents| && forall i :: 0 <= i < |agents| ==> pos[i] < |gridKeys| && gridKeys[pos[i]] == locs[i]
      requires forall q :: q in grid ==> grid[q] == AtPoint(agents, locs, q)
      requires history == h0 && forall i :: 0 <= i < |agents| ==> agents[i].name in h0
      modifies this`history, agents
      ensures history.Keys == old(history.Keys)
      ensures forall i :: 0 <= i < |agents| ==>
                history[agents[i].name] == old(history[agents[i].name]) + [agents[i].location]
      ensures forall i :: 0 <= i < |agents| ==> Reachable(old(agents[i].location), agents[i].location, gridDimension)
      ensures forall i :: 0 <= i < |agents| ==> agents[i].numAtLoc == |old(grid[agents[i].location])|
      ensures forall id :: id in history && id !in Names(agents) ==> history[id] == old(history[id])
    {
      VisitEachKey(perms, draws, locs, pos, h0);
      forall i | 0 <= i < |agents|
        ensures locs[i] == old(agents[i].location)
      {
      }
    }

    /** The loop itself: after it every key has been visited. */
    method VisitEachKey(perms: seq<seq<nat>>, draws: seq<seq<Draws>>, ghost locs: seq<Point>, ghost pos: seq<nat>,
                        ghost h0: map<string, seq<Point>>)
      requires Ordered(gridKeys, grid) && DistinctNames(agents) && MinimaGiven(agents)
      requires |perms| == |gridKeys| && |draws| == |gridKeys|
      requires forall k :: 0 <= k < |gridKeys| ==>
                 IsPermutation(perms[k], |grid[gridKeys[k]]|) && |draws[k]| == |grid[gridKeys[k]]|
      requires |locs| == |agents|
      requires |pos| == |agents| && forall i :: 0 <= i < |agents| ==> pos[i] < |gridKeys| && gridKeys[pos[i]] == locs[i]
      requires forall q :: q in grid ==> grid[q] == AtPoint(agents, locs, q)
      requires KeysVisited(0, locs, pos, h0)
      modifies this`history, agents
      ensures KeysVisited(|gridKeys|, locs, pos, h0)
    {
      for k := 0 to |gridKeys|
        invariant KeysVisited(k, locs, pos, h0)
      {
        VisitPoint(k, perms[k], draws[k], locs, pos, h0);
      }
    }

    /** The end of run: the grid is emptied and rebuilt from the agents' new locations. */
    method Regrid()
      modifies this`grid, this`gridKeys
      ensures Placed()
    {
      grid, gridKeys := map[], [];
      LocateAgents();
      LocateGathers([], map[], agents, Locations(agents));
    }

    /** The k-th point of run's loop, with the bookkeeping that ties its agents back to the agent list. */
    method VisitPoint(k: int, perm: seq<nat>, ds: seq<Draws>, ghost locs: seq<Point>, ghost pos: seq<nat>,
                      ghost h0: map<string, seq<Point>>)
      requires 0 <= k < |gridKeys| && Ordered(gridKeys, grid) && DistinctNames(agents) && MinimaGiven(agents)
      requires |locs| == |agents|
      requires |pos| == |agents| && forall i :: 0 <= i < |agents| ==> pos[i] < |gridKeys| && gridKeys[pos[i]] == locs[i]
      requires forall q :: q in grid ==> grid[q] == AtPoint(agents, locs, q)
      requires IsPermutation(perm, |grid[gridKeys[k]]|) && |ds| == |grid[gridKeys[k]]|
      requires KeysVisited(k, locs, pos, h0)
      modifies this`history, agents
      ensures KeysVisited(k + 1, locs, pos, h0)
    {
      var list := grid[gridKeys[k]];
      PointList(agents, locs, pos, gridKeys, k);
      VisitList(k, list, perm, ds, locs, pos, h0);
    }

    /** The turns of the agents of the k-th point, whose list holds exactly the agents at key position k. */
    method VisitList(k: int, list: seq<Trader>, perm: seq<nat>, ds: seq<Draws>, ghost locs: seq<Point>,
                     ghost pos: seq<nat>, ghost h0: map<string, seq<Point>>)
      requires |locs| == |agents| && |pos| == |agents|
      requires DistinctNames(list) && IsPermutation(perm, |list|) && |ds| == |list|
      requires forall j :: 0 <= j < |list| ==> list[j] in agents
      requires MinimaGiven(agents)
      requires forall i :: 0 <= i < |agents| && pos[i] == k ==>
                 agents[i] in list && locs[i] in grid && grid[locs[i]] == list
      requires forall i :: 0 <= i < |agents| && pos[i] != k ==> agents[i] !in list && agents[i].name !in Names(list)
      requires forall id :: id !in Names(agents) ==> id !in Names(list)
      requires KeysVisited(k, locs, pos, h0)
      modifies this`history, agents
      ensures KeysVisited(k + 1, locs, pos, h0)
    {
      forall t | t in list
        ensures t.name in history
      {
        var i :| 0 <= i < |agents| && agents[i] == t;
      }
      MovePoint(list, perm, ds);
      forall i | 0 <= i < |agents| && k < pos[i]
        ensures agents[i].location == locs[i] && history[agents[i].name] == h0[agents[i].name]
      {
        assert agents[i] !in list && agents[i].name !in Names(list);
      }
      forall i | 0 <= i < |agents| && pos[i] == k
        ensures && history[agents[i].name] == h0[agents[i].name] + [agents[i].location]
                && Reachable(locs[i], agents[i].location, gridDimension)
                && agents[i].numAtLoc == |grid[locs[i]]|
      {
        assert agents[i] in list;
      }
    }
  }
}
