/** The engine's state and `place_grid_orders`: pending levels are tried
    nearest-to-price first, each is placed only if the balance check passes
    and the exchange answers with an order id, and nothing is written to the
    table. */
module Placement {
  import opened Basics
  import opened Grid
  import opened Balance
  import opened Ledger
  import StableSort

  /** The grids held in memory and the `grids` table. */
  datatype State = State(grids: Grids, table: Table)

  /** One symbol's grid and the table, part-way through a pass. */
  datatype Pass = Pass(grid: seq<Level>, table: Table)

  /** What `place_order` returned: the empty dictionary (the exchange raised),
      an order without an `id` entry, or an order with one. */
  datatype OrderReply = NoOrder | WithoutId | Placed(id: string)

  /** The exchange's answers while one pending level is tried: the balance
      the check fetched, and the placement reply, read only when the check
      passes. */
  datatype PlaceReply = PlaceReply(balance: BalanceReply, order: OrderReply)

  /** The `k`-th candidate's answers; past the end of the script the exchange
      raises, so the balance reads as 0.0 and no order comes back. */
  function PlaceReplyAt(replies: seq<PlaceReply>, k: nat): PlaceReply
  {
    if k < |replies| then replies[k] else PlaceReply(FetchFailed, NoOrder)
  }

  /** Positions of the levels whose status is exactly "pending", ascending. */
  function PendingPositions(grid: seq<Level>): (ps: seq<nat>)
    ensures forall k :: 0 <= k < |ps| ==> ps[k] < |grid| && grid[ps[k]].status == Pending
    ensures forall p :: 0 <= p < |grid| && grid[p].status == Pending ==> p in ps
    ensures StableSort.Ascending(ps)
  {
    if |grid| == 0 then []
    else
      var earlier := PendingPositions(grid[..|grid| - 1]);
      if grid[|grid| - 1].status == Pending then earlier + [|grid| - 1] else earlier
  }

  /** Each level's distance from the current price, the sort key. */
  function Distances(grid: seq<Level>, current: real): (keys: seq<real>)
    ensures |keys| == |grid|
    ensures forall k :: 0 <= k < |grid| ==> keys[k] == Abs(grid[k].price - current)
  {
    seq(|grid|, k requires 0 <= k < |grid| => Abs(grid[k].price - current))
  }

  /** Python truthiness of the current price: known and not zero. */
  predicate PriceKnown(current: Option<real>)
  {
    current.Some? && current.value != 0.0
  }

  /** The order the pending levels are tried in: nearest the current price
      first (stable) when the price is known, table order otherwise. */
  function PlacementOrder(grid: seq<Level>, current: Option<real>): (ps: seq<nat>)
    ensures forall k :: 0 <= k < |ps| ==> ps[k] < |grid|
    ensures multiset(ps) == multiset(PendingPositions(grid))
    ensures PriceKnown(current) ==> StableSort.SortedByKey(ps, Distances(grid, current.value))
    ensures !PriceKnown(current) ==> ps == PendingPositions(grid)
  {
    var pending := PendingPositions(grid);
    if PriceKnown(current) then
      var keys := Distances(grid, current.value);
      StableSort.SortIsOrdered(pending, keys);
      StableSort.Sort(pending, keys)
    else pending
  }

  /** Trying one level: it becomes active with the returned order id exactly
      when the balance check passes and the exchange returns an order with an
      `id`; otherwise it is left as it was. */
  function Attempt(symbol: string, l: Level, reply: PlaceReply): (r: Level)
    ensures Sufficient(symbol, l.side, l.amount, l.price, reply.balance) && reply.order.Placed? ==>
      r == l.(orderId := Stored(Some(reply.order.id)), status := Active)
    ensures !(Sufficient(symbol, l.side, l.amount, l.price, reply.balance) && reply.order.Placed?) ==> r == l
  {
    if Sufficient(symbol, l.side, l.amount, l.price, reply.balance) then
      match reply.order
      case Placed(id) => l.(orderId := Stored(Some(id)), status := Active)
      case _ => l
    else l
  }

  /** The placement loop from candidate `j` of `order` on; candidate `j`
      reads reply `j`. */
  function PlaceInOrder(symbol: string, grid: seq<Level>, order: seq<nat>, replies: seq<PlaceReply>, j: nat): (r: seq<Level>)
    requires j <= |order|
    requires forall k :: 0 <= k < |order| ==> order[k] < |grid|
    ensures |r| == |grid|
    decreases |order| - j
  {
    if j == |order| then grid
    else
      var p := order[j];
      PlaceInOrder(symbol, grid[p := Attempt(symbol, grid[p], PlaceReplyAt(replies, j))], order, replies, j + 1)
  }

  /** A position no remaining candidate names keeps its level. */
  lemma {:induction false} PlaceInOrderSkips(symbol: string, grid: seq<Level>, order: seq<nat>, replies: seq<PlaceReply>, j: nat, p: nat)
    requires j <= |order|
    requires forall k :: 0 <= k < |order| ==> order[k] < |grid|
    requires p < |grid|
    requires forall i :: j <= i < |order| ==> order[i] != p
    ensures PlaceInOrder(symbol, grid, order, replies, j)[p] == grid[p]
    decreases |order| - j
  {
    if j < |order| {
      var q := order[j];
      var g1 := grid[q := Attempt(symbol, grid[q], PlaceReplyAt(replies, j))];
      PlaceInOrderSkips(symbol, g1, order, replies, j + 1, p);
    }
  }

  /** A remaining candidate named only once is tried once, with its own reply
      and against its level as it was before the loop. */
  lemma {:induction false} PlaceInOrderVisits(symbol: string, grid: seq<Level>, order: seq<nat>, replies: seq<PlaceReply>, j: nat, k: nat)
    requires j <= k < |order|
    requires forall m :: 0 <= m < |order| ==> order[m] < |grid|
    requires forall i :: j <= i < |order| && i != k ==> order[i] != order[k]
    ensures PlaceInOrder(symbol, grid, order, replies, j)[order[k]]
         == Attempt(symbol, grid[order[k]], PlaceReplyAt(replies, k))
    decreases |order| - j
  {
    var q := order[j];
    var g1 := grid[q := Attempt(symbol, grid[q], PlaceReplyAt(replies, j))];
    if j == k {
      PlaceInOrderSkips(symbol, g1, order, replies, j + 1, q);
    } else {
      PlaceInOrderVisits(symbol, g1, order, replies, j + 1, k);
    }
  }

  /** The whole loop over a duplicate-free order: candidate `k` is tried with
      reply `k`; a position that is no candidate keeps its level. */
  lemma PlaceInOrderEffect(symbol: string, grid: seq<Level>, order: seq<nat>, replies: seq<PlaceReply>)
    requires forall k :: 0 <= k < |order| ==> order[k] < |grid|
    requires forall i, j :: 0 <= i < j < |order| ==> order[i] != order[j]
    ensures var r := PlaceInOrder(symbol, grid, order, replies, 0);
      && (forall k :: 0 <= k < |order| ==> r[order[k]] == Attempt(symbol, grid[order[k]], PlaceReplyAt(replies, k)))
      && (forall p :: 0 <= p < |grid| && p !in order ==> r[p] == grid[p])
  {
    forall k | 0 <= k < |order|
      ensures PlaceInOrder(symbol, grid, order, replies, 0)[order[k]]
           == Attempt(symbol, grid[order[k]], PlaceReplyAt(replies, k))
    {
      PlaceInOrderVisits(symbol, grid, order, replies, 0, k);
    }
    forall p | 0 <= p < |grid| && p !in order
      ensures PlaceInOrder(symbol, grid, order, replies, 0)[p] == grid[p]
    {
      PlaceInOrderSkips(symbol, grid, order, replies, 0, p);
    }
  }

  lemma DistinctOrder(grid: seq<Level>, current: Option<real>)
    ensures var ps := PlacementOrder(grid, current);
      && (forall i, j :: 0 <= i < j < |ps| ==> ps[i] != ps[j])
      && (forall k :: 0 <= k < |ps| ==> ps[k] < |grid| && grid[ps[k]].status == Pending)
      && (forall p :: 0 <= p < |grid| && grid[p].status == Pending ==> p in ps)
  {
    var ps := PlacementOrder(grid, current);
    var pending := PendingPositions(grid);
    forall k | 0 <= k < |ps|
      ensures ps[k] < |grid| && grid[ps[k]].status == Pending
    {
      assert ps[k] in multiset(pending);
    }
    forall p | 0 <= p < |grid| && grid[p].status == Pending
      ensures p in ps
    {
      assert p in multiset(pending);
    }
    forall i, j | 0 <= i < j < |ps|
      ensures ps[i] != ps[j]
    {
      if PriceKnown(current) {
        assert StableSort.Before(Distances(grid, current.value), ps[i], ps[j]);
      }
    }
  }

  /** The new grid of one `place_grid_orders` call. */
  function PlacedGrid(symbol: string, grid: seq<Level>, quote: Quote, replies: seq<PlaceReply>): (r: seq<Level>)
    ensures |r| == |grid|
  {
    var order := PlacementOrder(grid, LastPrice(quote));
    PlaceInOrder(symbol, grid, order, replies, 0)
  }

  /** `place_grid_orders(symbol)`. The closing `save_grid_to_db(symbol)` call
      lacks its grid argument; the resulting `TypeError` is swallowed, so the
      table is returned unchanged. */
  function PlaceGridOrders(symbol: string, s: State, quote: Quote, replies: seq<PlaceReply>): (r: State)
    ensures r.table == s.table
    ensures r.grids.Keys == s.grids.Keys
    ensures forall other :: other in s.grids && other != symbol ==> r.grids[other] == s.grids[other]
    ensures symbol !in s.grids ==> r == s
    ensures symbol in s.grids ==> |r.grids[symbol]| == |s.grids[symbol]|
  {
    if symbol !in s.grids then s
    else State(s.grids[symbol := PlacedGrid(symbol, s.grids[symbol], quote, replies)], s.table)
  }

  /** What one placement pass does to each level: only "pending" levels are
      tried; a tried level is left as it was or becomes "active" with an order
      id and no other field changed; and it becomes active exactly when its
      own balance check passes and its own reply carries an id. */
  lemma PlacementEffect(symbol: string, grid: seq<Level>, quote: Quote, replies: seq<PlaceReply>)
    ensures var order := PlacementOrder(grid, LastPrice(quote));
      var r := PlacedGrid(symbol, grid, quote, replies);
      && (forall p :: 0 <= p < |grid| && grid[p].status != Pending ==> r[p] == grid[p])
      && (forall k :: 0 <= k < |order| ==>
            var p := order[k];
            var reply := PlaceReplyAt(replies, k);
            var l := grid[p];
            && l.status == Pending
            && (Sufficient(symbol, l.side, l.amount, l.price, reply.balance) && reply.order.Placed? ==>
                  r[p] == l.(orderId := Stored(Some(reply.order.id)), status := Active))
            && (!(Sufficient(symbol, l.side, l.amount, l.price, reply.balance) && reply.order.Placed?) ==>
                  r[p] == l))
  {
    var order := PlacementOrder(grid, LastPrice(quote));
    DistinctOrder(grid, LastPrice(quote));
    PlaceInOrderEffect(symbol, grid, order, replies);
  }

  /** Every level a placement pass changes was pending and is now active with
      an order id, its price, amount, level number and side kept. */
  lemma PlacementOnlyActivates(symbol: string, grid: seq<Level>, quote: Quote, replies: seq<PlaceReply>, p: nat)
    requires p < |grid|
    ensures var r := PlacedGrid(symbol, grid, quote, replies);
      r[p] == grid[p] ||
      (&& grid[p].status == Pending
       && r[p].status == Active
       && r[p].orderId.Stored? && r[p].orderId.id.Some?
       && r[p] == grid[p].(orderId := r[p].orderId, status := Active))
  {
    var order := PlacementOrder(grid, LastPrice(quote));
    PlacementEffect(symbol, grid, quote, replies);
    DistinctOrder(grid, LastPrice(quote));
    PlaceInOrderEffect(symbol, grid, order, replies);
    if grid[p].status == Pending {
      var k :| 0 <= k < |order| && order[k] == p;
    }
  }

  /** With a known price the candidates are tried nearest first, and two
      candidates equally far from the price are tried in grid order. */
  lemma NearestFirst(grid: seq<Level>, current: real, i: nat, j: nat)
    requires current != 0.0
    requires i < j < |PlacementOrder(grid, Some(current))|
    ensures var order := PlacementOrder(grid, Some(current));
      && Abs(grid[order[i]].price - current) <= Abs(grid[order[j]].price - current)
      && (Abs(grid[order[i]].price - current) == Abs(grid[order[j]].price - current) ==> order[i] < order[j])
  {
    var order := PlacementOrder(grid, Some(current));
    assert StableSort.Before(Distances(grid, current), order[i], order[j]);
  }
}
