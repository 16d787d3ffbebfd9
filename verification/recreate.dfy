/** `check_and_recreate_orders`: every level that is not a live order is
    re-priced around the current price, reset to "pending" without an order
    id in memory and in the table, and then offered to a placement pass. */
module Recreate {
  import opened Basics
  import opened Grid
  import opened Risk
  import opened Ladder
  import opened Ledger
  import opened Placement

  /** The level is rebuilt: its status is "filled", "canceled" or "pending",
      or its order id is missing, `None` or empty. */
  predicate NeedsReset(l: Level)
  {
    l.status == Filled || l.status == Canceled || l.status == Pending || !HasOrderId(l.orderId)
  }

  /** A level re-priced around `current` at its own level number's distance,
      pending and with `order_id` set to `None`. */
  function Reset(cfg: GridConfig, l: Level, current: real): Level
  {
    l.(price := LevelPrice(cfg, l.side, current, l.level), status := Pending, orderId := Stored(None))
  }

  /** The same reset, as `update_order_in_db` writes it to a row. */
  function ResetRow(cfg: GridConfig, r: Row, current: real): Row
  {
    r.(price := LevelPrice(cfg, r.side, current, r.level), orderId := None, status := Pending)
  }

  /** The reset loop from position `k` on. */
  function ResetFrom(cfg: GridConfig, symbol: string, grid: seq<Level>, table: Table, current: real, k: nat): (r: Pass)
    requires k <= |grid|
    ensures |r.grid| == |grid| && |r.table| == |table|
    decreases |grid| - k
  {
    if k == |grid| then Pass(grid, table)
    else if NeedsReset(grid[k]) then
      var l := grid[k];
      var l' := Reset(cfg, l, current);
      ResetFrom(cfg, symbol, grid[k := l'], UpdateOrder(table, symbol, l.level, l.side, l'.price, None, Pending), current, k + 1)
    else ResetFrom(cfg, symbol, grid, table, current, k + 1)
  }

  /** Some level at or after `k` is reset and has the row's identity. */
  predicate TouchedFrom(grid: seq<Level>, symbol: string, row: Row, k: nat)
  {
    exists i :: k <= i < |grid| && NeedsReset(grid[i]) && Matches(row, symbol, grid[i].level, grid[i].side)
  }

  lemma {:induction false} ResetFromGrid(cfg: GridConfig, symbol: string, grid: seq<Level>, table: Table, current: real, k: nat)
    requires k <= |grid|
    ensures var r := ResetFrom(cfg, symbol, grid, table, current, k);
      forall i :: 0 <= i < |grid| ==>
        r.grid[i] == if k <= i && NeedsReset(grid[i]) then Reset(cfg, grid[i], current) else grid[i]
    decreases |grid| - k
  {
    if k < |grid| {
      if NeedsReset(grid[k]) {
        var l := grid[k];
        var l' := Reset(cfg, l, current);
        ResetFromGrid(cfg, symbol, grid[k := l'], UpdateOrder(table, symbol, l.level, l.side, l'.price, None, Pending), current, k + 1);
      } else {
        ResetFromGrid(cfg, symbol, grid, table, current, k + 1);
      }
    }
  }

  lemma {:induction false} ResetFromTable(cfg: GridConfig, symbol: string, grid: seq<Level>, table: Table, current: real, k: nat)
    requires k <= |grid|
    ensures var r := ResetFrom(cfg, symbol, grid, table, current, k);
      forall j :: 0 <= j < |table| ==>
        r.table[j] == if TouchedFrom(grid, symbol, table[j], k) then ResetRow(cfg, table[j], current) else table[j]
    decreases |grid| - k
  {
    var r := ResetFrom(cfg, symbol, grid, table, current, k);
    if k < |grid| {
      if NeedsReset(grid[k]) {
        var l := grid[k];
        var l' := Reset(cfg, l, current);
        var g1 := grid[k := l'];
        var t1 := UpdateOrder(table, symbol, l.level, l.side, l'.price, None, Pending);
        ResetFromTable(cfg, symbol, g1, t1, current, k + 1);
        forall j | 0 <= j < |table|
          ensures r.table[j] == if TouchedFrom(grid, symbol, table[j], k) then ResetRow(cfg, table[j], current) else table[j]
        {
          var row := table[j];
          assert Matches(t1[j], symbol, l.level, l.side) <==> Matches(row, symbol, l.level, l.side);
          if Matches(row, symbol, l.level, l.side) {
            assert t1[j] == ResetRow(cfg, row, current);
            assert TouchedFrom(grid, symbol, row, k);
            if TouchedFrom(g1, symbol, t1[j], k + 1) {
              var i :| k + 1 <= i < |g1| && NeedsReset(g1[i]) && Matches(t1[j], symbol, g1[i].level, g1[i].side);
            }
          } else {
            assert t1[j] == row;
            if TouchedFrom(grid, symbol, row, k) {
              var i :| k <= i < |grid| && NeedsReset(grid[i]) && Matches(row, symbol, grid[i].level, grid[i].side);
              assert i != k;
              assert g1[i] == grid[i];
              assert TouchedFrom(g1, symbol, t1[j], k + 1);
            }
            if TouchedFrom(g1, symbol, t1[j], k + 1) {
              var i :| k + 1 <= i < |g1| && NeedsReset(g1[i]) && Matches(t1[j], symbol, g1[i].level, g1[i].side);
              assert g1[i] == grid[i];
            }
          }
        }
      } else {
        ResetFromTable(cfg, symbol, grid, table, current, k + 1);
        forall j | 0 <= j < |table|
          ensures TouchedFrom(grid, symbol, table[j], k) == TouchedFrom(grid, symbol, table[j], k + 1)
        {
          if TouchedFrom(grid, symbol, table[j], k) {
            var i :| k <= i < |grid| && NeedsReset(grid[i]) && Matches(table[j], symbol, grid[i].level, grid[i].side);
            assert i != k;
          }
        }
      }
    }
  }

  /** Some level of the grid needs a reset. */
  predicate AnyNeedsReset(grid: seq<Level>)
  {
    exists i :: 0 <= i < |grid| && NeedsReset(grid[i])
  }

  /** `check_and_recreate_orders(symbol)`. Nothing happens for an unknown
      symbol, when every level is a live order, or when the ticker has no last
      price; otherwise the reset is followed by `place_grid_orders`. The
      balance the function prints is left out. */
  function CheckAndRecreate(cfg: GridConfig, symbol: string, s: State, quote: Quote, placeQuote: Quote, placeReplies: seq<PlaceReply>): (r: State)
    ensures r.grids.Keys == s.grids.Keys
    ensures forall other :: other in s.grids && other != symbol ==> r.grids[other] == s.grids[other]
    ensures symbol in s.grids ==> |r.grids[symbol]| == |s.grids[symbol]|
    ensures |r.table| == |s.table|
    ensures symbol !in s.grids || !AnyNeedsReset(s.grids[symbol]) || LastPrice(quote).None? ==> r == s
  {
    if symbol !in s.grids then s
    else
      var grid := s.grids[symbol];
      if !AnyNeedsReset(grid) then s
      else
        match LastPrice(quote)
        case None => s
        case Some(current) =>
          var p := ResetFrom(cfg, symbol, grid, s.table, current, 0);
          PlaceGridOrders(symbol, State(s.grids[symbol := p.grid], p.table), placeQuote, placeReplies)
  }

  /** What a recreate pass does to memory: a level that is a live order is
      untouched; every other level is re-priced around the current price and
      is either pending with `order_id` `None`, or was just placed and is
      active with an order id. */
  lemma RecreateEffect(cfg: GridConfig, symbol: string, s: State, quote: Quote, placeQuote: Quote, placeReplies: seq<PlaceReply>)
    requires symbol in s.grids && LastPrice(quote).Some?
    ensures var grid := s.grids[symbol];
      var current := LastPrice(quote).value;
      var r := CheckAndRecreate(cfg, symbol, s, quote, placeQuote, placeReplies).grids[symbol];
      forall i :: 0 <= i < |grid| ==>
        if NeedsReset(grid[i]) then
          var reset := Reset(cfg, grid[i], current);
          r[i] == reset
          || (r[i].status == Active && r[i].orderId.Stored? && r[i].orderId.id.Some?
              && r[i] == reset.(orderId := r[i].orderId, status := Active))
        else r[i] == grid[i]
  {
    forall i | 0 <= i < |s.grids[symbol]|
    {
      RecreateLevel(cfg, symbol, s, quote, placeQuote, placeReplies, i);
    }
  }

  /** One level of a recreate pass: the reset, then at most an activation. */
  lemma RecreateLevel(cfg: GridConfig, symbol: string, s: State, quote: Quote, placeQuote: Quote, placeReplies: seq<PlaceReply>, i: nat)
    requires symbol in s.grids && LastPrice(quote).Some? && i < |s.grids[symbol]|
    ensures var grid := s.grids[symbol];
      var current := LastPrice(quote).value;
      var r := CheckAndRecreate(cfg, symbol, s, quote, placeQuote, placeReplies).grids[symbol];
      if NeedsReset(grid[i]) then
        var reset := Reset(cfg, grid[i], current);
        r[i] == reset
        || (r[i].status == Active && r[i].orderId.Stored? && r[i].orderId.id.Some?
            && r[i] == reset.(orderId := r[i].orderId, status := Active))
      else r[i] == grid[i]
  {
    var grid := s.grids[symbol];
    var current := LastPrice(quote).value;
    if AnyNeedsReset(grid) {
      var p := ResetFrom(cfg, symbol, grid, s.table, current, 0);
      ResetFromGrid(cfg, symbol, grid, s.table, current, 0);
      assert p.grid[i] == if NeedsReset(grid[i]) then Reset(cfg, grid[i], current) else grid[i];
      PlacementOnlyActivates(symbol, p.grid, placeQuote, placeReplies, i);
    }
  }

  /** What a recreate pass does to the table: every row of this symbol whose
      identity belongs to a reset level gets the new price, a NULL order id and
      "pending"; every other row is unchanged (the placement that follows
      writes nothing). */
  lemma RecreateTableEffect(cfg: GridConfig, symbol: string, s: State, quote: Quote, placeQuote: Quote, placeReplies: seq<PlaceReply>)
    requires symbol in s.grids && LastPrice(quote).Some?
    ensures var grid := s.grids[symbol];
      var current := LastPrice(quote).value;
      var r := CheckAndRecreate(cfg, symbol, s, quote, placeQuote, placeReplies).table;
      forall j :: 0 <= j < |s.table| ==>
        r[j] == if TouchedFrom(grid, symbol, s.table[j], 0) then ResetRow(cfg, s.table[j], current) else s.table[j]
  {
    var grid := s.grids[symbol];
    var current := LastPrice(quote).value;
    ResetFromTable(cfg, symbol, grid, s.table, current, 0);
    if !AnyNeedsReset(grid) {
      forall j | 0 <= j < |s.table|
        ensures !TouchedFrom(grid, symbol, s.table[j], 0)
      {
      }
    }
  }
}
