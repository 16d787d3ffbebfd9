/** The `grids` table: one row per saved level, kept in insertion order (the
    auto-increment id). The table has no uniqueness constraint: saving inserts
    blindly, and the two updates rewrite every row of a (symbol, level, side)
    identity at once. */
module Ledger {
  import opened Basics
  import opened Grid
  import StableSort

  datatype Row = Row(
    symbol: string,
    level: nat,
    side: Side,
    amount: real,
    price: real,
    orderId: Option<string>,
    status: string)

  type Table = seq<Row>

  /** The row belongs to identity (symbol, level, side). */
  predicate Matches(r: Row, symbol: string, level: nat, side: Side)
  {
    r.symbol == symbol && r.level == level && r.side == side
  }

  /** The row `save_grid_to_db` inserts for a level: the status column takes
      its default "pending" and `order_id` stays NULL. */
  function InsertedRow(symbol: string, l: Level): Row
  {
    Row(symbol, l.level, l.side, l.amount, l.price, None, Pending)
  }

  /** `save_grid_to_db(symbol, grid)`: one INSERT per level, in grid order. */
  function SaveGrid(t: Table, symbol: string, grid: seq<Level>): (t': Table)
    ensures |t'| == |t| + |grid|
    ensures t'[..|t|] == t
    ensures forall k :: 0 <= k < |grid| ==> t'[|t| + k] == InsertedRow(symbol, grid[k])
    decreases |grid|
  {
    if |grid| == 0 then t
    else SaveGrid(t + [InsertedRow(symbol, grid[0])], symbol, grid[1..])
  }

  /** `update_order_status_in_db`: every row of the identity gets the new
      status; other rows and other columns are untouched. */
  function UpdateStatus(t: Table, symbol: string, level: nat, side: Side, status: string): (t': Table)
    ensures |t'| == |t|
    ensures forall k :: 0 <= k < |t| ==>
      t'[k] == if Matches(t[k], symbol, level, side) then t[k].(status := status) else t[k]
  {
    if |t| == 0 then []
    else
      var head := if Matches(t[0], symbol, level, side) then t[0].(status := status) else t[0];
      [head] + UpdateStatus(t[1..], symbol, level, side, status)
  }

  /** `update_order_in_db`: every row of the identity gets the new price,
      order id and status. */
  function UpdateOrder(t: Table, symbol: string, level: nat, side: Side, price: real, orderId: Option<string>, status: string): (t': Table)
    ensures |t'| == |t|
    ensures forall k :: 0 <= k < |t| ==>
      t'[k] == if Matches(t[k], symbol, level, side) then t[k].(price := price, orderId := orderId, status := status) else t[k]
  {
    if |t| == 0 then []
    else
      var head := if Matches(t[0], symbol, level, side) then t[0].(price := price, orderId := orderId, status := status) else t[0];
      [head] + UpdateOrder(t[1..], symbol, level, side, price, orderId, status)
  }

  /** Number of rows of an identity. */
  function CountRows(t: Table, symbol: string, level: nat, side: Side): nat
  {
    if |t| == 0 then 0
    else (if Matches(t[0], symbol, level, side) then 1 else 0) + CountRows(t[1..], symbol, level, side)
  }

  /** Number of levels of a grid with a given level number and side. */
  function CountLevels(grid: seq<Level>, level: nat, side: Side): nat
  {
    if |grid| == 0 then 0
    else (if grid[0].level == level && grid[0].side == side then 1 else 0) + CountLevels(grid[1..], level, side)
  }

  lemma {:induction false} CountRowsAppend(a: Table, b: Table, symbol: string, level: nat, side: Side)
    ensures CountRows(a + b, symbol, level, side) == CountRows(a, symbol, level, side) + CountRows(b, symbol, level, side)
  {
    if |a| == 0 {
      assert a + b == b;
    } else {
      assert (a + b)[0] == a[0];
      assert (a + b)[1..] == a[1..] + b;
      CountRowsAppend(a[1..], b, symbol, level, side);
    }
  }

  /** Saving adds, for each identity, exactly as many rows as the grid has
      levels of it, and never merges with rows already there. */
  lemma {:induction false} SaveAddsRows(t: Table, symbol: string, grid: seq<Level>, level: nat, side: Side)
    ensures CountRows(SaveGrid(t, symbol, grid), symbol, level, side)
         == CountRows(t, symbol, level, side) + CountLevels(grid, level, side)
    decreases |grid|
  {
    if |grid| > 0 {
      var row := InsertedRow(symbol, grid[0]);
      SaveAddsRows(t + [row], symbol, grid[1..], level, side);
      CountRowsAppend(t, [row], symbol, level, side);
      assert [row][1..] == [];
    }
  }

  /** Saving the same grid twice leaves two rows for every identity it holds. */
  lemma SavingTwiceDuplicates(symbol: string, grid: seq<Level>, k: nat)
    requires k < |grid|
    ensures var l := grid[k];
      CountRows(SaveGrid(SaveGrid([], symbol, grid), symbol, grid), symbol, l.level, l.side) >= 2
  {
    var l := grid[k];
    SaveAddsRows([], symbol, grid, l.level, l.side);
    SaveAddsRows(SaveGrid([], symbol, grid), symbol, grid, l.level, l.side);
    LevelCounted(grid, k);
  }

  lemma {:induction false} LevelCounted(grid: seq<Level>, k: nat)
    requires k < |grid|
    ensures CountLevels(grid, grid[k].level, grid[k].side) >= 1
  {
    if k > 0 {
      LevelCounted(grid[1..], k - 1);
    }
  }

  /** An update of an identity the table does not hold changes nothing: the
      updates never insert. */
  lemma {:induction false} UpdateOfAbsentIdentity(t: Table, symbol: string, level: nat, side: Side, price: real, orderId: Option<string>, status: string)
    requires CountRows(t, symbol, level, side) == 0
    ensures UpdateStatus(t, symbol, level, side, status) == t
    ensures UpdateOrder(t, symbol, level, side, price, orderId, status) == t
  {
    if |t| > 0 {
      UpdateOfAbsentIdentity(t[1..], symbol, level, side, price, orderId, status);
    }
  }

  /** Writing the same status twice is the same as writing it once. */
  lemma UpdateStatusIdempotent(t: Table, symbol: string, level: nat, side: Side, status: string)
    ensures UpdateStatus(UpdateStatus(t, symbol, level, side, status), symbol, level, side, status)
         == UpdateStatus(t, symbol, level, side, status)
  {
  }

  // ---- Loading ----

  /** `SELECT DISTINCT symbol FROM grids`, in order of first appearance. */
  function DistinctSymbols(t: Table): (symbols: seq<string>)
    ensures forall s :: s in symbols <==> exists k :: 0 <= k < |t| && t[k].symbol == s
    ensures forall i, j :: 0 <= i < j < |symbols| ==> symbols[i] != symbols[j]
  {
    if |t| == 0 then []
    else
      var earlier := DistinctSymbols(t[..|t| - 1]);
      assert forall k :: 0 <= k < |t| - 1 ==> t[..|t| - 1][k] == t[k];
      if t[|t| - 1].symbol in earlier then earlier else earlier + [t[|t| - 1].symbol]
  }

  /** Positions of a symbol's rows, ascending. */
  function RowsOf(t: Table, symbol: string): (ps: seq<nat>)
    ensures forall k :: 0 <= k < |ps| ==> ps[k] < |t| && t[ps[k]].symbol == symbol
    ensures forall p :: 0 <= p < |t| && t[p].symbol == symbol ==> p in ps
  {
    if |t| == 0 then []
    else
      var earlier := RowsOf(t[..|t| - 1], symbol);
      if t[|t| - 1].symbol == symbol then earlier + [|t| - 1] else earlier
  }

  /** The positions come out in table order, each once. */
  lemma {:induction false} RowsOfAscending(t: Table, symbol: string)
    ensures StableSort.Ascending(RowsOf(t, symbol))
  {
    if |t| > 0 {
      var front := t[..|t| - 1];
      RowsOfAscending(front, symbol);
      var earlier := RowsOf(front, symbol);
      assert forall k :: 0 <= k < |earlier| ==> earlier[k] < |t| - 1;
    }
  }

  /** `ORDER BY level, side` as one number: "buy" sorts before "sell". */
  function SideRank(side: Side): nat
  {
    if side == Buy then 0 else 1
  }

  function Rank(r: Row): real
  {
    (2 * r.level + SideRank(r.side)) as real
  }

  /** The rank orders rows exactly as `ORDER BY level, side` does. */
  lemma RankIsLevelThenSide(a: Row, b: Row)
    ensures Rank(a) < Rank(b) <==> a.level < b.level || (a.level == b.level && a.side == Buy && b.side == Sell)
    ensures Rank(a) == Rank(b) <==> a.level == b.level && a.side == b.side
  {
  }

  function Ranks(t: Table): (keys: seq<real>)
    ensures |keys| == |t|
    ensures forall k :: 0 <= k < |t| ==> keys[k] == Rank(t[k])
  {
    seq(|t|, k requires 0 <= k < |t| => Rank(t[k]))
  }

  /** The level dictionary built from a selected row: the `order_id` entry is
      always present, possibly `None`. */
  function LoadedLevel(r: Row): Level
  {
    Level(r.level, r.side, r.price, r.amount, Stored(r.orderId), r.status)
  }

  /** Positions of a symbol's rows in `ORDER BY level, side` order; rows of
      the same identity stay in insertion order. */
  function LoadOrder(t: Table, symbol: string): (ps: seq<nat>)
    ensures StableSort.InRange(ps, Ranks(t))
    ensures |ps| == |RowsOf(t, symbol)|
  {
    StableSort.Sort(RowsOf(t, symbol), Ranks(t))
  }

  /** The load order is a reordering of the symbol's rows, sorted by level
      and then side. */
  lemma LoadOrderSortsRows(t: Table, symbol: string)
    ensures var ps := LoadOrder(t, symbol);
      && StableSort.SortedByKey(ps, Ranks(t))
      && multiset(ps) == multiset(RowsOf(t, symbol))
      && (forall e :: e in ps <==> e in RowsOf(t, symbol))
  {
    RowsOfAscending(t, symbol);
    StableSort.SortIsOrdered(RowsOf(t, symbol), Ranks(t));
  }

  /** The grid loaded for one symbol. */
  function LoadGrid(t: Table, symbol: string): (grid: seq<Level>)
    ensures |grid| == |RowsOf(t, symbol)|
  {
    var ps := LoadOrder(t, symbol);
    seq(|ps|, k requires 0 <= k < |ps| => LoadedLevel(t[ps[k]]))
  }

  datatype Loaded = Loaded(grids: Grids, order: seq<string>, found: bool)

  /** `load_existing_grids`: a grid for every symbol the table mentions, in
      first-appearance order, and whether there was any. */
  function LoadExistingGrids(t: Table): (r: Loaded)
    ensures r.found <==> |t| > 0
    ensures r.grids.Keys == set s | s in r.order
    ensures forall s :: s in r.grids <==> exists k :: 0 <= k < |t| && t[k].symbol == s
  {
    var symbols := DistinctSymbols(t);
    assert |t| > 0 ==> t[0].symbol in symbols;
    Loaded(map s | s in symbols :: LoadGrid(t, s), symbols, |symbols| > 0)
  }

  /** Every loaded grid is non-empty, so the `if grid:` guard never skips a
      symbol. */
  lemma LoadedGridsNonEmpty(t: Table, symbol: string)
    requires symbol in LoadExistingGrids(t).grids
    ensures |LoadExistingGrids(t).grids[symbol]| > 0
  {
    var k :| 0 <= k < |t| && t[k].symbol == symbol;
    assert k in RowsOf(t, symbol);
  }

  /** A loaded grid is ordered by level and then side, so for one level the
      buy rung comes before the sell rung. */
  lemma LoadedGridOrdered(t: Table, symbol: string, i: nat, j: nat)
    requires i < j < |LoadGrid(t, symbol)|
    ensures var g := LoadGrid(t, symbol);
      g[i].level < g[j].level || (g[i].level == g[j].level && SideRank(g[i].side) <= SideRank(g[j].side))
  {
    var ps := LoadOrder(t, symbol);
    LoadOrderSortsRows(t, symbol);
    assert StableSort.Before(Ranks(t), ps[i], ps[j]);
    RankIsLevelThenSide(t[ps[i]], t[ps[j]]);
  }

  /** A loaded grid holds exactly the symbol's rows, each once: level `k` of
      the grid is row `LoadOrder[k]`, and every row of the symbol is some
      level of the grid. */
  lemma LoadedGridIsTheRows(t: Table, symbol: string)
    ensures var ps := LoadOrder(t, symbol);
      var g := LoadGrid(t, symbol);
      && |g| == |ps|
      && (forall k :: 0 <= k < |ps| ==> ps[k] < |t| && t[ps[k]].symbol == symbol && g[k] == LoadedLevel(t[ps[k]]))
      && (forall p :: 0 <= p < |t| && t[p].symbol == symbol ==> p in ps)
      && (forall i, j :: 0 <= i < j < |ps| ==> ps[i] != ps[j])
  {
    var ps := LoadOrder(t, symbol);
    var rows := RowsOf(t, symbol);
    LoadOrderSortsRows(t, symbol);
    forall k | 0 <= k < |ps|
      ensures ps[k] < |t| && t[ps[k]].symbol == symbol
    {
      assert ps[k] in multiset(rows);
    }
    forall p | 0 <= p < |t| && t[p].symbol == symbol
      ensures p in ps
    {
      assert p in multiset(rows);
    }
    forall i, j | 0 <= i < j < |ps|
      ensures ps[i] != ps[j]
    {
      assert StableSort.Before(Ranks(t), ps[i], ps[j]);
    }
  }
}
