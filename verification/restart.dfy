/** What a restart sees: a grid written by `create_grid` and read back by
    `load_existing_grids`. */
module Restart {
  import opened Basics
  import opened Grid
  import opened Risk
  import opened Ladder
  import opened Ledger
  import opened Recreate
  import opened Supervisor
  import StableSort
  import Balance

  /** A table holding only one symbol's rows selects all of them, in order. */
  lemma {:induction false} RowsOfOwnTable(t: Table, symbol: string)
    requires forall k :: 0 <= k < |t| ==> t[k].symbol == symbol
    ensures |RowsOf(t, symbol)| == |t|
    ensures forall k :: 0 <= k < |t| ==> RowsOf(t, symbol)[k] == k
  {
    if |t| > 0 {
      RowsOfOwnTable(t[..|t| - 1], symbol);
    }
  }

  /** Buy level `i` at position `2i`, sell level `i` at position `2i + 1`:
      the positions of the saved ladder in `ORDER BY level, side` order. */
  function Interleaved(n: nat): (ps: seq<nat>)
    ensures |ps| == 2 * n
  {
    seq(2 * n, m requires 0 <= m < 2 * n => if m % 2 == 0 then m / 2 else n + m / 2)
  }

  /** Position `m` of the interleaved order: buy level `m / 2` at even
      positions, sell level `m / 2` (row `n + m / 2`) at odd ones. */
  lemma InterleavedAt(n: nat, m: nat)
    requires m < 2 * n
    ensures Interleaved(n)[m] == if m % 2 == 0 then m / 2 else n + m / 2
  {
  }

  lemma InterleavedPair(n: nat, i: nat)
    requires i < n
    ensures Interleaved(n)[2 * i] == i
    ensures Interleaved(n)[2 * i + 1] == n + i
  {
    InterleavedAt(n, 2 * i);
    InterleavedAt(n, 2 * i + 1);
  }

  /** A level as it comes back from the table after being saved: `order_id`
      present and `None`. */
  function Reloaded(l: Level): Level
  {
    l.(orderId := Stored(None))
  }

  /** The level dictionary read back for a saved level: the stored fields come
      back, `order_id` comes back as `None` and the status as the column
      default "pending". */
  lemma SavedLevelReadBack(symbol: string, l: Level)
    requires l.status == Pending
    ensures LoadedLevel(InsertedRow(symbol, l)) == Reloaded(l)
  {
  }

  /** The rank a saved ladder's row `k` has: `2k` for buy level `k`, `2i + 1`
      for sell level `i` at position `n + i`. */
  function LadderRank(n: nat, k: nat): real
  {
    if k < n then (2 * k) as real else (2 * (k - n) + 1) as real
  }

  /** The shape of a ladder `create_grid` builds with `n` levels a side:
      buy levels `0 .. n-1`, then sell levels `0 .. n-1`, all pending. */
  predicate LadderShaped(ladder: seq<Level>, n: nat)
  {
    && |ladder| == 2 * n
    && (forall k :: 0 <= k < n ==> ladder[k].side == Buy && ladder[k].level == k)
    && (forall k :: n <= k < 2 * n ==> ladder[k].side == Sell && ladder[k].level == k - n)
    && (forall k :: 0 <= k < 2 * n ==> ladder[k].status == Pending)
  }

  /** The built ladder has that shape. */
  lemma BuiltLadderShaped(cfg: GridConfig, current: real)
    requires current != 0.0
    ensures LadderShaped(BuildLadder(cfg, current), cfg.gridLevels)
  {
    LadderShape(cfg, current);
  }

  /** A saved ladder: one row per level, all of the symbol, ranked by
      `LadderRank`. */
  lemma SavedLadderRanks(symbol: string, ladder: seq<Level>, n: nat)
    requires LadderShaped(ladder, n)
    ensures var t := SaveGrid([], symbol, ladder);
      && |t| == 2 * n
      && (forall k :: 0 <= k < |t| ==> t[k] == InsertedRow(symbol, ladder[k]))
      && (forall k :: 0 <= k < |t| ==> t[k].symbol == symbol)
      && (forall k :: 0 <= k < |t| ==> Rank(t[k]) == LadderRank(n, k))
  {
    var t := SaveGrid([], symbol, ladder);
    forall k | 0 <= k < |t|
      ensures t[k] == InsertedRow(symbol, ladder[k])
    {
      assert t[0 + k] == InsertedRow(symbol, ladder[k]);
    }
  }

  lemma InterleavedRank(n: nat, m: nat)
    requires m < 2 * n
    ensures Interleaved(n)[m] < 2 * n
    ensures LadderRank(n, Interleaved(n)[m]) == m as real
  {
    InterleavedAt(n, m);
  }

  lemma InterleavedSorted(keys: seq<real>, n: nat)
    requires |keys| == 2 * n
    requires forall k :: 0 <= k < |keys| ==> keys[k] == LadderRank(n, k)
    ensures StableSort.InRange(Interleaved(n), keys)
    ensures StableSort.SortedByKey(Interleaved(n), keys)
  {
    var il := Interleaved(n);
    forall m | 0 <= m < 2 * n
      ensures il[m] < |keys| && keys[il[m]] == m as real
    {
      InterleavedRank(n, m);
    }
    forall i, j | 0 <= i < j < |il|
      ensures StableSort.Before(keys, il[i], il[j])
    {
      assert keys[il[i]] == i as real && keys[il[j]] == j as real;
    }
  }

  /** Every position below `2n` appears in the interleaved order. */
  lemma InterleavedCovers(n: nat, e: nat)
    ensures e in Interleaved(n) <==> e < 2 * n
  {
    var il := Interleaved(n);
    if e < n {
      InterleavedPair(n, e);
    } else if e < 2 * n {
      InterleavedPair(n, e - n);
    } else if e in il {
      var m :| 0 <= m < |il| && il[m] == e;
      InterleavedRank(n, m);
    }
  }

  /** A table of `2n` rows of one symbol ranked by `LadderRank` is loaded in
      the interleaved order. */
  lemma InterleavedLoadOrder(t: Table, symbol: string, n: nat)
    requires |t| == 2 * n
    requires forall k :: 0 <= k < |t| ==> t[k].symbol == symbol
    requires forall k :: 0 <= k < |t| ==> Rank(t[k]) == LadderRank(n, k)
    ensures LoadOrder(t, symbol) == Interleaved(n)
  {
    var keys := Ranks(t);
    var il := Interleaved(n);
    RowsOfOwnTable(t, symbol);
    InterleavedSorted(keys, n);
    var ps := LoadOrder(t, symbol);
    var rows := RowsOf(t, symbol);
    LoadOrderSortsRows(t, symbol);
    forall e: nat
      ensures e in ps <==> e in il
    {
      InterleavedCovers(n, e);
      if e < 2 * n {
        assert rows[e] == e;
      }
    }
    StableSort.OrderedBySetIsUnique(ps, il, keys);
  }

  /** Position `m` of a loaded grid is the row at position `m` of the load
      order. */
  lemma LoadedAt(t: Table, symbol: string, m: nat, p: nat)
    requires m < |LoadOrder(t, symbol)| && LoadOrder(t, symbol)[m] == p
    ensures var g := LoadGrid(t, symbol);
      m < |g| && p < |t| && g[m] == LoadedLevel(t[p])
  {
    LoadedGridIsTheRows(t, symbol);
  }

  /** A saved ladder loads back with as many levels. */
  lemma LoadedLadderLength(symbol: string, ladder: seq<Level>, n: nat)
    requires LadderShaped(ladder, n)
    ensures |LoadGrid(SaveGrid([], symbol, ladder), symbol)| == 2 * n
  {
    SavedLadderRanks(symbol, ladder, n);
    RowsOfOwnTable(SaveGrid([], symbol, ladder), symbol);
  }

  /** Row `k` of a saved ladder reads back as rung `k` with `order_id` `None`. */
  lemma SavedRungReadBack(symbol: string, ladder: seq<Level>, n: nat, k: nat)
    requires LadderShaped(ladder, n) && k < 2 * n
    ensures var t := SaveGrid([], symbol, ladder);
      k < |t| && LoadedLevel(t[k]) == Reloaded(ladder[k])
  {
    var t := SaveGrid([], symbol, ladder);
    assert t[0 + k] == InsertedRow(symbol, ladder[k]);
    SavedLevelReadBack(symbol, ladder[k]);
  }

  /** Position `m` of a saved ladder, read back, is the rung at interleaved
      position `m`, with `order_id` `None`. */
  lemma SavedRungAt(symbol: string, ladder: seq<Level>, n: nat, m: nat)
    requires LadderShaped(ladder, n) && m < 2 * n
    ensures var g := LoadGrid(SaveGrid([], symbol, ladder), symbol);
      m < |g| && Interleaved(n)[m] < |ladder| && g[m] == Reloaded(ladder[Interleaved(n)[m]])
  {
    var t := SaveGrid([], symbol, ladder);
    var p := Interleaved(n)[m];
    assert p < 2 * n by {
      InterleavedRank(n, m);
    }
    assert m < |LoadOrder(t, symbol)| && LoadOrder(t, symbol)[m] == p by {
      SavedLadderRanks(symbol, ladder, n);
      InterleavedLoadOrder(t, symbol, n);
    }
    LoadedAt(t, symbol, m, p);
    SavedRungReadBack(symbol, ladder, n, p);
  }

  /** Round trip of any ladder-shaped grid through the table: position `m`
      of the loaded grid is the rung at interleaved position `m` (buy level
      `m / 2` at even positions, sell level `m / 2` at odd ones), with
      `order_id` now present and `None`. */
  lemma SavedLadderRoundTrip(symbol: string, ladder: seq<Level>, n: nat)
    requires LadderShaped(ladder, n)
    ensures var g := LoadGrid(SaveGrid([], symbol, ladder), symbol);
      && |g| == 2 * n
      && (forall m :: 0 <= m < 2 * n ==>
            Interleaved(n)[m] < |ladder| && g[m] == Reloaded(ladder[Interleaved(n)[m]]))
  {
    LoadedLadderLength(symbol, ladder, n);
    forall m | 0 <= m < 2 * n {
      SavedRungAt(symbol, ladder, n, m);
    }
  }

  /** Rungs `i` and `n + i` of a built ladder are buy and sell level `i`. */
  lemma BuiltRungs(cfg: GridConfig, current: real, i: nat)
    requires current != 0.0 && i < cfg.gridLevels
    ensures var ladder := BuildLadder(cfg, current);
      && ladder[i] == FreshLevel(cfg, Buy, current, i)
      && ladder[cfg.gridLevels + i] == FreshLevel(cfg, Sell, current, i)
  {
    assert BuildLadder(cfg, current)[cfg.gridLevels + i] == Legs(cfg, Sell, current, cfg.gridLevels)[i];
  }

  /** In any grid laid out in the interleaved order, level `i`'s buy rung
      sits at position `2i` and its sell rung (row `n + i`) at `2i + 1`. */
  lemma InterleavedLevelPair(g: seq<Level>, ladder: seq<Level>, n: nat, i: nat)
    requires |g| == 2 * n && i < n
    requires forall m :: 0 <= m < 2 * n ==>
      Interleaved(n)[m] < |ladder| && g[m] == Reloaded(ladder[Interleaved(n)[m]])
    ensures n + i < |ladder|
    ensures g[2 * i] == Reloaded(ladder[i]) && g[2 * i + 1] == Reloaded(ladder[n + i])
  {
    InterleavedPair(n, i);
    assert Interleaved(n)[2 * i + 1] < |ladder|;
  }

  /** Round trip through the table: the ladder saved by `create_grid` loads
      back interleaved by level, each buy rung directly before the sell rung
      of the same level, otherwise as built except that `order_id` is now
      present and `None`. */
  lemma RestartRoundTrip(cfg: GridConfig, symbol: string, current: real)
    requires current != 0.0
    ensures var g := LoadGrid(SaveGrid([], symbol, BuildLadder(cfg, current)), symbol);
      var n := cfg.gridLevels;
      && |g| == 2 * n
      && (forall i :: 0 <= i < n ==>
            && g[2 * i] == Reloaded(FreshLevel(cfg, Buy, current, i))
            && g[2 * i + 1] == Reloaded(FreshLevel(cfg, Sell, current, i)))
  {
    var ladder := BuildLadder(cfg, current);
    var n := cfg.gridLevels;
    var g := LoadGrid(SaveGrid([], symbol, ladder), symbol);
    BuiltLadderShaped(cfg, current);
    SavedLadderRoundTrip(symbol, ladder, n);
    forall i | 0 <= i < n
      ensures g[2 * i] == Reloaded(FreshLevel(cfg, Buy, current, i))
      ensures g[2 * i + 1] == Reloaded(FreshLevel(cfg, Sell, current, i))
    {
      InterleavedLevelPair(g, ladder, n, i);
      BuiltRungs(cfg, current, i);
    }
  }

  /** Placements never reach the table, so a restart after a fresh start
      finds every level without an order id, rebuilds all of them and places
      them again, whatever was placed before. */
  lemma RestartForgetsPlacements(settings: Settings, deposit: Balance.BalanceReply, scripts: seq<Script>, x: string, i: nat)
    requires Startup(settings, deposit, [], scripts).Ok?
    requires var t := Startup(settings, deposit, [], scripts).value.state.table;
      x in LoadExistingGrids(t).grids && i < |LoadExistingGrids(t).grids[x]|
    ensures var l := LoadExistingGrids(Startup(settings, deposit, [], scripts).value.state.table).grids[x][i];
      l.orderId == Stored(None) && l.status == Pending && NeedsReset(l)
  {
    var t := Startup(settings, deposit, [], scripts).value.state.table;
    LoadedGridIsTheRows(t, x);
    var ps := LoadOrder(t, x);
    assert LoadExistingGrids(t).grids[x] == LoadGrid(t, x);
    assert t[ps[i]].orderId.None? && t[ps[i]].status == Pending;
  }
}
