/** `sync_orders_with_exchange`: every active level with an order id is
    looked up on the exchange, and a status that differs is copied verbatim
    into memory and into every table row of that level's identity. */
module Sync {
  import opened Basics
  import opened Grid
  import opened Ledger
  import opened Placement

  /** What `fetch_order` gave for one level: it raised (including an order
      without a `status` entry), it returned an empty order, or it reported a
      status. */
  datatype FetchReply = QueryFailed | EmptyOrder | Reported(status: string)

  /** The reply for the level at position `k`; past the end of the script the
      query raises. */
  function FetchAt(replies: seq<FetchReply>, k: nat): FetchReply
  {
    if k < |replies| then replies[k] else QueryFailed
  }

  /** The level is looked up: its order id is truthy and its status is
      exactly "active". */
  predicate Queried(l: Level)
  {
    HasOrderId(l.orderId) && l.status == Active
  }

  /** The level after its own lookup. */
  function Synced(l: Level, reply: FetchReply): (r: Level)
    ensures r == l || (Queried(l) && reply.Reported? && reply.status != l.status && r == l.(status := reply.status))
    ensures Queried(l) && reply.Reported? ==> r.status == reply.status
  {
    if Queried(l) && reply.Reported? && reply.status != l.status then l.(status := reply.status) else l
  }

  /** The first position at or after `k` whose level has no `order_id` entry,
      or the grid's length: reading that entry raises `KeyError`, which ends
      the whole pass. */
  function Halt(grid: seq<Level>, k: nat): (h: nat)
    requires k <= |grid|
    ensures k <= h <= |grid|
    ensures forall i :: k <= i < h ==> !grid[i].orderId.Missing?
    ensures h < |grid| ==> grid[h].orderId.Missing?
    decreases |grid| - k
  {
    if k == |grid| then k
    else if grid[k].orderId.Missing? then k
    else Halt(grid, k + 1)
  }

  /** The loop of the pass from position `k` on. */
  function SyncFrom(symbol: string, grid: seq<Level>, table: Table, replies: seq<FetchReply>, k: nat): (r: Pass)
    requires k <= |grid|
    ensures |r.grid| == |grid| && |r.table| == |table|
    decreases |grid| - k
  {
    if k == |grid| then Pass(grid, table)
    else if grid[k].orderId.Missing? then Pass(grid, table)
    else
      var l := grid[k];
      var l' := Synced(l, FetchAt(replies, k));
      if l' != l then
        SyncFrom(symbol, grid[k := l'], UpdateStatus(table, symbol, l.level, l.side, l'.status), replies, k + 1)
      else
        SyncFrom(symbol, grid, table, replies, k + 1)
  }

  lemma {:induction false} HaltReadsOnlyOrderIds(a: seq<Level>, b: seq<Level>, k: nat)
    requires k <= |a| == |b|
    requires forall i :: k <= i < |a| ==> a[i].orderId == b[i].orderId
    ensures Halt(a, k) == Halt(b, k)
    decreases |a| - k
  {
    if k < |a| {
      HaltReadsOnlyOrderIds(a, b, k + 1);
    }
  }

  /** The memory effect of the loop from `k`: positions from `k` up to the
      first level without an `order_id` entry are synced with their own reply;
      all other positions keep their level. */
  lemma {:induction false} SyncFromGrid(symbol: string, grid: seq<Level>, table: Table, replies: seq<FetchReply>, k: nat)
    requires k <= |grid|
    ensures var r := SyncFrom(symbol, grid, table, replies, k);
      forall i :: 0 <= i < |grid| ==>
        r.grid[i] == if k <= i < Halt(grid, k) then Synced(grid[i], FetchAt(replies, i)) else grid[i]
    decreases |grid| - k
  {
    if k < |grid| && !grid[k].orderId.Missing? {
      var l := grid[k];
      var l' := Synced(l, FetchAt(replies, k));
      if l' != l {
        var g1 := grid[k := l'];
        SyncFromGrid(symbol, g1, UpdateStatus(table, symbol, l.level, l.side, l'.status), replies, k + 1);
        HaltReadsOnlyOrderIds(g1, grid, k + 1);
      } else {
        SyncFromGrid(symbol, grid, table, replies, k + 1);
      }
    }
  }

  /** The table effect of the loop from `k`: only the status column changes,
      and a row changes only to the new status of some level at or after `k`
      that the pass changed and whose identity the row has. */
  lemma {:induction false} SyncFromTable(symbol: string, grid: seq<Level>, table: Table, replies: seq<FetchReply>, k: nat)
    requires k <= |grid|
    ensures var r := SyncFrom(symbol, grid, table, replies, k);
      forall j :: 0 <= j < |table| ==>
        && r.table[j] == table[j].(status := r.table[j].status)
        && (r.table[j] != table[j] ==>
              exists i :: k <= i < |grid| && r.grid[i] != grid[i]
                && Matches(table[j], symbol, grid[i].level, grid[i].side)
                && r.grid[i].status == r.table[j].status)
    decreases |grid| - k
  {
    var r := SyncFrom(symbol, grid, table, replies, k);
    if k < |grid| && !grid[k].orderId.Missing? {
      var l := grid[k];
      var l' := Synced(l, FetchAt(replies, k));
      if l' != l {
        var g1 := grid[k := l'];
        var t1 := UpdateStatus(table, symbol, l.level, l.side, l'.status);
        SyncFromTable(symbol, g1, t1, replies, k + 1);
        SyncFromGrid(symbol, g1, t1, replies, k + 1);
        assert r.grid[k] == l';
        forall j | 0 <= j < |table| && r.table[j] != table[j]
          ensures exists i :: (k <= i < |grid| && r.grid[i] != grid[i]
                && Matches(table[j], symbol, grid[i].level, grid[i].side)
                && r.grid[i].status == r.table[j].status)
        {
          if r.table[j] == t1[j] {
            assert Matches(table[j], symbol, l.level, l.side);
            assert r.grid[k] != grid[k];
          } else {
            var i :| k + 1 <= i < |g1| && r.grid[i] != g1[i]
                && Matches(t1[j], symbol, g1[i].level, g1[i].side)
                && r.grid[i].status == r.table[j].status;
            assert g1[i] == grid[i];
          }
        }
      } else {
        SyncFromTable(symbol, grid, table, replies, k + 1);
      }
    }
  }

  /** No two levels of the grid share a level number and side, as in a grid
      built by the ladder. */
  predicate UniqueIdentities(grid: seq<Level>)
  {
    forall i, j :: 0 <= i < j < |grid| ==> !(grid[i].level == grid[j].level && grid[i].side == grid[j].side)
  }

  /** With unique identities the table follows memory: every level the pass
      changed has its new status in every table row of its identity. */
  lemma {:induction false} SyncFromWritesThrough(symbol: string, grid: seq<Level>, table: Table, replies: seq<FetchReply>, k: nat)
    requires k <= |grid|
    requires UniqueIdentities(grid)
    ensures var r := SyncFrom(symbol, grid, table, replies, k);
      forall i, j ::
        (k <= i < |grid| && 0 <= j < |table| && r.grid[i] != grid[i]
         && Matches(table[j], symbol, grid[i].level, grid[i].side)) ==> r.table[j].status == r.grid[i].status
    decreases |grid| - k
  {
    var r := SyncFrom(symbol, grid, table, replies, k);
    if k < |grid| && !grid[k].orderId.Missing? {
      var l := grid[k];
      var l' := Synced(l, FetchAt(replies, k));
      if l' != l {
        var g1 := grid[k := l'];
        var t1 := UpdateStatus(table, symbol, l.level, l.side, l'.status);
        assert UniqueIdentities(g1);
        SyncFromWritesThrough(symbol, g1, t1, replies, k + 1);
        SyncFromTable(symbol, g1, t1, replies, k + 1);
        SyncFromGrid(symbol, g1, t1, replies, k + 1);
        forall i, j | k <= i < |grid| && 0 <= j < |table| && r.grid[i] != grid[i]
            && Matches(table[j], symbol, grid[i].level, grid[i].side)
          ensures r.table[j].status == r.grid[i].status
        {
          if i == k {
            assert t1[j].status == l'.status;
          } else {
            assert g1[i] == grid[i];
          }
        }
      } else {
        SyncFromWritesThrough(symbol, grid, table, replies, k + 1);
        SyncFromGrid(symbol, grid, table, replies, k + 1);
      }
    }
  }

  /** `sync_orders_with_exchange(symbol)`. */
  function SyncOrders(symbol: string, s: State, replies: seq<FetchReply>): (r: State)
    ensures r.grids.Keys == s.grids.Keys
    ensures forall other :: other in s.grids && other != symbol ==> r.grids[other] == s.grids[other]
    ensures symbol !in s.grids ==> r == s
    ensures symbol in s.grids ==> |r.grids[symbol]| == |s.grids[symbol]|
    ensures |r.table| == |s.table|
  {
    if symbol !in s.grids then s
    else
      var p := SyncFrom(symbol, s.grids[symbol], s.table, replies, 0);
      State(s.grids[symbol := p.grid], p.table)
  }

  /** What a sync pass does to memory: up to the first level lacking an
      `order_id` entry, each active level with an order id takes the status its
      own lookup reported, if different; everything else, including every
      level from the first one without the entry on, is left as it was. */
  lemma SyncEffect(symbol: string, s: State, replies: seq<FetchReply>)
    requires symbol in s.grids
    ensures var grid := s.grids[symbol];
      var r := SyncOrders(symbol, s, replies).grids[symbol];
      forall i :: 0 <= i < |grid| ==>
        r[i] == if i < Halt(grid, 0) then Synced(grid[i], FetchAt(replies, i)) else grid[i]
  {
    SyncFromGrid(symbol, s.grids[symbol], s.table, replies, 0);
  }

  /** What a sync pass does to the table: only statuses change; other
      symbols' rows never change; with unique identities each changed level's
      new status reaches every row of its identity. */
  lemma SyncTableEffect(symbol: string, s: State, replies: seq<FetchReply>)
    requires symbol in s.grids
    ensures var grid := s.grids[symbol];
      var r := SyncOrders(symbol, s, replies);
      && (forall j :: 0 <= j < |s.table| ==> r.table[j] == s.table[j].(status := r.table[j].status))
      && (forall j :: 0 <= j < |s.table| && s.table[j].symbol != symbol ==> r.table[j] == s.table[j])
      && (UniqueIdentities(grid) ==>
            forall i, j ::
              (0 <= i < |grid| && 0 <= j < |s.table| && r.grids[symbol][i] != grid[i]
               && Matches(s.table[j], symbol, grid[i].level, grid[i].side)) ==> r.table[j].status == r.grids[symbol][i].status)
  {
    var grid := s.grids[symbol];
    SyncFromTable(symbol, grid, s.table, replies, 0);
    if UniqueIdentities(grid) {
      SyncFromWritesThrough(symbol, grid, s.table, replies, 0);
    }
  }
}
