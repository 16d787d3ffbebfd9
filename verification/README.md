# Grid engine of `grid_bot` in Dafny

A functional model of the grid-trading engine in `grid_bot/main.py`. The
engine keeps, per trading pair, a logarithmic ladder of limit-order levels
around the current price. It keeps those levels in an sqlite `grids` table.
On every monitoring round it syncs order statuses with the exchange and
rebuilds the levels that are no longer live orders.

The model is pure functions over immutable data:

- `Basics`: `Option`, `Result`, powers, absolute value, six-decimal rounding.
- `Text`: `str.split` and `str.strip` as the `SYMBOLS` setting uses them.
- `Risk`: the `RISK_LEVELS` table, the configuration checks of
  `__post_init__`, and `calculate_risk_parameters`.
- `Grid`: a level (`order_id` absent, `None` or a string; status an open
  string), the per-symbol grid map, and the ticker reply.
- `Balance`: the balance figure chosen from `free`/`available`/`total`, and
  `check_available_balance`.
- `Ladder`: the buy and sell ladder `create_grid` builds.
- `Ledger`: the `grids` table as a sequence of rows, with blind inserts,
  the two UPDATEs, and `load_existing_grids` (`ORDER BY level, side`, with
  rows of equal identity kept in table order).
- `StableSort`: the stable insertion sort both orderings use, proved ordered
  by (key, position) and unique.
- `Placement`: `place_grid_orders`.
- `Sync`: `sync_orders_with_exchange`.
- `Recreate`: `check_and_recreate_orders`.
- `Supervisor`: `main` up to the loop (deposit, risk parameters, resume or
  fresh start), one monitoring round, and the priority filter.
- `Restart`: what a restart reads back from the table.

Every exchange answer is a parameter. A ticker is a `Quote`. Balances are a
`BalanceReply`. Order lookups are a sequence indexed by grid position, and
placement replies a sequence indexed by candidate turn; a level that is not
queried or placed still owns its slot. An answer missing from a sequence reads as the exchange raising. The
engine catches every such error itself, so the model has no exception path
for them.

As written, the code:

- places no mirror order after a fill;
- checks balances without subtracting funds already reserved by open orders;
- keeps the table without any uniqueness constraint;
- never writes the table from `place_grid_orders`, because its closing
  `save_grid_to_db(symbol)` lacks the grid argument and the `TypeError` is
  swallowed;
- builds fresh levels without an `order_id` key, which the sync pass reads
  directly, so the first such level ends the sync pass for its symbol.

## Model

| member | source | states |
|---|---|---|
| Basics.Round6 | grid_bot/main.py:359 | the stored price is within half a millionth of the raw price |
| Basics.Round6Monotone | grid_bot/main.py:376 | rounding to six decimals never reverses the order of two prices |
| Text.Split | grid_bot/main.py:76 | splitting on a comma gives one more piece than there are commas, and no piece holds a comma |
| Text.JoinSplit | grid_bot/main.py:76 | joining the pieces with the separator gives the original string back |
| Text.SplitHead | grid_bot/main.py:285 | the first piece is the longest prefix free of the separator, and the separator follows it when it is shorter than the string |
| Text.Strip | grid_bot/main.py:76 | the result is a contiguous middle of the input; only whitespace was dropped on either side, and the result neither starts nor ends with whitespace |
| Risk.ParseSymbols | grid_bot/main.py:76 | there is one pair per comma-separated piece, each piece stripped |
| Risk.PostInit | grid_bot/main.py:72-80 | a missing or empty `SYMBOLS` is refused before the risk level is checked; an unknown level is refused; otherwise the pair list is non-empty and comes from the setting |
| Risk.CalculateRiskParameters | grid_bot/main.py:82-96 | succeeds exactly for a known level with pairs; the levels and spread are the table's; the trading deposit is the table's share of the total; level amount × levels × pairs equals the trading deposit |
| Risk.RiskTableWellFormed | grid_bot/main.py:36-42 | every risk level has at least one grid level, a positive spread and a share of at most 100% |
| Risk.BuiltConfigYieldsParameters | grid_bot/main.py:72-96 | a configuration that passed its checks always gets grid parameters |
| Risk.GridNeverExceedsDeposit | grid_bot/main.py:87-96 | with a non-negative deposit, the level amount is non-negative and `gridLevels` levels of that amount per pair (one side of each grid) add up to at most the deposit |
| Grid.LastPrice | grid_bot/main.py:126-138 | the ticker has a last price exactly when all four fields converted |
| Balance.FreeBalance | grid_bot/main.py:140-204 | the figure is `free` if present, else `available`, else `total`; it is 0.0 for a failed request, a missing currency or an entry with none of the three, and for a field `float()` rejects |
| Balance.BaseCurrency | grid_bot/main.py:285 | the base currency is the part of the pair before the first `/` |
| Balance.Sufficient | grid_bot/main.py:270-295 | a buy passes exactly when free USDT ≥ amount × price; a sell passes exactly when the free base balance ≥ amount |
| Balance.ExactBalancePasses | grid_bot/main.py:276-289 | both bounds are inclusive |
| Balance.MoreBalanceStillPasses | grid_bot/main.py:276-289 | more free balance never turns a pass into a refusal |
| Balance.SellReadsBaseOnly | grid_bot/main.py:284-287 | a sell's decision does not depend on the USDT entry when the base currency is not USDT |
| Ladder.Legs | grid_bot/main.py:353-386 | one side's levels `0 .. n-1` in order, each at that level's price, pending, without an order id |
| Ladder.LadderShape | grid_bot/main.py:342-388 | the ladder has `2n` levels: buys `0..n-1`, then sells `0..n-1`, all pending, all of amount `level_amount / price`, each at its level's price |
| Ladder.SidesOfReference | grid_bot/main.py:355-375 | with a positive price, spread and multiplier, buys lie below the price and sells above it |
| Ladder.RungsSpreadOut | grid_bot/main.py:355-375 | with a multiplier above one, buy prices strictly fall and sell prices strictly rise with the level |
| Ladder.FlatLadder | grid_bot/main.py:355-375 | with a multiplier of one, all rungs of a side share one price |
| Ladder.StoredPricesOrdered | grid_bot/main.py:355-376 | the rounded prices keep that order, not strictly |
| Ladder.FarBuyRungNotPositive | grid_bot/main.py:355-358 | nothing stops a buy rung at or below zero once `spread × mult^i ≥ 1` |
| Ladder.RiskFiveLastBuyIsNegative | grid_bot/main.py:36-42 | risk level 5 with the default multiplier 1.5, for a price of at least 0.0001, stores a negative price for buy level 19 |
| Ladder.WorkedLadder | grid_bot/main.py:355-376 | three levels, 1% spread, multiplier 2, price 1000 give buys 990/980/960 and sells 1010/1020/1040 |
| Ledger.SaveGrid | grid_bot/main.py:395-405 | the rows already there stay; one row per level is appended in grid order, with order id NULL and status "pending" |
| Ledger.SaveAddsRows | grid_bot/main.py:401-405 | for each (symbol, level, side), saving adds exactly as many rows as the grid has levels with that identity |
| Ledger.SavingTwiceDuplicates | grid_bot/main.py:237-249 | saving a grid twice leaves at least two rows for every identity in it |
| Ledger.UpdateStatus | grid_bot/main.py:499-515 | every row of the identity gets the new status; nothing else changes |
| Ledger.UpdateOrder | grid_bot/main.py:572-588 | every row of the identity gets the new price, order id and status; nothing else changes |
| Ledger.UpdateOfAbsentIdentity | grid_bot/main.py:505-509 | an update of an identity the table lacks changes nothing |
| Ledger.UpdateStatusIdempotent | grid_bot/main.py:505-509 | writing a status twice equals writing it once |
| Ledger.DistinctSymbols | grid_bot/main.py:304-305 | each symbol the table mentions is listed exactly once |
| Ledger.RowsOf | grid_bot/main.py:308-314 | the positions of exactly the symbol's rows |
| Ledger.RowsOfAscending | grid_bot/main.py:308-314 | those positions come in table order, each once |
| Ledger.RankIsLevelThenSide | grid_bot/main.py:313 | the sort key orders rows by level, then buy before sell |
| Ledger.LoadOrder | grid_bot/main.py:308-314 | one valid table position per row of the symbol |
| Ledger.LoadOrderSortsRows | grid_bot/main.py:308-314 | the load order is a reordering of the symbol's rows, sorted by (level, side); rows of equal identity stay in table order, a tie-break SQL does not promise |
| Ledger.LoadGrid | grid_bot/main.py:316-326 | one level per row of the symbol |
| Ledger.LoadExistingGrids | grid_bot/main.py:297-333 | there is a grid for exactly the symbols the table mentions; the result is true exactly when the table has a row |
| Ledger.LoadedGridsNonEmpty | grid_bot/main.py:328-330 | no loaded grid is empty |
| Ledger.LoadedGridOrdered | grid_bot/main.py:313 | loaded levels ascend by level, buy before sell |
| Ledger.LoadedGridIsTheRows | grid_bot/main.py:316-326 | the loaded levels are exactly the symbol's rows, each once, read back with the order id present |
| StableSort.Sort | grid_bot/main.py:431 | the sort is a permutation of its input |
| StableSort.SortIsOrdered | grid_bot/main.py:431 | sorting ascending positions orders them by (key, position) |
| StableSort.SortIsStable | grid_bot/main.py:431 | keys never decrease, and equal keys keep their input order |
| StableSort.OrderedIsUnique | grid_bot/main.py:431 | two (key, position)-ordered arrangements of the same positions are equal |
| StableSort.OrderedBySetIsUnique | grid_bot/main.py:313 | the same holds when only the sets of positions are known to agree |
| Placement.PendingPositions | grid_bot/main.py:427 | the positions of exactly the "pending" levels, in grid order |
| Placement.PlacementOrder | grid_bot/main.py:426-431 | the candidates are the pending levels; with a truthy price they are sorted stably by distance to the price, and otherwise kept in grid order |
| Placement.Attempt | grid_bot/main.py:436-446 | a level becomes active with the returned id exactly when the balance check passes and the order has an id; otherwise it is unchanged |
| Placement.PlaceInOrderSkips | grid_bot/main.py:434-455 | a level that no remaining candidate names keeps its value through the loop |
| Placement.PlaceInOrderVisits | grid_bot/main.py:434-455 | a candidate named once is tried once, with the reply of its own turn, against its level as it was before the loop |
| Placement.PlaceInOrderEffect | grid_bot/main.py:434-455 | each candidate is tried with its own answers; a level that is not a candidate is unchanged |
| Placement.DistinctOrder | grid_bot/main.py:427-431 | every pending level is tried exactly once |
| Placement.PlaceGridOrders | grid_bot/main.py:412-465 | the table is unchanged; other symbols are untouched; an unknown symbol changes nothing |
| Placement.PlacementEffect | grid_bot/main.py:426-455 | non-pending levels are unchanged; each candidate becomes active exactly when its balance check passes and its order has an id |
| Placement.PlacementOnlyActivates | grid_bot/main.py:443-446 | a level the pass changes was pending and is now active with an id, with price, amount, level and side kept |
| Placement.NearestFirst | grid_bot/main.py:429-431 | with a known price, candidates are tried nearest first, and ties in grid order |
| Sync.Synced | grid_bot/main.py:474-483 | only an active level with a truthy id is looked up; a reported status that differs is copied verbatim; anything else leaves the level as it was |
| Sync.Halt | grid_bot/main.py:473-496 | the pass reaches up to the first level with no `order_id` entry |
| Sync.SyncFromGrid | grid_bot/main.py:473-493 | levels before the halt are synced with their own reply; the rest are unchanged |
| Sync.SyncFromTable | grid_bot/main.py:481-484 | only the status column changes, and only to a status some changed level of that identity now has |
| Sync.SyncFromWritesThrough | grid_bot/main.py:505-509 | with unique identities, each changed level's new status reaches every row of its identity |
| Sync.SyncOrders | grid_bot/main.py:467-497 | no grid is added or removed, no grid changes length, other symbols are untouched |
| Sync.SyncEffect | grid_bot/main.py:473-493 | the memory effect of a whole pass, level by level |
| Sync.SyncTableEffect | grid_bot/main.py:481-509 | the table effect of a whole pass: statuses only, this symbol only, written through to every row of the identity |
| Recreate.ResetFrom | grid_bot/main.py:540-558 | the reset loop keeps the grid and table lengths |
| Recreate.ResetFromGrid | grid_bot/main.py:530-555 | exactly the levels that need it are re-priced, set to "pending" and given order id `None` |
| Recreate.ResetFromTable | grid_bot/main.py:558 | a row is rewritten exactly when a reset level has its identity; its new price is that level's new price |
| Recreate.CheckAndRecreate | grid_bot/main.py:517-570 | an unknown symbol, a grid with nothing to rebuild, or a ticker without a last price changes nothing |
| Recreate.RecreateEffect | grid_bot/main.py:526-563 | a live level is untouched; every other level is re-priced around the last price and left pending without an id, or placed and active with an id |
| Recreate.RecreateTableEffect | grid_bot/main.py:556-582 | rows of reset identities get the new price, NULL order id and "pending"; all other rows are unchanged |
| Supervisor.Priority | grid_bot/main.py:637 | a symbol is listed exactly when it is configured and has a grid |
| Supervisor.PriorityKeepsOrder | grid_bot/main.py:637 | the filter distributes over concatenation, so it keeps configuration order |
| Supervisor.Revisit | grid_bot/main.py:610-613 | sync then recreate touches only its own symbol's grid, and no length changes |
| Supervisor.ReviseAll | grid_bot/main.py:644-655 | a loop of symbol visits adds no grid, no row and no level, and never touches a symbol outside its list |
| Supervisor.Tick | grid_bot/main.py:635-656 | one monitoring round keeps every grid's length and the table's length; grids of pairs no longer configured are never touched |
| Supervisor.StuckLevelsStay | grid_bot/main.py:474-535 | a level with an order id and a status outside active/filled/canceled/pending is never changed by a round |
| Supervisor.ForeignStatusSticks | grid_bot/main.py:481-483 | an active order reported under any other status becomes such a stuck level |
| Supervisor.CreateGrid | grid_bot/main.py:339-393 | the new ladder replaces the symbol's grid and the table becomes exactly the old table plus the ladder's `2n` inserted rows, pending without an order id; a zero price changes nothing |
| Supervisor.CreateOne | grid_bot/main.py:619-623 | a symbol with a non-zero last price gets `2n` new rows, all its own; otherwise no row is added |
| Supervisor.CreateAll | grid_bot/main.py:617-628 | a fresh start appends `2n` rows per priced pair and nothing else, all pending without an order id |
| Supervisor.NewRowsCount | grid_bot/main.py:617-623 | counting rows pair by pair gives `2n` times the number of priced pairs |
| Supervisor.Startup | grid_bot/main.py:595-628 | start-up fails exactly when the risk parameters do; a resume keeps the table's length and has a grid for exactly the stored symbols; a fresh start writes only pending rows without order ids |
| Restart.SavedLevelReadBack | grid_bot/main.py:316-326 | a saved pending level reads back unchanged except that `order_id` is now `None` |
| Restart.SavedLadderRoundTrip | grid_bot/main.py:297-405 | any ladder-shaped grid saved into an empty ledger loads back with position `m` holding rung `m / 2` (even `m`) or rung `n + m / 2` (odd `m`), order id `None` |
| Restart.RestartRoundTrip | grid_bot/main.py:297-405 | a ladder saved into an empty ledger loads back as buy 0, sell 0, buy 1, sell 1, …, each level as built but with order id `None` |
| Restart.RestartForgetsPlacements | grid_bot/main.py:462 | after a fresh start, every level loaded from the table is pending without an order id and will be rebuilt |

## Left out

- `__post_init__`'s credential checks, and every other environment read. The risk level and multiplier are parameters.
- All printing, `time.sleep`, the telegram import and the display of the priority list. The infinite loop is modelled as one start-up and one round (`Supervisor.Tick`); the `KeyboardInterrupt` exit is not modelled.
- The `BybitClient` network layer (`ccxt`). Its answers are parameters; the balance printed at the start of `check_and_recreate_orders` is not modelled, because it changes nothing.
- The sqlite connection. The `grids` table is a sequence of rows in insertion order. The `trades` table is never written, and `id` and `created_at` are not modelled.
- Ledger.LoadOrderSortsRows: rows with the same (level, side) load in table order. `ORDER BY level, side` leaves their relative order to sqlite; such duplicates arise when a symbol's grid is saved more than once (`Ledger.SavingTwiceDuplicates`).
- `SELECT DISTINCT symbol` is modelled in order of first appearance. SQL does not promise an order, and loaded grids are visited in that order.
- Basics.Round6: `round(x, 6)` is modelled as half-up rounding on exact reals. Python rounds the binary float half-to-even, so ties and float error are not modelled. Price properties are proved on unrounded prices, plus monotone rounding.
- Floating-point overflow, NaN and infinities: every amount and price is an exact real.
- Text.Strip: only ASCII whitespace is stripped. Python's `str.strip` also removes Unicode whitespace.
- Placement.Attempt: an order reply whose `id` is `None` is not modelled. A placed order always carries a string id.
- Sync.Synced: a fetched order whose `status` is `None` is not modelled; the code would copy `None` into the level and the table, and the level would then behave like one with an unknown status string, which `Sync.FetchReply` already covers.
- A fetched order without a `status` entry is modelled as a failed query, which is what the `KeyError` handler at grid_bot/main.py:491 makes it.
- The standalone exchange scripts beside the engine. They are one-shot sequences of signed requests with no state.
