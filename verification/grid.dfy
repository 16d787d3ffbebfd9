/** The in-memory shape of a grid: one record per price level, the per-symbol
    map the engine keeps, and the ticker reply it reads prices from. */
module Grid {
  import opened Basics

  datatype Side = Buy | Sell

  /** The `order_id` entry of a level. A level built by the ladder has no such
      entry at all (`Missing`); loading, resetting and placing store one, which
      may be `None`. */
  datatype OrderSlot = Missing | Stored(id: Option<string>)

  /** One rung of the ladder. The status is an open string: the engine writes
      "pending" and "active", and copies whatever the exchange reports. */
  datatype Level = Level(level: nat, side: Side, price: real, amount: real, orderId: OrderSlot, status: string)

  const Pending: string := "pending"
  const Active: string := "active"
  const Filled: string := "filled"
  const Canceled: string := "canceled"

  /** Python truthiness of a level's order id: present, not `None`, not empty. */
  predicate HasOrderId(slot: OrderSlot)
  {
    slot.Stored? && slot.id.Some? && slot.id.value != ""
  }

  /** `GridManager.grids`: each symbol's levels. */
  type Grids = map<string, seq<Level>>

  /** What the exchange returned for `fetch_ticker`, each field missing or
      not convertible to a float shown as `None`. */
  datatype Quote = QuoteFailed | Quote(bid: Option<real>, ask: Option<real>, last: Option<real>, volume: Option<real>)

  /** `get_ticker(symbol)["last"]`: the ticker dictionary is empty, and so has
      no last price, unless all four fields converted. */
  function LastPrice(q: Quote): (r: Option<real>)
    ensures r.Some? <==> q.Quote? && q.bid.Some? && q.ask.Some? && q.last.Some? && q.volume.Some?
    ensures r.Some? ==> r.value == q.last.value
  {
    match q
    case QuoteFailed => None
    case Quote(bid, ask, last, volume) =>
      if bid.Some? && ask.Some? && last.Some? && volume.Some? then Some(last.value) else None
  }
}
