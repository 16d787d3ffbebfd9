/** The balance check made before every placement, and the way a free
    balance figure is read from the exchange's balance reply. */
module Balance {
  import opened Basics
  import opened Grid
  import Text

  /** One field of a currency's balance entry: absent, present but not
      convertible by `float()` (for instance `None`), or a number. */
  datatype Field = Absent | Null | Num(value: real)

  /** A currency's entry in the `fetch_balance` reply. */
  datatype Entry = Entry(free: Field, available: Field, total: Field)

  /** The `fetch_balance` reply, or the call raising. */
  datatype BalanceReply = FetchFailed | Balances(entries: map<string, Entry>)

  /** The quote currency every pair is traded against. */
  const QuoteCurrency: string := "USDT"

  /** The number a present field is read as: its value, or 0.0 when `float()`
      raises and the balance reader returns its fallback. */
  function FieldValue(f: Field): real
    requires !f.Absent?
  {
    if f.Num? then f.value else 0.0
  }

  /** `get_balance` (for "USDT") and `get_base_balance` (for any other
      currency): the first of `free`, `available`, `total` that the entry has
      decides the figure; a currency without an entry, an entry without any of
      the three, or a failed request reads as 0.0. */
  function FreeBalance(reply: BalanceReply, currency: string): (r: real)
    ensures reply.FetchFailed? || currency !in reply.entries ==> r == 0.0
    ensures reply.Balances? && currency in reply.entries ==>
      var e := reply.entries[currency];
      && (!e.free.Absent? ==> r == FieldValue(e.free))
      && (e.free.Absent? && !e.available.Absent? ==> r == FieldValue(e.available))
      && (e.free.Absent? && e.available.Absent? && !e.total.Absent? ==> r == FieldValue(e.total))
      && (e.free.Absent? && e.available.Absent? && e.total.Absent? ==> r == 0.0)
  {
    match reply
    case FetchFailed => 0.0
    case Balances(entries) =>
      if currency !in entries then 0.0
      else
        var e := entries[currency];
        if !e.free.Absent? then FieldValue(e.free)
        else if !e.available.Absent? then FieldValue(e.available)
        else if !e.total.Absent? then FieldValue(e.total)
        else 0.0
  }

  /** `symbol.split('/')[0]`: the base currency of a pair. */
  function BaseCurrency(symbol: string): (r: string)
    ensures |r| <= |symbol| && r == symbol[..|r|]
    ensures '/' !in r
    ensures |r| < |symbol| ==> symbol[|r|] == '/'
  {
    Text.SplitHead(symbol, '/');
    Text.Split(symbol, '/')[0]
  }

  /** The currency an order on `side` spends: "USDT" for a buy, the pair's
      base currency for a sell. */
  function SpentCurrency(symbol: string, side: Side): string
  {
    if side == Buy then QuoteCurrency else BaseCurrency(symbol)
  }

  /** `check_available_balance`: a buy needs `amount * price` USDT free, a sell
      needs `amount` of the base currency free; both bounds are inclusive. */
  function Sufficient(symbol: string, side: Side, amount: real, price: real, reply: BalanceReply): (ok: bool)
    ensures side == Buy ==> (ok <==> FreeBalance(reply, QuoteCurrency) >= amount * price)
    ensures side == Sell ==> (ok <==> FreeBalance(reply, BaseCurrency(symbol)) >= amount)
  {
    var required := if side == Buy then amount * price else amount;
    FreeBalance(reply, SpentCurrency(symbol, side)) >= required
  }

  /** Exactly enough is enough. */
  lemma ExactBalancePasses(symbol: string, side: Side, amount: real, price: real, reply: BalanceReply)
    requires side == Buy ==> FreeBalance(reply, QuoteCurrency) == amount * price
    requires side == Sell ==> FreeBalance(reply, BaseCurrency(symbol)) == amount
    ensures Sufficient(symbol, side, amount, price, reply)
  {
  }

  /** A larger free figure for the spent currency never turns a pass into a
      refusal. */
  lemma MoreBalanceStillPasses(symbol: string, side: Side, amount: real, price: real, a: BalanceReply, b: BalanceReply)
    requires Sufficient(symbol, side, amount, price, a)
    requires FreeBalance(b, SpentCurrency(symbol, side)) >= FreeBalance(a, SpentCurrency(symbol, side))
    ensures Sufficient(symbol, side, amount, price, b)
  {
  }

  /** Only the spent currency's entry matters: a sell on "DOGE/USDT" reads the
      "DOGE" entry, whatever the reply says about USDT. */
  lemma SellReadsBaseOnly(symbol: string, amount: real, price: real, entries: map<string, Entry>, other: Entry)
    requires BaseCurrency(symbol) != QuoteCurrency
    ensures Sufficient(symbol, Sell, amount, price, Balances(entries))
        == Sufficient(symbol, Sell, amount, price, Balances(entries[QuoteCurrency := other]))
  {
  }
}
