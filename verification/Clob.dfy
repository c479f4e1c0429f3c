/** The order book: placing, cancelling and settling matched orders (stellax-clob/src/lib.rs). */
module Clob {
  import opened Int128
  import opened Host
  import opened PerpBooks
  import opened Trading

  datatype ClobError =
    | Unauthorized | OrderNotFound | OrderExpired | OrderNotOpen | InvalidSize | InvalidNonce | NotOrderOwner
    | PricesDoNotCross | InvalidConfig | MathOverflow | FillFailed

  datatype OrderStatus = Open | Filled | Cancelled | Expired

  datatype LimitOrder = LimitOrder(
    trader: Address, market: u32, size: i128, price: i128, isLong: bool, leverage: u32, expiry: u64, nonce: u64,
    filled: i128, status: OrderStatus)

  datatype ClobState = ClobState(keeper: Address, orders: map<u64, LimitOrder>, nonces: map<Address, u64>, nextId: u64)

  function NonceOf(nonces: map<Address, u64>, trader: Address): u64 { if trader in nonces then nonces[trader] else 0 }

  /** The stored order starts open and unfilled, whatever the submitted one says. */
  function PlaceOrder(c: ClobState, order: LimitOrder, now: u64): Result<ClobState, ClobError> {
    var _ :- Need(order.expiry > now, ClobError.OrderExpired);
    var _ :- Need(order.size > 0, ClobError.InvalidSize);
    var expected := NonceOf(c.nonces, order.trader);
    var _ :- Need(order.nonce == expected, InvalidNonce);
    var _ :- Need(expected + 1 < TWO_64 && c.nextId + 1 < TWO_64, ClobError.MathOverflow);
    Ok(c.(orders := c.orders[c.nextId := order.(filled := 0, status := Open)],
          nonces := c.nonces[order.trader := expected + 1], nextId := c.nextId + 1))
  }

  function CancelLimit(c: ClobState, caller: Address, id: u64): Result<ClobState, ClobError> {
    var _ :- Need(id in c.orders, ClobError.OrderNotFound);
    var _ :- Need(c.orders[id].trader == caller, NotOrderOwner);
    var _ :- Need(c.orders[id].status == Open, OrderNotOpen);
    Ok(c.(orders := c.orders[id := c.orders[id].(status := Cancelled)]))
  }

  /** What a matched pair is filled with. */
  datatype Match = Match(buy: LimitOrder, sell: LimitOrder, size: i128, price: i128)

  /** The checks of `settle_matched_orders`. An expired order is marked and the call fails, so the mark is rolled
      back and the status Expired is never stored. */
  function MatchOrders(c: ClobState, caller: Address, buyId: u64, sellId: u64, now: u64): Result<Match, ClobError> {
    var _ :- Need(caller == c.keeper, ClobError.Unauthorized);
    var _ :- Need(buyId in c.orders && sellId in c.orders, ClobError.OrderNotFound);
    var buy, sell := c.orders[buyId], c.orders[sellId];
    var _ :- Need(buy.status == Open && sell.status == Open, OrderNotOpen);
    var _ :- Need(buy.expiry > now && sell.expiry > now, ClobError.OrderExpired);
    var _ :- Need(buy.isLong && !sell.isLong, PricesDoNotCross);
    var _ :- Need(buy.market == sell.market, ClobError.InvalidConfig);
    var _ :- Need(buy.price >= sell.price, PricesDoNotCross);
    var _ :- Need(InI128(buy.size - buy.filled) && InI128(sell.size - sell.filled), ClobError.MathOverflow);
    var size := Min(buy.size - buy.filled, sell.size - sell.filled);
    var _ :- Need(size > 0, ClobError.InvalidSize);
    var _ :- Need(InI128(buy.price + sell.price), ClobError.MathOverflow);
    Ok(Match(buy, sell, size, TruncDiv(buy.price + sell.price, 2)))
  }

  function Fill(o: LimitOrder, size: i128): Result<LimitOrder, ClobError> {
    var _ :- Need(InI128(o.filled + size), ClobError.MathOverflow);
    Ok(o.(filled := o.filled + size, status := if o.filled + size >= o.size then Filled else o.status))
  }

  /** Both orders record the fill. */
  function RecordFill(c: ClobState, m: Match, buyId: u64, sellId: u64): Result<ClobState, ClobError> {
    var buy :- Fill(m.buy, m.size);
    var sell :- Fill(m.sell, m.size);
    Ok(c.(orders := c.orders[buyId := buy][sellId := sell]))
  }

  /** The fill in the perp engine, which is called under the order book's own address. */
  function ExecuteMatch(d: Desk, e: Env, m: Match): DeskResult {
    ExecuteFill(d, e, d.w.clob, m.buy.trader, m.sell.trader, m.buy.market, m.size, m.price, m.buy.leverage,
        m.sell.leverage)
  }

  /** `settle_matched_orders`: the perp engine executes the fill, then both orders record it. */
  function SettleMatched(c: ClobState, d: Desk, e: Env, caller: Address, buyId: u64, sellId: u64)
    : Result<(ClobState, Desk), ClobError>
  {
    var m :- MatchOrders(c, caller, buyId, sellId, e.now);
    var filled := ExecuteMatch(d, e, m);
    var _ :- Need(filled.Ok?, FillFailed);
    var after :- RecordFill(c, m, buyId, sellId);
    Ok((after, filled.value))
  }

  // ----- what the order book keeps -----

  /** An order is never filled past its size, is marked filled exactly when it is full, and Expired is never stored. */
  predicate OrderSound(o: LimitOrder) {
    && o.size > 0 && 0 <= o.filled <= o.size
    && (o.status == Filled <==> o.filled == o.size)
    && o.status != Expired
  }

  ghost predicate ClobSound(c: ClobState) {
    forall id :: id in c.orders ==> id < c.nextId && OrderSound(c.orders[id])
  }

  lemma {:induction false} PlaceKeepsClob(c: ClobState, order: LimitOrder, now: u64)
    requires ClobSound(c)
    ensures ClobSound(After(c, PlaceOrder(c, order, now)))
    ensures PlaceOrder(c, order, now).Ok? ==> c.nextId !in c.orders
  {
  }

  lemma {:induction false} CancelKeepsClob(c: ClobState, caller: Address, id: u64)
    requires ClobSound(c)
    ensures ClobSound(After(c, CancelLimit(c, caller, id)))
  {
  }

  /** A matched pair is a long and a short that cross: the price is between the two limits, and the size is what is
      left of the smaller. */
  lemma {:induction false} MatchIsFair(c: ClobState, caller: Address, buyId: u64, sellId: u64, now: u64, m: Match)
    requires MatchOrders(c, caller, buyId, sellId, now) == Ok(m)
    ensures buyId in c.orders && sellId in c.orders && m.buy == c.orders[buyId] && m.sell == c.orders[sellId]
    ensures m.buy.isLong && !m.sell.isLong && m.buy.market == m.sell.market && buyId != sellId
    ensures m.buy.status == Open && m.sell.status == Open && now < m.buy.expiry && now < m.sell.expiry
    ensures m.sell.price <= m.price <= m.buy.price
    ensures 0 < m.size <= m.buy.size - m.buy.filled && m.size <= m.sell.size - m.sell.filled
    ensures m.size == m.buy.size - m.buy.filled || m.size == m.sell.size - m.sell.filled
  {
    Midpoint(c.orders[sellId].price, c.orders[buyId].price);
  }

  /** Recording a fill adds it to both orders, never past their sizes, and fills at least one of them. */
  lemma {:induction false} RecordKeepsClob(c: ClobState, m: Match, buyId: u64, sellId: u64, r: ClobState)
    requires ClobSound(c) && buyId in c.orders && sellId in c.orders && buyId != sellId
    requires m.buy == c.orders[buyId] && m.sell == c.orders[sellId] && m.buy.status == Open && m.sell.status == Open
    requires 0 < m.size <= m.buy.size - m.buy.filled && m.size <= m.sell.size - m.sell.filled
    requires m.size == m.buy.size - m.buy.filled || m.size == m.sell.size - m.sell.filled
    requires RecordFill(c, m, buyId, sellId) == Ok(r)
    ensures ClobSound(r) && r.orders.Keys == c.orders.Keys
    ensures r.orders[buyId].filled == c.orders[buyId].filled + m.size
    ensures r.orders[sellId].filled == c.orders[sellId].filled + m.size
    ensures r.orders[buyId].status == Filled || r.orders[sellId].status == Filled
    ensures forall id :: id in c.orders ==> r.orders[id].trader == c.orders[id].trader
    ensures forall id :: id in c.orders && id != buyId && id != sellId ==> r.orders[id] == c.orders[id]
  {
  }

  /** What an accepted settlement did. */
  lemma {:induction false} SettleEffect(
    c: ClobState, d: Desk, e: Env, caller: Address, buyId: u64, sellId: u64, r: ClobState, d': Desk) returns (m: Match)
    requires SettleMatched(c, d, e, caller, buyId, sellId) == Ok((r, d'))
    ensures MatchOrders(c, caller, buyId, sellId, e.now) == Ok(m)
    ensures ExecuteMatch(d, e, m) == Ok(d') && RecordFill(c, m, buyId, sellId) == Ok(r)
  {
    m := MatchOrders(c, caller, buyId, sellId, e.now).value;
  }

  /** A settlement keeps the order book, for every pair of orders. */
  lemma {:induction false} SettleKeepsClob(
    c: ClobState, d: Desk, e: Env, caller: Address, buyId: u64, sellId: u64, r: ClobState, d': Desk)
    requires ClobSound(c) && SettleMatched(c, d, e, caller, buyId, sellId) == Ok((r, d'))
    ensures ClobSound(r) && r.orders.Keys == c.orders.Keys
    ensures forall id :: id in c.orders ==> r.orders[id].trader == c.orders[id].trader
  {
    var m := SettleEffect(c, d, e, caller, buyId, sellId, r, d');
    MatchIsFair(c, caller, buyId, sellId, e.now, m);
    RecordKeepsClob(c, m, buyId, sellId, r);
  }

  lemma {:induction false} Midpoint(a: int, b: int)
    requires a <= b
    ensures a <= TruncDiv(a + b, 2) <= b
  {
  }
}
