/** The order book as the contract runs it; a settlement calls the perp engine. */
module ClobContract {
  import opened Int128
  import opened Host
  import opened PerpBooks
  import opened Trading
  import opened Clob
  import PerpContract

  class OrderBook {
    const keeper: Address
    var orders: map<u64, LimitOrder>
    var nonces: map<Address, u64>
    var nextId: u64

    ghost function Model(): ClobState
      reads this
    {
      ClobState(keeper, orders, nonces, nextId)
    }

    constructor (keeper: Address)
      ensures Model() == ClobState(keeper, map[], map[], 1)
    {
      this.keeper, orders, nonces, nextId := keeper, map[], map[], 1;
    }

    method DoPlaceOrder(order: LimitOrder, now: u64) returns (r: Result<u64, ClobError>)
      modifies this
      ensures Model() == After(old(Model()), PlaceOrder(old(Model()), order, now))
      ensures r == match PlaceOrder(old(Model()), order, now) case Ok(_) => Ok(old(nextId)) case Err(e) => Err(e)
    {
      if order.expiry <= now {
        return Err(ClobError.OrderExpired);
      }
      if order.size <= 0 {
        return Err(ClobError.InvalidSize);
      }
      var expected := NonceOf(nonces, order.trader);
      if order.nonce != expected {
        return Err(InvalidNonce);
      }
      if expected + 1 >= TWO_64 || nextId + 1 >= TWO_64 {
        return Err(ClobError.MathOverflow);
      }
      nonces := nonces[order.trader := expected + 1];
      orders := orders[nextId := order.(filled := 0, status := Open)];
      nextId := nextId + 1;
      return Ok(nextId - 1);
    }

    method DoCancelOrder(caller: Address, id: u64) returns (r: Result<(), ClobError>)
      modifies this
      ensures r == Host.Status(CancelLimit(old(Model()), caller, id))
      ensures Model() == After(old(Model()), CancelLimit(old(Model()), caller, id))
    {
      if id !in orders {
        return Err(ClobError.OrderNotFound);
      }
      var order := orders[id];
      if order.trader != caller {
        return Err(NotOrderOwner);
      }
      if order.status != Open {
        return Err(OrderNotOpen);
      }
      orders := orders[id := order.(status := Cancelled)];
      return Ok(());
    }

    /** The fill in the perp engine, called under the order book's address. */
    method CallEngine(engine: PerpContract.PerpEngine, e: Env, m: Match) returns (r: Result<(), PerpError>)
      modifies engine, engine.vault, engine.slp
      ensures r == Host.Status(ExecuteMatch(old(engine.Model()), e, m))
      ensures engine.Model() == After(old(engine.Model()), ExecuteMatch(old(engine.Model()), e, m))
    {
      r := engine.DoExecuteFill(e, engine.w.clob, m.buy.trader, m.sell.trader, m.buy.market, m.size, m.price,
                                m.buy.leverage, m.sell.leverage);
    }

    /** Both orders record the fill. */
    method Record(m: Match, buyId: u64, sellId: u64) returns (r: Result<(), ClobError>)
      modifies `orders
      ensures r == Host.Status(RecordFill(old(Model()), m, buyId, sellId))
      ensures Model() == After(old(Model()), RecordFill(old(Model()), m, buyId, sellId))
    {
      var buy, sell := m.buy, m.sell;
      if !InI128(buy.filled + m.size) || !InI128(sell.filled + m.size) {
        return Err(ClobError.MathOverflow);
      }
      buy := buy.(filled := buy.filled + m.size);
      if buy.filled >= buy.size {
        buy := buy.(status := Filled);
      }
      sell := sell.(filled := sell.filled + m.size);
      if sell.filled >= sell.size {
        sell := sell.(status := Filled);
      }
      orders := orders[buyId := buy];
      orders := orders[sellId := sell];
      return Ok(());
    }

    /** `settle_matched_orders`; returns the fill size. */
    method DoSettle(engine: PerpContract.PerpEngine, e: Env, caller: Address, buyId: u64, sellId: u64)
      returns (r: Result<i128, ClobError>)
      modifies this, engine, engine.vault, engine.slp
      ensures var settled := SettleMatched(old(Model()), old(engine.Model()), e, caller, buyId, sellId);
              && (r.Ok? ==> settled == Ok((Model(), engine.Model()))
                            && r.value == MatchOrders(old(Model()), caller, buyId, sellId, e.now).value.size)
              && (r.Err? ==>
                    settled == Err(r.error) && Model() == old(Model()) && engine.Model() == old(engine.Model()))
    {
      var matched := MatchOrders(ClobState(keeper, orders, nonces, nextId), caller, buyId, sellId, e.now);
      if matched.Err? {
        return Err(matched.error);
      }
      var m := matched.value;
      var books := engine.SaveBooks();
      var money := engine.SaveMoney();
      var filled := CallEngine(engine, e, m);
      if filled.Err? {
        return Err(FillFailed);
      }
      var recorded := Record(m, buyId, sellId);
      if recorded.Err? {
        engine.Rollback(books, money);
        return Err(recorded.error);
      }
      return Ok(m.size);
    }
  }
}
