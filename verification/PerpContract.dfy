/** The perp engine as the contract runs it: storage updated in place, calls into the vault and the SLP vault, and the
    host's rollback when a call fails. Each entry point does exactly what Trading specifies. */
module PerpContract {
  import opened Int128
  import opened Host
  import opened FixedPoint
  import opened MapSums
  import opened Pricing
  import opened PerpBooks
  import opened Trading
  import Vault
  import SlpVault
  import VaultContract

  /** The money of a fill is that of its two sides, the second on what the first left. */
  lemma {:induction false} SidesJoin(
    d: Desk, e: Env, buyer: Address, seller: Address, buy: FillTerms, sell: FillTerms,
    first: Result<(Funds, i128), PerpError>, second: Result<(Funds, i128), PerpError>)
    requires first == FillSide(d.w, d.funds, e, buyer, d.perp.nextId, buy)
    requires first.Ok? ==> second == SecondSide(d.w, first.value.0, e, seller, d.perp.nextId, sell)
    ensures FillMoney(d, e, buyer, seller, buy, sell) == JoinSides(first, if first.Ok? then second else first)
  {
  }

  class PerpEngine {
    const w: Wiring
    const vault: VaultContract.VaultStorage
    const slp: SlpVault.SlpContract
    var paused: bool
    var markets: map<u32, MarketBook>
    var positions: map<u64, Position>
    var userIds: map<Address, seq<u64>>
    var marketIds: map<u32, seq<u64>>
    var nextId: u64
    var orders: map<u64, PendingOrder>
    var nextOrderId: u64

    ghost function Books(): PerpState
      reads this
    {
      PerpState(paused, markets, positions, userIds, marketIds, nextId, orders, nextOrderId)
    }

    ghost function Money(): Funds
      reads this, vault, slp
    {
      Funds(vault.Model(), slp.Model())
    }

    ghost function Model(): Desk
      reads this, vault, slp
    {
      Desk(w, Money(), Books())
    }

    constructor (w: Wiring, vault: VaultContract.VaultStorage, slp: SlpVault.SlpContract)
      ensures this.w == w && this.vault == vault && this.slp == slp
      ensures Books() == PerpState(false, map[], map[], map[], map[], 1, map[], 1)
    {
      this.w, this.vault, this.slp := w, vault, slp;
      paused, markets, positions, userIds, marketIds := false, map[], map[], map[], map[];
      nextId, orders, nextOrderId := 1, map[], 1;
    }

    // ----- storage helpers -----

    method SaveBooks() returns (p: PerpState)
      ensures p == Books()
    {
      return PerpState(paused, markets, positions, userIds, marketIds, nextId, orders, nextOrderId);
    }

    /** The host's rollback of the engine, the vault and the SLP vault. */
    method Rollback(p: PerpState, f: Funds)
      modifies this, vault, slp
      ensures Model() == Desk(w, f, p)
    {
      paused, markets, positions, userIds, marketIds := p.paused, p.markets, p.positions, p.userIds, p.marketIds;
      nextId, orders, nextOrderId := p.nextId, p.orders, p.nextOrderId;
      vault.Rollback(f.vault);
      slp.Rollback(f.slp);
    }

    method SaveMoney() returns (f: Funds)
      ensures f == Money()
    {
      var v := vault.Save();
      var s := slp.Save();
      return Funds(v, s);
    }

    /** The list-removal loop: the first occurrence goes, the rest keep their order. */
    method RemoveId(ids: seq<u64>, id: u64) returns (r: seq<u64>)
      ensures r == Without(ids, id)
    {
      for index := 0 to |ids|
        invariant id !in ids[..index]
      {
        if ids[index] == id {
          FirstOccurrence(ids, id, index);
          return ids[..index] + ids[index + 1..];
        }
      }
      NoOccurrence(ids, id);
      return ids;
    }

    /** Store a position, list it for its owner and its market, and take its id. */
    method Insert(pos: Position) returns (r: Result<(), PerpError>)
      modifies this
      ensures r == Status(AddPosition(old(Books()), pos))
      ensures r.Ok? ==> Books() == AddPosition(old(Books()), pos).value
    {
      var ids := IdsOf(userIds, pos.owner);
      positions := positions[nextId := pos];
      if |ids| >= MAX_POSITIONS_PER_USER {
        return Err(TooManyPositions);
      }
      userIds := userIds[pos.owner := ids + [nextId]];
      marketIds := marketIds[pos.market := IdsOf(marketIds, pos.market) + [nextId]];
      if nextId + 1 >= TWO_64 {
        return Err(MathOverflow);
      }
      nextId := nextId + 1;
      return Ok(());
    }

    method Remove(id: u64, fromMarket: bool)
      requires id in positions
      modifies this
      ensures Books() == RemovePosition(old(Books()), id, fromMarket)
    {
      var pos := positions[id];
      positions := positions - {id};
      var ids := RemoveId(IdsOf(userIds, pos.owner), id);
      userIds := userIds[pos.owner := ids];
      if fromMarket {
        var left := RemoveId(IdsOf(marketIds, pos.market), id);
        marketIds := marketIds[pos.market := left];
      }
    }

    /** `aggregate_existing_positions`. */
    method AggregateMargins(user: Address) returns (r: Result<i128, PerpError>)
      ensures r == MarginsOf(Books(), IdsOf(userIds, user))
    {
      var ids := IdsOf(userIds, user);
      var total: i128 := 0;
      for i := 0 to |ids|
        invariant MarginsOf(Books(), ids[..i]) == Ok(total)
      {
        assert ids[..i + 1][..i] == ids[..i];
        if ids[i] !in positions {
          MarginsFail(Books(), ids, i + 1);
          return Err(PositionNotFound);
        }
        var sum := total + positions[ids[i]].margin;
        if !InI128(sum) {
          MarginsFail(Books(), ids, i + 1);
          return Err(MathOverflow);
        }
        total := sum;
      }
      assert ids[..|ids|] == ids;
      return Ok(total);
    }

    // ----- money; after a failure the entry point is rolled back, so only success is described -----

    method LockFor(user: Address, id: u64, amount: i128, prices: map<Address, i128>) returns (r: Result<(), PerpError>)
      modifies vault
      ensures r == Status(Lock(old(Money()), w, user, id, amount, prices))
      ensures r.Ok? ==> Money() == Lock(old(Money()), w, user, id, amount, prices).value
    {
      var locked := vault.DoLockMargin(w.perp, user, id, amount, prices);
      return Call(locked);
    }

    method UnlockFor(user: Address, id: u64, amount: i128) returns (r: Result<(), PerpError>)
      modifies vault
      ensures r == Status(Unlock(old(Money()), w.perp, user, id, amount))
      ensures r.Ok? ==> Money() == Unlock(old(Money()), w.perp, user, id, amount).value
    {
      var unlocked := vault.DoUnlockMargin(w.perp, user, id, amount);
      return Call(unlocked);
    }

    /** The paired move and credit. */
    method Pay(user: Address, amount: i128) returns (r: Result<(), PerpError>)
      modifies vault, slp
      ensures r == Status(PaySlp(old(Money()), w, w.perp, user, amount))
      ensures r.Ok? ==> Money() == PaySlp(old(Money()), w, w.perp, user, amount).value
    {
      var moved := vault.DoMoveBalance(w.perp, user, w.slp, w.usdc, amount);
      if moved.Err? {
        return Err(CallFailed);
      }
      var credited := slp.DoCreditPnl(w.perp, amount);
      return Call(credited);
    }

    method ChargeOpenFee(user: Address, fee: i128) returns (r: Result<(), PerpError>)
      modifies vault, slp
      ensures r == Status(PayOpenFee(old(Money()), w, user, fee))
      ensures r.Ok? ==> Money() == PayOpenFee(old(Money()), w, user, fee).value
    {
      if fee <= 0 {
        return Ok(());
      }
      if !w.slpSet {
        return Err(SlpVaultNotConfigured);
      }
      r := Pay(user, fee);
    }

    /** `draw_pnl`: the SLP lowers its assets before it moves the balance. */
    method Draw(user: Address, amount: i128) returns (r: Result<(), PerpError>)
      modifies vault, slp
      ensures r == Status(DrawProfit(old(Money()), w, w.perp, user, amount))
      ensures r.Ok? ==> Money() == DrawProfit(old(Money()), w, w.perp, user, amount).value
    {
      var drawn := slp.DoDrawPnl(w.perp, amount, true);
      if drawn.Err? {
        return Err(CallFailed);
      }
      var moved := vault.DoMoveBalance(w.slp, w.slp, user, w.usdc, amount);
      return Call(moved);
    }

    /** `settle_position_close`. */
    method Settle(user: Address, id: u64, released: i128, gross: i128, fee: i128) returns (r: Result<(), PerpError>)
      modifies vault, slp
      ensures r == Status(SettleClose(old(Money()), w, user, id, released, gross, fee))
      ensures r.Ok? ==> Money() == SettleClose(old(Money()), w, user, id, released, gross, fee).value
    {
      if !w.slpSet {
        return Err(SlpVaultNotConfigured);
      }
      r := UnlockFor(user, id, released);
      if r.Err? {
        return;
      }
      if fee > 0 {
        var capped := Min(fee, released);
        if capped > 0 {
          r := Pay(user, capped);
          if r.Err? {
            return;
          }
        }
      }
      if gross > 0 {
        var drawn := Draw(user, gross);
        return if drawn.Ok? then Ok(()) else Err(InsufficientLiquidity);
      }
      if gross < 0 {
        var loss := LossTaken(released, gross, fee);
        if loss.Err? {
          return Err(loss.error);
        }
        if loss.value > 0 {
          r := Pay(user, loss.value);
        }
      }
    }

    // ----- bodies of the entry points -----

    /** Write the market's books. */
    method PutBook(m: u32, b: MarketBook)
      modifies `markets
      ensures Books() == SetBook(old(Books()), m, b)
    {
      markets := markets[m := b];
    }

    method CheckAccount(user: Address, notional: i128, margin: i128, leverage: u32, info: MarketInfo)
      returns (r: Result<(), PerpError>)
      ensures r == CheckRisk(Model(), Money(), user, notional, margin, leverage, info)
    {
      var existing := AggregateMargins(user);
      if existing.Err? {
        return Err(existing.error);
      }
      if w.usdc !in vault.cfg.tokens {
        return Err(CallFailed);
      }
      var collateral := Get(vault.balances, (user, w.usdc));
      if !RiskAccepts(notional, margin, leverage, info.maxLeverage, existing.value, collateral) {
        return Err(CallFailed);
      }
      return Ok(());
    }

    /** The execution terms of a new position: price, book with the larger open interest, notional, margin, fee. */
    method Terms(
      price: i128, b: MarketBook, size: i128, isLong: bool, leverage: u32, maxSlippageBps: u32, asOrder: bool)
      returns (r: Result<(i128, MarketBook, i128, i128, i128), PerpError>)
      requires leverage > 0
      ensures r == EntryTerms(price, b, size, isLong, leverage, maxSlippageBps, asOrder)
    {
      var exec := ExecutionPrice(price, b.skew, size, isLong);
      if exec.None? {
        return Err(MathOverflow);
      }
      var slippage := CheckSlippage(exec.value, price, maxSlippageBps);
      if slippage.Err? {
        return Err(slippage.error);
      }
      var grown := GrowOi(b, isLong, size);
      if grown.Err? {
        return Err(grown.error);
      }
      var notional := Notional(size, exec.value);
      if notional.None? {
        return Err(MathOverflow);
      }
      if asOrder && notional.value < b.info.minSize {
        return Err(InvalidSize);
      }
      var margin := TruncDiv(notional.value, leverage);
      if margin <= 0 || margin > I128_MAX {
        return Err(InsufficientMargin);
      }
      var fee := ApplyBps(notional.value, b.info.takerFeeBps);
      if fee.None? {
        return Err(CallFailed);
      }
      return Ok((exec.value, grown.value, notional.value, margin, fee.value));
    }

    method EnterFunds(
      e: Env, user: Address, notional: i128, margin: i128, fee: i128, leverage: u32, info: MarketInfo, asOrder: bool)
      returns (r: Result<(), PerpError>)
      modifies vault, slp
      ensures r == Status(EnterMoney(old(Model()), e, user, notional, margin, fee, leverage, info, asOrder))
      ensures r.Ok? ==>
                Money() == EnterMoney(old(Model()), e, user, notional, margin, fee, leverage, info, asOrder).value
    {
      r := LockFor(user, nextId, margin, e.prices);
      if r.Err? {
        return;
      }
      r := ChargeOpenFee(user, fee);
      if r.Err? || asOrder {
        return;
      }
      r := CheckAccount(user, notional, margin, leverage, info);
    }

    method WriteEntry(grown: MarketBook, pos: Position) returns (r: Result<(), PerpError>)
      modifies this
      ensures r == Status(EnterBooks(old(Books()), grown, pos))
      ensures r.Ok? ==> Books() == EnterBooks(old(Books()), grown, pos).value
    {
      var shifted := ShiftSkew(grown, pos.isLong, pos.size);
      if shifted.Err? {
        return Err(shifted.error);
      }
      PutBook(pos.market, shifted.value);
      r := Insert(pos);
    }

    /** What `open_position` and `execute_order` share. */
    method EnterBody(
      e: Env, price: i128, user: Address, m: u32, size: i128, isLong: bool, leverage: u32, maxSlippageBps: u32,
      asOrder: bool)
      returns (r: Result<(), PerpError>)
      requires m in markets && leverage > 0
      modifies this, vault, slp
      ensures r == Status(Enter(old(Model()), e, price, user, m, size, isLong, leverage, maxSlippageBps, asOrder))
      ensures r.Ok? ==>
                Model() == Enter(old(Model()), e, price, user, m, size, isLong, leverage, maxSlippageBps, asOrder).value
    {
      var terms := Terms(price, markets[m], size, isLong, leverage, maxSlippageBps, asOrder);
      if terms.Err? {
        return Err(terms.error);
      }
      var (exec, grown, notional, margin, fee) := terms.value;
      r := EnterFunds(e, user, notional, margin, fee, leverage, grown.info, asOrder);
      if r.Err? {
        return;
      }
      r := WriteEntry(grown, Position(user, m, size, exec, margin, leverage, isLong, FundingIdx(e, isLong)));
    }

    method OpenBody(e: Env, user: Address, m: u32, size: i128, isLong: bool, leverage: u32, maxSlippageBps: u32)
      returns (r: Result<(), PerpError>)
      modifies this, vault, slp
      ensures r == Status(OpenPosition(old(Model()), e, user, m, size, isLong, leverage, maxSlippageBps))
      ensures r.Ok? ==> Model() == OpenPosition(old(Model()), e, user, m, size, isLong, leverage, maxSlippageBps).value
    {
      if paused {
        return Err(Paused);
      }
      if size <= 0 {
        return Err(InvalidSize);
      }
      if m !in markets {
        return Err(MarketNotFound);
      }
      if !markets[m].info.active {
        return Err(MarketInactive);
      }
      var info := markets[m].info;
      if leverage == 0 || leverage > info.maxLeverage || leverage > MAX_LEVERAGE {
        return Err(InvalidLeverage);
      }
      var price := ReadPrice(e);
      if price.Err? {
        return Err(price.error);
      }
      var notional := Notional(size, price.value);
      if notional.None? {
        return Err(MathOverflow);
      }
      if notional.value < info.minSize {
        return Err(InvalidSize);
      }
      r := EnterBody(e, price.value, user, m, size, isLong, leverage, maxSlippageBps, false);
    }

    method ExecuteBody(e: Env, id: u64) returns (r: Result<(), PerpError>)
      modifies this, vault, slp
      ensures r == Status(ExecuteOrder(old(Model()), e, id))
      ensures r.Ok? ==> Model() == ExecuteOrder(old(Model()), e, id).value
    {
      if paused {
        return Err(Paused);
      }
      if id !in orders {
        return Err(OrderNotFound);
      }
      var o := orders[id];
      if e.ledger > o.expiry {
        return Err(OrderExpired);
      }
      if o.market !in markets {
        return Err(MarketNotFound);
      }
      if !markets[o.market].info.active {
        return Err(MarketInactive);
      }
      var price := ReadPrice(e);
      if price.Err? {
        return Err(price.error);
      }
      var triggered := Triggered(o.kind, o.isLong, price.value);
      if triggered.Err? {
        return Err(triggered.error);
      }
      if !triggered.value {
        return Err(OrderConditionNotMet);
      }
      if o.leverage == 0 {
        return Err(MathOverflow);
      }
      orders := orders - {id};
      r := EnterBody(e, price.value, o.user, o.market, o.size, o.isLong, o.leverage, o.maxSlippageBps, true);
    }

    /** Profit before fees, and the fee, of closing `size` of a position. */
    method ClosingTerms(e: Env, pos: Position, b: MarketBook, size: i128, price: i128)
      returns (r: Result<(i128, i128), PerpError>)
      ensures r == CloseTerms(e, pos, b, size, price)
    {
      var exec := ExecutionPrice(price, b.skew, size, !pos.isLong);
      if exec.None? {
        return Err(MathOverflow);
      }
      var gross := GrossPnl(pos, e, size, exec.value);
      if gross.Err? {
        return Err(gross.error);
      }
      var notional := Notional(size, exec.value);
      if notional.None? {
        return Err(MathOverflow);
      }
      var fee := ApplyBps(notional.value, b.info.makerFeeBps);
      if fee.None? {
        return Err(CallFailed);
      }
      return Ok((gross.value, fee.value));
    }

    /** The position of an owner and its active market. */
    method ReadOwned(user: Address, id: u64) returns (r: Result<(Position, MarketBook), PerpError>)
      ensures r == OwnedInMarket(Books(), user, id)
    {
      if paused {
        return Err(Paused);
      }
      if id !in positions {
        return Err(PositionNotFound);
      }
      if positions[id].owner != user {
        return Err(NotPositionOwner);
      }
      var m := positions[id].market;
      if m !in markets {
        return Err(MarketNotFound);
      }
      if !markets[m].info.active {
        return Err(MarketInactive);
      }
      return Ok((positions[id], markets[m]));
    }

    method CloseBody(e: Env, user: Address, id: u64) returns (r: Result<(), PerpError>)
      modifies this, vault, slp
      ensures r == Status(ClosePosition(old(Model()), e, user, id))
      ensures r.Ok? ==> Model() == ClosePosition(old(Model()), e, user, id).value
    {
      var owned := ReadOwned(user, id);
      if owned.Err? {
        return Err(owned.error);
      }
      var (pos, b) := owned.value;
      var price := ReadPrice(e);
      if price.Err? {
        return Err(price.error);
      }
      var terms := ClosingTerms(e, pos, b, pos.size, price.value);
      if terms.Err? {
        return Err(terms.error);
      }
      var (gross, fee) := terms.value;
      var net: int := gross;
      net := net - fee;
      if !InI128(net) {
        return Err(MathOverflow);
      }
      r := Settle(user, id, pos.margin, gross, fee);
      if r.Err? {
        return;
      }
      r := Delist(id, pos, b);
    }

    /** Take a closed position out of its market's book and its owner's list. */
    method Delist(id: u64, pos: Position, b: MarketBook) returns (r: Result<(), PerpError>)
      requires id in positions
      modifies this
      ensures r == Status(ClosedBooks(old(Books()), id, pos, b))
      ensures r.Ok? ==> Books() == ClosedBooks(old(Books()), id, pos, b).value
    {
      var left := BookWithout(b, pos.isLong, pos.size);
      if left.Err? {
        return Err(left.error);
      }
      PutBook(pos.market, left.value);
      Remove(id, false);
      return Ok(());
    }

    method AddMarginBody(e: Env, user: Address, id: u64, amount: i128) returns (r: Result<(), PerpError>)
      modifies this, vault, slp
      ensures r == Status(AddMargin(old(Model()), e, user, id, amount))
      ensures r.Ok? ==> Model() == AddMargin(old(Model()), e, user, id, amount).value
    {
      var owned := ReadOwned(user, id);
      if owned.Err? {
        return Err(owned.error);
      }
      var (pos, b) := owned.value;
      if amount <= 0 {
        return Err(InvalidAction);
      }
      r := LockFor(user, id, amount, e.prices);
      if r.Err? {
        return;
      }
      r := WriteMargin(id, pos, amount);
    }

    method WriteMargin(id: u64, pos: Position, amount: i128) returns (r: Result<(), PerpError>)
      modifies `positions
      ensures var margin := pos.margin + amount;
              && r == (if InI128(margin) then Ok(()) else Err(MathOverflow))
              && (InI128(margin) ==> Books() == SetPosition(old(Books()), id, pos.(margin := margin)))
    {
      var margin: int := pos.margin;
      margin := margin + amount;
      if !InI128(margin) {
        return Err(MathOverflow);
      }
      positions := positions[id := pos.(margin := margin)];
      return Ok(());
    }

    method RemoveMarginBody(e: Env, user: Address, id: u64, amount: i128) returns (r: Result<(), PerpError>)
      modifies this, vault, slp
      ensures r == Status(RemoveMargin(old(Model()), e, user, id, amount))
      ensures r.Ok? ==> Model() == RemoveMargin(old(Model()), e, user, id, amount).value
    {
      var owned := ReadOwned(user, id);
      if owned.Err? {
        return Err(owned.error);
      }
      var (pos, b) := owned.value;
      if amount <= 0 || amount >= pos.margin {
        return Err(InvalidAction);
      }
      var price := ReadPrice(e);
      if price.Err? {
        return Err(price.error);
      }
      var leverage := LeverageFor(pos.size, price.value, pos.margin - amount);
      if leverage.Err? {
        return Err(leverage.error);
      }
      if leverage.value > b.info.maxLeverage {
        return Err(InvalidLeverage);
      }
      r := UnlockFor(user, id, amount);
      if r.Err? {
        return;
      }
      pos := pos.(margin := pos.margin - amount);
      pos := pos.(leverage := leverage.value);
      positions := positions[id := pos];
    }

    method PartialBody(e: Env, user: Address, id: u64, size: i128) returns (r: Result<(), PerpError>)
      modifies this, vault, slp
      ensures r == Status(PartialClose(old(Model()), e, user, id, size))
      ensures r.Ok? ==> Model() == PartialClose(old(Model()), e, user, id, size).value
    {
      var owned := ReadOwned(user, id);
      if owned.Err? {
        return Err(owned.error);
      }
      var (pos, b) := owned.value;
      if size <= 0 || size >= pos.size {
        return Err(InvalidAction);
      }
      var price := ReadPrice(e);
      if price.Err? {
        return Err(price.error);
      }
      var terms := ClosingTerms(e, pos, b, size, price.value);
      if terms.Err? {
        return Err(terms.error);
      }
      var (gross, fee) := terms.value;
      var released := ReleasedMargin(pos, size);
      if released.None? {
        return Err(MathOverflow);
      }
      r := Settle(user, id, released.value, gross, fee);
      if r.Err? {
        return;
      }
      r := Shrink(e, id, pos, b, size, released.value, price.value);
    }

    /** Take `size` out of the market's book and of the position. */
    method Shrink(e: Env, id: u64, pos: Position, b: MarketBook, size: i128, released: i128, price: i128)
      returns (r: Result<(), PerpError>)
      modifies this
      ensures r == Status(ShrunkBooks(old(Books()), e, id, pos, b, size, released, price))
      ensures r.Ok? ==> Books() == ShrunkBooks(old(Books()), e, id, pos, b, size, released, price).value
    {
      var left := BookWithout(b, pos.isLong, size);
      if left.Err? {
        return Err(left.error);
      }
      PutBook(pos.market, left.value);
      if !InI128(pos.size - size) || !InI128(pos.margin - released) {
        return Err(MathOverflow);
      }
      var leverage := LeverageFor(pos.size - size, price, pos.margin - released);
      if leverage.Err? {
        return Err(leverage.error);
      }
      var rest := pos.(size := pos.size - size);
      rest := rest.(margin := pos.margin - released);
      rest := rest.(fundingIdx := FundingIdx(e, pos.isLong));
      rest := rest.(leverage := leverage.value);
      positions := positions[id := rest];
      return Ok(());
    }

    // ----- entry points: a failed call is rolled back -----

    /** `open_position`; returns the id of the new position. */
    method DoOpenPosition(e: Env, user: Address, m: u32, size: i128, isLong: bool, leverage: u32, maxSlippageBps: u32)
      returns (r: Result<u64, PerpError>)
      modifies this, vault, slp
      ensures Model() == After(old(Model()),
          OpenPosition(old(Model()), e, user, m, size, isLong, leverage, maxSlippageBps))
      ensures r == match OpenPosition(old(Model()), e, user, m, size, isLong, leverage, maxSlippageBps)
                   case Ok(_) => Ok(old(nextId))
                   case Err(x) => Err(x)
    {
      var id := nextId;
      var books := SaveBooks();
      var money := SaveMoney();
      var done := OpenBody(e, user, m, size, isLong, leverage, maxSlippageBps);
      if done.Err? {
        Rollback(books, money);
        return Err(done.error);
      }
      return Ok(id);
    }

    /** `execute_order`; returns the id of the new position. */
    method DoExecuteOrder(e: Env, id: u64) returns (r: Result<u64, PerpError>)
      modifies this, vault, slp
      ensures Model() == After(old(Model()), ExecuteOrder(old(Model()), e, id))
      ensures r == match ExecuteOrder(old(Model()), e, id) case Ok(_) => Ok(old(nextId)) case Err(x) => Err(x)
    {
      var position := nextId;
      var books := SaveBooks();
      var money := SaveMoney();
      var done := ExecuteBody(e, id);
      if done.Err? {
        Rollback(books, money);
        return Err(done.error);
      }
      return Ok(position);
    }

    method DoClosePosition(e: Env, user: Address, id: u64) returns (r: Result<(), PerpError>)
      modifies this, vault, slp
      ensures r == Status(ClosePosition(old(Model()), e, user, id))
      ensures Model() == After(old(Model()), ClosePosition(old(Model()), e, user, id))
    {
      var books := SaveBooks();
      var money := SaveMoney();
      r := CloseBody(e, user, id);
      if r.Err? {
        Rollback(books, money);
      }
    }

    method DoAddMargin(e: Env, user: Address, id: u64, amount: i128) returns (r: Result<(), PerpError>)
      modifies this, vault, slp
      ensures r == Status(AddMargin(old(Model()), e, user, id, amount))
      ensures Model() == After(old(Model()), AddMargin(old(Model()), e, user, id, amount))
    {
      var books := SaveBooks();
      var money := SaveMoney();
      r := AddMarginBody(e, user, id, amount);
      if r.Err? {
        Rollback(books, money);
      }
    }

    method DoRemoveMargin(e: Env, user: Address, id: u64, amount: i128) returns (r: Result<(), PerpError>)
      modifies this, vault, slp
      ensures r == Status(RemoveMargin(old(Model()), e, user, id, amount))
      ensures Model() == After(old(Model()), RemoveMargin(old(Model()), e, user, id, amount))
    {
      var books := SaveBooks();
      var money := SaveMoney();
      r := RemoveMarginBody(e, user, id, amount);
      if r.Err? {
        Rollback(books, money);
      }
    }

    method DoPartialClose(e: Env, user: Address, id: u64, size: i128) returns (r: Result<(), PerpError>)
      modifies this, vault, slp
      ensures r == Status(PartialClose(old(Model()), e, user, id, size))
      ensures Model() == After(old(Model()), PartialClose(old(Model()), e, user, id, size))
    {
      var books := SaveBooks();
      var money := SaveMoney();
      r := PartialBody(e, user, id, size);
      if r.Err? {
        Rollback(books, money);
      }
    }

    // ----- pending orders -----

    method DoCreateOrder(
      e: Env, user: Address, m: u32, size: i128, isLong: bool, leverage: u32, maxSlippageBps: u32, kind: OrderType,
      expiryOffset: u32) returns (r: Result<u64, PerpError>)
      modifies this
      ensures Model() == After(old(Model()),
          CreateOrder(old(Model()), e, user, m, size, isLong, leverage, maxSlippageBps, kind, expiryOffset))
      ensures r == match CreateOrder(old(Model()), e, user, m, size, isLong, leverage, maxSlippageBps, kind,
          expiryOffset)
                   case Ok(_) => Ok(old(nextOrderId))
                   case Err(x) => Err(x)
    {
      if size <= 0 {
        return Err(InvalidSize);
      }
      if m !in markets {
        return Err(MarketNotFound);
      }
      var info := markets[m].info;
      if !info.active {
        return Err(MarketInactive);
      }
      if leverage == 0 || leverage > info.maxLeverage || leverage > MAX_LEVERAGE {
        return Err(InvalidLeverage);
      }
      var expiry := e.ledger + Max(expiryOffset, 1);
      if expiry >= TWO_32 || nextOrderId + 1 >= TWO_64 {
        return Err(MathOverflow);
      }
      var id := nextOrderId;
      nextOrderId := nextOrderId + 1;
      orders := orders[id := PendingOrder(user, m, size, isLong, leverage, maxSlippageBps, kind, expiry)];
      return Ok(id);
    }

    method DoCancelOrder(user: Address, id: u64) returns (r: Result<(), PerpError>)
      modifies this
      ensures r == Status(CancelOrder(old(Model()), user, id))
      ensures Model() == After(old(Model()), CancelOrder(old(Model()), user, id))
    {
      if id !in orders {
        return Err(OrderNotFound);
      }
      if orders[id].user != user {
        return Err(NotPositionOwner);
      }
      orders := orders - {id};
      return Ok(());
    }

    // ----- matched orders -----

    method FillSideBody(e: Env, user: Address, id: u64, terms: FillTerms) returns (r: Result<i128, PerpError>)
      modifies vault, slp
      ensures r.Ok? ==> FillSide(w, old(Money()), e, user, id, terms) == Ok((Money(), r.value))
      ensures r.Err? ==> FillSide(w, old(Money()), e, user, id, terms) == Err(r.error)
    {
      if terms.Err? {
        return Err(terms.error);
      }
      var (margin, fee) := terms.value;
      if id + 1 >= TWO_64 {
        return Err(MathOverflow);
      }
      var locked := LockFor(user, id, margin, e.prices);
      if locked.Err? {
        return Err(locked.error);
      }
      var paid := ChargeOpenFee(user, fee);
      if paid.Err? {
        return Err(paid.error);
      }
      return Ok(margin);
    }

    method SecondSideBody(e: Env, user: Address, terms: FillTerms) returns (r: Result<i128, PerpError>)
      modifies vault, slp
      ensures r.Ok? ==> SecondSide(w, old(Money()), e, user, nextId, terms) == Ok((Money(), r.value))
      ensures r.Err? ==> SecondSide(w, old(Money()), e, user, nextId, terms) == Err(r.error)
    {
      if nextId + 1 >= TWO_64 {
        return Err(MathOverflow);
      }
      r := FillSideBody(e, user, nextId + 1, terms);
    }

    method FillMoneyBody(e: Env, buyer: Address, seller: Address, buy: FillTerms, sell: FillTerms)
      returns (r: Result<(i128, i128), PerpError>)
      modifies vault, slp
      ensures r.Ok? ==> FillMoney(old(Model()), e, buyer, seller, buy, sell) == Ok((Money(), r.value.0, r.value.1))
      ensures r.Err? ==> FillMoney(old(Model()), e, buyer, seller, buy, sell) == Err(r.error)
    {
      ghost var first: Result<(Funds, i128), PerpError>;
      ghost var second: Result<(Funds, i128), PerpError>;
      var bought := FillSideBody(e, buyer, nextId, buy);
      if bought.Err? {
        first, second := Err(bought.error), Err(bought.error);
        r := Err(bought.error);
      } else {
        first := Ok((Money(), bought.value));
        var sold := SecondSideBody(e, seller, sell);
        if sold.Err? {
          second := Err(sold.error);
          r := Err(sold.error);
        } else {
          second := Ok((Money(), sold.value));
          r := Ok((bought.value, sold.value));
        }
      }
      SidesJoin(old(Model()), e, buyer, seller, buy, sell, first, second);
    }

    method WritePair(m: u32, b: MarketBook, buy: Position, sell: Position) returns (r: Result<(), PerpError>)
      modifies this
      ensures r == Status(AddPair(SetBook(old(Books()), m, b), buy, sell))
      ensures r.Ok? ==> Books() == AddPair(SetBook(old(Books()), m, b), buy, sell).value
    {
      PutBook(m, b);
      r := Insert(buy);
      if r.Err? {
        return;
      }
      r := Insert(sell);
    }

    method FillBody(
      e: Env, caller: Address, buyer: Address, seller: Address, m: u32, size: i128, price: i128, buyLeverage: u32,
      sellLeverage: u32) returns (r: Result<(), PerpError>)
      modifies this, vault, slp
      ensures r == Status(ExecuteFill(old(Model()), e, caller, buyer, seller, m, size, price, buyLeverage,
          sellLeverage))
      ensures r.Ok? ==>
                Model() == ExecuteFill(old(Model()), e, caller, buyer, seller, m, size, price, buyLeverage,
                    sellLeverage).value
    {
      var books := SaveBooks();
      var notional := FillChecks(books, w.clob, caller, m, size, price, buyLeverage, sellLeverage);
      if notional.Err? {
        return Err(notional.error);
      }
      r := FillBothBody(e, buyer, seller, m, size, price, notional.value, buyLeverage, sellLeverage);
    }

    method FillBothBody(
      e: Env, buyer: Address, seller: Address, m: u32, size: i128, price: i128, notional: i128, buyLeverage: u32,
      sellLeverage: u32) returns (r: Result<(), PerpError>)
      requires m in markets && buyLeverage > 0 && sellLeverage > 0
      modifies this, vault, slp
      ensures r == Status(FillBoth(old(Model()), e, buyer, seller, m, size, price, notional, buyLeverage, sellLeverage))
      ensures r.Ok? ==>
                Model() == FillBoth(old(Model()), e, buyer, seller, m, size, price, notional, buyLeverage,
                    sellLeverage).value
    {
      var b := markets[m];
      var money := FillMoneyBody(e, buyer, seller, SideTerms(notional, buyLeverage, b.info.makerFeeBps),
                                 SideTerms(notional, sellLeverage, b.info.makerFeeBps));
      if money.Err? {
        return Err(money.error);
      }
      var grown := GrowBoth(b, size);
      if grown.Err? {
        return Err(grown.error);
      }
      r := WritePair(m, grown.value, Position(buyer, m, size, price, money.value.0, buyLeverage, true, e.longIdx),
                     Position(seller, m, size, price, money.value.1, sellLeverage, false, e.shortIdx));
    }

    /** `execute_clob_fill`. */
    method DoExecuteFill(
      e: Env, caller: Address, buyer: Address, seller: Address, m: u32, size: i128, price: i128, buyLeverage: u32,
      sellLeverage: u32) returns (r: Result<(), PerpError>)
      modifies this, vault, slp
      ensures r == Status(ExecuteFill(old(Model()), e, caller, buyer, seller, m, size, price, buyLeverage,
          sellLeverage))
      ensures Model() == After(old(Model()),
          ExecuteFill(old(Model()), e, caller, buyer, seller, m, size, price, buyLeverage, sellLeverage))
    {
      var books := SaveBooks();
      var money := SaveMoney();
      r := FillBody(e, caller, buyer, seller, m, size, price, buyLeverage, sellLeverage);
      if r.Err? {
        Rollback(books, money);
      }
    }

    // ----- forced closes -----

    /** `risk_close_position`. */
    method DoRiskClose(
      e: Env, caller: Address, id: u64, size: i128, price: i128) returns (r: Result<RiskClosed, PerpError>)
      modifies this
      ensures var closed := RiskClose(old(Model()), e, caller, id, size, price);
              && r == (if closed.Ok? then Ok(closed.value.1) else Err(closed.error))
              && Books() == if closed.Ok? then closed.value.0 else old(Books())
    {
      if caller != w.risk {
        return Err(Unauthorized);
      }
      if size <= 0 || price <= 0 {
        return Err(InvalidAction);
      }
      if id !in positions {
        return Err(PositionNotFound);
      }
      var pos := positions[id];
      if size > pos.size {
        return Err(InvalidAction);
      }
      var funding := FundingPnl(pos.fundingIdx, FundingIdx(e, pos.isLong), size);
      var trade := TradePnl(pos.isLong, size, pos.entry, price);
      var released := ReleasedMargin(pos, size);
      if funding.None? || trade.None? || released.None? {
        return Err(MathOverflow);
      }
      if pos.market !in markets {
        return Err(MarketNotFound);
      }
      var left := ForcedBook(markets[pos.market], pos.isLong, size);
      if left.Err? {
        return Err(left.error);
      }
      var outcome := RiskClosed(pos.owner, pos.market, size, released.value, trade.value, funding.value,
                                size == pos.size);
      if size == pos.size {
        PutBook(pos.market, left.value);
        Remove(id, true);
        return Ok(outcome);
      }
      var rest := Remainder(pos, e, size, released.value, price);
      if rest.Err? {
        return Err(rest.error);
      }
      PutBook(pos.market, left.value);
      positions := positions[id := rest.value];
      return Ok(outcome);
    }

    /** `update_position_funding_idx`, for the funding contract only. */
    method DoUpdateFundingIdx(caller: Address, id: u64, idx: i128) returns (r: Result<(), PerpError>)
      modifies `positions
      ensures r.Ok? <==> caller == w.funding && id in old(positions)
      ensures Books() == if r.Ok? then SetPosition(old(Books()), id, old(positions)[id].(fundingIdx := idx))
          else old(Books())
    {
      if caller != w.funding {
        return Err(Unauthorized);
      }
      if id !in positions {
        return Err(PositionNotFound);
      }
      positions := positions[id := positions[id].(fundingIdx := idx)];
      return Ok(());
    }
  }

  lemma {:induction false} FirstOccurrence(ids: seq<u64>, id: u64, index: nat)
    requires index < |ids| && ids[index] == id && id !in ids[..index]
    ensures Without(ids, id) == ids[..index] + ids[index + 1..]
    decreases |ids|
  {
    if index > 0 {
      assert ids[1..][..index - 1] == ids[..index][1..];
      assert ids[0] in ids[..index];
      FirstOccurrence(ids[1..], id, index - 1);
      assert ids[1..][index..] == ids[index + 1..];
    }
  }

  lemma {:induction false} NoOccurrence(ids: seq<u64>, id: u64)
    requires id !in ids[..|ids|]
    ensures Without(ids, id) == ids
  {
    assert ids[..|ids|] == ids;
    if ids != [] {
      NoOccurrence(ids[1..], id);
    }
  }

  /** A failing prefix is the result for the whole list. */
  lemma {:induction false} MarginsFail(p: PerpState, ids: seq<u64>, n: nat)
    requires n <= |ids| && MarginsOf(p, ids[..n]).Err?
    ensures MarginsOf(p, ids) == MarginsOf(p, ids[..n])
    decreases |ids|
  {
    if n == |ids| {
      assert ids[..n] == ids;
    } else {
      assert ids[..|ids| - 1][..n] == ids[..n];
      MarginsFail(p, ids[..|ids| - 1], n);
    }
  }
}
