/** The books of the engine, the locks of the vault and the backing of the SLP, kept together by every trade. */
module DeskInvariants {
  import opened Int128
  import opened Host
  import opened FixedPoint
  import opened MapSums
  import opened Pricing
  import opened PerpBooks
  import opened Trading
  import opened FundsLemmas
  import Vault
  import SlpVault

  /** What is locked under a position beyond its margin: the margin that deleveraging took out of it. */
  type Surplus = map<u64, int>

  /** The surplus after a deleveraging. */
  function Raised(surplus: Surplus, taken: Option<(u64, i128)>): Surplus {
    if taken.None? then surplus else surplus[taken.value.0 := Get(surplus, taken.value.0) + taken.value.1]
  }

  /** Every open position's margin is locked in the vault under its owner and id, together with its surplus, and no id
      that is still to be used has a lock or a surplus. */
  ghost predicate LocksCover(p: PerpState, locked: map<(Address, u64), int>, surplus: Surplus) {
    && (forall id :: id in p.positions ==> Covered(p.positions[id], id, locked, surplus))
    && (forall k :: k in locked ==> k.1 < p.nextId)
    && (forall id :: id in surplus ==> id < p.nextId)
  }

  predicate Covered(pos: Position, id: u64, locked: map<(Address, u64), int>, surplus: Surplus) {
    0 < pos.margin && 0 <= Get(surplus, id) && pos.margin + Get(surplus, id) == Get(locked, (pos.owner, id))
  }

  /** The SLP does not trade: it owns no position and no pending order. */
  ghost predicate Separate(p: PerpState, slp: Address) {
    && (forall id :: id in p.positions ==> p.positions[id].owner != slp)
    && (forall id :: id in p.orders ==> p.orders[id].user != slp && p.orders[id].size > 0)
  }

  ghost predicate DeskSound(d: Desk, surplus: Surplus) {
    BooksSound(d.perp) && LocksCover(d.perp, Lockbox(d.funds), surplus) && Separate(d.perp, d.w.slp)
  }

  /** The invariants hold after the step, and the SLP's backing did not get worse. */
  ghost predicate Kept(d: Desk, d': Desk, surplus: Surplus) {
    && DeskSound(d', surplus) && d'.w == d.w
    && Slack(d'.funds, d.w) >= Slack(d.funds, d.w) && SameConfigs(d.funds, d'.funds)
  }

  // ----- locks, position by position -----

  /** The two maps agree except, perhaps, at one key. */
  ghost predicate SameElsewhere(m: map<(Address, u64), int>, n: map<(Address, u64), int>, key: (Address, u64)) {
    forall k :: k != key ==> (k in n <==> k in m) && Get(n, k) == Get(m, k)
  }

  lemma {:induction false} AddedElsewhere(m: map<(Address, u64), int>, owner: Address, id: u64, amount: int)
    ensures SameElsewhere(m, AddLock(m, owner, id, amount), (owner, id))
    ensures Get(AddLock(m, owner, id, amount), (owner, id)) == Get(m, (owner, id)) + amount
  {
  }

  lemma {:induction false} NewLockCovers(
    p: PerpState, r: PerpState, pos: Position, locked: map<(Address, u64), int>, surplus: Surplus)
    requires PositionsSound(p) && LocksCover(p, locked, surplus) && pos.margin > 0
    requires r.positions == p.positions[p.nextId := pos] && r.nextId == p.nextId + 1
    ensures LocksCover(r, AddLock(locked, pos.owner, p.nextId, pos.margin), surplus)
  {
    var key := (pos.owner, p.nextId);
    assert key !in locked;
    var after := AddLock(locked, pos.owner, p.nextId, pos.margin);
    forall id | id in r.positions
      ensures Covered(r.positions[id], id, after, surplus)
    {
      if id in p.positions && id != p.nextId {
        assert Covered(p.positions[id], id, locked, surplus);
      }
    }
  }

  /** A position's margin and its lock change by the same amount. */
  lemma {:induction false} MovedLockCovers(
    p: PerpState, r: PerpState, id: u64, pos: Position, locked: map<(Address, u64), int>,
    after: map<(Address, u64), int>, surplus: Surplus)
    requires PositionsSound(p) && LocksCover(p, locked, surplus) && id in p.positions
    requires pos.owner == p.positions[id].owner && pos.margin > 0
    requires r.positions == p.positions[id := pos] && r.nextId == p.nextId
    requires SameElsewhere(locked, after, (pos.owner, id))
    requires (Get(after, (pos.owner, id)) as int) - Get(locked, (pos.owner, id))
        == (pos.margin as int) - p.positions[id].margin
    ensures LocksCover(r, after, surplus)
  {
    assert Covered(p.positions[id], id, locked, surplus);
    forall k | k in after
      ensures k.1 < r.nextId
    {
      if k == (pos.owner, id) {
        assert id < p.nextId;
      }
    }
    forall other | other in r.positions
      ensures Covered(r.positions[other], other, after, surplus)
    {
      if other != id {
        assert Covered(p.positions[other], other, locked, surplus);
      }
    }
  }

  /** A removed position's lock may become anything. */
  lemma {:induction false} RemovedLockCovers(
    p: PerpState, r: PerpState, id: u64, locked: map<(Address, u64), int>, after: map<(Address, u64), int>,
    surplus: Surplus)
    requires PositionsSound(p) && LocksCover(p, locked, surplus) && id in p.positions
    requires r.positions == p.positions - {id} && r.nextId == p.nextId
    requires SameElsewhere(locked, after, (p.positions[id].owner, id))
    ensures LocksCover(r, after, surplus)
  {
    var owner := p.positions[id].owner;
    forall k | k in after
      ensures k.1 < r.nextId
    {
      if k == (owner, id) {
        assert id < p.nextId;
      }
    }
    forall other | other in r.positions
      ensures Covered(r.positions[other], other, after, surplus)
    {
      assert Covered(p.positions[other], other, locked, surplus);
    }
  }

  lemma {:induction false} ReleasedElsewhere(m: map<(Address, u64), int>, key: (Address, u64), amount: int)
    requires key in m
    ensures SameElsewhere(m, Vault.Released(m, key, amount), key)
    ensures Get(Vault.Released(m, key, amount), key) == m[key] - amount
  {
  }

  // ----- the three shapes of a step -----

  lemma {:induction false} KeptFrom(d: Desk, d': Desk, locked: map<(Address, u64), int>, surplus: Surplus)
    requires BackedWithLock(d.funds, d'.funds, d.w, locked) && d'.w == d.w
    requires BooksSound(d'.perp) && LocksCover(d'.perp, locked, surplus) && Separate(d'.perp, d.w.slp)
    ensures Kept(d, d', surplus)
  {
  }

  /** A new position: margin locked under the next id. */
  lemma {:induction false} OpenedKept(d: Desk, d': Desk, pos: Position, b: MarketBook, surplus: Surplus)
    requires DeskSound(d, surplus) && d'.w == d.w && pos.owner != d.w.slp && pos.size > 0 && pos.margin > 0
    requires pos.market in d.perp.markets && BookMoved(d.perp.markets[pos.market], b, pos.isLong, pos.size)
    requires AddPosition(SetBook(d.perp, pos.market, b), pos) == Ok(d'.perp)
    requires BackedWithLock(d.funds, d'.funds, d.w, WithLock(d.funds, pos.owner, d.perp.nextId, pos.margin))
    ensures Kept(d, d', surplus)
  {
    AddKeepsBooks(d.perp, pos, b, d'.perp);
    AddedEffect(SetBook(d.perp, pos.market, b), pos, d'.perp);
    OpenedCovers(d.perp, d'.perp, pos, Lockbox(d.funds), d.w.slp, surplus);
    KeptFrom(d, d', WithLock(d.funds, pos.owner, d.perp.nextId, pos.margin), surplus);
  }

  lemma {:induction false} OpenedCovers(
    p: PerpState, r: PerpState, pos: Position, locked: map<(Address, u64), int>, slp: Address, surplus: Surplus)
    requires PositionsSound(p) && LocksCover(p, locked, surplus) && Separate(p, slp) && pos.owner != slp
        && pos.margin > 0
    requires r.positions == p.positions[p.nextId := pos] && r.nextId == p.nextId + 1 && r.orders == p.orders
    ensures LocksCover(r, AddLock(locked, pos.owner, p.nextId, pos.margin), surplus)
    ensures Separate(r, slp)
  {
    NewLockCovers(p, r, pos, locked, surplus);
  }

  lemma {:induction false} AddedEffect(p: PerpState, pos: Position, r: PerpState)
    requires AddPosition(p, pos) == Ok(r)
    ensures r.positions == p.positions[p.nextId := pos] && r.nextId == p.nextId + 1 && r.orders == p.orders
  {
  }

  /** A position whose margin and lock fall or rise together. */
  lemma {:induction false} ResizedKept(
    d: Desk, d': Desk, id: u64, pos: Position, b: MarketBook, locked: map<(Address, u64), int>, surplus: Surplus)
    requires DeskSound(d, surplus) && d'.w == d.w && id in d.perp.positions && pos.size > 0 && pos.margin > 0
    requires var was := d.perp.positions[id];
        pos.owner == was.owner && pos.market == was.market && pos.isLong == was.isLong
    requires BookMoved(d.perp.markets[pos.market], b, pos.isLong, (pos.size as int) - d.perp.positions[id].size)
    requires d'.perp == SetPosition(SetBook(d.perp, pos.market, b), id, pos)
    requires BackedWithLock(d.funds, d'.funds, d.w, locked)
    requires SameElsewhere(Lockbox(d.funds), locked, (pos.owner, id))
    requires Get(locked, (pos.owner, id)) - Get(Lockbox(d.funds), (pos.owner, id))
          == (pos.margin as int) - d.perp.positions[id].margin
    ensures Kept(d, d', surplus)
  {
    ResizeKeepsBooks(d.perp, id, pos, b, d'.perp);
    MovedLockCovers(d.perp, d'.perp, id, pos, Lockbox(d.funds), locked, surplus);
  }

  /** A stored position whose size stays. */
  lemma {:induction false} RewrittenKept(
    d: Desk, d': Desk, id: u64, pos: Position, locked: map<(Address, u64), int>, surplus: Surplus)
    requires DeskSound(d, surplus) && d'.w == d.w && id in d.perp.positions && pos.margin > 0
    requires var was := d.perp.positions[id];
             pos.owner == was.owner && pos.market == was.market && pos.isLong == was.isLong && pos.size == was.size
    requires d'.perp == SetPosition(d.perp, id, pos)
    requires BackedWithLock(d.funds, d'.funds, d.w, locked)
    requires SameElsewhere(Lockbox(d.funds), locked, (pos.owner, id))
    requires Get(locked, (pos.owner, id)) - Get(Lockbox(d.funds), (pos.owner, id))
          == (pos.margin as int) - d.perp.positions[id].margin
    ensures Kept(d, d', surplus)
  {
    var b := d.perp.markets[pos.market];
    SameBookMoved(b, pos.isLong);
    SameBook(d.perp, id);
    ResizedKept(d, d', id, pos, b, locked, surplus);
  }

  lemma {:induction false} SameBook(p: PerpState, id: u64)
    requires BooksSound(p) && id in p.positions
    ensures p.positions[id].market in p.markets
    ensures var m := p.positions[id].market; SetBook(p, m, p.markets[m]) == p
  {
  }

  lemma {:induction false} RemovedKept(
    d: Desk, d': Desk, id: u64, b: MarketBook, fromMarket: bool, locked: map<(Address, u64), int>, surplus: Surplus)
    requires DeskSound(d, surplus) && d'.w == d.w && id in d.perp.positions
    requires var was := d.perp.positions[id];
             && BookMoved(d.perp.markets[was.market], b, was.isLong, -(was.size as int))
             && d'.perp == RemovePosition(SetBook(d.perp, was.market, b), id, fromMarket)
             && SameElsewhere(Lockbox(d.funds), locked, (was.owner, id))
    requires BackedWithLock(d.funds, d'.funds, d.w, locked)
    ensures Kept(d, d', surplus)
  {
    RemoveKeepsBooks(d.perp, id, b, fromMarket, d'.perp);
    RemovedLockCovers(d.perp, d'.perp, id, Lockbox(d.funds), locked, surplus);
  }

  lemma {:induction false} SameBookMoved(b: MarketBook, isLong: bool)
    ensures BookMoved(b, b, isLong, 0)
  {
  }

  // ----- opening -----

  /** What an accepted entry did. */
  lemma {:induction false} EnterEffect(
    d: Desk, e: Env, price: i128, user: Address, m: u32, size: i128, isLong: bool, leverage: u32, maxSlippageBps: u32,
    asOrder: bool, d': Desk) returns (pos: Position, b: MarketBook, locked: Funds, fee: i128)
    requires m in d.perp.markets && leverage > 0
    requires Enter(d, e, price, user, m, size, isLong, leverage, maxSlippageBps, asOrder) == Ok(d')
    ensures pos.owner == user && pos.market == m && pos.size == size && pos.isLong == isLong && pos.margin > 0
    ensures Lock(d.funds, d.w, user, d.perp.nextId, pos.margin, e.prices) == Ok(locked)
    ensures PayOpenFee(locked, d.w, user, fee) == Ok(d'.funds)
    ensures BookMoved(d.perp.markets[m], b, isLong, size) && b.info == d.perp.markets[m].info
    ensures b.skew == d.perp.markets[m].skew.(skew := b.skew.skew)
    ensures AddPosition(SetBook(d.perp, m, b), pos) == Ok(d'.perp) && d'.w == d.w
    ensures ExecutionPrice(price, d.perp.markets[m].skew, size, isLong) == Some(pos.entry)
    ensures pos.fundingIdx == FundingIdx(e, isLong) && pos.leverage == leverage
    ensures Notional(size, pos.entry).Some? && pos.margin == TruncDiv(Notional(size, pos.entry).value, leverage)
    ensures ApplyBps(Notional(size, pos.entry).value, b.info.takerFeeBps) == Some(fee)
  {
    var terms := EntryTerms(price, d.perp.markets[m], size, isLong, leverage, maxSlippageBps, asOrder).value;
    fee := terms.4;
    locked := Lock(d.funds, d.w, user, d.perp.nextId, terms.3, e.prices).value;
    b := ShiftSkew(terms.1, isLong, size).value;
    pos := Position(user, m, size, terms.0, terms.3, leverage, isLong, FundingIdx(e, isLong));
    TermsEffect(price, d.perp.markets[m], size, isLong, leverage, maxSlippageBps, asOrder, terms);
  }

  lemma {:induction false} TermsEffect(
    price: i128, b: MarketBook, size: i128, isLong: bool, leverage: u32, maxSlippageBps: u32, asOrder: bool,
    terms: (i128, MarketBook, i128, i128, i128))
    requires leverage > 0 && EntryTerms(price, b, size, isLong, leverage, maxSlippageBps, asOrder) == Ok(terms)
    ensures GrowOi(b, isLong, size) == Ok(terms.1) && terms.3 > 0
    ensures ExecutionPrice(price, b.skew, size, isLong) == Some(terms.0)
    ensures Notional(size, terms.0) == Some(terms.2) && terms.3 == TruncDiv(terms.2, leverage)
    ensures ApplyBps(terms.2, b.info.takerFeeBps) == Some(terms.4)
  {
  }

  lemma {:induction false} EnterKept(
    d: Desk, e: Env, price: i128, user: Address, m: u32, size: i128, isLong: bool, leverage: u32, maxSlippageBps: u32,
    asOrder: bool, d': Desk, surplus: Surplus)
    requires DeskSound(d, surplus) && user != d.w.slp && size > 0 && m in d.perp.markets && leverage > 0
    requires Enter(d, e, price, user, m, size, isLong, leverage, maxSlippageBps, asOrder) == Ok(d')
    ensures Kept(d, d', surplus)
  {
    var pos, b, locked, fee := EnterEffect(d, e, price, user, m, size, isLong, leverage, maxSlippageBps, asOrder, d');
    LockBacked(d.funds, d.w, user, d.perp.nextId, pos.margin, e.prices, locked);
    OpenFeeBacked(locked, d.w, user, fee, d'.funds);
    OpenedKept(d, d', pos, b, surplus);
  }

  lemma {:induction false} OpenKept(
    d: Desk, e: Env, user: Address, m: u32, size: i128, isLong: bool, leverage: u32, maxSlippageBps: u32, d': Desk,
    surplus: Surplus)
    requires DeskSound(d, surplus) && user != d.w.slp
    requires OpenPosition(d, e, user, m, size, isLong, leverage, maxSlippageBps) == Ok(d')
    ensures Kept(d, d', surplus)
  {
    EnterKept(d, e, e.price, user, m, size, isLong, leverage, maxSlippageBps, false, d', surplus);
  }

  /** What an accepted `open_position` did. */
  lemma {:induction false} OpenEffect(
    d: Desk, e: Env, user: Address, m: u32, size: i128, isLong: bool, leverage: u32, maxSlippageBps: u32, d': Desk)
    returns (pos: Position, b: MarketBook, locked: Funds, fee: i128)
    requires OpenPosition(d, e, user, m, size, isLong, leverage, maxSlippageBps) == Ok(d')
    ensures m in d.perp.markets && 0 < leverage <= d.perp.markets[m].info.maxLeverage && e.price > 0 && size > 0
    ensures pos.owner == user && pos.market == m && pos.size == size && pos.isLong == isLong && pos.margin > 0
    ensures Lock(d.funds, d.w, user, d.perp.nextId, pos.margin, e.prices) == Ok(locked)
    ensures PayOpenFee(locked, d.w, user, fee) == Ok(d'.funds)
    ensures BookMoved(d.perp.markets[m], b, isLong, size) && b.info == d.perp.markets[m].info
    ensures b.skew == d.perp.markets[m].skew.(skew := b.skew.skew)
    ensures AddPosition(SetBook(d.perp, m, b), pos) == Ok(d'.perp) && d'.w == d.w
    ensures ExecutionPrice(e.price, d.perp.markets[m].skew, size, isLong) == Some(pos.entry)
    ensures pos.fundingIdx == FundingIdx(e, isLong) && pos.leverage == leverage
    ensures Notional(size, pos.entry).Some? && pos.margin == TruncDiv(Notional(size, pos.entry).value, leverage)
    ensures ApplyBps(Notional(size, pos.entry).value, b.info.takerFeeBps) == Some(fee)
  {
    pos, b, locked, fee := EnterEffect(d, e, e.price, user, m, size, isLong, leverage, maxSlippageBps, false, d');
  }

  lemma {:induction false} OrdersKept(d: Desk, d': Desk, surplus: Surplus)
    requires DeskSound(d, surplus)
    requires d' == d.(perp := d.perp.(orders := d'.perp.orders, nextOrderId := d'.perp.nextOrderId))
    requires forall id :: id in d'.perp.orders ==> d'.perp.orders[id].user != d.w.slp && d'.perp.orders[id].size > 0
    ensures Kept(d, d', surplus)
  {
    BooksOnly(d.perp, d'.perp);
  }

  lemma {:induction false} CreateOrderKept(
    d: Desk, e: Env, user: Address, m: u32, size: i128, isLong: bool, leverage: u32, maxSlippageBps: u32,
    kind: OrderType,
    expiryOffset: u32, d': Desk, surplus: Surplus)
    requires DeskSound(d, surplus) && user != d.w.slp
    requires CreateOrder(d, e, user, m, size, isLong, leverage, maxSlippageBps, kind, expiryOffset) == Ok(d')
    ensures Kept(d, d', surplus)
  {
    OrdersKept(d, d', surplus);
  }

  lemma {:induction false} CancelOrderKept(d: Desk, user: Address, id: u64, d': Desk, surplus: Surplus)
    requires DeskSound(d, surplus) && CancelOrder(d, user, id) == Ok(d')
    ensures Kept(d, d', surplus)
  {
    OrdersKept(d, d', surplus);
  }

  lemma {:induction false} ExecuteOrderKept(d: Desk, e: Env, id: u64, d': Desk, surplus: Surplus)
    requires DeskSound(d, surplus) && ExecuteOrder(d, e, id) == Ok(d')
    ensures Kept(d, d', surplus)
  {
    var o := d.perp.orders[id];
    var taken := d.(perp := d.perp.(orders := d.perp.orders - {id}));
    OrdersKept(d, taken, surplus);
    EnterKept(taken, e, e.price, o.user, o.market, o.size, o.isLong, o.leverage, o.maxSlippageBps, true, d', surplus);
  }
}
