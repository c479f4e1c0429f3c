/** Closing, resizing, matched fills, funding payments and the liquidity vault keep the desk's invariants. */
module DeskCloses {
  import opened Int128
  import opened Host
  import opened FixedPoint
  import opened MapSums
  import opened Pricing
  import opened PerpBooks
  import opened Trading
  import opened FundsLemmas
  import opened DeskInvariants
  import Vault
  import SlpVault

  // ----- closing -----

  lemma {:induction false} WithoutMoves(b: MarketBook, isLong: bool, size: i128, b': MarketBook)
    requires BookWithout(b, isLong, size) == Ok(b')
    ensures BookMoved(b, b', isLong, -(size as int))
  {
  }

  lemma {:induction false} CloseEffect(d: Desk, e: Env, user: Address, id: u64, d': Desk)
    returns (gross: i128, fee: i128, b: MarketBook)
    requires ClosePosition(d, e, user, id) == Ok(d')
    ensures id in d.perp.positions && d.perp.positions[id].owner == user
        && d.perp.positions[id].market in d.perp.markets
    ensures CloseTerms(e, d.perp.positions[id], d.perp.markets[d.perp.positions[id].market], d.perp.positions[id].size,
        e.price)
         == Ok((gross, fee)) && e.price > 0
    ensures SettleClose(d.funds, d.w, user, id, d.perp.positions[id].margin, gross, fee) == Ok(d'.funds)
    ensures var pos := d.perp.positions[id];
            BookWithout(d.perp.markets[pos.market], pos.isLong, pos.size) == Ok(b)
            && d'.perp == RemovePosition(SetBook(d.perp, pos.market, b), id, false)
    ensures d'.w == d.w
  {
    var (pos, book) := OwnedInMarket(d.perp, user, id).value;
    var terms := CloseTerms(e, pos, book, pos.size, e.price).value;
    gross, fee := terms.0, terms.1;
    b := BookWithout(book, pos.isLong, pos.size).value;
  }

  lemma {:induction false} CloseKept(d: Desk, e: Env, user: Address, id: u64, d': Desk, surplus: Surplus)
    requires DeskSound(d, surplus) && ClosePosition(d, e, user, id) == Ok(d')
    ensures Kept(d, d', surplus)
  {
    var gross, fee, b := CloseEffect(d, e, user, id, d');
    var pos := d.perp.positions[id];
    SettleBacked(d.funds, d.w, user, id, pos.margin, gross, fee, d'.funds);
    WithoutMoves(d.perp.markets[pos.market], pos.isLong, pos.size, b);
    ReleasedElsewhere(Lockbox(d.funds), (user, id), pos.margin);
    RemovedKept(d, d', id, b, false, WithoutLock(d.funds, user, id, pos.margin), surplus);
  }

  lemma {:induction false} AddMarginEffect(d: Desk, e: Env, user: Address, id: u64, amount: i128, d': Desk)
    returns (pos: Position)
    requires AddMargin(d, e, user, id, amount) == Ok(d')
    ensures id in d.perp.positions && d.perp.positions[id].owner == user && amount > 0
    ensures Lock(d.funds, d.w, user, id, amount, e.prices) == Ok(d'.funds) && d'.w == d.w
    ensures InI128(d.perp.positions[id].margin + amount)
    ensures pos == d.perp.positions[id].(margin := d.perp.positions[id].margin + amount)
    ensures d'.perp == SetPosition(d.perp, id, pos)
  {
    pos := d.perp.positions[id].(margin := d.perp.positions[id].margin + amount);
  }

  lemma {:induction false} AddMarginKept(
    d: Desk, e: Env, user: Address, id: u64, amount: i128, d': Desk, surplus: Surplus)
    requires DeskSound(d, surplus) && AddMargin(d, e, user, id, amount) == Ok(d')
    ensures Kept(d, d', surplus)
  {
    var pos := AddMarginEffect(d, e, user, id, amount, d');
    assert Covered(d.perp.positions[id], id, Lockbox(d.funds), surplus);
    LockBacked(d.funds, d.w, user, id, amount, e.prices, d'.funds);
    AddedElsewhere(Lockbox(d.funds), user, id, amount);
    RewrittenKept(d, d', id, pos, WithLock(d.funds, user, id, amount), surplus);
  }

  lemma {:induction false} RemoveMarginEffect(d: Desk, e: Env, user: Address, id: u64, amount: i128, d': Desk)
    returns (pos: Position)
    requires RemoveMargin(d, e, user, id, amount) == Ok(d')
    ensures id in d.perp.positions && d.perp.positions[id].owner == user && 0 < amount < d.perp.positions[id].margin
    ensures Unlock(d.funds, d.w.perp, user, id, amount) == Ok(d'.funds) && d'.w == d.w
    ensures var was := d.perp.positions[id]; pos == was.(margin := was.margin - amount, leverage := pos.leverage)
    ensures d'.perp == SetPosition(d.perp, id, pos)
  {
    pos := d'.perp.positions[id];
  }

  lemma {:induction false} RemoveMarginKept(
    d: Desk, e: Env, user: Address, id: u64, amount: i128, d': Desk, surplus: Surplus)
    requires DeskSound(d, surplus) && RemoveMargin(d, e, user, id, amount) == Ok(d')
    ensures Kept(d, d', surplus)
  {
    var pos := RemoveMarginEffect(d, e, user, id, amount, d');
    UnlockBacked(d.funds, d.w, d.w.perp, user, id, amount, d'.funds);
    ReleasedElsewhere(Lockbox(d.funds), (user, id), amount);
    RewrittenKept(d, d', id, pos, WithoutLock(d.funds, user, id, amount), surplus);
  }

  lemma {:induction false} RemainderEffect(
    pos: Position, e: Env, size: i128, released: i128, price: i128, rest: Position)
    requires Remainder(pos, e, size, released, price) == Ok(rest)
    ensures rest.owner == pos.owner && rest.market == pos.market && rest.isLong == pos.isLong
    ensures rest.size == pos.size - size && rest.margin == pos.margin - released && rest.margin > 0
    ensures rest.fundingIdx == FundingIdx(e, pos.isLong)
  {
  }

  lemma {:induction false} PartialEffect(d: Desk, e: Env, user: Address, id: u64, size: i128, d': Desk)
    returns (released: i128, gross: i128, fee: i128, b: MarketBook, rest: Position)
    requires PartialClose(d, e, user, id, size) == Ok(d')
    ensures id in d.perp.positions && d.perp.positions[id].owner == user && 0 < size < d.perp.positions[id].size
    ensures d.perp.positions[id].market in d.perp.markets
    ensures ReleasedMargin(d.perp.positions[id], size) == Some(released)
    ensures SettleClose(d.funds, d.w, user, id, released, gross, fee) == Ok(d'.funds)
    ensures var pos := d.perp.positions[id];
        CloseTerms(e, pos, d.perp.markets[pos.market], size, e.price) == Ok((gross, fee))
    ensures var pos := d.perp.positions[id];
            && BookWithout(d.perp.markets[pos.market], pos.isLong, size) == Ok(b)
            && Remainder(pos, e, size, released, e.price) == Ok(rest)
            && d'.perp == SetPosition(SetBook(d.perp, pos.market, b), id, rest)
    ensures d'.w == d.w
  {
    var (pos, book) := OwnedInMarket(d.perp, user, id).value;
    var terms := CloseTerms(e, pos, book, size, e.price).value;
    gross, fee := terms.0, terms.1;
    released := ReleasedMargin(pos, size).value;
    b := BookWithout(book, pos.isLong, size).value;
    rest := Remainder(pos, e, size, released, e.price).value;
  }

  lemma {:induction false} PartialKept(d: Desk, e: Env, user: Address, id: u64, size: i128, d': Desk, surplus: Surplus)
    requires DeskSound(d, surplus) && PartialClose(d, e, user, id, size) == Ok(d')
    ensures Kept(d, d', surplus)
  {
    var released, gross, fee, b, rest := PartialEffect(d, e, user, id, size, d');
    var pos := d.perp.positions[id];
    SettleBacked(d.funds, d.w, user, id, released, gross, fee, d'.funds);
    RemainderEffect(pos, e, size, released, e.price, rest);
    WithoutMoves(d.perp.markets[pos.market], pos.isLong, size, b);
    ReleasedElsewhere(Lockbox(d.funds), (user, id), released);
    ResizedKept(d, d', id, rest, b, WithoutLock(d.funds, user, id, released), surplus);
  }

  // ----- funding -----

  lemma {:induction false} FundingMoneyKept(d: Desk, e: Env, id: u64, d': Desk, surplus: Surplus)
    requires DeskSound(d, surplus) && d.w.fundingPool != d.w.slp && SettleFunding(d, e, id) == Ok(d')
    ensures Backed(d.funds, d'.funds, d.w)
  {
    var pos := d.perp.positions[id];
    var payment := FundingPnl(pos.fundingIdx, FundingIdx(e, pos.isLong), pos.size).value;
    if payment > 0 {
      TransferEffect(d.funds.vault, d.w.funding, d.w.fundingPool, pos.owner, d.w.usdc, payment, d'.funds.vault,
          d.w.slp);
    } else if payment < 0 {
      TransferEffect(d.funds.vault, d.w.funding, pos.owner, d.w.fundingPool, d.w.usdc, Neg(payment), d'.funds.vault,
          d.w.slp);
    }
  }

  lemma {:induction false} FundingKept(d: Desk, e: Env, id: u64, d': Desk, surplus: Surplus)
    requires DeskSound(d, surplus) && d.w.fundingPool != d.w.slp && SettleFunding(d, e, id) == Ok(d')
    ensures Kept(d, d', surplus)
  {
    var pos := d.perp.positions[id];
    assert Covered(pos, id, Lockbox(d.funds), surplus);
    FundingMoneyKept(d, e, id, d', surplus);
    RewrittenKept(d, d', id, pos.(fundingIdx := FundingIdx(e, pos.isLong)), Lockbox(d.funds), surplus);
  }

  // ----- matched orders -----

  lemma {:induction false} FillSideEffect(
    w: Wiring, f: Funds, e: Env, user: Address, id: u64, terms: FillTerms, g: Funds, margin: i128)
    requires user != w.slp && FillSide(w, f, e, user, id, terms) == Ok((g, margin))
    ensures margin > 0 && BackedWithLock(f, g, w, WithLock(f, user, id, margin))
  {
    var locked := Lock(f, w, user, id, margin, e.prices).value;
    LockBacked(f, w, user, id, margin, e.prices, locked);
    OpenFeeBacked(locked, w, user, terms.value.1, g);
  }

  lemma {:induction false} FillEffect(
    d: Desk, e: Env, buyer: Address, seller: Address, m: u32, size: i128, price: i128, notional: i128,
    buyLeverage: u32, sellLeverage: u32, d': Desk)
    returns (b: MarketBook, buy: Position, sell: Position)
    requires m in d.perp.markets && buyLeverage > 0 && sellLeverage > 0
    requires FillBoth(d, e, buyer, seller, m, size, price, notional, buyLeverage, sellLeverage) == Ok(d')
    ensures d'.w == d.w && GrowBoth(d.perp.markets[m], size) == Ok(b)
    ensures buy == Position(buyer, m, size, price, buy.margin, buyLeverage, true, e.longIdx)
    ensures sell == Position(seller, m, size, price, sell.margin, sellLeverage, false, e.shortIdx)
    ensures FillMoney(d, e, buyer, seller, SideTerms(notional, buyLeverage, d.perp.markets[m].info.makerFeeBps),
                      SideTerms(notional, sellLeverage, d.perp.markets[m].info.makerFeeBps))
         == Ok((d'.funds, buy.margin, sell.margin))
    ensures AddPair(SetBook(d.perp, m, b), buy, sell) == Ok(d'.perp)
  {
    var feeBps := d.perp.markets[m].info.makerFeeBps;
    var money := FillMoney(d, e, buyer, seller, SideTerms(notional, buyLeverage, feeBps),
                           SideTerms(notional, sellLeverage, feeBps)).value;
    b := GrowBoth(d.perp.markets[m], size).value;
    buy := Position(buyer, m, size, price, money.1, buyLeverage, true, e.longIdx);
    sell := Position(seller, m, size, price, money.2, sellLeverage, false, e.shortIdx);
  }

  /** The two new positions one after the other, as far as locks and owners go. */
  function PairLockbox(locked: map<(Address, u64), int>, a: Address, x: i128, b: Address, y: i128, id: nat)
    : map<(Address, u64), int>
    requires id + 1 < TWO_64
  {
    AddLock(AddLock(locked, a, id, x), b, id + 1, y)
  }

  lemma {:induction false} PairLocks(
    p: PerpState, mid: PerpState, r: PerpState, buy: Position, sell: Position, locked: map<(Address, u64), int>,
    surplus: Surplus)
    requires PositionsSound(p) && LocksCover(p, locked, surplus) && buy.margin > 0 && sell.margin > 0
    requires mid.positions == p.positions[p.nextId := buy] && mid.nextId == p.nextId + 1 && PositionsSound(mid)
    requires r.positions == mid.positions[mid.nextId := sell] && r.nextId == mid.nextId + 1
    ensures LocksCover(r, PairLockbox(locked, buy.owner, buy.margin, sell.owner, sell.margin, p.nextId), surplus)
  {
    NewLockCovers(p, mid, buy, locked, surplus);
    NewLockCovers(mid, r, sell, AddLock(locked, buy.owner, p.nextId, buy.margin), surplus);
  }

  lemma {:induction false} FillAccepted(
    d: Desk, e: Env, caller: Address, buyer: Address, seller: Address, m: u32, size: i128, price: i128,
    buyLeverage: u32, sellLeverage: u32, d': Desk) returns (notional: i128)
    requires ExecuteFill(d, e, caller, buyer, seller, m, size, price, buyLeverage, sellLeverage) == Ok(d')
    ensures size > 0 && m in d.perp.markets && buyLeverage > 0 && sellLeverage > 0
    ensures Notional(size, price) == Some(notional)
    ensures FillBoth(d, e, buyer, seller, m, size, price, notional, buyLeverage, sellLeverage) == Ok(d')
  {
    notional := FillChecks(d.perp, d.w.clob, caller, m, size, price, buyLeverage, sellLeverage).value;
  }

  /** A fill adds the same size to both open interests and leaves the skew where it was. */
  lemma {:induction false} FillKeepsSkew(
    d: Desk, e: Env, caller: Address, buyer: Address, seller: Address, m: u32, size: i128, price: i128,
    buyLeverage: u32, sellLeverage: u32, d': Desk)
    requires ExecuteFill(d, e, caller, buyer, seller, m, size, price, buyLeverage, sellLeverage) == Ok(d')
    ensures m in d.perp.markets && m in d'.perp.markets
    ensures d'.perp.markets[m].skew == d.perp.markets[m].skew
    ensures d'.perp.markets[m].oiLong == d.perp.markets[m].oiLong + size
    ensures d'.perp.markets[m].oiShort == d.perp.markets[m].oiShort + size
  {
    var notional := FillAccepted(d, e, caller, buyer, seller, m, size, price, buyLeverage, sellLeverage, d');
    var b, buy, sell := FillEffect(d, e, buyer, seller, m, size, price, notional, buyLeverage, sellLeverage, d');
  }

  /** The locks of both sides. */
  lemma {:induction false} FillMoneyParts(
    d: Desk, e: Env, buyer: Address, seller: Address, buy: FillTerms, sell: FillTerms, g: Funds, x: i128, y: i128)
    returns (mid: Funds)
    requires FillMoney(d, e, buyer, seller, buy, sell) == Ok((g, x, y))
    ensures d.perp.nextId + 1 < TWO_64
    ensures FillSide(d.w, d.funds, e, buyer, d.perp.nextId, buy) == Ok((mid, x))
    ensures FillSide(d.w, mid, e, seller, d.perp.nextId + 1, sell) == Ok((g, y))
  {
    mid := FillSide(d.w, d.funds, e, buyer, d.perp.nextId, buy).value.0;
  }

  lemma {:induction false} TwoLocks(
    f: Funds, mid: Funds, g: Funds, w: Wiring, a: Address, x: i128, b: Address, y: i128, id: nat)
    requires id + 1 < TWO_64
    requires BackedWithLock(f, mid, w, WithLock(f, a, id, x)) && BackedWithLock(mid, g, w, WithLock(mid, b, id + 1, y))
    ensures BackedWithLock(f, g, w, PairLockbox(Lockbox(f), a, x, b, y, id))
  {
  }

  lemma {:induction false} FillMoneyBacked(
    d: Desk, e: Env, buyer: Address, seller: Address, buy: FillTerms, sell: FillTerms, g: Funds, x: i128, y: i128)
    requires buyer != d.w.slp && seller != d.w.slp && FillMoney(d, e, buyer, seller, buy, sell) == Ok((g, x, y))
    ensures x > 0 && y > 0 && d.perp.nextId + 1 < TWO_64
    ensures BackedWithLock(d.funds, g, d.w, PairLockbox(Lockbox(d.funds), buyer, x, seller, y, d.perp.nextId))
  {
    var id := d.perp.nextId;
    var mid := FillMoneyParts(d, e, buyer, seller, buy, sell, g, x, y);
    FillSideEffect(d.w, d.funds, e, buyer, id, buy, mid, x);
    FillSideEffect(d.w, mid, e, seller, id + 1, sell, g, y);
    TwoLocks(d.funds, mid, g, d.w, buyer, x, seller, y, id);
  }

  lemma {:induction false} FillKept(
    d: Desk, e: Env, caller: Address, buyer: Address, seller: Address, m: u32, size: i128, price: i128,
    buyLeverage: u32, sellLeverage: u32, d': Desk, surplus: Surplus)
    requires DeskSound(d, surplus) && buyer != d.w.slp && seller != d.w.slp
    requires ExecuteFill(d, e, caller, buyer, seller, m, size, price, buyLeverage, sellLeverage) == Ok(d')
    ensures Kept(d, d', surplus)
  {
    var notional := FillAccepted(d, e, caller, buyer, seller, m, size, price, buyLeverage, sellLeverage, d');
    FillBothKept(d, e, buyer, seller, m, size, price, notional, buyLeverage, sellLeverage, d', surplus);
  }

  lemma {:induction false} FillBothKept(
    d: Desk, e: Env, buyer: Address, seller: Address, m: u32, size: i128, price: i128, notional: i128,
    buyLeverage: u32, sellLeverage: u32, d': Desk, surplus: Surplus)
    requires DeskSound(d, surplus) && buyer != d.w.slp && seller != d.w.slp && size > 0
    requires m in d.perp.markets && buyLeverage > 0 && sellLeverage > 0
    requires FillBoth(d, e, buyer, seller, m, size, price, notional, buyLeverage, sellLeverage) == Ok(d')
    ensures Kept(d, d', surplus)
  {
    var b, buy, sell := FillEffect(d, e, buyer, seller, m, size, price, notional, buyLeverage, sellLeverage, d');
    var feeBps := d.perp.markets[m].info.makerFeeBps;
    FillMoneyBacked(d, e, buyer, seller, SideTerms(notional, buyLeverage, feeBps),
        SideTerms(notional, sellLeverage, feeBps),
                    d'.funds, buy.margin, sell.margin);
    PairKeepsBooks(d.perp, buy, sell, b, d'.perp);
    PairCovers(d.perp, d'.perp, buy, sell, b, Lockbox(d.funds), surplus);
    PairSeparate(d.perp, d'.perp, buy, sell, b, d.w.slp);
  }

  lemma {:induction false} PairCovers(
    p: PerpState, r: PerpState, buy: Position, sell: Position, b: MarketBook, locked: map<(Address, u64), int>,
    surplus: Surplus)
    requires PositionsSound(p) && LocksCover(p, locked, surplus) && buy.margin > 0 && sell.margin > 0
    requires AddPair(SetBook(p, buy.market, b), buy, sell) == Ok(r)
    requires PositionsSound(AddPosition(SetBook(p, buy.market, b), buy).value) && p.nextId + 1 < TWO_64
    ensures LocksCover(r, PairLockbox(locked, buy.owner, buy.margin, sell.owner, sell.margin, p.nextId), surplus)
  {
    var mid := PairSteps(SetBook(p, buy.market, b), buy, sell, r);
    PairLocks(p, mid, r, buy, sell, locked, surplus);
  }

  lemma {:induction false} PairSteps(p: PerpState, buy: Position, sell: Position, r: PerpState) returns (mid: PerpState)
    requires AddPair(p, buy, sell) == Ok(r)
    ensures AddPosition(p, buy) == Ok(mid)
    ensures mid.positions == p.positions[p.nextId := buy] && mid.nextId == p.nextId + 1
    ensures r.positions == mid.positions[mid.nextId := sell] && r.nextId == mid.nextId + 1
  {
    mid := AddPosition(p, buy).value;
  }

  lemma {:induction false} PairSeparate(
    p: PerpState, r: PerpState, buy: Position, sell: Position, b: MarketBook, slp: Address)
    requires Separate(p, slp) && buy.owner != slp && sell.owner != slp
    requires AddPair(SetBook(p, buy.market, b), buy, sell) == Ok(r)
    ensures Separate(r, slp)
  {
  }

  // ----- the liquidity vault -----

  /** The settlement token has seven decimals, as the SLP's own conversion assumes. */
  predicate SevenDecimals(d: Desk) {
    d.w.usdc in d.funds.vault.cfg.tokens && d.funds.vault.cfg.tokens[d.w.usdc].decimals == 7
  }

  lemma {:induction false} SevenDecimalUnit(amount: i128, info: Vault.Collateral)
    requires info.decimals == 7
    ensures Vault.ToInternal(amount, info).Ok?
        ==> Vault.ToInternal(amount, info).value == amount * SlpVault.NATIVE_TO_INTERNAL
  {
    PowEleven(11);
  }

  lemma {:induction false} PowEleven(n: nat)
    requires n == 11
    ensures Pow10(n) == SlpVault.NATIVE_TO_INTERNAL
  {
    assert Pow10(n - 10) == 10;
    assert Pow10(n - 9) == 100;
    assert Pow10(n - 8) == 1_000;
    assert Pow10(n - 7) == 10_000;
    assert Pow10(n - 6) == 100_000;
    assert Pow10(n - 5) == 1_000_000;
    assert Pow10(n - 4) == 10_000_000;
    assert Pow10(n - 3) == 100_000_000;
    assert Pow10(n - 2) == 1_000_000_000;
    assert Pow10(n - 1) == 10_000_000_000;
  }

  /** A step that leaves the engine alone and locks nothing. */
  lemma {:induction false} MoneyKept(d: Desk, d': Desk, surplus: Surplus)
    requires DeskSound(d, surplus) && d'.perp == d.perp && d'.w == d.w && Backed(d.funds, d'.funds, d.w)
    ensures Kept(d, d', surplus)
  {
  }

  lemma {:induction false} VaultDepositEffect(
    s: Vault.VaultState, user: Address, token: Address, amount: i128, held: Option<i128>, calls: bool,
    r: Vault.VaultState)
    requires Vault.Deposit(s, user, token, amount, held, calls) == Ok(r)
    requires token in s.cfg.tokens && s.cfg.tokens[token].decimals == 7
    ensures r == s.(balances := r.balances)
    ensures Get(r.balances, (user, token)) == Get(s.balances, (user, token)) + amount * SlpVault.NATIVE_TO_INTERNAL
  {
    SevenDecimalUnit(amount, s.cfg.tokens[token]);
  }

  lemma {:induction false} VaultWithdrawEffect(
    s: Vault.VaultState, user: Address, token: Address, amount: i128, riskLocked: i128, calls: bool,
    r: Vault.VaultState)
    requires Vault.Withdraw(s, user, token, amount, riskLocked, calls) == Ok(r)
    requires token in s.cfg.tokens && s.cfg.tokens[token].decimals == 7
    ensures r == s.(balances := r.balances)
    ensures Get(r.balances, (user, token)) == Get(s.balances, (user, token)) - amount * SlpVault.NATIVE_TO_INTERNAL
  {
    SevenDecimalUnit(amount, s.cfg.tokens[token]);
  }

  lemma {:induction false} DepositSlpKept(
    d: Desk, e: Env, user: Address, native: i128, held: Option<i128>, calls: bool, d': Desk, surplus: Surplus)
    requires DeskSound(d, surplus) && SevenDecimals(d) && DepositSlp(d, e, user, native, held, calls) == Ok(d')
    ensures Kept(d, d', surplus) && Slack(d'.funds, d.w) == Slack(d.funds, d.w)
  {
    VaultDepositEffect(d.funds.vault, d.w.slp, d.w.usdc, native, held, calls, d'.funds.vault);
    MoneyKept(d, d', surplus);
  }

  lemma {:induction false} SeedSlpKept(
    d: Desk, caller: Address, native: i128, held: Option<i128>, calls: bool, d': Desk, surplus: Surplus)
    requires DeskSound(d, surplus) && SevenDecimals(d) && SeedSlp(d, caller, native, held, calls) == Ok(d')
    ensures Kept(d, d', surplus) && Slack(d'.funds, d.w) == Slack(d.funds, d.w)
  {
    VaultDepositEffect(d.funds.vault, d.w.slp, d.w.usdc, native, held, calls, d'.funds.vault);
    MoneyKept(d, d', surplus);
  }

  /** A redemption takes at least as much from the assets as from the balance: the dust of the conversion stays. */
  lemma {:induction false} WithdrawSlpKept(
    d: Desk, e: Env, user: Address, shares: i128, oi: i128, riskLocked: i128, calls: bool, d': Desk, surplus: Surplus)
    requires DeskSound(d, surplus) && SevenDecimals(d)
        && WithdrawSlp(d, e, user, shares, oi, riskLocked, calls) == Ok(d')
    ensures Kept(d, d', surplus)
  {
    var burnt := SlpVault.Withdraw(d.funds.slp, user, shares, e.now, oi, calls).value;
    VaultWithdrawEffect(d.funds.vault, d.w.slp, d.w.usdc, burnt.1, riskLocked, calls, d'.funds.vault);
    var underlying := d.funds.slp.totalAssets - burnt.0.totalAssets;
    NativeAtMost(underlying, burnt.1);
    MoneyKept(d, d', surplus);
  }

  lemma {:induction false} NativeAtMost(underlying: int, native: int)
    requires native == SlpVault.ToNative(underlying) && native > 0
    ensures native * SlpVault.NATIVE_TO_INTERNAL <= underlying
  {
    DivBounds(Abs(underlying), SlpVault.NATIVE_TO_INTERNAL);
    QuotientBelow(Abs(underlying), SlpVault.NATIVE_TO_INTERNAL, 0);
  }

  lemma {:induction false} SweepSlpKept(d: Desk, caller: Address, native: i128, d': Desk, surplus: Surplus)
    requires DeskSound(d, surplus) && d.w.treasury != d.w.slp && SweepSlp(d, caller, native) == Ok(d')
    ensures Kept(d, d', surplus) && Slack(d'.funds, d.w) == Slack(d.funds, d.w)
  {
    TransferEffect(d.funds.vault, d.w.slp, d.w.treasury, d.w.slp, d.w.usdc, native * SlpVault.NATIVE_TO_INTERNAL,
                   d'.funds.vault, d.w.slp);
    MoneyKept(d, d', surplus);
  }
}
