/** The books of the perp engine: positions, id lists, open interest and skew (stellax-perp-engine/src/lib.rs). */
module PerpBooks {
  import opened Int128
  import opened Host
  import opened MapSums
  import opened Pricing

  const MAX_POSITIONS_PER_USER: nat := 50
  const MAX_PRICE_AGE: nat := 120

  /** `CallFailed` is a failed call into another contract, or a panic. */
  datatype PerpError =
    | Unauthorized | MarketNotFound | MarketInactive | InvalidLeverage | InvalidSize | SlippageExceeded
    | OpenInterestExceeded | PositionNotFound | NotPositionOwner | InsufficientMargin | InvalidAction | MathOverflow
    | OrderNotFound | OrderExpired | OrderConditionNotMet | InvalidTrailingStop | InsufficientLiquidity | Paused
    | TooManyPositions | OraclePriceTooOld | InvalidOraclePrice | SlpVaultNotConfigured | MarketExists | InvalidConfig
    | CallFailed

  datatype Position = Position(
    owner: Address, market: u32, size: i128, entry: i128, margin: i128, leverage: u32, isLong: bool, fundingIdx: i128)

  datatype MarketInfo = MarketInfo(
    active: bool, maxLeverage: u32, maxOiLong: i128, maxOiShort: i128, makerFeeBps: u32, takerFeeBps: u32,
    minSize: i128)

  /** A market with its skew state and open interest, which are written together when it is registered. */
  datatype MarketBook = MarketBook(info: MarketInfo, skew: SkewState, oiLong: i128, oiShort: i128)

  datatype OrderType =
    | AtMarket | Limit(price: i128) | StopLoss(price: i128) | TakeProfit(price: i128)
      | Trailing(offset: i128, anchor: i128)

  datatype PendingOrder = PendingOrder(
    user: Address, market: u32, size: i128, isLong: bool, leverage: u32, maxSlippageBps: u32, kind: OrderType,
    expiry: u32)

  datatype PerpState = PerpState(
    paused: bool, markets: map<u32, MarketBook>, positions: map<u64, Position>, userIds: map<Address, seq<u64>>,
    marketIds: map<u32, seq<u64>>, nextId: u64, orders: map<u64, PendingOrder>, nextOrderId: u64)

  type PerpResult = Result<PerpState, PerpError>

  // ----- one market -----

  function ActiveMarket(p: PerpState, m: u32): Result<MarketBook, PerpError> {
    var _ :- Need(m in p.markets, MarketNotFound);
    if p.markets[m].info.active then Ok(p.markets[m]) else Err(MarketInactive)
  }

  /** Open interest after a new position, under its cap. */
  function GrowOi(b: MarketBook, isLong: bool, size: i128): Result<MarketBook, PerpError> {
    if isLong then
      var _ :- Need(InI128(b.oiLong + size), MathOverflow);
      var _ :- Need(b.oiLong + size <= b.info.maxOiLong, OpenInterestExceeded);
      Ok(b.(oiLong := b.oiLong + size))
    else
      var _ :- Need(InI128(b.oiShort + size), MathOverflow);
      var _ :- Need(b.oiShort + size <= b.info.maxOiShort, OpenInterestExceeded);
      Ok(b.(oiShort := b.oiShort + size))
  }

  function ShrinkOi(b: MarketBook, isLong: bool, size: i128): Result<MarketBook, PerpError> {
    if isLong then
      var _ :- Need(InI128(b.oiLong - size), MathOverflow);
      Ok(b.(oiLong := b.oiLong - size))
    else
      var _ :- Need(InI128(b.oiShort - size), MathOverflow);
      Ok(b.(oiShort := b.oiShort - size))
  }

  /** A long adds to the skew and a short takes from it. */
  function ShiftSkew(b: MarketBook, up: bool, size: i128): Result<MarketBook, PerpError> {
    var next := if up then b.skew.skew + size else b.skew.skew - size;
    var _ :- Need(InI128(next), MathOverflow);
    Ok(b.(skew := b.skew.(skew := next)))
  }

  // ----- positions and lists -----

  function IdsOf<K>(m: map<K, seq<u64>>, k: K): seq<u64> { if k in m then m[k] else [] }

  /** The list without the first occurrence of id. */
  function Without(ids: seq<u64>, id: u64): seq<u64> {
    if ids == [] then [] else if ids[0] == id then ids[1..] else [ids[0]] + Without(ids[1..], id)
  }

  function SetBook(p: PerpState, m: u32, b: MarketBook): PerpState { p.(markets := p.markets[m := b]) }

  /** Store a position under the next id and list it. */
  function AddPosition(p: PerpState, pos: Position): PerpResult {
    var ids := IdsOf(p.userIds, pos.owner);
    var _ :- Need(|ids| < MAX_POSITIONS_PER_USER, TooManyPositions);
    var _ :- Need(p.nextId + 1 < TWO_64, MathOverflow);
    Ok(p.(positions := p.positions[p.nextId := pos],
          userIds := p.userIds[pos.owner := ids + [p.nextId]],
          marketIds := p.marketIds[pos.market := IdsOf(p.marketIds, pos.market) + [p.nextId]],
          nextId := p.nextId + 1))
  }

  /** Delete a position from its owner's list; a user's own close leaves the market's list alone. */
  function RemovePosition(p: PerpState, id: u64, fromMarket: bool): PerpState
    requires id in p.positions
  {
    var pos := p.positions[id];
    p.(positions := p.positions - {id},
       userIds := p.userIds[pos.owner := Without(IdsOf(p.userIds, pos.owner), id)],
       marketIds := if fromMarket then p.marketIds[pos.market := Without(IdsOf(p.marketIds, pos.market), id)]
                    else p.marketIds)
  }

  function SetPosition(p: PerpState, id: u64, pos: Position): PerpState { p.(positions := p.positions[id := pos]) }

  function RegisterMarket(p: PerpState, m: u32, info: MarketInfo, scale: i128, rebateBps: u32): PerpResult {
    var _ :- Need(m !in p.markets, MarketExists);
    var _ :- Need(0 < info.maxLeverage <= MAX_LEVERAGE && info.makerFeeBps <= BPS_DENOMINATOR
                  && info.takerFeeBps <= BPS_DENOMINATOR && 0 < info.maxOiLong && 0 < info.maxOiShort
                  && 0 < info.minSize && 0 < scale, InvalidConfig);
    Ok(SetBook(p, m, MarketBook(info, SkewState(0, scale, rebateBps), 0, 0)))
  }

  function SetOiCaps(p: PerpState, m: u32, maxOiLong: i128, maxOiShort: i128): PerpResult {
    var _ :- Need(0 < maxOiLong && 0 < maxOiShort, InvalidConfig);
    var _ :- Need(m in p.markets, MarketNotFound);
    var b := p.markets[m];
    Ok(SetBook(p, m, b.(info := b.info.(maxOiLong := maxOiLong, maxOiShort := maxOiShort))))
  }

  // ----- what the books keep -----

  /** The size a position adds to one side of one market. */
  ghost function SizeIn(m: u32, isLong: bool): (u64, Position) -> int {
    (id: u64, pos: Position) => if pos.market == m && pos.isLong == isLong then pos.size else 0
  }

  ghost function SideTotal(p: PerpState, m: u32, isLong: bool): int { Sum(p.positions, SizeIn(m, isLong)) }

  /** Open interest is the sum of the open sizes on each side, and the skew is their difference. */
  ghost predicate OiExact(p: PerpState, m: u32)
    requires m in p.markets
  {
    var b := p.markets[m];
    b.oiLong == SideTotal(p, m, true) && b.oiShort == SideTotal(p, m, false) && b.skew.skew == b.oiLong - b.oiShort
  }

  ghost predicate AllOiExact(p: PerpState) { forall m :: m in p.markets ==> OiExact(p, m) }

  /** Ids are fresh, sizes positive, and every position is on a registered market. */
  ghost predicate PositionsSound(p: PerpState) {
    forall id :: id in p.positions ==>
      0 < id < p.nextId && 0 < p.positions[id].size && p.positions[id].market in p.markets
  }

  predicate NoRepeats(ids: seq<u64>) {
    forall i, j :: 0 <= i < j < |ids| ==> ids[i] != ids[j]
  }

  /** A user's list holds exactly the user's open ids, without repeats, and at most 50. */
  ghost predicate ListExact(p: PerpState, user: Address) {
    var ids := IdsOf(p.userIds, user);
    && NoRepeats(ids) && |ids| <= MAX_POSITIONS_PER_USER
    && forall id :: id in ids <==> id in p.positions && p.positions[id].owner == user
  }

  ghost predicate AllListsExact(p: PerpState) { forall user :: ListExact(p, user) }

  /** A market's list holds every open id of the market. */
  ghost predicate MarketListsCover(p: PerpState) {
    forall id :: id in p.positions ==> id in IdsOf(p.marketIds, p.positions[id].market)
  }

  ghost predicate BooksSound(p: PerpState) {
    p.nextId > 0 && PositionsSound(p) && AllOiExact(p) && AllListsExact(p) && MarketListsCover(p)
  }

  /** A market's book after delta more of open size on one side. */
  ghost predicate BookMoved(b: MarketBook, b': MarketBook, isLong: bool, delta: int) {
    if isLong then b'.oiLong == b.oiLong + delta && b'.oiShort == b.oiShort && b'.skew.skew == b.skew.skew + delta
    else b'.oiLong == b.oiLong && b'.oiShort == b.oiShort + delta && b'.skew.skew == b.skew.skew - delta
  }

  lemma {:induction false} SideTotalUpdate(p: PerpState, r: PerpState, id: u64, pos: Position, m: u32, isLong: bool)
    requires r.positions == p.positions[id := pos]
    ensures SideTotal(r, m, isLong)
         == SideTotal(p, m, isLong) - At(p.positions, SizeIn(m, isLong), id) + SizeIn(m, isLong)(id, pos)
  {
    SumUpdate(p.positions, SizeIn(m, isLong), id, pos);
  }

  lemma {:induction false} SideTotalDrop(p: PerpState, r: PerpState, id: u64, m: u32, isLong: bool)
    requires r.positions == p.positions - {id}
    ensures SideTotal(r, m, isLong) == SideTotal(p, m, isLong) - At(p.positions, SizeIn(m, isLong), id)
  {
    SumDrop(p.positions, SizeIn(m, isLong), id);
  }

  /** Open interest stays exact when one position's size and its market's book change together. `was` and `now` are
      the size before and after, zero when there is no position. */
  lemma {:induction false} OiStaysExact(
    p: PerpState, r: PerpState, id: u64, market: u32, isLong: bool, was: int, now: int, b: MarketBook)
    requires AllOiExact(p) && market in p.markets && r.markets == p.markets[market := b]
    requires BookMoved(p.markets[market], b, isLong, now - was)
    requires forall m, side :: SideTotal(r, m, side)
               == SideTotal(p, m, side) + if m == market && side == isLong then now - was else 0
    ensures AllOiExact(r)
  {
    forall m | m in r.markets
      ensures OiExact(r, m)
    {
      if m in p.markets {
        assert OiExact(p, m);
      }
      assert SideTotal(r, m, true) == SideTotal(p, m, true) + if m == market && isLong then now - was else 0;
      assert SideTotal(r, m, false) == SideTotal(p, m, false) + if m == market && !isLong then now - was else 0;
    }
  }

  // ----- lists -----

  lemma {:induction false} WithoutContents(ids: seq<u64>, id: u64)
    requires NoRepeats(ids)
    ensures NoRepeats(Without(ids, id)) && |Without(ids, id)| <= |ids|
    ensures forall k :: k in Without(ids, id) <==> k in ids && k != id
  {
    if ids == [] {
    } else {
      var rest := ids[1..];
      assert forall k :: k in ids <==> k == ids[0] || k in rest;
      if ids[0] != id {
        WithoutContents(rest, id);
        assert ids[0] !in rest;
      }
    }
  }

  lemma {:induction false} AppendContents(ids: seq<u64>, id: u64)
    requires NoRepeats(ids) && id !in ids
    ensures NoRepeats(ids + [id])
    ensures forall k :: k in ids + [id] <==> k in ids || k == id
  {
  }

  // ----- the transitions keep the books -----

  lemma {:induction false} AddKeepsLists(p: PerpState, pos: Position, r: PerpState)
    requires BooksSound(p) && AddPosition(p, pos) == Ok(r)
    ensures AllListsExact(r) && MarketListsCover(r)
  {
    var id := p.nextId;
    forall user
      ensures ListExact(r, user)
    {
      assert ListExact(p, user);
      AppendContents(IdsOf(p.userIds, user), id);
    }
  }

  lemma {:induction false} AddKeepsBooks(p: PerpState, pos: Position, b: MarketBook, r: PerpState)
    requires BooksSound(p) && pos.size > 0 && pos.market in p.markets
    requires BookMoved(p.markets[pos.market], b, pos.isLong, pos.size)
    requires AddPosition(SetBook(p, pos.market, b), pos) == Ok(r)
    ensures BooksSound(r)
  {
    var plain := AddPosition(p, pos).value;
    AddKeepsLists(p, pos, plain);
    ListsOnly(plain, r);
    forall m, side
      ensures SideTotal(r, m, side)
           == SideTotal(p, m, side) + if m == pos.market && side == pos.isLong then pos.size else 0
    {
      SideTotalUpdate(p, r, p.nextId, pos, m, side);
    }
    OiStaysExact(p, r, p.nextId, pos.market, pos.isLong, 0, pos.size, b);
  }

  /** The list invariants do not look at the market books. */
  lemma {:induction false} ListsOnly(p: PerpState, r: PerpState)
    requires r.positions == p.positions && r.userIds == p.userIds && r.marketIds == p.marketIds
    ensures AllListsExact(p) ==> AllListsExact(r)
    ensures MarketListsCover(p) ==> MarketListsCover(r)
  {
    if AllListsExact(p) {
      forall user
        ensures ListExact(r, user)
      {
        assert ListExact(p, user);
      }
    }
  }

  lemma {:induction false} RemoveKeepsLists(p: PerpState, id: u64, fromMarket: bool)
    requires AllListsExact(p) && MarketListsCover(p) && id in p.positions
    ensures AllListsExact(RemovePosition(p, id, fromMarket))
    ensures MarketListsCover(RemovePosition(p, id, fromMarket))
  {
    var r, pos := RemovePosition(p, id, fromMarket), p.positions[id];
    forall user
      ensures ListExact(r, user)
    {
      assert ListExact(p, user);
      WithoutContents(IdsOf(p.userIds, user), id);
    }
    forall other | other in r.positions
      ensures other in IdsOf(r.marketIds, r.positions[other].market)
    {
      if p.positions[other].market == pos.market {
        WithoutKeepsOthers(IdsOf(p.marketIds, pos.market), id, other);
      }
    }
  }

  lemma {:induction false} WithoutKeepsOthers(ids: seq<u64>, id: u64, other: u64)
    requires other in ids && other != id
    ensures other in Without(ids, id)
  {
    if ids[0] != id && ids[0] != other {
      WithoutKeepsOthers(ids[1..], id, other);
    }
  }

  lemma {:induction false} RemoveKeepsBooks(p: PerpState, id: u64, b: MarketBook, fromMarket: bool, r: PerpState)
    requires BooksSound(p) && id in p.positions
    requires BookMoved(p.markets[p.positions[id].market], b, p.positions[id].isLong, -(p.positions[id].size as int))
    requires r == RemovePosition(SetBook(p, p.positions[id].market, b), id, fromMarket)
    ensures BooksSound(r)
  {
    var pos := p.positions[id];
    RemoveKeepsLists(p, id, fromMarket);
    ListsOnly(RemovePosition(p, id, fromMarket), r);
    forall m, side
      ensures SideTotal(r, m, side)
           == SideTotal(p, m, side) + if m == pos.market && side == pos.isLong then 0 - pos.size else 0
    {
      SideTotalDrop(p, r, id, m, side);
    }
    OiStaysExact(p, r, id, pos.market, pos.isLong, pos.size, 0, b);
  }

  /** A stored position may change everything but its owner, market and side. */
  lemma {:induction false} ResizeKeepsBooks(p: PerpState, id: u64, pos: Position, b: MarketBook, r: PerpState)
    requires BooksSound(p) && id in p.positions && pos.size > 0
    requires var old_ := p.positions[id];
        pos.owner == old_.owner && pos.market == old_.market && pos.isLong == old_.isLong
    requires BookMoved(p.markets[pos.market], b, pos.isLong, (pos.size as int) - p.positions[id].size)
    requires r == SetPosition(SetBook(p, pos.market, b), id, pos)
    ensures BooksSound(r)
  {
    var was := p.positions[id].size;
    forall user
      ensures ListExact(r, user)
    {
      assert ListExact(p, user);
    }
    forall m, side
      ensures SideTotal(r, m, side)
           == SideTotal(p, m, side) + if m == pos.market && side == pos.isLong then (pos.size as int) - was else 0
    {
      SideTotalUpdate(p, r, id, pos, m, side);
    }
    OiStaysExact(p, r, id, pos.market, pos.isLong, was, pos.size, b);
  }

  /** Nothing but the books matters to the books. */
  lemma {:induction false} BooksOnly(p: PerpState, r: PerpState)
    requires BooksSound(p)
    requires r.positions == p.positions && r.userIds == p.userIds && r.marketIds == p.marketIds && r.nextId == p.nextId
    requires r.markets.Keys == p.markets.Keys
    requires forall m :: m in p.markets ==>
               r.markets[m].oiLong == p.markets[m].oiLong && r.markets[m].oiShort == p.markets[m].oiShort
               && r.markets[m].skew.skew == p.markets[m].skew.skew
    ensures BooksSound(r)
  {
    ListsOnly(p, r);
    forall m | m in r.markets
      ensures OiExact(r, m)
    {
      assert OiExact(p, m);
    }
  }

  lemma {:induction false} NoPositionsNoInterest(p: PerpState, m: u32, side: bool)
    requires PositionsSound(p) && m !in p.markets
    ensures SideTotal(p, m, side) == 0
  {
    SumSame(p.positions, SizeIn(m, side), p.positions, Nothing());
    SumOfNothing(p.positions);
  }

  ghost function Nothing(): (u64, Position) -> int { (id: u64, pos: Position) => 0 }

  lemma {:induction false} SumOfNothing(m: map<u64, Position>)
    ensures Sum(m, Nothing()) == 0
    decreases |m|
  {
    if m != map[] {
      var id :| id in m && Sum(m, Nothing()) == Nothing()(id, m[id]) + Sum(m - {id}, Nothing());
      SumOfNothing(m - {id});
    }
  }

  lemma {:induction false} RegisterKeepsBooks(
    p: PerpState, m: u32, info: MarketInfo, scale: i128, rebateBps: u32, r: PerpState)
    requires BooksSound(p) && RegisterMarket(p, m, info, scale, rebateBps) == Ok(r)
    ensures BooksSound(r)
  {
    ListsOnly(p, r);
    NoPositionsNoInterest(p, m, true);
    NoPositionsNoInterest(p, m, false);
    forall k | k in r.markets
      ensures OiExact(r, k)
    {
      if k != m {
        assert OiExact(p, k);
      }
    }
  }

  // ----- a matched pair -----

  /** The two positions of a fill; both open interests grow and the skew stays. */
  function AddPair(p: PerpState, buy: Position, sell: Position): PerpResult {
    var first :- AddPosition(p, buy);
    AddPosition(first, sell)
  }

  /** Adding a long and a short of one size keeps the books, with the skew as it was. */
  lemma {:induction false} PairKeepsBooks(p: PerpState, buy: Position, sell: Position, b: MarketBook, r: PerpState)
    requires BooksSound(p) && buy.market == sell.market && buy.market in p.markets
    requires buy.isLong && !sell.isLong && buy.size == sell.size > 0
    requires var old_ := p.markets[buy.market];
             b.oiLong == old_.oiLong + buy.size && b.oiShort == old_.oiShort + buy.size && b.skew == old_.skew
    requires AddPair(SetBook(p, buy.market, b), buy, sell) == Ok(r)
    ensures BooksSound(r) && PositionsSound(AddPosition(SetBook(p, buy.market, b), buy).value)
  {
    var m, was := buy.market, p.markets[buy.market];
    assert OiExact(p, m);
    OpenInterestNotNegative(p, m);
    var half := was.(oiLong := b.oiLong, skew := was.skew.(skew := was.skew.skew + buy.size));
    var mid := AddPosition(SetBook(p, m, half), buy).value;
    AddKeepsBooks(p, buy, half, mid);
    BookAfterwards(p, m, half, b, buy, mid);
    SecondOfPair(p, mid, sell, half, b, r);
  }

  /** Whether the book is written before or after the position does not matter. */
  lemma {:induction false} BookAfterwards(
    p: PerpState, m: u32, half: MarketBook, b: MarketBook, pos: Position, mid: PerpState)
    requires AddPosition(SetBook(p, m, half), pos) == Ok(mid)
    ensures AddPosition(SetBook(p, m, b), pos) == Ok(SetBook(mid, m, b))
    ensures mid.markets == p.markets[m := half]
  {
    assert p.markets[m := half][m := b] == p.markets[m := b];
  }

  lemma {:induction false} SecondOfPair(
    p: PerpState, mid: PerpState, sell: Position, half: MarketBook, b: MarketBook, r: PerpState)
    requires BooksSound(mid) && mid.markets == p.markets[sell.market := half] && !sell.isLong && sell.size > 0
    requires half.oiLong == b.oiLong && half.oiShort + sell.size == b.oiShort && b.oiShort > 0
    requires half.skew == b.skew.(skew := half.skew.skew) && half.skew.skew == b.skew.skew + sell.size
    requires AddPosition(SetBook(mid, sell.market, b), sell) == Ok(r)
    ensures BooksSound(r)
  {
    AddKeepsBooks(mid, sell, b, r);
  }

  lemma {:induction false} OpenInterestNotNegative(p: PerpState, m: u32)
    requires BooksSound(p) && m in p.markets
    ensures p.markets[m].oiLong >= 0 && p.markets[m].oiShort >= 0
  {
    assert OiExact(p, m);
    SumNonNegative(p.positions, SizeIn(m, true));
    SumNonNegative(p.positions, SizeIn(m, false));
  }
}
