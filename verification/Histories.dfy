/** What never comes back in a run of the trading ledger: position ids, ids of closed positions on a market's list, and
    order nonces. */
module Histories {
  import opened Int128
  import opened Host
  import opened PerpBooks
  import opened Trading
  import opened DeskInvariants
  import opened DeskCloses
  import Liquidation
  import opened LiquidationInvariants
  import opened SystemRuns
  import Clob

  // ----- position ids -----

  /** From p to r the next id does not fall, no spent id becomes open again, and a dead id stays on its list. */
  ghost predicate Onward(p: PerpState, r: PerpState) {
    && p.nextId <= r.nextId
    && (forall id :: id < p.nextId && id !in p.positions ==> id !in r.positions)
    && (forall m, id :: DeadOn(p, m, id) ==> DeadOn(r, m, id))
  }

  lemma {:induction false} OnwardTransitive(p: PerpState, mid: PerpState, r: PerpState)
    requires Onward(p, mid) && Onward(mid, r)
    ensures Onward(p, r)
  {
  }

  ghost predicate SameIds(p: PerpState, r: PerpState) {
    r.positions.Keys == p.positions.Keys && r.marketIds == p.marketIds && r.nextId == p.nextId
  }

  /** A step that opens and closes nothing. */
  lemma {:induction false} SameIdsOnward(p: PerpState, r: PerpState)
    requires SameIds(p, r)
    ensures Onward(p, r)
  {
  }

  lemma {:induction false} AddOnward(p: PerpState, pos: Position, r: PerpState)
    requires AddPosition(p, pos) == Ok(r)
    ensures Onward(p, r)
  {
  }

  lemma {:induction false} RemoveOnward(p: PerpState, id: u64, fromMarket: bool)
    requires id in p.positions
    ensures Onward(p, RemovePosition(p, id, fromMarket))
  {
    var r := RemovePosition(p, id, fromMarket);
    forall m, dead | DeadOn(p, m, dead)
      ensures DeadOn(r, m, dead)
    {
      KeepsOthers(IdsOf(p.marketIds, m), id, dead);
    }
  }

  lemma {:induction false} KeepsOthers(ids: seq<u64>, id: u64, other: u64)
    requires id != other
    ensures other in Without(ids, id) <==> other in ids
  {
    if ids != [] {
      KeepsOthers(ids[1..], id, other);
      assert ids == [ids[0]] + ids[1..];
    }
  }

  // ----- one entry point at a time -----

  lemma {:induction false} OpenOnward(d: Desk, m: u32, b: MarketBook, pos: Position, r: PerpState)
    requires AddPosition(SetBook(d.perp, m, b), pos) == Ok(r)
    ensures Onward(d.perp, r)
  {
    SameIdsOnward(d.perp, SetBook(d.perp, m, b));
    AddOnward(SetBook(d.perp, m, b), pos, r);
    OnwardTransitive(d.perp, SetBook(d.perp, m, b), r);
  }

  lemma {:induction false} CloseOnward(p: PerpState, m: u32, b: MarketBook, id: u64, fromMarket: bool)
    requires id in p.positions
    ensures Onward(p, RemovePosition(SetBook(p, m, b), id, fromMarket))
  {
    SameIdsOnward(p, SetBook(p, m, b));
    RemoveOnward(SetBook(p, m, b), id, fromMarket);
    OnwardTransitive(p, SetBook(p, m, b), RemovePosition(SetBook(p, m, b), id, fromMarket));
  }

  lemma {:induction false} ExecuteOnward(d: Desk, e: Env, id: u64, d': Desk)
    requires ExecuteOrder(d, e, id) == Ok(d')
    ensures Onward(d.perp, d'.perp)
  {
    var o := d.perp.orders[id];
    var taken := d.(perp := d.perp.(orders := d.perp.orders - {id}));
    var pos, b, locked, fee :=
      EnterEffect(taken, e, e.price, o.user, o.market, o.size, o.isLong, o.leverage, o.maxSlippageBps, true, d');
    SameIdsOnward(d.perp, taken.perp);
    OpenOnward(taken, o.market, b, pos, d'.perp);
    OnwardTransitive(d.perp, taken.perp, d'.perp);
  }

  lemma {:induction false} FillOnward(d: Desk, e: Env, m: Clob.Match, d': Desk)
    requires Clob.ExecuteMatch(d, e, m) == Ok(d')
    ensures Onward(d.perp, d'.perp)
  {
    var notional := FillAccepted(d, e, d.w.clob, m.buy.trader, m.sell.trader, m.buy.market, m.size, m.price,
        m.buy.leverage,
                                 m.sell.leverage, d');
    var b, buy, sell := FillEffect(d, e, m.buy.trader, m.sell.trader, m.buy.market, m.size, m.price, notional,
                                   m.buy.leverage, m.sell.leverage, d');
    var first := AddPosition(SetBook(d.perp, m.buy.market, b), buy).value;
    OpenOnward(d, m.buy.market, b, buy, first);
    AddOnward(first, sell, d'.perp);
    OnwardTransitive(d.perp, first, d'.perp);
  }

  lemma {:induction false} RiskCloseOnward(
    d: Desk, e: Env, caller: Address, id: u64, size: i128, price: i128, p: PerpState, c: RiskClosed)
    requires RiskClose(d, e, caller, id, size, price) == Ok((p, c))
    ensures Onward(d.perp, p)
  {
    var b := RiskCloseEffect(d, e, caller, id, size, price, p, c);
    if c.closed {
      CloseOnward(d.perp, d.perp.positions[id].market, b, id, true);
    } else {
      SameIdsOnward(d.perp, p);
    }
  }

  lemma {:induction false} AdlOnward(d: Desk, e: Env, m: u32, missing: i128, d': Desk, taken: Liquidation.Taken)
    requires Liquidation.RunAdl(d, e, m, missing) == Ok((d', taken))
    ensures Onward(d.perp, d'.perp)
  {
    if taken.Some? {
      var id, size, p, c := AdlEffect(d, e, m, missing, d', taken.value);
      RiskCloseOnward(d, e, d.w.risk, id, size, e.price, p, c);
    } else {
      NoWinner(d, e, m, missing, d');
      SameIdsOnward(d.perp, d'.perp);
    }
  }

  lemma {:induction false} LiquidateOnward(
    d: Desk, r: Liquidation.RiskState, e: Env, keeper: Address, user: Address, id: u64, d': Desk,
    r': Liquidation.RiskState, taken: Liquidation.Taken)
    requires Liquidation.Liquidate(d, r, e, keeper, user, id) == Ok((d', r', taken))
    ensures Onward(d.perp, d'.perp)
  {
    var size, mode, p, c, mid := LiquidateEffect(d, r, e, keeper, user, id, d', r', taken);
    RiskCloseOnward(d, e, d.w.risk, id, size, e.price, p, c);
    if !c.closed {
      var m, missing := DeleverageEffect(mid, e, id, d', taken);
      if d' == mid {
        SameIdsOnward(mid.perp, d'.perp);
      } else {
        AdlOnward(mid, e, m, missing, d', taken);
      }
      OnwardTransitive(d.perp, mid.perp, d'.perp);
    }
  }

  // ----- one step, and runs -----

  /** The calls that open or close positions. */
  predicate Trades(op: Op) { op.Open? || op.Execute? || op.Close? || op.Match? || op.Liquidate? }

  lemma {:induction false} TradeOnward(s: System, op: Op, s': System, taken: Liquidation.Taken)
    requires Trades(op) && Perform(s, op) == Some((s', taken))
    ensures Onward(s.desk.perp, s'.desk.perp)
  {
    match op
    case Open(e, user, m, size, isLong, leverage, slip) =>
      var pos, b, locked, fee := OpenEffect(s.desk, e, user, m, size, isLong, leverage, slip, s'.desk);
      OpenOnward(s.desk, m, b, pos, s'.desk.perp);
    case Execute(e, id) => ExecuteOnward(s.desk, e, id, s'.desk);
    case Close(e, user, id) =>
      var gross, fee, b := CloseEffect(s.desk, e, user, id, s'.desk);
      CloseOnward(s.desk.perp, s.desk.perp.positions[id].market, b, id, false);
    case Match(e, caller, buyId, sellId) =>
      var m := Clob.SettleEffect(s.clob, s.desk, e, caller, buyId, sellId, s'.clob, s'.desk);
      FillOnward(s.desk, e, m, s'.desk);
    case Liquidate(e, keeper, user, id) =>
      LiquidateOnward(s.desk, s.risk, e, keeper, user, id, s'.desk, s'.risk, taken);
    case _ =>
  }

  predicate RewritesPosition(op: Op) { op.MoreMargin? || op.LessMargin? || op.ClosePart? || op.PayFunding? }

  lemma {:induction false} RewriteKeepsIds(s: System, op: Op, s': System)
    requires RewritesPosition(op) && Perform(s, op) == Some((s', None))
    ensures SameIds(s.desk.perp, s'.desk.perp)
  {
    match op
    case MoreMargin(e, user, id, amount) => var pos := AddMarginEffect(s.desk, e, user, id, amount, s'.desk);
    case LessMargin(e, user, id, amount) => var pos := RemoveMarginEffect(s.desk, e, user, id, amount, s'.desk);
    case ClosePart(e, user, id, size) =>
      var released, gross, fee, b, rest := PartialEffect(s.desk, e, user, id, size, s'.desk);
    case PayFunding(e, id) => FundingEffect(s.desk, e, id, s'.desk);
    case _ =>
  }

  lemma {:induction false} FundingEffect(d: Desk, e: Env, id: u64, d': Desk)
    requires SettleFunding(d, e, id) == Ok(d')
    ensures SameIds(d.perp, d'.perp)
  {
  }

  predicate LeavesBooks(op: Op) {
    op.Order? || op.Unorder? || op.Register? || op.SetCaps? || op.Pause? || op.Place? || op.Unplace?
  }

  lemma {:induction false} OtherCallsKeepIds(s: System, op: Op, s': System)
    requires LeavesBooks(op) && Perform(s, op) == Some((s', None))
    ensures SameIds(s.desk.perp, s'.desk.perp)
  {
  }

  lemma {:induction false} LiquidityKeepsIds(s: System, op: Op, s': System)
    requires !Trades(op) && !RewritesPosition(op) && !LeavesBooks(op) && Perform(s, op) == Some((s', None))
    ensures s'.desk.perp == s.desk.perp
  {
  }

  lemma {:induction false} QuietOnward(s: System, op: Op, s': System)
    requires !Trades(op) && Perform(s, op) == Some((s', None))
    ensures Onward(s.desk.perp, s'.desk.perp)
  {
    if RewritesPosition(op) {
      RewriteKeepsIds(s, op, s');
    } else if LeavesBooks(op) {
      OtherCallsKeepIds(s, op, s');
    } else {
      LiquidityKeepsIds(s, op, s');
    }
    SameIdsOnward(s.desk.perp, s'.desk.perp);
  }

  lemma {:induction false} StepOnward(s: System, op: Op)
    ensures Onward(s.desk.perp, Step(s, op).desk.perp)
  {
    if Perform(s, op).None? {
      SameIdsOnward(s.desk.perp, s.desk.perp);
    } else if Trades(op) {
      TradeOnward(s, op, Perform(s, op).value.0, Perform(s, op).value.1);
    } else {
      OnlyLiquidationsDeleverage(s, op);
      QuietOnward(s, op, Perform(s, op).value.0);
    }
  }

  /** Over every run, from every state: position ids are used once, in order, and a dead id is dead for good. */
  lemma {:induction false} IdsAreNeverReused(s: System, ops: seq<Op>)
    ensures Onward(s.desk.perp, Run(s, ops).desk.perp)
    decreases |ops|
  {
    if ops == [] {
      SameIdsOnward(s.desk.perp, s.desk.perp);
    } else {
      StepOnward(s, ops[0]);
      IdsAreNeverReused(Step(s, ops[0]), ops[1..]);
      OnwardTransitive(s.desk.perp, Step(s, ops[0]).desk.perp, Run(s, ops).desk.perp);
    }
  }

  /** Once an owner closes a position, nothing is ever deleveraged in its market again: after any further run a
      liquidation there closes the whole position, or leaves a rest that is short of nothing, or fails as a whole. */
  lemma {:induction false} OwnCloseEndsDeleveraging(
    s: System, e: Env, user: Address, id: u64, surplus: Surplus, ops: seq<Op>, f: Env, keeper: Address, owner: Address,
    other: u64)
    requires DeskSound(s.desk, surplus) && Perform(s, Close(e, user, id)).Some?
    requires var p := Run(Step(s, Close(e, user, id)), ops).desk.perp;
             && id in s.desk.perp.positions && other in p.positions
             && p.positions[other].market == s.desk.perp.positions[id].market
    ensures var t := Run(Step(s, Close(e, user, id)), ops);
            var done := Liquidation.Liquidate(t.desk, t.risk, f, keeper, owner, other);
            done.Ok? ==>
              && done.value.2.None?
              && (other !in done.value.0.perp.positions || Liquidation.Missing(done.value.0.perp, f, other) == Ok(None))
  {
    var after := Step(s, Close(e, user, id));
    var t := Run(after, ops);
    OwnCloseLeavesDeadId(s.desk, e, user, id, after.desk, surplus);
    IdsAreNeverReused(after, ops);
    assert DeadOn(t.desk.perp, s.desk.perp.positions[id].market, id);
    DeadIdStopsLiquidation(t.desk, t.risk, f, keeper, owner, other, id);
  }

  // ----- order nonces -----

  lemma {:induction false} StepKeepsNonces(s: System, op: Op, trader: Address)
    ensures Clob.NonceOf(Step(s, op).clob.nonces, trader) >= Clob.NonceOf(s.clob.nonces, trader)
  {
    if op.Match? && Perform(s, op).Some? {
      var t := Step(s, op);
      var m := Clob.SettleEffect(s.clob, s.desk, op.e, op.caller, op.buyId, op.sellId, t.clob, t.desk);
    }
  }

  /** Over every run no trader's nonce falls. */
  lemma {:induction false} NoncesNeverFall(s: System, ops: seq<Op>, trader: Address)
    ensures Clob.NonceOf(Run(s, ops).clob.nonces, trader) >= Clob.NonceOf(s.clob.nonces, trader)
    decreases |ops|
  {
    if ops != [] {
      StepKeepsNonces(s, ops[0], trader);
      NoncesNeverFall(Step(s, ops[0]), ops[1..], trader);
    }
  }

  /** An accepted order is never accepted again, after any run and at any time: no order of its trader with its nonce,
      or an earlier one, is. */
  lemma {:induction false} NoReplay(
    s: System, order: Clob.LimitOrder, now: u64, ops: seq<Op>, again: Clob.LimitOrder, later: u64)
    requires Perform(s, Place(order, now)).Some?
    requires again.trader == order.trader && again.nonce <= order.nonce
    ensures Clob.PlaceOrder(Run(Step(s, Place(order, now)), ops).clob, again, later).Err?
  {
    NoncesNeverFall(Step(s, Place(order, now)), ops, order.trader);
  }
}
