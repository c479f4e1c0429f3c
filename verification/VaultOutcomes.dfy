/** What collateral is worth, and where transferred margin, swapped tokens and sub-account balances go. */
module VaultOutcomes {
  import opened Int128
  import opened Host
  import opened FixedPoint
  import opened MapSums
  import opened Vault

  // ----- the haircut -----

  /** A positive holding counts at most for its price times what the haircut leaves, and for less only by its last
      nine decimals, by two units, and by nothing else. */
  lemma {:induction false} CollateralIsDiscounted(info: Collateral, balance: nat, price: i128, value: i128)
    requires price >= 0 && CollateralValue(info, balance, Some(price)) == Ok(value)
    ensures var kept := 10_000 - Min(info.haircutBps, 10_000);
            && value * 10_000_000_000_000_000_000_000 <= (balance * price) * kept
            && (balance * price) * kept
               < (value + 2) * 10_000_000_000_000_000_000_000 + price * 10_000_000_000_000
  {
    var kept: nat := 10_000 - Min(info.haircutBps, 10_000);
    var units := balance / BILLION;
    MulMonotone(0, 0, units, price);
    var product: nat := units * price;
    var gross := product / BILLION;
    MulMonotone(0, 0, gross, kept);
    var scaled: nat := gross * kept;
    assert value == scaled / 10_000;
    FloorTwice(balance, price, units, product, gross);
    Discounted(balance * price, price, gross, kept, scaled, value);
  }

  /** Scaling down before and after the multiplication. */
  lemma {:induction false} FloorTwice(balance: nat, price: nat, units: nat, product: nat, gross: nat)
    requires units == balance / BILLION && product == units * price && gross == product / BILLION
    ensures gross * 1_000_000_000_000_000_000 <= balance * price
    ensures balance * price < (gross + 1) * 1_000_000_000_000_000_000 + price * 1_000_000_000 + 1
  {
    var rest := balance % BILLION;
    assert balance == units * BILLION + rest;
    assert balance * price == product * BILLION + rest * price by {
      assert (units * BILLION) * price == product * BILLION;
    }
    MulMonotone(0, 0, rest, price);
    MulMonotone(rest, price, BILLION, price);
  }

  lemma {:induction false} Discounted(worth: nat, price: nat, gross: nat, kept: nat, scaled: nat, value: nat)
    requires gross * 1_000_000_000_000_000_000 <= worth && kept <= 10_000
    requires worth < (gross + 1) * 1_000_000_000_000_000_000 + price * 1_000_000_000 + 1
    requires scaled == gross * kept && value == scaled / 10_000
    ensures value * 10_000_000_000_000_000_000_000 <= worth * kept
    ensures worth * kept < (value + 2) * 10_000_000_000_000_000_000_000 + price * 10_000_000_000_000
  {
    var unit := 1_000_000_000_000_000_000;
    var above: nat := worth - gross * unit;
    assert worth * kept == scaled * unit + above * kept by {
      assert (gross * unit) * kept == scaled * unit;
    }
    MulMonotone(above, kept, above, 10_000);
    MulMonotone(0, 0, above, kept);
  }

  // ----- transferred margin -----

  /** The token at this place is the first supported one the account holds. */
  predicate FirstHolding(s: VaultState, user: Address, n: nat) {
    && n < |s.cfg.supported| && Get(s.balances, (user, s.cfg.supported[n])) != 0
    && forall i :: 0 <= i < n ==> Get(s.balances, (user, s.cfg.supported[i])) == 0
  }

  lemma {:induction false} FirstHeldIs(s: VaultState, user: Address, n: nat) returns (i: nat)
    requires n <= |s.cfg.supported| && forall j :: 0 <= j < n ==> Get(s.balances, (user, s.cfg.supported[j])) == 0
    ensures FirstHeld(s, user, n).Some? ==>
              FirstHolding(s, user, i) && s.cfg.supported[i] == FirstHeld(s, user, n).value
    ensures FirstHeld(s, user, n).None? ==>
              forall j :: 0 <= j < |s.cfg.supported| ==> Get(s.balances, (user, s.cfg.supported[j])) == 0
    decreases |s.cfg.supported| - n
  {
    i := n;
    if n < |s.cfg.supported| && Get(s.balances, (user, s.cfg.supported[n])) == 0 {
      i := FirstHeldIs(s, user, n + 1);
    }
  }

  lemma {:induction false} TakenFlows(
    s: VaultState, user: Address, recipient: Address, token: Address, amount: int, r: VaultState, account: Address,
    other: Address)
    requires TakeMargin(s, user, recipient, token, amount) == Ok(r)
    ensures Get(r.balances, (account, other))
         == Get(s.balances, (account, other)) + if other == token then Flow(account, user, recipient, amount) else 0
    ensures r == s.(balances := r.balances)
  {
  }

  /** A transferred margin leaves the user's first held token, as far as it reaches, for the insurance fund or the
      treasury, whichever the caller named; no other balance moves, and the locked total falls by all of the amount. */
  lemma {:induction false} TransferOutcome(
    s: VaultState, caller: Address, user: Address, toInsurance: bool, amount: i128, r: VaultState, account: Address,
    token: Address)
    returns (i: nat)
    requires TransferMargin(s, caller, user, toInsurance, amount) == Ok(r)
    ensures caller in s.cfg.callers && 0 < amount <= Get(s.lockedTotal, user)
    ensures r == s.(balances := r.balances, lockedTotal := s.lockedTotal[user := Get(s.lockedTotal, user) - amount])
    ensures var recipient := if toInsurance then s.cfg.insurance else s.cfg.treasury;
            if FirstHolding(s, user, i) then
              var first := s.cfg.supported[i];
              Get(r.balances, (account, token)) == Get(s.balances, (account, token))
                + if token == first then Flow(account, user, recipient, Min(Get(s.balances, (user, first)), amount))
                  else 0
            else
              r.balances == s.balances
              && forall j :: 0 <= j < |s.cfg.supported| ==> Get(s.balances, (user, s.cfg.supported[j])) == 0
  {
    i := FirstHeldIs(s, user, 0);
    var first := FirstHeld(s, user, 0);
    if first.Some? {
      var recipient := if toInsurance then s.cfg.insurance else s.cfg.treasury;
      var taken := Min(Get(s.balances, (user, first.value)), amount);
      var moved := TakeMargin(s, user, recipient, first.value, taken).value;
      TakenFlows(s, user, recipient, first.value, taken, moved, account, token);
    }
  }

  // ----- swaps and sub-accounts -----

  /** A swap moves one token one way and the other token the other way, and nothing else. */
  lemma {:induction false} SwapOutcome(
    s: VaultState, caller: Address, a: Address, b: Address, tokenA: Address, amountA: i128, tokenB: Address,
    amountB: i128, r: VaultState, account: Address, token: Address)
    requires AtomicSwap(s, caller, a, b, tokenA, amountA, tokenB, amountB) == Ok(r)
    ensures amountA > 0 && amountB > 0 && tokenA != tokenB && r == s.(balances := r.balances)
    ensures Get(r.balances, (account, token))
         == Get(s.balances, (account, token)) + (if token == tokenA then Flow(account, a, b, amountA) else 0)
            + if token == tokenB then Flow(account, b, a, amountB) else 0
  {
    var first := TakeMargin(s, a, b, tokenA, amountA).value;
    TakenFlows(s, a, b, tokenA, amountA, first, account, token);
    TakenFlows(first, b, a, tokenB, amountB, r, account, token);
  }

  /** A transfer between two sub-accounts of one user moves the amount from the one to the other. */
  lemma {:induction false} SubTransferOutcome(
    s: VaultState, user: Address, from: u32, to: u32, token: Address, amount: i128, r: VaultState,
    key: (Address, u32, Address))
    requires TransferBetweenSubs(s, user, from, to, token, amount) == Ok(r)
    ensures 0 < amount <= Get(s.subs, (user, from, token)) && from != to && r == s.(subs := r.subs)
    ensures Get(r.subs, key)
         == Get(s.subs, key) + (if key == (user, to, token) then amount else 0)
            - if key == (user, from, token) then amount else 0
  {
  }
}
