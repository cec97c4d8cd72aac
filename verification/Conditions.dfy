/** Exactly when each instruction succeeds in a reachable state, and exactly when Buy panics. The
    conditions are those a caller can read off the accounts. */
module Conditions {
  import opened Bits
  import opened Results
  import opened Stock
  import opened Draw
  import opened Protocol
  import opened Invariant
  import opened Preserve
  import opened Runs
  import opened Queue

  // ---- Buy ----

  /** The pool sells this many draws at this version, to this buyer and address. */
  predicate Offered(s: State, buyer: Key, count: nat, version: nat, address: PullAddress) {
    && s.status == Active && version == |s.tags| && 1 <= count <= MAX_COUNT
    && buyer != s.cfg.pool && !AddressInUse(s.pulls, address)
    && s.pendingDraws + count <= Sum(s.remaining)
  }

  /** Solvency of the state that the purchase would leave. */
  predicate Collateralized(s: State, count: nat) {
    Owed(s.cfg, s.pendingDraws + count) <= s.vault + s.cfg.price * count
  }

  predicate Affords(s: State, source: Key, count: nat) {
    CanPayIn(s.cfg, s.wallets, source, s.cfg.price * count)
  }

  /** What a buyer can check on the pool, the queue and its own wallet. */
  predicate MayBuy(s: State, buyer: Key, source: Key, count: nat, version: nat, address: PullAddress) {
    Offered(s, buyer, count, version, address) && Collateralized(s, count) && Affords(s, source, count)
  }

  /** The vault's balance with the payment is a `u64`. */
  predicate FitsVault(s: State, count: nat) {
    s.vault + s.cfg.price * count <= U64_MAX
  }

  /** The new Pull's deadline and the next queue index still fit their fields. */
  predicate FitsCounters(s: State) {
    s.slot + s.cfg.deadlineSlots <= U64_MAX && s.nextIndex < U64_MAX
  }

  /** A reachable pool sells exactly on these conditions. */
  lemma BuySucceedsExactly(s: State, buyer: Key, source: Key, count: nat, version: nat, address: PullAddress)
    requires Inv(s)
    ensures ApplyBuy(s, buyer, source, count, version, address).Ok? <==>
              MayBuy(s, buyer, source, count, version, address) && FitsCounters(s)
  {
    BuyOutcomes(s, buyer, source, count, version, address);
  }

  /** Exactly when Buy panics in a reachable state: on an offered purchase whose payment does not fit the
      vault, or, if it fits and the collateral suffices, whose deadline or index does not fit. A payment
      that does not fit the vault is more than any wallet holds, so a purchase that may be bought panics
      exactly when its deadline or index does not fit. */
  lemma BuyPanicsExactly(s: State, buyer: Key, source: Key, count: nat, version: nat, address: PullAddress)
    requires Inv(s)
    ensures ApplyBuy(s, buyer, source, count, version, address) == Err(Abort) <==>
              && Offered(s, buyer, count, version, address)
              && (!FitsVault(s, count) || (Collateralized(s, count) && !FitsCounters(s)))
    ensures !FitsVault(s, count) ==> !Affords(s, source, count)
    ensures MayBuy(s, buyer, source, count, version, address) ==>
              (ApplyBuy(s, buyer, source, count, version, address) == Err(Abort) <==> !FitsCounters(s))
  {
    BuyOutcomes(s, buyer, source, count, version, address);
  }

  lemma BuyOutcomes(s: State, buyer: Key, source: Key, count: nat, version: nat, address: PullAddress)
    requires Inv(s)
    ensures ApplyBuy(s, buyer, source, count, version, address).Ok? <==>
              MayBuy(s, buyer, source, count, version, address) && FitsCounters(s)
    ensures ApplyBuy(s, buyer, source, count, version, address) == Err(Abort) <==>
              && Offered(s, buyer, count, version, address)
              && (!FitsVault(s, count) || (Collateralized(s, count) && !FitsCounters(s)))
    ensures Affords(s, source, count) ==> FitsVault(s, count)
  {
    hide Inv, Owed, Sum, CanPayIn, AddressInUse;
    if CanPayIn(s.cfg, s.wallets, source, s.cfg.price * count) {
      PaymentFits(s, source, s.cfg.price * count);
    }
    if 1 <= count <= MAX_COUNT {
      FundsFacts(s, count);
    }
  }

  /** The pending draws never exceed the header's stock. */
  lemma PendingIsStocked(s: State)
    requires Inv(s)
    ensures s.pendingDraws <= Sum(s.remaining)
  {
    hide Timely, Solvent, Custody, Logged, Recorded, Supply;
    TiersPartitionStock(s.tags, |s.cfg.weights|, |s.tags|);
    if s.nextSettle < s.nextIndex {
      var last := s.nextIndex - 1;
      assert PendingThrough(s.pulls, s.nextSettle, last) == s.pendingDraws;
      UptoMonotone(s.tags, 0, s.pulls[last].version, |s.tags|);
    }
  }

  lemma FundsFacts(s: State, count: nat)
    requires Inv(s) && 1 <= count <= MAX_COUNT
    ensures s.cfg.price + s.cfg.bond <= U64_MAX && s.cfg.price * count <= U64_MAX
    ensures Owed(s.cfg, s.pendingDraws) <= s.vault <= U64_MAX && s.pendingDraws + count <= U64_MAX
  {
    hide StockAgrees, Queued, Reserved, Timely, Custody, Logged, Recorded;
    var unit := s.cfg.price + s.cfg.bond;
    assert Owed(s.cfg, MAX_COUNT) == unit * 10;
    MulLe(s.cfg.price, count, 10);
    MulLe(s.pendingDraws, 2, unit);
    Commute(s.pendingDraws, unit);
  }

  /** A payment the source holds fits the vault: the mint's supply is a `u64`. */
  lemma PaymentFits(s: State, source: Key, amount: nat)
    requires Inv(s) && CanPayIn(s.cfg, s.wallets, source, amount)
    ensures s.vault + amount <= U64_MAX
  {
    hide StockAgrees, Queued, Reserved, Timely, Solvent, Custody, Logged, Recorded, WalletSum;
    if source in s.wallets {
      WalletSumSplit(s.wallets, source);
    }
  }

  lemma MulLe(a: nat, b: nat, c: nat)
    requires b <= c
    ensures a * b <= a * c
  {
  }

  // ---- Money out ----

  lemma WithdrawSucceedsExactly(s: State, signer: Key, destination: Key, amount: nat)
    requires Inv(s)
    ensures ApplyWithdraw(s, signer, destination, amount).Ok? <==>
              signer == s.cfg.authority && amount + Owed(s.cfg, s.pendingDraws) <= s.vault
  {
    AlwaysSolvent(s);
    hide Inv, Owed, Spendable;
  }

  lemma RefundSucceedsExactly(s: State, index: nat, destination: Key)
    requires Inv(s)
    ensures ApplyRefund(s, index, destination).Ok? <==>
              && index == s.nextSettle < s.nextIndex && index in s.pulls && s.pulls[index].deadline < s.slot
              && destination != s.cfg.vault && destination in s.cfg.holders
              && s.cfg.holders[destination] == s.pulls[index].buyer
  {
    hide Inv, ApplyRefund;
    QueueFacts(s);
    if ApplyRefund(s, index, destination).Ok? {
      RefundedHead(s, index, destination);
    } else if index == s.nextSettle < s.nextIndex && index in s.pulls && s.pulls[index].deadline < s.slot
              && HeldBy(s.cfg, destination, s.pulls[index].buyer) {
      RefundHeadSucceeds(s, destination);
    }
  }

  lemma RefundedHead(s: State, index: nat, destination: Key)
    requires Inv(s) && ApplyRefund(s, index, destination).Ok?
    ensures index == s.nextSettle < s.nextIndex && index in s.pulls && s.pulls[index].deadline < s.slot
    ensures HeldBy(s.cfg, destination, s.pulls[index].buyer)
  {
    RefundEffect(s, index, destination);
    QueueFacts(s);
    hide Inv, ApplyRefund;
  }

  // ---- Stock in and out ----

  /** The next position is always free, and a tier's counter cannot be full before the positions are. */
  lemma NextPositionIsFree(s: State, tier: nat)
    requires Inv(s) && tier < |s.cfg.weights|
    ensures Shaped(s) && CheckRestock(s, tier).None?
    ensures CanRestock(s, tier) <==> |s.tags| < U32_MAX
  {
    hide Queued, Reserved, Timely, Solvent, Custody, Logged, Recorded, Supply;
    UptoMonotone(s.tags, tier, 0, |s.tags|);
  }

  lemma DepositSucceedsExactly(s: State, signer: Key, asset: Key, tier: nat)
    requires Inv(s) && Shaped(s)
    ensures ApplyDeposit(s, signer, asset, tier).Ok? <==>
              && signer == s.cfg.authority && s.status != Retired && tier < |s.cfg.weights|
              && |s.tags| < U32_MAX && asset in s.owners && s.owners[asset] == signer
  {
    hide Inv;
    if tier < |s.cfg.weights| {
      NextPositionIsFree(s, tier);
    }
  }

  lemma BuybackSucceedsExactly(s: State, seller: Key, asset: Key, destination: Key, tier: nat, price: nat,
                               quoted: bool, expired: bool)
    requires Inv(s) && Shaped(s)
    ensures ApplyBuyback(s, seller, asset, destination, tier, price, quoted, expired).Ok? <==>
              && s.status == Active && quoted && !expired && tier < |s.cfg.weights| && |s.tags| < U32_MAX
              && seller != s.cfg.pool && asset in s.owners && s.owners[asset] == seller
              && destination != s.cfg.vault && destination in s.cfg.holders && s.cfg.holders[destination] == seller
              && price + Owed(s.cfg, s.pendingDraws) <= s.vault
  {
    AlwaysSolvent(s);
    hide Inv, Owed, Spendable, CanRestock, CheckRestock;
    if tier < |s.cfg.weights| {
      NextPositionIsFree(s, tier);
    }
  }

  /** What a buyback pays: the quoted price, out of surplus alone, to an account of the seller, who
      held the returned asset. */
  lemma BuybackPaysFromSurplus(s: State, seller: Key, asset: Key, destination: Key, tier: nat, price: nat,
                               quoted: bool, expired: bool)
    requires Inv(s) && Shaped(s) && ApplyBuyback(s, seller, asset, destination, tier, price, quoted, expired).Ok?
    ensures var next := ApplyBuyback(s, seller, asset, destination, tier, price, quoted, expired).value;
            && s.vault == next.vault + price && Owed(s.cfg, next.pendingDraws) <= next.vault
            && Balance(next.wallets, destination) == Balance(s.wallets, destination) + price
            && destination != s.cfg.vault && destination in s.cfg.holders && s.cfg.holders[destination] == seller
            && asset in s.owners && s.owners[asset] == seller && Owns(next.owners, s.cfg.pool, asset)
  {
    BuybackSucceedsExactly(s, seller, asset, destination, tier, price, quoted, expired);
    BuybackEffect(s, seller, asset, destination, tier, price, quoted, expired);
    hide Inv, Owed, Spendable, ApplyBuyback;
  }

  lemma ReclaimSucceedsExactly(s: State, signer: Key, position: nat, asset: Key)
    requires Inv(s) && Shaped(s)
    ensures ApplyReclaim(s, signer, position, asset).Ok? <==>
              && signer == s.cfg.authority && s.status == Retired && s.pendingDraws == 0
              && position in s.items && s.items[position].asset == asset
  {
    hide Queued, Reserved, Timely, Solvent, Logged, Recorded, Supply, Custody;
    if position in s.items {
      RemoveKeepsStock(s.cfg, s.tags, s.remaining, s.items, position);
      ItemIsOwned(s, position);
    }
  }

  lemma ItemIsOwned(s: State, position: nat)
    requires Inv(s) && position in s.items
    ensures Owns(s.owners, s.cfg.pool, s.items[position].asset)
  {
    hide StockAgrees, Queued, Reserved, Timely, Solvent, Logged, Recorded, Supply;
    assert Owns(s.owners, s.cfg.pool, PromisedAsset(s.items, s.pulls, InStock(position)));
  }

  lemma DeliverSucceedsExactly(s: State, index: nat, outcome: nat, asset: Key)
    requires Inv(s)
    ensures ApplyDeliver(s, index, outcome, asset).Ok? <==>
              && Promised(s.items, s.pulls, Awarded(index, outcome))
              && PromisedAsset(s.items, s.pulls, Awarded(index, outcome)) == asset
  {
    hide StockAgrees, Reserved, Timely, Solvent, Logged, Recorded, Supply, PendingSum;
    if Promised(s.items, s.pulls, Awarded(index, outcome)) {
      assert Owns(s.owners, s.cfg.pool, PromisedAsset(s.items, s.pulls, Awarded(index, outcome)));
    }
  }
}
