/** Every instruction keeps the invariant. */
module Preserve {
  import opened Bits
  import opened Results
  import opened Stock
  import opened Draw
  import opened Protocol
  import opened Invariant

  // ---- Stock ----

  /** A restock appends one prize to every view of the stock. */
  lemma RestockKeepsStock(s: State, asset: Key, tier: nat)
    requires Shaped(s) && tier < |s.cfg.weights| && |s.tags| < U32_MAX
    requires StockAgrees(s.cfg, s.tags, s.remaining, s.items)
    ensures var r := Restocked(s, asset, tier); StockAgrees(r.cfg, r.tags, r.remaining, r.items)
  {
    var r := Restocked(s, asset, tier);
    forall t | 0 <= t < |s.cfg.weights|
      ensures r.remaining[t] == Upto(r.tags, t, |r.tags|)
    {
      UptoAppend(s.tags, tier + 1, t, |r.tags|);
      UptoPastTheEnd(s.tags, t, |r.tags|);
    }
    assert r.remaining == Available(r.tags, |r.cfg.weights|, |r.tags|);
  }

  /** Deposits past every pinned version do not touch a reservation. */
  lemma AppendKeepsReserved(tags: seq<u8>, tag: u8, pulls: map<nat, Pull>, nextSettle: nat, nextIndex: nat)
    requires Reserved(tags, pulls, nextSettle, nextIndex)
    ensures Reserved(tags + [tag], pulls, nextSettle, nextIndex)
  {
    forall k | nextSettle <= k < nextIndex && k in pulls
      ensures LiveUpto(tags + [tag], pulls[k].version) == LiveUpto(tags, pulls[k].version)
    {
      UptoAppend(tags, tag, 0, pulls[k].version);
    }
  }

  lemma RemoveKeepsStock(cfg: Config, tags: seq<u8>, remaining: seq<nat>, items: map<nat, Item>, p: nat)
    requires StockAgrees(cfg, tags, remaining, items) && p in items
    ensures var tier := items[p].tier;
            && tier < |remaining| && remaining[tier] > 0
            && StockAgrees(cfg, tags[p := 0], remaining[tier := remaining[tier] - 1], Without(items, p))
  {
    var tier := items[p].tier;
    RankDeterminesPosition(tags, tier, |tags|, p);
    var after := tags[p := 0];
    forall t | 0 <= t < |cfg.weights|
      ensures remaining[tier := remaining[tier] - 1][t] == Upto(after, t, |after|)
    {
      UptoRemove(tags, p, t, |tags|);
    }
    assert remaining[tier := remaining[tier] - 1] == Available(after, |cfg.weights|, |after|);
  }

  // ---- Custody ----

  /** Promises that keep their assets, and owners that keep the promised assets, keep custody. */
  lemma CustodyShrinks(cfg: Config, items: map<nat, Item>, pulls: map<nat, Pull>, owners: map<Key, Key>,
                       items': map<nat, Item>, pulls': map<nat, Pull>, owners': map<Key, Key>)
    requires Custody(cfg, items, pulls, owners)
    requires forall p :: Promised(items', pulls', p) ==>
               Promised(items, pulls, p) && PromisedAsset(items', pulls', p) == PromisedAsset(items, pulls, p)
    requires forall p :: Promised(items', pulls', p) ==> Owns(owners', cfg.pool, PromisedAsset(items', pulls', p))
    ensures Custody(cfg, items', pulls', owners')
  {
  }

  /** A prize taken into custody was not promised before: the pool did not own it. */
  lemma CustodyGrows(cfg: Config, items: map<nat, Item>, pulls: map<nat, Pull>, owners: map<Key, Key>,
                     position: nat, item: Item)
    requires Custody(cfg, items, pulls, owners)
    requires position !in items && !Owns(owners, cfg.pool, item.asset)
    ensures Custody(cfg, items[position := item], pulls, owners[item.asset := cfg.pool])
  {
    var items', owners' := items[position := item], owners[item.asset := cfg.pool];
    forall p | Promised(items', pulls, p)
      ensures p == InStock(position) || (Promised(items, pulls, p)
              && PromisedAsset(items', pulls, p) == PromisedAsset(items, pulls, p) != item.asset)
    {
    }
  }

  lemma DeliverableStays(pulls: map<nat, Pull>, log: seq<Resolution>, more: seq<Resolution>)
    requires Recorded(pulls, log)
    ensures Recorded(pulls, log + more)
  {
    forall i | i in pulls && pulls[i].status == Settled
      ensures (log + more)[i] == log[i]
    {
      assert i < |log|;
    }
  }

  lemma LogGrows(log: seq<Resolution>, nextSettle: nat, slot: nat, r: Resolution)
    requires Logged(log, nextSettle, slot)
    requires r.index == nextSettle && r.slot == slot && (r.choice.Revealed? <==> r.slot <= r.deadline)
    ensures Logged(log + [r], nextSettle + 1, slot)
  {
    var longer := log + [r];
    forall i | 0 <= i < |longer|
      ensures longer[i].index == i && longer[i].slot <= slot
    {
      if i < |log| {
        assert longer[i] == log[i];
      }
    }
  }

  // ---- Instructions that move stock in ----

  lemma DepositEffect(s: State, signer: Key, asset: Key, tier: nat)
    requires Shaped(s) && ApplyDeposit(s, signer, asset, tier).Ok?
    ensures tier < |s.cfg.weights| && |s.tags| < U32_MAX && |s.tags| !in s.items
    ensures signer == s.cfg.authority && Owns(s.owners, signer, asset)
    ensures ApplyDeposit(s, signer, asset, tier).value
            == Restocked(s, asset, tier).(owners := s.owners[asset := s.cfg.pool])
  {
  }

  lemma DepositKeepsInv(s: State, signer: Key, asset: Key, tier: nat)
    requires Inv(s) && ApplyDeposit(s, signer, asset, tier).Ok?
    ensures Inv(ApplyDeposit(s, signer, asset, tier).value)
  {
    RestockKeepsStock(s, asset, tier);
    AppendKeepsReserved(s.tags, tier + 1, s.pulls, s.nextSettle, s.nextIndex);
    CustodyGrows(s.cfg, s.items, s.pulls, s.owners, |s.tags|, Item(tier, asset));
  }

  lemma SpendableKeepsSolvent(cfg: Config, vault: nat, wallets: map<Key, nat>, pendingDraws: nat, account: Key,
                              amount: nat)
    requires Spendable(cfg, vault, pendingDraws).Ok? && amount <= Spendable(cfg, vault, pendingDraws).value
    ensures amount <= vault && Solvent(cfg, vault - amount, pendingDraws)
    ensures Supply(vault - amount, Credit(wallets, account, amount)) == Supply(vault, wallets)
  {
    PayOutKeepsSupply(vault, wallets, account, amount);
  }

  lemma BuybackEffect(s: State, seller: Key, asset: Key, destination: Key, tier: nat, price: nat,
                      quoted: bool, expired: bool)
    requires Shaped(s) && ApplyBuyback(s, seller, asset, destination, tier, price, quoted, expired).Ok?
    ensures tier < |s.cfg.weights| && |s.tags| < U32_MAX && |s.tags| !in s.items
    ensures seller != s.cfg.pool && Owns(s.owners, seller, asset) && HeldBy(s.cfg, destination, seller)
    ensures Spendable(s.cfg, s.vault, s.pendingDraws).Ok?
    ensures price <= Spendable(s.cfg, s.vault, s.pendingDraws).value <= s.vault
    ensures ApplyBuyback(s, seller, asset, destination, tier, price, quoted, expired).value
            == Restocked(s, asset, tier).(owners := s.owners[asset := s.cfg.pool],
                                          vault := s.vault - price,
                                          wallets := Credit(s.wallets, destination, price))
  {
  }

  lemma BuybackKeepsInv(s: State, seller: Key, asset: Key, destination: Key, tier: nat, price: nat,
                        quoted: bool, expired: bool)
    requires Inv(s) && ApplyBuyback(s, seller, asset, destination, tier, price, quoted, expired).Ok?
    ensures Inv(ApplyBuyback(s, seller, asset, destination, tier, price, quoted, expired).value)
  {
    hide ApplyBuyback, Queued, Reserved, Timely, Solvent, Supply, Owed, Spendable, Custody, Logged, Recorded,
         WellConfigured;
    InvShaped(s);
    hide StockAgrees;
    BuybackEffect(s, seller, asset, destination, tier, price, quoted, expired);
    RestockKeepsStock(s, asset, tier);
    AppendKeepsReserved(s.tags, tier + 1, s.pulls, s.nextSettle, s.nextIndex);
    CustodyGrows(s.cfg, s.items, s.pulls, s.owners, |s.tags|, Item(tier, asset));
    SpendableKeepsSolvent(s.cfg, s.vault, s.wallets, s.pendingDraws, destination, price);
  }

  lemma WithdrawKeepsInv(s: State, signer: Key, destination: Key, amount: nat)
    requires Inv(s) && ApplyWithdraw(s, signer, destination, amount).Ok?
    ensures Inv(ApplyWithdraw(s, signer, destination, amount).value)
  {
    if destination != s.cfg.vault {
      SpendableKeepsSolvent(s.cfg, s.vault, s.wallets, s.pendingDraws, destination, amount);
    }
  }

  lemma SendKeepsSupply(vault: nat, wallets: map<Key, nat>, source: Key, destination: Key, amount: nat)
    requires amount <= Balance(wallets, source)
    ensures var debited := Debit(wallets, source, amount);
            && Supply(vault + amount, debited) == Supply(vault, wallets)
            && Supply(vault, Credit(debited, destination, amount)) == Supply(vault, wallets)
  {
    hide WalletSum;
    WalletSumUpdate(wallets, source, Balance(wallets, source) - amount);
    var debited := Debit(wallets, source, amount);
    WalletSumUpdate(debited, destination, Balance(debited, destination) + amount);
  }

  lemma SendKeepsInv(s: State, source: Key, destination: Key, amount: nat)
    requires Inv(s) && ApplySend(s, source, destination, amount).Ok?
    ensures Inv(ApplySend(s, source, destination, amount).value)
  {
    hide StockAgrees, Queued, Reserved, Timely, Custody, Logged, Recorded, WellConfigured, Supply;
    FundKeepsSolvent(s.cfg, s.vault, s.pendingDraws, amount);
    hide Solvent;
    SendKeepsSupply(s.vault, s.wallets, source, destination, amount);
  }

  lemma FundKeepsSolvent(cfg: Config, vault: nat, pendingDraws: nat, amount: nat)
    requires Solvent(cfg, vault, pendingDraws)
    ensures Solvent(cfg, vault + amount, pendingDraws)
  {
  }

  lemma TradeKeepsInv(s: State, asset: Key, from: Key, to: Key)
    requires Inv(s) && ApplyTrade(s, asset, from, to).Ok?
    ensures Inv(ApplyTrade(s, asset, from, to).value)
  {
    CustodyShrinks(s.cfg, s.items, s.pulls, s.owners, s.items, s.pulls, s.owners[asset := to]);
  }

  // ---- Purchases ----

  lemma BuyKeepsQueued(pulls: map<nat, Pull>, nextSettle: nat, nextIndex: nat, pendingDraws: nat, pull: Pull)
    requires Queued(pulls, nextSettle, nextIndex, pendingDraws) && nextIndex < U64_MAX
    requires pull.status == Pending && pull.index == nextIndex
    requires 1 <= pull.count <= MAX_COUNT && |pull.outcomes| == MAX_COUNT
    ensures Queued(pulls[nextIndex := pull], nextSettle, nextIndex + 1, pendingDraws + pull.count)
    ensures forall k :: nextSettle <= k < nextIndex ==>
              PendingThrough(pulls[nextIndex := pull], nextSettle, k) == PendingThrough(pulls, nextSettle, k)
  {
    PendingSumFrame(pulls, pulls[nextIndex := pull], nextSettle, nextIndex);
    forall k | nextSettle <= k < nextIndex
      ensures PendingThrough(pulls[nextIndex := pull], nextSettle, k) == PendingThrough(pulls, nextSettle, k)
    {
      PendingSumFrame(pulls, pulls[nextIndex := pull], nextSettle, k + 1);
    }
  }

  lemma NextIndexIsFresh(s: State)
    requires Inv(s)
    ensures s.nextIndex !in s.pulls
  {
    hide StockAgrees, Reserved, Timely, Solvent, Custody, Logged, Recorded, Supply, PendingSum;
  }

  /** The single counter check of Buy reserves stock for the new purchase behind all older ones. */
  lemma BuyKeepsReserved(s: State, pull: Pull)
    requires StockAgrees(s.cfg, s.tags, s.remaining, s.items)
    requires Queued(s.pulls, s.nextSettle, s.nextIndex, s.pendingDraws) && s.nextIndex < U64_MAX
    requires Reserved(s.tags, s.pulls, s.nextSettle, s.nextIndex)
    requires pull.status == Pending && pull.index == s.nextIndex
    requires 1 <= pull.count <= MAX_COUNT && |pull.outcomes| == MAX_COUNT
    requires pull.version == |s.tags| && s.pendingDraws + pull.count <= Sum(s.remaining)
    ensures Reserved(s.tags, s.pulls[s.nextIndex := pull], s.nextSettle, s.nextIndex + 1)
  {
    var pulls := s.pulls[s.nextIndex := pull];
    TiersPartitionStock(s.tags, |s.cfg.weights|, |s.tags|);
    BuyKeepsQueued(s.pulls, s.nextSettle, s.nextIndex, s.pendingDraws, pull);
    hide PendingSum, LiveUpto;
    assert PendingThrough(pulls, s.nextSettle, s.nextIndex) == s.pendingDraws + pull.count;
  }

  /** A fresh pull promises nothing, and the settled pulls keep their records. */
  lemma NewPullKeepsRecords(s: State, pull: Pull)
    requires Custody(s.cfg, s.items, s.pulls, s.owners) && Recorded(s.pulls, s.log)
    requires s.nextIndex !in s.pulls && pull.status == Pending
    ensures Custody(s.cfg, s.items, s.pulls[s.nextIndex := pull], s.owners)
    ensures Recorded(s.pulls[s.nextIndex := pull], s.log)
  {
    CustodyShrinks(s.cfg, s.items, s.pulls, s.owners, s.items, s.pulls[s.nextIndex := pull], s.owners);
  }

  lemma BuyKeepsTimely(cfg: Config, pulls: map<nat, Pull>, nextSettle: nat, nextIndex: nat, slot: nat, pull: Pull)
    requires Timely(cfg, pulls, nextSettle, nextIndex, slot) && pull.deadline == slot + cfg.deadlineSlots
    ensures Timely(cfg, pulls[nextIndex := pull], nextSettle, nextIndex + 1, slot)
  {
  }

  lemma BuyKeepsFunds(s: State, source: Key, amount: nat, count: nat)
    requires Supply(s.vault, s.wallets) <= U64_MAX && CanPayIn(s.cfg, s.wallets, source, amount)
    requires RefundAmount(s.cfg, s.pendingDraws + count).Ok?
    requires RefundAmount(s.cfg, s.pendingDraws + count).value <= s.vault + amount
    ensures Solvent(s.cfg, s.vault + amount, s.pendingDraws + count)
    ensures Supply(s.vault + amount, Debit(s.wallets, source, amount)) == Supply(s.vault, s.wallets)
  {
    WalletSumUpdate(s.wallets, source, Balance(s.wallets, source) - amount);
  }

  /** The state after a successful Buy, and what its guards established. */
  lemma BuyEffect(s: State, buyer: Key, source: Key, count: nat, version: nat, address: PullAddress)
    requires ApplyBuy(s, buyer, source, count, version, address).Ok?
    ensures 1 <= count <= MAX_COUNT && s.pendingDraws + count <= Sum(s.remaining) && s.nextIndex < U64_MAX
    ensures Payment(s.cfg, count).Ok? && CanPayIn(s.cfg, s.wallets, source, Payment(s.cfg, count).value)
    ensures RefundAmount(s.cfg, s.pendingDraws + count).Ok?
    ensures RefundAmount(s.cfg, s.pendingDraws + count).value <= s.vault + Payment(s.cfg, count).value
    ensures ApplyBuy(s, buyer, source, count, version, address).value == s.(
              pulls := s.pulls[s.nextIndex := Pull(Pending, count, |s.tags|, s.nextIndex,
                                                   s.slot + s.cfg.deadlineSlots, buyer, address, NoOutcomes())],
              pendingDraws := s.pendingDraws + count,
              nextIndex := s.nextIndex + 1,
              vault := s.vault + Payment(s.cfg, count).value,
              wallets := Debit(s.wallets, source, Payment(s.cfg, count).value))
  {
  }

  lemma BuyKeepsInv(s: State, buyer: Key, source: Key, count: nat, version: nat, address: PullAddress)
    requires Inv(s) && ApplyBuy(s, buyer, source, count, version, address).Ok?
    ensures Inv(ApplyBuy(s, buyer, source, count, version, address).value)
  {
    hide ApplyBuy, StockAgrees, Queued, Reserved, Timely, Solvent, Supply, Owed, Payment, RefundAmount, CanPayIn, Sum,
         Custody, Logged, Recorded, WellConfigured;
    BuyEffect(s, buyer, source, count, version, address);
    var pull := Pull(Pending, count, |s.tags|, s.nextIndex, s.slot + s.cfg.deadlineSlots, buyer, address, NoOutcomes());
    NextIndexIsFresh(s);
    BuyKeepsQueued(s.pulls, s.nextSettle, s.nextIndex, s.pendingDraws, pull);
    BuyKeepsReserved(s, pull);
    BuyKeepsTimely(s.cfg, s.pulls, s.nextSettle, s.nextIndex, s.slot, pull);
    BuyKeepsFunds(s, source, Payment(s.cfg, count).value, count);
    NewPullKeepsRecords(s, pull);
  }

  /** Resolving the head releases its draws from the sum of every later reservation. */
  lemma HeadReleases(pulls: map<nat, Pull>, pulls': map<nat, Pull>, head: nat, nextIndex: nat, pendingDraws: nat)
    requires Queued(pulls, head, nextIndex, pendingDraws) && head < nextIndex
    requires forall i :: head < i < nextIndex ==> i in pulls' && pulls[i] == pulls'[i]
    ensures pulls[head].count <= pendingDraws
    ensures pendingDraws == pulls[head].count + PendingSum(pulls', head + 1, nextIndex)
    ensures forall k :: head < k < nextIndex ==>
              PendingThrough(pulls, head, k) == pulls[head].count + PendingThrough(pulls', head + 1, k)
  {
    PendingSumFront(pulls, head, nextIndex);
    PendingSumFrame(pulls, pulls', head + 1, nextIndex);
    forall k | head < k < nextIndex
      ensures PendingThrough(pulls, head, k) == pulls[head].count + PendingThrough(pulls', head + 1, k)
    {
      PendingSumFront(pulls, head, k + 1);
      PendingSumFrame(pulls, pulls', head + 1, k + 1);
    }
  }

  /** Only the head changes: it leaves the queue, settled or closed. */
  ghost predicate HeadResolved(pulls: map<nat, Pull>, pulls': map<nat, Pull>, head: nat) {
    && head in pulls
    && pulls'.Keys <= pulls.Keys
    && (forall i :: i in pulls && i != head ==> i in pulls' && pulls'[i] == pulls[i])
    && (head in pulls' ==>
          && pulls'[head].status == Settled && pulls'[head].index == head
          && pulls'[head].count == pulls[head].count && |pulls'[head].outcomes| == MAX_COUNT)
  }

  lemma ResolveKeepsQueued(pulls: map<nat, Pull>, pulls': map<nat, Pull>, head: nat, nextIndex: nat, pendingDraws: nat)
    requires Queued(pulls, head, nextIndex, pendingDraws) && HeadResolved(pulls, pulls', head)
    requires pulls[head].status == Pending
    ensures head < nextIndex && pulls[head].count <= pendingDraws
    ensures Queued(pulls', head + 1, nextIndex, pendingDraws - pulls[head].count)
  {
    HeadReleases(pulls, pulls', head, nextIndex, pendingDraws);
  }

  /** Resolving the head leaves every later reservation covered, provided it takes no more than its
      own draws from any later prefix. */
  lemma ResolveKeepsReserved(tags: seq<u8>, tags': seq<u8>, pulls: map<nat, Pull>, pulls': map<nat, Pull>,
                             head: nat, nextIndex: nat, pendingDraws: nat)
    requires Queued(pulls, head, nextIndex, pendingDraws) && HeadResolved(pulls, pulls', head) && head < nextIndex
    requires Reserved(tags, pulls, head, nextIndex) && |tags'| == |tags|
    requires forall m :: m >= pulls[head].version ==> LiveUpto(tags', m) >= LiveUpto(tags, m) - pulls[head].count
    ensures Reserved(tags', pulls', head + 1, nextIndex)
  {
    hide PendingSum, PendingThrough, LiveUpto;
    HeadReleases(pulls, pulls', head, nextIndex, pendingDraws);
    hide Queued;
  }

  lemma ResolveKeepsTimely(cfg: Config, pulls: map<nat, Pull>, pulls': map<nat, Pull>, head: nat, nextIndex: nat,
                           slot: nat)
    requires Timely(cfg, pulls, head, nextIndex, slot) && HeadResolved(pulls, pulls', head)
    ensures Timely(cfg, pulls', head + 1, nextIndex, slot)
  {
  }

  lemma SolventAfter(cfg: Config, vault: nat, pendingDraws: nat, count: nat)
    requires Solvent(cfg, vault, pendingDraws) && count <= pendingDraws
    ensures Owed(cfg, pendingDraws) == Owed(cfg, count) + Owed(cfg, pendingDraws - count)
    ensures Solvent(cfg, vault - Owed(cfg, count), pendingDraws - count)
    ensures Solvent(cfg, vault, pendingDraws - count)
  {
    var unit := cfg.price + cfg.bond;
    assert unit * (pendingDraws - count) == unit * pendingDraws - unit * count;
    assert 0 <= unit * (pendingDraws - count) && 0 <= unit * count;
  }

  lemma PayOutKeepsSupply(vault: nat, wallets: map<Key, nat>, destination: Key, amount: nat)
    requires amount <= vault
    ensures Supply(vault - amount, Credit(wallets, destination, amount)) == Supply(vault, wallets)
  {
    WalletSumUpdate(wallets, destination, Balance(wallets, destination) + amount);
  }

  lemma CloseKeepsRecords(s: State, index: nat)
    requires Custody(s.cfg, s.items, s.pulls, s.owners) && Recorded(s.pulls, s.log)
    ensures Custody(s.cfg, s.items, Without(s.pulls, index), s.owners)
    ensures Recorded(Without(s.pulls, index), s.log)
  {
    CustodyShrinks(s.cfg, s.items, s.pulls, s.owners, s.items, Without(s.pulls, index), s.owners);
  }

  /** What a successful Refund did, and the head it resolved. */
  lemma RefundEffect(s: State, index: nat, destination: Key)
    requires Queued(s.pulls, s.nextSettle, s.nextIndex, s.pendingDraws)
    requires ApplyRefund(s, index, destination).Ok?
    ensures index == s.nextSettle && index in s.pulls && s.pulls[index].status == Pending
    ensures s.pulls[index].index == index && s.pulls[index].deadline < s.slot
    ensures var amount := Owed(s.cfg, s.pulls[index].count);
            && amount <= s.vault && s.pulls[index].count <= s.pendingDraws
            && HeldBy(s.cfg, destination, s.pulls[index].buyer)
            && ApplyRefund(s, index, destination).value == s.(
                 pendingDraws := s.pendingDraws - s.pulls[index].count,
                 nextSettle := index + 1,
                 vault := s.vault - amount,
                 wallets := Credit(s.wallets, destination, amount),
                 pulls := Without(s.pulls, index),
                 log := s.log + [Resolution(index, s.pulls[index].deadline, s.slot, TimedOut, [])])
  {
  }

  lemma RefundKeepsInv(s: State, index: nat, destination: Key)
    requires Inv(s) && ApplyRefund(s, index, destination).Ok?
    ensures Inv(ApplyRefund(s, index, destination).value)
  {
    hide StockAgrees, Queued, Reserved, Timely, Solvent, Custody, Logged, Recorded, WellConfigured,
         ApplyRefund, Supply, Owed;
    RefundEffect(s, index, destination);
    var pull, pulls := s.pulls[index], Without(s.pulls, index);
    var amount := Owed(s.cfg, pull.count);
    var resolution := Resolution(index, pull.deadline, s.slot, TimedOut, []);
    assert HeadResolved(s.pulls, pulls, index);
    hide HeadResolved;
    ResolveKeepsQueued(s.pulls, pulls, index, s.nextIndex, s.pendingDraws);
    ResolveKeepsReserved(s.tags, s.tags, s.pulls, pulls, index, s.nextIndex, s.pendingDraws);
    ResolveKeepsTimely(s.cfg, s.pulls, pulls, index, s.nextIndex, s.slot);
    SolventAfter(s.cfg, s.vault, s.pendingDraws, pull.count);
    PayOutKeepsSupply(s.vault, s.wallets, destination, amount);
    CloseKeepsRecords(s, index);
    LogGrows(s.log, s.nextSettle, s.slot, resolution);
    DeliverableStays(pulls, s.log, [resolution]);
  }

  // ---- Settlement ----

  /** One iteration of the draw loop keeps the three views of stock in step. */
  lemma DrawStepKeepsStock(cfg: Config, cutoff: nat, ref: ItemRef, hash: Hash, i: nat, d: Drawn)
    requires StockAgrees(cfg, d.tags, d.remaining, d.items) && i < |d.outcomes|
    requires DrawStep(cfg.weights, cutoff, ref, hash, i, d).Ok?
    ensures var r := DrawStep(cfg.weights, cutoff, ref, hash, i, d).value;
            StockAgrees(cfg, r.tags, r.remaining, r.items)
  {
    var pick := DrawOne(cfg.weights, d.tags, cutoff, hash).value;
    hide DrawOne;
    RemoveKeepsStock(cfg, d.tags, d.remaining, d.items, pick.position);
  }

  lemma {:induction false} DrawStepsKeepStock(cfg: Config, cutoff: nat, refs: seq<ItemRef>, output: seq<Hash>,
                              n: nat, start: Drawn)
    requires StockAgrees(cfg, start.tags, start.remaining, start.items)
    requires n <= |refs| && n <= |output| && n <= |start.outcomes|
    requires DrawSteps(cfg.weights, cutoff, refs, output, n, start).Ok?
    ensures var r := DrawSteps(cfg.weights, cutoff, refs, output, n, start).value;
            StockAgrees(cfg, r.tags, r.remaining, r.items)
  {
    if n > 0 {
      DrawStepsKeepStock(cfg, cutoff, refs, output, n - 1, start);
      var before := DrawSteps(cfg.weights, cutoff, refs, output, n - 1, start).value;
      hide StockAgrees, DrawStep;
      DrawStepKeepsStock(cfg, cutoff, refs[n - 1], output[n - 1], n - 1, before);
    }
  }

  /** The awarded Items, and only these, have been closed. */
  ghost predicate ItemsClosed(items: map<nat, Item>, left: map<nat, Item>, awards: seq<Award>) {
    && (forall i :: 0 <= i < |awards| ==>
          && awards[i].position in items && awards[i].position !in left
          && items[awards[i].position] == Item(awards[i].tier, awards[i].asset))
    && (forall p: nat :: p in left ==> p in items && left[p] == items[p])
    && (forall p: nat :: p in items && p !in left ==> exists i :: 0 <= i < |awards| && awards[i].position == p)
  }

  /** The awards are the linear plan's picks, in order; each passed Item is the drawn one and each
      outcome records its award. */
  ghost predicate FollowsPlan(weights: seq<nat>, cutoff: nat, refs: seq<ItemRef>, output: seq<Hash>, n: nat,
                              start: Drawn, r: Drawn)
    requires |weights| <= MAX_TIERS && n <= |output| && n <= |refs|
  {
    var plan := DrawAll(weights, start.tags, cutoff, output, n);
    && plan.Some? && plan.value.tags == r.tags
    && |r.awards| == n <= |r.outcomes| == |start.outcomes|
    && (forall i :: 0 <= i < n ==>
          && refs[i] == Here(r.awards[i].position)
          && plan.value.picks[i] == Pick(r.awards[i].tier, r.awards[i].position)
          && r.outcomes[i] == Outcome(r.awards[i].tier, r.awards[i].asset))
  }

  lemma OneMoreClosed(items: map<nat, Item>, left: map<nat, Item>, awards: seq<Award>, award: Award)
    requires ItemsClosed(items, left, awards)
    requires award.position in left && left[award.position] == Item(award.tier, award.asset)
    ensures ItemsClosed(items, Without(left, award.position), awards + [award])
  {
    var longer := awards + [award];
    forall p: nat | p in items && p !in Without(left, award.position)
      ensures exists i :: 0 <= i < |longer| && longer[i].position == p
    {
      if p == award.position {
        assert longer[|awards|].position == p;
      } else {
        var i :| 0 <= i < |awards| && awards[i].position == p;
        assert longer[i].position == p;
      }
    }
  }

  /** One more iteration extends the plan by one pick. */
  lemma PlanGrows(weights: seq<nat>, cutoff: nat, refs: seq<ItemRef>, output: seq<Hash>, n: nat, start: Drawn,
                  before: Drawn, r: Drawn)
    requires 1 <= n <= |refs| && n <= |output| && n <= |start.outcomes|
    requires |before.remaining| == |weights| <= MAX_TIERS
    requires FollowsPlan(weights, cutoff, refs, output, n - 1, start, before)
    requires ItemsClosed(start.items, before.items, before.awards)
    requires DrawStep(weights, cutoff, refs[n - 1], output[n - 1], n - 1, before) == Ok(r)
    ensures FollowsPlan(weights, cutoff, refs, output, n, start, r)
    ensures ItemsClosed(start.items, r.items, r.awards)
  {
    hide DrawOne, ItemsClosed;
    var pick := DrawOne(weights, before.tags, cutoff, output[n - 1]).value;
    OneMoreClosed(start.items, before.items, before.awards,
                  Award(pick.tier, pick.position, before.items[pick.position].asset));
  }

  lemma {:induction false} DrawStepsFollowPlan(weights: seq<nat>, cutoff: nat, refs: seq<ItemRef>, output: seq<Hash>,
                              n: nat, start: Drawn)
    requires |start.remaining| == |weights| <= MAX_TIERS && start.awards == []
    requires n <= |refs| && n <= |output| && n <= |start.outcomes|
    requires DrawSteps(weights, cutoff, refs, output, n, start).Ok?
    ensures var r := DrawSteps(weights, cutoff, refs, output, n, start).value;
            FollowsPlan(weights, cutoff, refs, output, n, start, r) && ItemsClosed(start.items, r.items, r.awards)
  {
    if n > 0 {
      hide DrawStep, FollowsPlan, ItemsClosed;
      DrawStepsFollowPlan(weights, cutoff, refs, output, n - 1, start);
      PlanGrows(weights, cutoff, refs, output, n, start,
                DrawSteps(weights, cutoff, refs, output, n - 1, start).value,
                DrawSteps(weights, cutoff, refs, output, n, start).value);
    }
  }

  lemma SettleEffect(s: State, index: nat, refs: seq<ItemRef>, proof: Option<Output>)
    requires Shaped(s) && Queued(s.pulls, s.nextSettle, s.nextIndex, s.pendingDraws)
    requires ApplySettle(s, index, refs, proof).Ok?
    ensures index == s.nextSettle && index in s.pulls && s.pulls[index].status == Pending
    ensures s.pulls[index].index == index && s.slot <= s.pulls[index].deadline
    ensures proof.Some? && 1 <= |refs| == s.pulls[index].count <= MAX_COUNT == |s.pulls[index].outcomes|
    ensures s.pulls[index].version <= |s.tags| && s.pulls[index].count <= s.pendingDraws
    ensures var pull := s.pulls[index];
            var r := DrawSteps(s.cfg.weights, pull.version, refs, proof.value, pull.count,
                               Drawn(s.tags, s.remaining, s.items, pull.outcomes, []));
            r.Ok? && ApplySettle(s, index, refs, proof).value == AfterSettle(s, index, proof.value, r.value)
  {
    hide DrawSteps, PendingSum, PendingThrough;
  }

  /** The state after Settle, given what the draw loop produced. */
  ghost function AfterSettle(s: State, index: nat, output: Output, d: Drawn): State
    requires index in s.pulls && s.pulls[index].count <= s.pendingDraws
  {
    var pull := s.pulls[index];
    s.(tags := d.tags, remaining := d.remaining, items := d.items,
       pendingDraws := s.pendingDraws - pull.count,
       nextSettle := index + 1,
       pulls := s.pulls[index := pull.(status := Settled, outcomes := d.outcomes)],
       log := s.log + [Resolution(index, pull.deadline, s.slot, Revealed(output), d.awards)])
  }

  /** Where a promise of the settled state came from: an award was a prize in stock. */
  ghost function Origin(index: nat, awards: seq<Award>, p: Promise): Promise {
    if p.Awarded? && p.index == index && p.outcome < |awards| then InStock(awards[p.outcome].position) else p
  }

  /** Settlement only moves promises from stock to awards. */
  lemma SettleKeepsCustody(cfg: Config, items: map<nat, Item>, pulls: map<nat, Pull>, owners: map<Key, Key>,
                           items': map<nat, Item>, index: nat, pull': Pull, awards: seq<Award>)
    requires Custody(cfg, items, pulls, owners) && ItemsClosed(items, items', awards)
    requires index in pulls && pulls[index].status == Pending
    requires pull'.count == |awards| <= |pull'.outcomes|
    requires forall i :: 0 <= i < |awards| ==> pull'.outcomes[i] == Outcome(awards[i].tier, awards[i].asset)
    requires forall i, j :: 0 <= i < j < |awards| ==> awards[i].position != awards[j].position
    ensures Custody(cfg, items', pulls[index := pull'], owners)
  {
    var pulls' := pulls[index := pull'];
    forall p | Promised(items', pulls', p)
      ensures var q := Origin(index, awards, p);
              Promised(items, pulls, q) && PromisedAsset(items, pulls, q) == PromisedAsset(items', pulls', p)
    {
    }
    forall p, q | Promised(items', pulls', p) && Promised(items', pulls', q) && p != q
      ensures PromisedAsset(items', pulls', p) != PromisedAsset(items', pulls', q)
    {
      assert Origin(index, awards, p) != Origin(index, awards, q);
    }
  }

  lemma SettleKeepsRecorded(pulls: map<nat, Pull>, log: seq<Resolution>, index: nat, pull': Pull, r: Resolution)
    requires Recorded(pulls, log) && |log| == index
    requires r.choice.Revealed? && 1 <= pull'.count == |r.awards| <= |pull'.outcomes|
    requires forall i :: 0 <= i < |r.awards| ==>
               pull'.outcomes[i] == Outcome(r.awards[i].tier, r.awards[i].asset) && r.awards[i].tier != DELIVERED
    ensures Recorded(pulls[index := pull'], log + [r])
  {
    DeliverableStays(pulls, log, [r]);
    assert pull'.outcomes[0].tier != DELIVERED;
  }

  /** The draws of the head take no more than their own number from any prefix that contains them. */
  lemma PlanTakesItsOwn(cfg: Config, cutoff: nat, refs: seq<ItemRef>, output: seq<Hash>, n: nat, start: Drawn, r: Drawn)
    requires StockAgrees(cfg, start.tags, start.remaining, start.items) && Positive(cfg.weights)
    requires n <= |output| && n <= |refs| && FollowsPlan(cfg.weights, cutoff, refs, output, n, start, r)
    ensures |r.tags| == |start.tags|
    ensures forall m :: m >= cutoff ==> LiveUpto(r.tags, m) >= LiveUpto(start.tags, m) - n
    ensures forall i :: 0 <= i < n ==> r.awards[i].tier < |cfg.weights|
    ensures forall i, j :: 0 <= i < j < n ==> r.awards[i].position != r.awards[j].position
  {
    DrawAllSucceeds(cfg.weights, start.tags, cutoff, output, n);
    DrawAllPicks(cfg.weights, start.tags, cutoff, output, n);
  }

  lemma SettleKeepsInv(s: State, index: nat, refs: seq<ItemRef>, proof: Option<Output>)
    requires Inv(s) && Shaped(s) && ApplySettle(s, index, refs, proof).Ok?
    ensures Inv(ApplySettle(s, index, refs, proof).value)
  {
    hide ApplySettle, StockAgrees, Queued, Reserved, Timely, Solvent, Custody, Logged, Recorded, Supply, Owed,
         DrawSteps, FollowsPlan, ItemsClosed, Positive;
    SettleEffect(s, index, refs, proof);
    var pull := s.pulls[index];
    var start := Drawn(s.tags, s.remaining, s.items, pull.outcomes, []);
    var d := DrawSteps(s.cfg.weights, pull.version, refs, proof.value, pull.count, start).value;
    DrawStepsKeepStock(s.cfg, pull.version, refs, proof.value, pull.count, start);
    DrawStepsFollowPlan(s.cfg.weights, pull.version, refs, proof.value, pull.count, start);
    SettledKeepsInv(s, index, refs, proof.value, d);
  }

  lemma SettledKeepsInv(s: State, index: nat, refs: seq<ItemRef>, output: Output, d: Drawn)
    requires Inv(s) && index == s.nextSettle && index in s.pulls && s.pulls[index].status == Pending
    requires s.slot <= s.pulls[index].deadline && s.pulls[index].count <= s.pendingDraws
    requires 1 <= s.pulls[index].count <= MAX_COUNT && |refs| == s.pulls[index].count && s.pulls[index].index == index
    requires StockAgrees(s.cfg, d.tags, d.remaining, d.items)
    requires var pull := s.pulls[index];
             |pull.outcomes| == MAX_COUNT &&
             FollowsPlan(s.cfg.weights, pull.version, refs, output, pull.count,
                         Drawn(s.tags, s.remaining, s.items, pull.outcomes, []), d)
    requires ItemsClosed(s.items, d.items, d.awards)
    ensures Inv(AfterSettle(s, index, output, d))
  {
    hide StockAgrees, Queued, Reserved, Timely, Solvent, Custody, Logged, Recorded, Supply, Owed, ItemsClosed, Positive,
         FollowsPlan, DrawAll, HeadResolved;
    var pull := s.pulls[index];
    var start := Drawn(s.tags, s.remaining, s.items, pull.outcomes, []);
    PlanTakesItsOwn(s.cfg, pull.version, refs, output, pull.count, start, d);
    PlanIsRecorded(s.cfg.weights, pull.version, refs, output, pull.count, start, d);
    var pull' := pull.(status := Settled, outcomes := d.outcomes);
    var resolution := Resolution(index, pull.deadline, s.slot, Revealed(output), d.awards);
    HeadSettles(s.pulls, index, d.outcomes);
    ResolveKeepsQueued(s.pulls, s.pulls[index := pull'], index, s.nextIndex, s.pendingDraws);
    ResolveKeepsReserved(s.tags, d.tags, s.pulls, s.pulls[index := pull'], index, s.nextIndex, s.pendingDraws);
    ResolveKeepsTimely(s.cfg, s.pulls, s.pulls[index := pull'], index, s.nextIndex, s.slot);
    SolventAfter(s.cfg, s.vault, s.pendingDraws, pull.count);
    SettleKeepsCustody(s.cfg, s.items, s.pulls, s.owners, d.items, index, pull', d.awards);
    LogGrows(s.log, s.nextSettle, s.slot, resolution);
    LogLength(s.log, s.nextSettle, s.slot);
    SettleKeepsRecorded(s.pulls, s.log, index, pull', resolution);
  }

  lemma PlanIsRecorded(weights: seq<nat>, cutoff: nat, refs: seq<ItemRef>, output: seq<Hash>, n: nat,
                       start: Drawn, r: Drawn)
    requires |weights| <= MAX_TIERS && n <= |output| && n <= |refs|
    requires FollowsPlan(weights, cutoff, refs, output, n, start, r)
    ensures |r.awards| == n <= |r.outcomes| == |start.outcomes|
    ensures forall i :: 0 <= i < n ==> r.outcomes[i] == Outcome(r.awards[i].tier, r.awards[i].asset)
  {
  }

  lemma HeadSettles(pulls: map<nat, Pull>, head: nat, outcomes: seq<Outcome>)
    requires head in pulls && pulls[head].index == head && |outcomes| == MAX_COUNT
    ensures HeadResolved(pulls, pulls[head := pulls[head].(status := Settled, outcomes := outcomes)], head)
  {
  }

  lemma LogLength(log: seq<Resolution>, nextSettle: nat, slot: nat)
    requires Logged(log, nextSettle, slot)
    ensures |log| == nextSettle
  {
  }

  // ---- Delivery and retirement ----

  /** Only settled pull `index` has changed, in its outcomes, or been closed. */
  ghost predicate SettledPullChanged(pulls: map<nat, Pull>, pulls': map<nat, Pull>, index: nat) {
    && index in pulls && pulls[index].status == Settled
    && pulls'.Keys <= pulls.Keys
    && (forall i :: i in pulls && i != index ==> i in pulls' && pulls'[i] == pulls[i])
    && (index in pulls' ==>
          && pulls'[index] == pulls[index].(outcomes := pulls'[index].outcomes)
          && |pulls'[index].outcomes| == MAX_COUNT)
  }

  lemma SettledPullKeepsQueued(pulls: map<nat, Pull>, pulls': map<nat, Pull>, index: nat,
                               nextSettle: nat, nextIndex: nat, pendingDraws: nat)
    requires Queued(pulls, nextSettle, nextIndex, pendingDraws) && SettledPullChanged(pulls, pulls', index)
    ensures Queued(pulls', nextSettle, nextIndex, pendingDraws)
    ensures forall i :: nextSettle <= i < nextIndex ==> i in pulls' && i in pulls && pulls'[i] == pulls[i]
    ensures forall k :: nextSettle <= k < nextIndex ==>
              PendingThrough(pulls', nextSettle, k) == PendingThrough(pulls, nextSettle, k)
  {
    assert forall i :: nextSettle <= i < nextIndex ==> i in pulls && i != index;
    PendingSumFrame(pulls, pulls', nextSettle, nextIndex);
    forall k | nextSettle <= k < nextIndex
      ensures PendingThrough(pulls', nextSettle, k) == PendingThrough(pulls, nextSettle, k)
    {
      PendingSumFrame(pulls, pulls', nextSettle, k + 1);
    }
  }

  /** Changing or closing a settled pull leaves the queue alone. */
  lemma SettledPullsAreBehind(s: State, index: nat, pulls: map<nat, Pull>)
    requires Queued(s.pulls, s.nextSettle, s.nextIndex, s.pendingDraws)
    requires Reserved(s.tags, s.pulls, s.nextSettle, s.nextIndex)
    requires Timely(s.cfg, s.pulls, s.nextSettle, s.nextIndex, s.slot)
    requires SettledPullChanged(s.pulls, pulls, index)
    ensures Queued(pulls, s.nextSettle, s.nextIndex, s.pendingDraws)
    ensures Reserved(s.tags, pulls, s.nextSettle, s.nextIndex)
    ensures Timely(s.cfg, pulls, s.nextSettle, s.nextIndex, s.slot)
  {
    hide Queued, SettledPullChanged, PendingThrough, PendingSum, LiveUpto;
    SettledPullKeepsQueued(s.pulls, pulls, index, s.nextSettle, s.nextIndex, s.pendingDraws);
  }

  ghost function AfterDelivery(pulls: map<nat, Pull>, index: nat, outcome: nat): map<nat, Pull>
    requires index in pulls && outcome < pulls[index].count <= |pulls[index].outcomes|
  {
    var pull := pulls[index];
    var marked := pull.(outcomes := pull.outcomes[outcome := Outcome(DELIVERED, pull.outcomes[outcome].asset)]);
    if AllDelivered(marked) then Without(pulls, index) else pulls[index := marked]
  }

  /** A delivery ends exactly one promise. */
  lemma DeliverKeepsCustody(cfg: Config, items: map<nat, Item>, pulls: map<nat, Pull>, owners: map<Key, Key>,
                            index: nat, outcome: nat)
    requires Custody(cfg, items, pulls, owners)
    requires index in pulls && outcome < pulls[index].count <= |pulls[index].outcomes|
    requires Promised(items, pulls, Awarded(index, outcome))
    ensures var asset := pulls[index].outcomes[outcome].asset;
            Custody(cfg, items, AfterDelivery(pulls, index, outcome), owners[asset := pulls[index].buyer])
    ensures !Promised(items, AfterDelivery(pulls, index, outcome), Awarded(index, outcome))
  {
    var done := Awarded(index, outcome);
    var pulls' := AfterDelivery(pulls, index, outcome);
    var asset := pulls[index].outcomes[outcome].asset;
    forall p | Promised(items, pulls', p)
      ensures p != done && Promised(items, pulls, p)
      ensures PromisedAsset(items, pulls', p) == PromisedAsset(items, pulls, p) != asset
    {
      assert asset == PromisedAsset(items, pulls, done);
    }
    CustodyShrinks(cfg, items, pulls, owners, items, pulls', owners[asset := pulls[index].buyer]);
  }

  lemma DeliverKeepsRecorded(pulls: map<nat, Pull>, log: seq<Resolution>, index: nat, outcome: nat)
    requires Recorded(pulls, log)
    requires index in pulls && pulls[index].status == Settled && outcome < pulls[index].count <= |pulls[index].outcomes|
    ensures Recorded(AfterDelivery(pulls, index, outcome), log)
  {
  }

  lemma DeliverEffect(s: State, index: nat, outcome: nat, asset: Key)
    requires ApplyDeliver(s, index, outcome, asset).Ok?
    ensures index in s.pulls && s.pulls[index].status == Settled
    ensures outcome < s.pulls[index].count <= |s.pulls[index].outcomes|
    ensures s.pulls[index].outcomes[outcome].asset == asset && s.pulls[index].outcomes[outcome].tier != DELIVERED
    ensures ApplyDeliver(s, index, outcome, asset).value
            == s.(owners := s.owners[asset := s.pulls[index].buyer], pulls := AfterDelivery(s.pulls, index, outcome))
  {
  }

  lemma DeliverKeepsInv(s: State, index: nat, outcome: nat, asset: Key)
    requires Inv(s) && ApplyDeliver(s, index, outcome, asset).Ok?
    ensures Inv(ApplyDeliver(s, index, outcome, asset).value)
  {
    hide ApplyDeliver, StockAgrees, Reserved, Timely, Solvent, Custody, Logged, Recorded, Supply, Owed, WellConfigured;
    DeliverEffect(s, index, outcome, asset);
    assert SettledPullChanged(s.pulls, AfterDelivery(s.pulls, index, outcome), index);
    hide Queued, AfterDelivery, SettledPullChanged;
    SettledPullsAreBehind(s, index, AfterDelivery(s.pulls, index, outcome));
    DeliverKeepsCustody(s.cfg, s.items, s.pulls, s.owners, index, outcome);
    DeliverKeepsRecorded(s.pulls, s.log, index, outcome);
  }

  /** Every pull counts at least one draw, so no pending draws means an empty queue. */
  lemma NoDrawsNoQueue(pulls: map<nat, Pull>, nextSettle: nat, nextIndex: nat)
    requires Queued(pulls, nextSettle, nextIndex, 0)
    ensures nextSettle == nextIndex
  {
    PendingSumAtLeast(pulls, nextSettle, nextIndex);
  }

  lemma ReclaimKeepsCustody(cfg: Config, items: map<nat, Item>, pulls: map<nat, Pull>, owners: map<Key, Key>,
                            position: nat, to: Key)
    requires Custody(cfg, items, pulls, owners) && position in items
    ensures Custody(cfg, Without(items, position), pulls, owners[items[position].asset := to])
  {
    var asset := items[position].asset;
    forall p | Promised(Without(items, position), pulls, p)
      ensures p != InStock(position) && Promised(items, pulls, p) && PromisedAsset(items, pulls, p) != asset
    {
      assert asset == PromisedAsset(items, pulls, InStock(position));
    }
    CustodyShrinks(cfg, items, pulls, owners, Without(items, position), pulls, owners[asset := to]);
  }

  lemma ReclaimEffect(s: State, signer: Key, position: nat, asset: Key)
    requires Shaped(s) && ApplyReclaim(s, signer, position, asset).Ok?
    ensures s.status == Retired && s.pendingDraws == 0 && position in s.items && s.items[position].asset == asset
    ensures position < |s.tags| && s.items[position].tier < |s.remaining| && s.remaining[s.items[position].tier] > 0
    ensures ApplyReclaim(s, signer, position, asset).value
            == s.(tags := s.tags[position := 0],
                  remaining := s.remaining[s.items[position].tier := s.remaining[s.items[position].tier] - 1],
                  owners := s.owners[asset := signer],
                  items := Without(s.items, position))
  {
  }

  lemma ReclaimKeepsInv(s: State, signer: Key, position: nat, asset: Key)
    requires Inv(s) && Shaped(s) && ApplyReclaim(s, signer, position, asset).Ok?
    ensures Inv(ApplyReclaim(s, signer, position, asset).value)
  {
    hide ApplyReclaim, StockAgrees, Queued, Timely, Solvent, Custody, Logged, Recorded, Supply, Owed, WellConfigured;
    ReclaimEffect(s, signer, position, asset);
    RemoveKeepsStock(s.cfg, s.tags, s.remaining, s.items, position);
    NoDrawsNoQueue(s.pulls, s.nextSettle, s.nextIndex);
    ReclaimKeepsCustody(s.cfg, s.items, s.pulls, s.owners, position, signer);
  }

  lemma AdvanceKeepsInv(s: State, slot: nat)
    requires Inv(s) && ApplyAdvance(s, slot).Ok?
    ensures Inv(ApplyAdvance(s, slot).value)
  {
    hide StockAgrees, Queued, Reserved, Solvent, Custody, Recorded, Supply, WellConfigured;
  }

  // ---- Instructions that touch neither stock nor purchases ----

  predicate IsQuiet(s: State, ix: Instruction)
    requires Shaped(s)
  {
    ix.SetStatus? || ix.Withdraw? || ix.Send? || ix.Trade? || ix.Advance? || Apply(s, ix).Err?
  }

  lemma QuietStep(s: State, ix: Instruction)
    requires Shaped(s) && IsQuiet(s, ix)
    ensures var next := Step(s, ix);
            && next.cfg == s.cfg && next.tags == s.tags && next.remaining == s.remaining
            && next.items == s.items && next.pulls == s.pulls && next.pendingDraws == s.pendingDraws
            && next.nextIndex == s.nextIndex && next.nextSettle == s.nextSettle && next.log == s.log
  {
    hide ApplyDeposit, ApplyBuy, ApplySettle, ApplyRefund, ApplyDeliver, ApplyBuyback, ApplyReclaim, Spendable, Credit;
  }

  // ---- All instructions ----

  lemma CreateEstablishesInv(cfg: Config, vault: nat, wallets: map<Key, nat>, owners: map<Key, Key>, slot: nat)
    requires Create(cfg, vault, wallets, owners, slot).Ok?
    requires Supply(vault, wallets) <= U64_MAX && slot <= U64_MAX
    ensures Inv(Create(cfg, vault, wallets, owners, slot).value)
  {
    var s := Create(cfg, vault, wallets, owners, slot).value;
    assert s.remaining == Available(s.tags, |cfg.weights|, 0);
  }

  /** Every instruction, from any signer with any arguments, keeps the invariant. */
  lemma ApplyKeepsInv(s: State, ix: Instruction)
    requires Inv(s) && Shaped(s)
    ensures Inv(Step(s, ix)) && Shaped(Step(s, ix))
  {
    hide ApplySettle, ApplyRefund, ApplyDeliver, ApplyBuy, ApplyBuyback, ApplyWithdraw, ApplyReclaim, ApplyDeposit,
         ApplySend, ApplyTrade, ApplyAdvance;
    if Apply(s, ix).Ok? {
      match ix
      case SetStatus(signer, status) =>
      case Deposit(signer, asset, tier) => DepositKeepsInv(s, signer, asset, tier);
      case Buy(buyer, source, count, version, address) => BuyKeepsInv(s, buyer, source, count, version, address);
      case Settle(index, refs, proof) => SettleKeepsInv(s, index, refs, proof);
      case Refund(index, destination) => RefundKeepsInv(s, index, destination);
      case Deliver(index, outcome, asset) => DeliverKeepsInv(s, index, outcome, asset);
      case Buyback(seller, asset, destination, tier, price, quoted, expired) =>
        BuybackKeepsInv(s, seller, asset, destination, tier, price, quoted, expired);
      case Withdraw(signer, destination, amount) => WithdrawKeepsInv(s, signer, destination, amount);
      case Reclaim(signer, position, asset) => ReclaimKeepsInv(s, signer, position, asset);
      case Send(source, destination, amount) => SendKeepsInv(s, source, destination, amount);
      case Trade(asset, from, to) => TradeKeepsInv(s, asset, from, to);
      case Advance(slot) => AdvanceKeepsInv(s, slot);
    }
    InvShaped(Step(s, ix));
  }
}
