/** What every reachable pool satisfies. Each part speaks only about the fields it needs. */
module Invariant {
  import opened Bits
  import opened Stock
  import opened Draw
  import opened Protocol

  ghost predicate WellConfigured(cfg: Config) {
    && cfg.authority != cfg.pool
    && 1 <= |cfg.weights| <= MAX_TIERS && Positive(cfg.weights)
    && cfg.price > 0 && cfg.bond > 0 && cfg.deadlineSlots > 0
    && Owed(cfg, MAX_COUNT) <= U64_MAX
  }

  /** The header counters, the tags and the live Items are three views of one stock. */
  ghost predicate StockAgrees(cfg: Config, tags: seq<u8>, remaining: seq<nat>, items: map<nat, Item>) {
    && |cfg.weights| <= MAX_TIERS && |tags| <= U32_MAX && ValidTags(tags, |cfg.weights|)
    && remaining == Available(tags, |cfg.weights|, |tags|)
    && (forall p: nat :: p in items <==> p < |tags| && tags[p] != 0)
    && (forall p: nat :: p in items ==> tags[p] == items[p].tier + 1)
  }

  /** Draws promised to the pulls with indices from `lo` up to `hi`. */
  function PendingSum(pulls: map<nat, Pull>, lo: nat, hi: nat): nat {
    if hi <= lo then 0
    else PendingSum(pulls, lo, hi - 1) + if hi - 1 in pulls then pulls[hi - 1].count else 0
  }

  function PendingThrough(pulls: map<nat, Pull>, lo: nat, k: nat): nat {
    PendingSum(pulls, lo, k + 1)
  }

  /** The pending pulls are exactly the indices from the head of the queue to its end. */
  ghost predicate Queued(pulls: map<nat, Pull>, nextSettle: nat, nextIndex: nat, pendingDraws: nat) {
    && nextSettle <= nextIndex <= U64_MAX
    && (forall i :: nextSettle <= i < nextIndex ==> i in pulls)
    && (forall i :: i in pulls ==>
          && i < nextIndex && pulls[i].index == i
          && 1 <= pulls[i].count <= MAX_COUNT && |pulls[i].outcomes| == MAX_COUNT
          && (pulls[i].status == Pending <==> nextSettle <= i))
    && pendingDraws == PendingSum(pulls, nextSettle, nextIndex)
  }

  /** Nested prefixes: everything promised up to a pending pull fits the stock below its version. */
  ghost predicate Reserved(tags: seq<u8>, pulls: map<nat, Pull>, nextSettle: nat, nextIndex: nat) {
    && (forall k :: nextSettle <= k < nextIndex && k in pulls ==>
          && pulls[k].version <= |tags|
          && PendingThrough(pulls, nextSettle, k) <= LiveUpto(tags, pulls[k].version))
    && (forall j, k :: nextSettle <= j <= k < nextIndex && j in pulls && k in pulls ==>
          pulls[j].version <= pulls[k].version)
  }

  /** Deadlines never decrease along the queue, and none lies further ahead than a new one would. */
  ghost predicate Timely(cfg: Config, pulls: map<nat, Pull>, nextSettle: nat, nextIndex: nat, slot: nat) {
    && slot <= U64_MAX
    && (forall k :: nextSettle <= k < nextIndex && k in pulls ==> pulls[k].deadline <= slot + cfg.deadlineSlots)
    && (forall j, k :: nextSettle <= j <= k < nextIndex && j in pulls && k in pulls ==>
          pulls[j].deadline <= pulls[k].deadline)
  }

  ghost predicate Solvent(cfg: Config, vault: nat, pendingDraws: nat) {
    Owed(cfg, pendingDraws) <= vault
  }

  ghost function AnyAccount(wallets: map<Key, nat>): (account: Key)
    requires |wallets| > 0
    ensures account in wallets
  {
    assert wallets.Keys != {};
    var account :| account in wallets;
    account
  }

  /** All tokens of the mint outside the vault. */
  ghost function WalletSum(wallets: map<Key, nat>): nat
    decreases |wallets|
  {
    if |wallets| == 0 then 0
    else
      var account := AnyAccount(wallets);
      wallets[account] + WalletSum(wallets - {account})
  }

  ghost function Supply(vault: nat, wallets: map<Key, nat>): nat {
    vault + WalletSum(wallets)
  }

  /** The prizes the pool has promised: a live Item at a position, or an undelivered award. */
  datatype Promise = InStock(position: nat) | Awarded(index: nat, outcome: nat)

  ghost predicate Promised(items: map<nat, Item>, pulls: map<nat, Pull>, p: Promise) {
    match p
    case InStock(position) => position in items
    case Awarded(index, outcome) =>
      index in pulls && pulls[index].status == Settled
      && outcome < pulls[index].count && outcome < |pulls[index].outcomes|
      && pulls[index].outcomes[outcome].tier != DELIVERED
  }

  ghost function PromisedAsset(items: map<nat, Item>, pulls: map<nat, Pull>, p: Promise): Key
    requires Promised(items, pulls, p)
  {
    match p
    case InStock(position) => items[position].asset
    case Awarded(index, outcome) => pulls[index].outcomes[outcome].asset
  }

  /** No prize is promised twice, and the pool owns every promised prize. */
  ghost predicate Custody(cfg: Config, items: map<nat, Item>, pulls: map<nat, Pull>, owners: map<Key, Key>) {
    && (forall p :: Promised(items, pulls, p) ==> Owns(owners, cfg.pool, PromisedAsset(items, pulls, p)))
    && (forall p, q :: Promised(items, pulls, p) && Promised(items, pulls, q) && p != q ==>
          PromisedAsset(items, pulls, p) != PromisedAsset(items, pulls, q))
  }

  /** Every index below the head of the queue was resolved exactly once, in order: settled at a slot
      not after its deadline or refunded at a slot after it. */
  ghost predicate Logged(log: seq<Resolution>, nextSettle: nat, slot: nat) {
    && |log| == nextSettle
    && (forall i :: 0 <= i < |log| ==>
          && log[i].index == i && log[i].slot <= slot
          && (log[i].choice.Revealed? <==> log[i].slot <= log[i].deadline))
    && (forall i, j :: 0 <= i <= j < |log| ==> log[i].slot <= log[j].slot)
  }

  /** A settled Pull holds the awards of its resolution, each until it is delivered. */
  ghost predicate Recorded(pulls: map<nat, Pull>, log: seq<Resolution>) {
    forall i :: i in pulls && pulls[i].status == Settled ==>
      && i < |log| && log[i].choice.Revealed? && |log[i].awards| == pulls[i].count <= |pulls[i].outcomes|
      && (forall j :: 0 <= j < pulls[i].count ==>
            && pulls[i].outcomes[j].asset == log[i].awards[j].asset
            && pulls[i].outcomes[j].tier in {log[i].awards[j].tier, DELIVERED})
      && (exists j :: 0 <= j < pulls[i].count && pulls[i].outcomes[j].tier != DELIVERED)
  }

  ghost predicate Inv(s: State) {
    && WellConfigured(s.cfg)
    && StockAgrees(s.cfg, s.tags, s.remaining, s.items)
    && Queued(s.pulls, s.nextSettle, s.nextIndex, s.pendingDraws)
    && Reserved(s.tags, s.pulls, s.nextSettle, s.nextIndex)
    && Timely(s.cfg, s.pulls, s.nextSettle, s.nextIndex, s.slot)
    && Solvent(s.cfg, s.vault, s.pendingDraws)
    && Supply(s.vault, s.wallets) <= U64_MAX
    && Custody(s.cfg, s.items, s.pulls, s.owners)
    && Logged(s.log, s.nextSettle, s.slot)
    && Recorded(s.pulls, s.log)
  }

  lemma InvShaped(s: State)
    requires Inv(s)
    ensures Shaped(s)
  {
  }

  // ---- Sums over the queue ----

  lemma {:induction false} PendingSumFrame(pulls: map<nat, Pull>, other: map<nat, Pull>, lo: nat, hi: nat)
    requires forall i :: lo <= i < hi ==> i in pulls && i in other && pulls[i].count == other[i].count
    ensures PendingSum(pulls, lo, hi) == PendingSum(other, lo, hi)
    decreases hi
  {
    if lo < hi {
      PendingSumFrame(pulls, other, lo, hi - 1);
    }
  }

  lemma {:induction false} PendingSumFront(pulls: map<nat, Pull>, lo: nat, hi: nat)
    requires lo < hi && lo in pulls
    ensures PendingSum(pulls, lo, hi) == pulls[lo].count + PendingSum(pulls, lo + 1, hi)
    decreases hi
  {
    if lo + 1 < hi {
      PendingSumFront(pulls, lo, hi - 1);
    }
  }

  lemma {:induction false} PendingSumAtLeast(pulls: map<nat, Pull>, lo: nat, hi: nat)
    requires lo <= hi && forall i :: lo <= i < hi ==> i in pulls && pulls[i].count >= 1
    ensures PendingSum(pulls, lo, hi) >= hi - lo
    decreases hi
  {
    if lo < hi {
      PendingSumAtLeast(pulls, lo, hi - 1);
    }
  }

  lemma {:induction false} PendingSumMonotone(pulls: map<nat, Pull>, lo: nat, mid: nat, hi: nat)
    requires mid <= hi
    ensures PendingSum(pulls, lo, mid) <= PendingSum(pulls, lo, hi)
    decreases hi
  {
    if mid < hi {
      PendingSumMonotone(pulls, lo, mid, hi - 1);
    }
  }

  // ---- Sums over wallets ----

  lemma {:induction false} WalletSumSplit(wallets: map<Key, nat>, account: Key)
    requires account in wallets
    ensures WalletSum(wallets) == wallets[account] + WalletSum(wallets - {account})
    decreases |wallets|
  {
    var first := AnyAccount(wallets);
    if first != account {
      WalletSumSplit(wallets - {first}, account);
      WalletSumSplit(wallets - {account}, first);
      assert wallets - {first} - {account} == wallets - {account} - {first};
    }
  }

  lemma WalletSumUpdate(wallets: map<Key, nat>, account: Key, amount: nat)
    ensures WalletSum(wallets[account := amount]) + Balance(wallets, account) == WalletSum(wallets) + amount
  {
    hide WalletSum;
    var updated := wallets[account := amount];
    WalletSumSplit(updated, account);
    if account in wallets {
      WalletSumSplit(wallets, account);
      assert updated - {account} == wallets - {account};
    } else {
      assert updated - {account} == wallets;
    }
  }
}
