/** The on-chain handlers, updating the program's accounts in place.

    `Accounts` holds what an instruction can touch; its stock is the Fenwick index itself. Every
    handler is proved against the value-level protocol, so the theorems about runs hold of these
    updates. A handler that fails may leave the accounts half-updated: the runtime's rollback in
    `Execute` is what restores them. */
module Program {
  import opened Bits
  import opened Results
  import opened Stock
  import opened Draw
  import opened Index
  import opened Protocol
  import opened Invariant
  import opened Preserve
  import opened Runs
  import opened Settlement
  import opened Client

  /** Forget the value of a result. */
  function Verdict<T>(r: Result<T>): Result<()> {
    match r
    case Ok(_) => Ok(())
    case Err(e) => Err(e)
  }

  /** A rank below the pinned prefix's count selects the pinned candidate, even though the index
      searches the whole stock, and removing it lowers exactly one of the prefix's counts. */
  lemma TakeIsPinned(tags: seq<u8>, tier: nat, rank: nat, cutoff: nat)
    requires cutoff <= |tags| && tier < MAX_TIERS && rank < Upto(tags, tier, cutoff)
    ensures rank < Upto(tags, tier, |tags|)
    ensures Candidates(tags, tier, |tags|)[rank] == Candidates(tags, tier, cutoff)[rank]
    ensures var p := Candidates(tags, tier, cutoff)[rank];
            var counts := Available(tags, MAX_TIERS, cutoff);
            && p < cutoff && tags[p] == tier + 1
            && Available(tags[p := 0], MAX_TIERS, cutoff) == counts[tier := counts[tier] - 1]
  {
    UptoMonotone(tags, tier, cutoff, |tags|);
    CandidateRank(tags, tier, cutoff, rank);
    var p := Candidates(tags, tier, cutoff)[rank];
    forall t | 0 <= t < MAX_TIERS
      ensures Upto(tags[p := 0], t, cutoff) == Upto(tags, t, cutoff) - if t == tier then 1 else 0
    {
      UptoRemove(tags, p, t, cutoff);
    }
  }

  /** The bytes of every account before an instruction. */
  datatype AccountCopy = AccountCopy(status: Status, version: nat, remaining: seq<nat>, pendingDraws: nat,
                                     nextIndex: nat, nextSettle: nat, index: seq<u8>, items: map<nat, Item>,
                                     pulls: map<nat, Pull>, vault: nat, wallets: map<Key, nat>,
                                     owners: map<Key, Key>, slot: nat)

  ghost predicate HoldsCopy(copy: AccountCopy, s: State) {
    && Represents(copy.index, s.tags) && Shaped(s)
    && copy == AccountCopy(s.status, |s.tags|, s.remaining, s.pendingDraws, s.nextIndex, s.nextSettle, copy.index,
                           s.items, s.pulls, s.vault, s.wallets, s.owners, s.slot)
  }

  lemma UpdateTwice(pulls: map<nat, Pull>, index: nat, first: Pull, second: Pull)
    ensures pulls[index := first][index := second] == pulls[index := second]
  {
  }

  lemma IndexedTags(data: seq<u8>, tags: seq<u8>)
    requires Represents(data, tags)
    ensures ValidTags(tags, MAX_TIERS)
  {
  }

  lemma CutoffInIndex(length: nat, positions: nat, cutoff: nat)
    requires length == Space(positions) && cutoff <= positions
    ensures cutoff <= 64 * (length / BLOCK_LEN)
  {
  }

  /** A pending Pull's version never runs ahead of the pool's. */
  lemma PendingIsPinned(s: State, index: nat)
    requires Inv(s) && index in s.pulls && s.pulls[index].status == Pending
    ensures s.pulls[index].version <= |s.tags|
  {
    hide StockAgrees, Timely, Solvent, Custody, Logged, Recorded, Supply, PendingSum, PendingThrough, LiveUpto;
  }

  /** Every Pull's draws fit its outcome table. */
  lemma TableHolds(s: State, index: nat)
    requires Inv(s) && index in s.pulls
    ensures 1 <= s.pulls[index].count <= MAX_COUNT == |s.pulls[index].outcomes|
  {
    hide StockAgrees, Reserved, Timely, Solvent, Custody, Logged, Recorded, Supply, PendingSum;
  }

  lemma SellableAmount(s: State, buyer: Key, count: nat, version: nat, address: PullAddress)
    requires BuyRefusal(s, buyer, count, version, address).None?
    ensures version == |s.tags| && Payment(s.cfg, count).Ok?
  {
  }

  lemma RefundPays(s: State, index: nat, destination: Key)
    requires RefundRefusal(s, index, destination).None?
    ensures index in s.pulls && destination != s.cfg.vault
  {
  }

  /** Buyback past its guards. */
  lemma BuybackProcess(s: State, seller: Key, asset: Key, destination: Key, tier: nat, price: nat,
                       quoted: bool, expired: bool)
    requires Shaped(s)
    ensures var refusal := BuybackRefusal(s, seller, destination, tier, price, quoted, expired);
            var result := ApplyBuyback(s, seller, asset, destination, tier, price, quoted, expired);
            && (refusal.Some? ==> result == Err(refusal.value))
            && (refusal.None? ==>
                  && tier < |s.cfg.weights| && price <= s.vault && destination != s.cfg.vault
                  && result == if !Owns(s.owners, seller, asset) then Err(TransferFailed)
                               else if !CanRestock(s, tier) then Err(Abort)
                               else Ok(Restocked(s, asset, tier).(owners := s.owners[asset := s.cfg.pool],
                                                                  vault := s.vault - price,
                                                                  wallets := Credit(s.wallets, destination, price))))
  {
  }

  lemma SettleRefused(s: State, index: nat, refs: seq<ItemRef>, proof: Option<Output>)
    requires Shaped(s) && SettleRefusal(s, index, refs, proof).Some?
    ensures ApplySettle(s, index, refs, proof) == Err(SettleRefusal(s, index, refs, proof).value)
  {
    hide SettleRefusal;
  }

  /** Settle past its guards: the draw loop, then the header and the Pull. */
  lemma SettleProcess(s: State, index: nat, refs: seq<ItemRef>, proof: Option<Output>)
    requires Shaped(s) && SettleRefusal(s, index, refs, proof).None?
    ensures index in s.pulls && proof.Some? && s.pulls[index].version <= |s.tags|
    ensures |refs| == s.pulls[index].count <= MAX_COUNT == |s.pulls[index].outcomes|
    ensures var pull := s.pulls[index];
            var end := DrawSteps(s.cfg.weights, pull.version, refs, proof.value, |refs|,
                                 Drawn(s.tags, s.remaining, s.items, pull.outcomes, []));
            ApplySettle(s, index, refs, proof)
            == if end.Err? then Err(end.error)
               else if s.pendingDraws < pull.count || pull.index + 1 > U64_MAX then Err(Abort)
               else Ok(s.(tags := end.value.tags, remaining := end.value.remaining, items := end.value.items,
                          pendingDraws := s.pendingDraws - pull.count, nextSettle := pull.index + 1,
                          pulls := s.pulls[index := pull.(status := Settled, outcomes := end.value.outcomes)],
                          log := s.log + [Resolution(pull.index, pull.deadline, s.slot, Revealed(proof.value),
                                                     end.value.awards)]))
  {
    hide DrawSteps;
  }

  class Accounts {
    const cfg: Config
    const inventory: Inventory
    var status: Status
    var version: nat
    var remaining: seq<nat>
    var pendingDraws: nat
    var nextIndex: nat
    var nextSettle: nat
    var items: map<nat, Item>
    var pulls: map<nat, Pull>
    var vault: nat
    var wallets: map<Key, nat>
    var owners: map<Key, Key>
    var slot: nat
    ghost var log: seq<Resolution>

    /** The value-level state these accounts hold. */
    ghost function Abs(): State
      reads this, inventory
    {
      State(cfg, status, inventory.tags, remaining, pendingDraws, nextIndex, nextSettle, items, pulls,
            vault, wallets, owners, slot, log)
    }

    ghost predicate Valid()
      reads this, inventory, inventory.data
    {
      inventory.Valid() && version == |inventory.tags| && Shaped(Abs())
    }

    /** A handler's result agrees with the protocol; on success so do the accounts. */
    ghost predicate Did(r: Result<()>, expected: Result<State>)
      reads this, inventory, inventory.data
    {
      r == Verdict(expected) && (expected.Ok? ==> Valid() && Abs() == expected.value)
    }

    constructor (cfg: Config, vault: nat, wallets: map<Key, nat>, owners: map<Key, Key>, slot: nat)
      requires Create(cfg, vault, wallets, owners, slot).Ok?
      ensures Valid() && fresh(inventory) && fresh(inventory.data)
      ensures Abs() == Create(cfg, vault, wallets, owners, slot).value
    {
      this.cfg := cfg;
      inventory := new Inventory();
      status, version := Paused, 0;
      remaining := seq(|cfg.weights|, _ => 0);
      pendingDraws, nextIndex, nextSettle := 0, 0, 0;
      items, pulls := map[], map[];
      this.vault, this.wallets, this.owners, this.slot := vault, wallets, owners, slot;
      log := [];
    }

    // ---- Stock ----

    /** The first half of a restock: the next position is taken, the index grown and the Item created. */
    method TakePosition(asset: Key, tier: nat) returns (r: Result<nat>)
      requires inventory.Valid() && version == |inventory.tags|
      modifies this`version, this`items, inventory
      ensures inventory.data == old(inventory.data) || fresh(inventory.data)
      ensures r == if old(version) < U32_MAX then Ok(old(version)) else Err(Abort)
      ensures r.Ok? ==>
                && inventory.Grown() && inventory.tags == old(inventory.tags)
                && version == old(version) + 1 && items == old(items)[old(version) := Item(tier, asset)]
    {
      hide TagsMatch, NodesMatch;
      var position := version;
      if position == U32_MAX {
        return Err(Abort);
      }
      version := position + 1;
      inventory.Grow(version);
      items := items[position := Item(tier, asset)];
      return Ok(position);
    }

    /** `restock`: a new position, its Item, its tag in the index and its tier's counter. */
    method Restock(asset: Key, tier: nat) returns (r: Result<()>)
      requires Valid() && tier < |cfg.weights|
      modifies this, inventory, inventory.data
      ensures inventory.data == old(inventory.data) || fresh(inventory.data)
      ensures r == if CanRestock(old(Abs()), tier) then Ok(()) else Err(Abort)
      ensures r.Ok? ==> Valid() && Abs() == Restocked(old(Abs()), asset, tier)
    {
      hide TagsMatch, NodesMatch;
      var position :- TakePosition(asset, tier);
      inventory.Append(position, tier);
      if remaining[tier] >= U32_MAX {
        return Err(Abort);
      }
      remaining := remaining[tier := remaining[tier] + 1];
      return Ok(());
    }

    /** `check_restock`: the tier exists and the next position's Item account is empty. */
    method CheckPosition(tier: nat) returns (r: Result<()>)
      requires Valid()
      ensures r == Unless(CheckRestock(Abs(), tier))
    {
      if tier >= |cfg.weights| {
        return Err(InvalidTier);
      }
      if version in items {
        return Err(AlreadyInitialized);
      }
      return Ok(());
    }

    // ---- Called programs ----

    method TransferAsset(authority: Key, newOwner: Key, asset: Key) returns (r: Result<()>)
      modifies this`owners
      ensures r == if Owns(old(owners), authority, asset) then Ok(()) else Err(TransferFailed)
      ensures r.Ok? ==> owners == old(owners)[asset := newOwner]
    {
      if asset !in owners || owners[asset] != authority {
        return Err(TransferFailed);
      }
      owners := owners[asset := newOwner];
      return Ok(());
    }

    /** A token transfer into the vault. */
    method PayIn(source: Key, amount: nat) returns (r: Result<()>)
      modifies this`vault, this`wallets
      ensures r == if CanPayIn(cfg, old(wallets), source, amount) then Ok(()) else Err(TransferFailed)
      ensures r.Ok? ==> amount <= Balance(old(wallets), source)
                        && vault == old(vault) + amount && wallets == Debit(old(wallets), source, amount)
    {
      if source == cfg.vault || amount > Balance(wallets, source) {
        return Err(TransferFailed);
      }
      vault := vault + amount;
      wallets := Debit(wallets, source, amount);
      return Ok(());
    }

    /** A token transfer from the vault. Paying the vault itself moves nothing. */
    method Pay(destination: Key, amount: nat) returns (r: Result<()>)
      modifies this`vault, this`wallets
      ensures r == if amount <= old(vault) then Ok(()) else Err(TransferFailed)
      ensures r.Ok? ==>
                if destination == cfg.vault then vault == old(vault) && wallets == old(wallets)
                else vault == old(vault) - amount && wallets == Credit(old(wallets), destination, amount)
    {
      if amount > vault {
        return Err(TransferFailed);
      }
      if destination != cfg.vault {
        vault := vault - amount;
        wallets := Credit(wallets, destination, amount);
      }
      return Ok(());
    }

    // ---- Administration ----

    method SetStatus(signer: Key, requested: nat) returns (r: Result<()>)
      requires Valid()
      modifies this
      ensures Did(r, ApplySetStatus(old(Abs()), signer, requested))
    {
      hide Represents, ValidTags;
      if signer != cfg.authority {
        return Err(InvalidAuthority);
      }
      if requested > 2 {
        return Err(InvalidInstructionData);
      }
      // A retired pool may only be retired again.
      if status == Retired && requested != 2 {
        return Err(InvalidPoolStatus);
      }
      status := if requested == 0 then Paused else if requested == 1 then Active else Retired;
      return Ok(());
    }

    method Deposit(signer: Key, asset: Key, tier: nat) returns (r: Result<()>)
      requires Valid()
      modifies this, inventory, inventory.data
      ensures inventory.data == old(inventory.data) || fresh(inventory.data)
      ensures Did(r, ApplyDeposit(old(Abs()), signer, asset, tier))
    {
      hide Represents, ValidTags, CanRestock;
      if signer != cfg.authority {
        return Err(InvalidAuthority);
      }
      if status == Retired {
        return Err(InvalidPoolStatus);
      }
      var _ :- CheckPosition(tier);
      var _ :- Restock(asset, tier);
      r := TransferAsset(signer, cfg.pool, asset);
    }

    method Withdraw(signer: Key, destination: Key, amount: nat) returns (r: Result<()>)
      requires Valid()
      modifies this
      ensures Did(r, ApplyWithdraw(old(Abs()), signer, destination, amount))
    {
      hide Represents, ValidTags, Credit;
      if signer != cfg.authority {
        return Err(InvalidAuthority);
      }
      var free :- Spendable(cfg, vault, pendingDraws);
      if amount > free {
        return Err(InsufficientBalance);
      }
      r := Pay(destination, amount);
    }

    method CheckReclaim(signer: Key, position: nat, asset: Key) returns (r: Result<()>)
      requires Valid()
      ensures r == Unless(ReclaimRefusal(Abs(), signer, position, asset))
    {
      hide Represents, ValidTags;
      if signer != cfg.authority {
        return Err(InvalidAuthority);
      }
      if status != Retired {
        return Err(InvalidPoolStatus);
      }
      if pendingDraws != 0 {
        return Err(PendingPurchases);
      }
      if position !in items {
        return Err(InvalidAccountOwner);
      }
      var item := items[position];
      if item.asset != asset || item.tier >= |cfg.weights| || position >= version || remaining[item.tier] == 0 {
        return Err(InvalidItem);
      }
      return Ok(());
    }

    /** The writes of Reclaim after the index. */
    method ReturnItem(position: nat, tier: nat, to: Key, asset: Key) returns (r: Result<()>)
      requires tier < |remaining| && remaining[tier] > 0
      modifies this`remaining, this`owners, this`items
      ensures r == if Owns(old(owners), cfg.pool, asset) then Ok(()) else Err(TransferFailed)
      ensures r.Ok? ==>
                && remaining == old(remaining)[tier := old(remaining)[tier] - 1]
                && owners == old(owners)[asset := to] && items == Without(old(items), position)
    {
      remaining := remaining[tier := remaining[tier] - 1];
      var _ :- TransferAsset(cfg.pool, to, asset);
      items := Without(items, position);
      return Ok(());
    }

    method Reclaim(signer: Key, position: nat, asset: Key) returns (r: Result<()>)
      requires Valid()
      modifies this, inventory, inventory.data
      ensures inventory.data == old(inventory.data) || fresh(inventory.data)
      ensures Did(r, ApplyReclaim(old(Abs()), signer, position, asset))
    {
      hide Represents, Without;
      var _ :- CheckReclaim(signer, position, asset);
      var tier := items[position].tier;
      var _ :- inventory.Remove(position, tier);
      r := ReturnItem(position, tier, signer, asset);
    }

    // ---- Players ----

    method CheckBuy(buyer: Key, count: nat, pinned: nat, address: PullAddress) returns (r: Result<()>)
      requires Valid()
      ensures r == Unless(BuyRefusal(Abs(), buyer, count, pinned, address))
    {
      hide Represents, Shaped, Sum, AddressInUse;
      if buyer == cfg.pool {
        return Err(NotSigner);
      }
      if AddressInUse(pulls, address) {
        return Err(AlreadyInitialized);
      }
      if status != Active {
        return Err(InvalidPoolStatus);
      }
      if count == 0 || count > MAX_COUNT {
        return Err(InvalidCount);
      }
      // From here on the pinned prefix is the whole stock.
      if pinned != version {
        return Err(InventoryChanged);
      }
      // Every older pending draw takes at most one prize of this prefix, so one comparison
      // reserves this purchase's stock.
      var reserved := pendingDraws + count;
      if reserved > U64_MAX {
        return Err(Abort);
      }
      if reserved > Sum(remaining) {
        return Err(SoldOut);
      }
      // Solvency of the state after the payment.
      var amount :- Payment(cfg, count);
      if vault + amount > U64_MAX {
        return Err(Abort);
      }
      var owed :- RefundAmount(cfg, reserved);
      if vault + amount < owed {
        return Err(InsufficientBalance);
      }
      if slot + cfg.deadlineSlots > U64_MAX || nextIndex + 1 > U64_MAX {
        return Err(Abort);
      }
      return Ok(());
    }

    /** The writes of Buy. */
    method OpenPull(pull: Pull, source: Key, amount: nat) returns (r: Result<()>)
      modifies this`pulls, this`pendingDraws, this`nextIndex, this`vault, this`wallets
      ensures r == if CanPayIn(cfg, old(wallets), source, amount) then Ok(()) else Err(TransferFailed)
      ensures r.Ok? ==>
                && pulls == old(pulls)[old(nextIndex) := pull]
                && pendingDraws == old(pendingDraws) + pull.count && nextIndex == old(nextIndex) + 1
                && amount <= Balance(old(wallets), source)
                && vault == old(vault) + amount && wallets == Debit(old(wallets), source, amount)
    {
      hide CanPayIn, Debit;
      pulls := pulls[nextIndex := pull];
      pendingDraws := pendingDraws + pull.count;
      nextIndex := nextIndex + 1;
      r := PayIn(source, amount);
    }

    method Buy(buyer: Key, source: Key, count: nat, pinned: nat, address: PullAddress) returns (r: Result<()>)
      requires Valid()
      modifies this
      ensures Did(r, ApplyBuy(old(Abs()), buyer, source, count, pinned, address))
    {
      hide Represents, ValidTags, Debit, NoOutcomes, CanPayIn;
      var _ :- CheckBuy(buyer, count, pinned, address);
      SellableAmount(Abs(), buyer, count, pinned, address);
      hide BuyRefusal, Payment;
      var pull := Pull(Pending, count, version, nextIndex, slot + cfg.deadlineSlots, buyer, address, NoOutcomes());
      r := OpenPull(pull, source, Payment(cfg, count).value);
    }

    // ---- Settlement ----

    /** The header after a resolved pull: its draws are no longer pending, the next index is the head. */
    method Release(pull: Pull) returns (r: Result<()>)
      modifies this`pendingDraws, this`nextSettle
      ensures r == if old(pendingDraws) < pull.count || pull.index + 1 > U64_MAX then Err(Abort) else Ok(())
      ensures r.Ok? ==> pendingDraws == old(pendingDraws) - pull.count && nextSettle == pull.index + 1
    {
      if pendingDraws < pull.count || pull.index + 1 > U64_MAX {
        return Err(Abort);
      }
      pendingDraws := pendingDraws - pull.count;
      nextSettle := pull.index + 1;
      return Ok(());
    }

    /** Where the draw loop stands: the stock, and the outcomes recorded in pull `index`. */
    ghost function Stage(index: nat, awards: seq<Award>): Drawn
      requires index in pulls
      reads this, inventory
    {
      Drawn(inventory.tags, remaining, items, pulls[index].outcomes, awards)
    }

    /** Draw the tier by weight and the prize by rank, and take it off the index. The rank is below the
        pinned prefix's count, so the search over the whole index cannot fail or leave the prefix. */
    method TakeDrawn(hash: Hash, cutoff: nat, available: seq<nat>) returns (r: Result<Pick>, left: seq<nat>)
      requires inventory.Valid() && cutoff <= |inventory.tags| && |cfg.weights| <= MAX_TIERS
      requires available == Available(inventory.tags, MAX_TIERS, cutoff)
      modifies inventory`tags, inventory.data
      ensures match DrawOne(cfg.weights, old(inventory.tags), cutoff, hash)
              case None => r == Err(SoldOut)
              case Some(pick) =>
                && r == Ok(pick) && inventory.Valid()
                && inventory.tags == old(inventory.tags)[pick.position := 0]
                && left == Available(inventory.tags, MAX_TIERS, cutoff)
    {
      left := available;
      var tier :- DrawTier(cfg.weights, available, hash.roll);
      var rank := hash.rank % available[tier];
      TakeIsPinned(inventory.tags, tier, rank, cutoff);
      var taken := inventory.Take(tier, rank);
      left := left[tier := left[tier] - 1];
      return Ok(Pick(tier, taken.value)), left;
    }

    /** One iteration of the draw loop: the passed account has to be the drawn Item, which is recorded,
        closed and taken off its tier's counter. */
    method DrawPrize(index: nat, i: nat, ref: ItemRef, hash: Hash, cutoff: nat, available: seq<nat>,
                     ghost awards: seq<Award>)
      returns (r: Result<()>, left: seq<nat>, ghost awarded: seq<Award>)
      requires inventory.Valid() && cutoff <= |inventory.tags| && |remaining| == |cfg.weights| <= MAX_TIERS
      requires available == Available(inventory.tags, MAX_TIERS, cutoff)
      requires index in pulls && i < |pulls[index].outcomes|
      modifies this`remaining, this`items, this`pulls, inventory`tags, inventory.data
      ensures var step := DrawStep(cfg.weights, cutoff, ref, hash, i, old(Stage(index, awards)));
              && r == Verdict(step)
              && (step.Ok? ==>
                    && inventory.Valid()
                    && pulls == old(pulls)[index := old(pulls)[index].(outcomes := step.value.outcomes)]
                    && Stage(index, awarded) == step.value
                    && left == Available(inventory.tags, MAX_TIERS, cutoff))
    {
      hide DrawOne, Represents, Without;
      awarded := awards;
      var picked, lowered := TakeDrawn(hash, cutoff, available);
      left := lowered;
      var pick :- picked;
      if !LiveRef(items, ref) {
        return Err(InvalidAccountOwner), left, awarded;
      }
      if ref != Here(pick.position) || items[pick.position].tier != pick.tier {
        return Err(InvalidItem), left, awarded;
      }
      var item := items[pick.position];
      awarded := awards + [Award(pick.tier, pick.position, item.asset)];
      pulls := pulls[index := pulls[index].(outcomes := pulls[index].outcomes[i := Outcome(pick.tier, item.asset)])];
      items := Without(items, pick.position);
      if remaining[pick.tier] == 0 {
        return Err(Abort), left, awarded;
      }
      remaining := remaining[pick.tier := remaining[pick.tier] - 1];
      r := Ok(());
    }

    /** `draw`: every draw of a pull in order, each within the pinned prefix. */
    method DrawPrizes(index: nat, refs: seq<ItemRef>, output: Output, cutoff: nat)
      returns (r: Result<()>, ghost awards: seq<Award>)
      requires inventory.Valid() && cutoff <= |inventory.tags| && |remaining| == |cfg.weights| <= MAX_TIERS
      requires index in pulls && |refs| <= MAX_COUNT == |pulls[index].outcomes|
      modifies this`remaining, this`items, this`pulls, inventory`tags, inventory.data
      ensures var end := DrawSteps(cfg.weights, cutoff, refs, output, |refs|, old(Stage(index, [])));
              && r == Verdict(end)
              && (end.Ok? ==>
                    && inventory.Valid()
                    && pulls == old(pulls)[index := old(pulls)[index].(outcomes := end.value.outcomes)]
                    && Stage(index, awards) == end.value)
    {
      hide DrawStep;
      ghost var start := Stage(index, []);
      ghost var drawn := start;
      ghost var entry := pulls;
      awards := [];
      // Counted once: `DrawPrize` keeps it equal to a fresh count of the prefix.
      var counted := inventory.Counts(cutoff);
      CutoffInIndex(inventory.data.Length, |inventory.tags|, cutoff);
      var available := counted.value;
      for i := 0 to |refs|
        invariant DrawSteps(cfg.weights, cutoff, refs, output, i, start) == Ok(drawn)
        invariant inventory.Valid() && available == Available(inventory.tags, MAX_TIERS, cutoff)
        invariant pulls == entry[index := entry[index].(outcomes := drawn.outcomes)]
        invariant Stage(index, awards) == drawn
      {
        r, available, awards := DrawPrize(index, i, refs[i], output[i], cutoff, available, awards);
        if r.Err? {
          DrawStepsStop(cfg.weights, cutoff, refs, output, i + 1, |refs|, start);
          return;
        }
        drawn := Stage(index, awards);
      }
      return Ok(()), awards;
    }

    /** The guards of Settle, up to the proof's verification. */
    method CheckSettle(index: nat, refs: seq<ItemRef>, proof: Option<Output>) returns (r: Result<()>)
      requires Valid() && Inv(Abs())
      ensures r == Unless(SettleRefusal(Abs(), index, refs, proof))
    {
      hide Inv, Shaped;
      if index !in pulls {
        return Err(InvalidAccountOwner);
      }
      var pull := pulls[index];
      if pull.status != Pending {
        return Err(InvalidPullStatus);
      }
      if pull.index != nextSettle {
        return Err(NotNextInQueue);
      }
      if slot > pull.deadline {
        return Err(DeadlinePassed);
      }
      if |refs| != pull.count {
        return Err(InvalidItemCount);
      }
      for i := 0 to |refs|
        invariant forall j :: 0 <= j < i ==> LiveRef(items, refs[j])
      {
        if !LiveRef(items, refs[i]) {
          return Err(InvalidAccountOwner);
        }
      }
      // A proof that verifies is an output; `None` is one that does not.
      if proof.None? {
        return Err(InvalidProof);
      }
      TableHolds(Abs(), index);
      PendingIsPinned(Abs(), index);
      return Ok(());
    }

    /** The writes of Settle after the draw loop. */
    method MarkSettled(index: nat, pull: Pull, output: Output, ghost awards: seq<Award>) returns (r: Result<()>)
      requires index in pulls
      modifies this`pendingDraws, this`nextSettle, this`pulls, this`log
      ensures r == if old(pendingDraws) < pull.count || pull.index + 1 > U64_MAX then Err(Abort) else Ok(())
      ensures r.Ok? ==>
                && pendingDraws == old(pendingDraws) - pull.count && nextSettle == pull.index + 1
                && pulls == old(pulls)[index := old(pulls)[index].(status := Settled)]
                && log == old(log) + [Resolution(pull.index, pull.deadline, slot, Revealed(output), awards)]
    {
      var _ :- Release(pull);
      pulls := pulls[index := pulls[index].(status := Settled)];
      log := log + [Resolution(pull.index, pull.deadline, slot, Revealed(output), awards)];
      return Ok(());
    }

    method Settle(index: nat, refs: seq<ItemRef>, proof: Option<Output>) returns (r: Result<()>)
      requires Valid() && Inv(Abs())
      modifies this, inventory`tags, inventory.data
      ensures Did(r, ApplySettle(old(Abs()), index, refs, proof))
    {
      hide Inv, DrawSteps, ApplySettle, Represents, SettleRefusal;
      r := CheckSettle(index, refs, proof);
      if r.Err? {
        SettleRefused(Abs(), index, refs, proof);
        return;
      }
      SettleProcess(Abs(), index, refs, proof);
      var pull := pulls[index];
      ghost var awards;
      r, awards := DrawPrizes(index, refs, proof.value, pull.version);
      if r.Err? {
        return;
      }
      IndexedTags(inventory.data[..], inventory.tags);
      UpdateTwice(old(pulls), index, pulls[index], pulls[index].(status := Settled));
      r := MarkSettled(index, pull, proof.value, awards);
    }

    method CheckRefund(index: nat, destination: Key) returns (r: Result<()>)
      requires Valid()
      ensures r == Unless(RefundRefusal(Abs(), index, destination))
    {
      hide Represents, Shaped, HeldBy;
      if index !in pulls {
        return Err(InvalidAccountOwner);
      }
      var pull := pulls[index];
      if pull.status != Pending {
        return Err(InvalidPullStatus);
      }
      if pull.index != nextSettle {
        return Err(NotNextInQueue);
      }
      if slot <= pull.deadline {
        return Err(DeadlineNotReached);
      }
      if !HeldBy(cfg, destination, pull.buyer) {
        return Err(InvalidTokenAddress);
      }
      return Ok(());
    }

    /** The writes of Refund. */
    method PayRefund(index: nat, pull: Pull, destination: Key, amount: nat) returns (r: Result<()>)
      requires destination != cfg.vault
      modifies this`pendingDraws, this`nextSettle, this`vault, this`wallets, this`pulls, this`log
      ensures r == if old(pendingDraws) < pull.count || pull.index + 1 > U64_MAX then Err(Abort)
                   else if old(vault) < amount then Err(TransferFailed)
                   else Ok(())
      ensures r.Ok? ==>
                && pendingDraws == old(pendingDraws) - pull.count && nextSettle == pull.index + 1
                && vault == old(vault) - amount && wallets == Credit(old(wallets), destination, amount)
                && pulls == Without(old(pulls), index)
                && log == old(log) + [Resolution(pull.index, pull.deadline, slot, TimedOut, [])]
    {
      hide Credit;
      var _ :- Release(pull);
      var _ :- Pay(destination, amount);
      pulls := Without(pulls, index);
      log := log + [Resolution(pull.index, pull.deadline, slot, TimedOut, [])];
      return Ok(());
    }

    method Refund(index: nat, destination: Key) returns (r: Result<()>)
      requires Valid()
      modifies this
      ensures Did(r, ApplyRefund(old(Abs()), index, destination))
    {
      hide Represents, ValidTags, Credit, Without, HeldBy;
      var _ :- CheckRefund(index, destination);
      RefundPays(Abs(), index, destination);
      hide RefundRefusal;
      var amount :- RefundAmount(cfg, pulls[index].count);
      hide RefundAmount;
      r := PayRefund(index, pulls[index], destination, amount);
    }

    method CheckBuyback(seller: Key, destination: Key, tier: nat, price: nat, quoted: bool, expired: bool)
      returns (r: Result<()>)
      requires Valid()
      ensures r == Unless(BuybackRefusal(Abs(), seller, destination, tier, price, quoted, expired))
    {
      hide Represents, Shaped, HeldBy, CheckRestock;
      if seller == cfg.pool {
        return Err(NotSigner);
      }
      if status != Active {
        return Err(InvalidPoolStatus);
      }
      if !HeldBy(cfg, destination, seller) {
        return Err(InvalidTokenAddress);
      }
      if expired {
        return Err(QuoteExpired);
      }
      if tier >= |cfg.weights| || !quoted {
        return Err(InvalidQuote);
      }
      // The price must leave the vault solvent.
      var free :- Spendable(cfg, vault, pendingDraws);
      if price > free {
        return Err(InsufficientBalance);
      }
      r := CheckPosition(tier);
    }

    method Buyback(seller: Key, asset: Key, destination: Key, tier: nat, price: nat, quoted: bool, expired: bool)
      returns (r: Result<()>)
      requires Valid()
      modifies this, inventory, inventory.data
      ensures inventory.data == old(inventory.data) || fresh(inventory.data)
      ensures Did(r, ApplyBuyback(old(Abs()), seller, asset, destination, tier, price, quoted, expired))
    {
      hide Represents, ValidTags, Credit, HeldBy, BuybackRefusal, ApplyBuyback;
      r := CheckBuyback(seller, destination, tier, price, quoted, expired);
      BuybackProcess(Abs(), seller, asset, destination, tier, price, quoted, expired);
      if r.Err? {
        return;
      }
      var _ :- TransferAsset(seller, cfg.pool, asset);
      var _ :- Restock(asset, tier);
      r := Pay(destination, price);
    }

    method Deliver(index: nat, outcome: nat, asset: Key) returns (r: Result<()>)
      requires Valid() && Inv(Abs())
      modifies this
      ensures Did(r, ApplyDeliver(old(Abs()), index, outcome, asset))
    {
      hide Inv;
      if index !in pulls {
        return Err(InvalidAccountOwner);
      }
      var pull := pulls[index];
      if pull.status != Settled {
        return Err(InvalidPullStatus);
      }
      if outcome >= pull.count {
        return Err(InvalidOutcome);
      }
      TableHolds(Abs(), index);
      if pull.outcomes[outcome].tier == DELIVERED {
        return Err(InvalidOutcome);
      }
      if pull.outcomes[outcome].asset != asset {
        return Err(InvalidAsset);
      }
      var _ :- TransferAsset(cfg.pool, pull.buyer, asset);
      // A Pull with nothing left to deliver disappears, as `Recorded` demands.
      var marked := pull.(outcomes := pull.outcomes[outcome := Outcome(DELIVERED, asset)]);
      pulls := if AllDelivered(marked) then Without(pulls, index) else pulls[index := marked];
      return Ok(());
    }

    // ---- The world outside the program ----

    method Send(source: Key, destination: Key, amount: nat) returns (r: Result<()>)
      requires Valid()
      modifies this
      ensures Did(r, ApplySend(old(Abs()), source, destination, amount))
    {
      hide Represents, ValidTags, Debit, Credit;
      var _ :- PayIn(source, amount);
      if destination != cfg.vault {
        r := Pay(destination, amount);
      } else {
        r := Ok(());
      }
    }

    method Trade(asset: Key, from: Key, to: Key) returns (r: Result<()>)
      requires Valid()
      modifies this
      ensures Did(r, ApplyTrade(old(Abs()), asset, from, to))
    {
      if from == cfg.pool {
        return Err(NotSigner);
      }
      r := TransferAsset(from, to, asset);
    }

    method Advance(to: nat) returns (r: Result<()>)
      requires Valid()
      modifies this
      ensures Did(r, ApplyAdvance(old(Abs()), to))
    {
      if to < slot || to > U64_MAX {
        return Err(Abort);
      }
      slot := to;
      return Ok(());
    }

    // ---- The runtime ----

    method Dispatch(ix: Instruction) returns (r: Result<()>)
      requires Valid() && Inv(Abs())
      modifies this, inventory, inventory.data
      ensures inventory.data == old(inventory.data) || fresh(inventory.data)
      ensures Did(r, Apply(old(Abs()), ix))
    {
      hide Inv, Did, Valid, ApplySetStatus, ApplyDeposit, ApplyBuy, ApplySettle, ApplyRefund, ApplyDeliver,
           ApplyBuyback, ApplyWithdraw, ApplyReclaim, ApplySend, ApplyTrade, ApplyAdvance, Shaped;
      match ix
      case SetStatus(signer, requested) => r := SetStatus(signer, requested);
      case Deposit(signer, asset, tier) => r := Deposit(signer, asset, tier);
      case Buy(buyer, source, count, pinned, address) => r := Buy(buyer, source, count, pinned, address);
      case Settle(index, refs, proof) => r := Settle(index, refs, proof);
      case Refund(index, destination) => r := Refund(index, destination);
      case Deliver(index, outcome, asset) => r := Deliver(index, outcome, asset);
      case Buyback(seller, asset, destination, tier, price, quoted, expired) =>
        r := Buyback(seller, asset, destination, tier, price, quoted, expired);
      case Withdraw(signer, destination, amount) => r := Withdraw(signer, destination, amount);
      case Reclaim(signer, position, asset) => r := Reclaim(signer, position, asset);
      case Send(source, destination, amount) => r := Send(source, destination, amount);
      case Trade(asset, from, to) => r := Trade(asset, from, to);
      case Advance(to) => r := Advance(to);
    }

    /** The account contents the runtime keeps while an instruction executes. */
    method Copy() returns (copy: AccountCopy)
      requires Valid()
      ensures HoldsCopy(copy, Abs())
    {
      copy := AccountCopy(status, version, remaining, pendingDraws, nextIndex, nextSettle, inventory.data[..],
                          items, pulls, vault, wallets, owners, slot);
    }

    method RollBack(copy: AccountCopy, ghost before: State)
      requires HoldsCopy(copy, before) && before.cfg == cfg
      modifies this, inventory
      ensures Valid() && Abs() == before && fresh(inventory.data)
    {
      hide Represents;
      inventory.Restore(copy.index, before.tags);
      WriteHeader(copy);
      WriteAccounts(copy);
      log := before.log;
    }

    method WriteHeader(copy: AccountCopy)
      modifies this`status, this`version, this`remaining, this`pendingDraws, this`nextIndex, this`nextSettle
      ensures status == copy.status && version == copy.version && remaining == copy.remaining
      ensures pendingDraws == copy.pendingDraws && nextIndex == copy.nextIndex && nextSettle == copy.nextSettle
    {
      status, version, remaining := copy.status, copy.version, copy.remaining;
      pendingDraws, nextIndex, nextSettle := copy.pendingDraws, copy.nextIndex, copy.nextSettle;
    }

    method WriteAccounts(copy: AccountCopy)
      modifies this`items, this`pulls, this`vault, this`wallets, this`owners, this`slot
      ensures items == copy.items && pulls == copy.pulls && vault == copy.vault
      ensures wallets == copy.wallets && owners == copy.owners && slot == copy.slot
    {
      items, pulls, vault := copy.items, copy.pulls, copy.vault;
      wallets, owners, slot := copy.wallets, copy.owners, copy.slot;
    }

    /** One instruction with the runtime's rollback: a failing handler's writes are undone. */
    method Execute(ix: Instruction) returns (r: Result<()>)
      requires Valid() && Inv(Abs())
      modifies this, inventory, inventory.data
      ensures inventory.data == old(inventory.data) || fresh(inventory.data)
      ensures Valid() && Inv(Abs())
      ensures Abs() == Step(old(Abs()), ix)
      ensures match Apply(old(Abs()), ix)
              case Ok(next) => r == Ok(()) && Abs() == next
              case Err(e) => r == Err(e) && Abs() == old(Abs())
    {
      hide Inv, Apply, Shaped, Valid, HoldsCopy;
      ghost var before := Abs();
      InvShaped(before);
      ApplyKeepsInv(before, ix);
      var copy := Copy();
      r := Dispatch(ix);
      if r.Err? {
        RollBack(copy, before);
      }
    }

    /** Any sequence of instructions, failing ones included: the accounts follow the protocol's run,
        so everything proved of runs holds of them. */
    method ExecuteAll(ixs: seq<Instruction>)
      requires Valid() && Inv(Abs())
      modifies this, inventory, inventory.data
      ensures Valid() && Inv(Abs()) && Abs() == Run(old(Abs()), ixs)
      decreases |ixs|
    {
      hide Inv, Step, Apply, Valid;
      InvShaped(Abs());
      if ixs != [] {
        var _ := Execute(ixs[0]);
        ExecuteAll(ixs[1..]);
      }
    }

    /** What a client fetches. */
    method Fetch() returns (p: Snapshot)
      requires Valid()
      ensures SnapshotOf(p, Abs())
    {
      p := Snapshot(cfg, if status == Paused then 0 else if status == Active then 1 else 2, version, remaining,
                    pendingDraws, nextSettle, inventory.data[..]);
    }
  }

  /** The live Items of one tier, and the positions that carry its tag below `n`. */
  ghost function TierItems(items: map<nat, Item>, tier: nat): set<nat> {
    set p | p in items && items[p].tier == tier
  }

  ghost function Tagged(tags: seq<u8>, tier: nat, n: nat): set<nat> {
    set p: nat | p < n && p < |tags| && tags[p] == tier + 1
  }

  lemma {:induction false} TaggedCount(tags: seq<u8>, tier: nat, n: nat)
    ensures |Tagged(tags, tier, n)| == Upto(tags, tier, n)
  {
    if n > 0 {
      TaggedCount(tags, tier, n - 1);
      if n <= |tags| && tags[n - 1] == tier + 1 {
        assert Tagged(tags, tier, n) == Tagged(tags, tier, n - 1) + {n - 1};
      } else {
        assert Tagged(tags, tier, n) == Tagged(tags, tier, n - 1);
      }
    }
  }

  /** The views of stock agree in every reachable state of the accounts: each tier's header counter,
      its linear tag count and its number of live Items are equal, the account's length is that of
      its version, every Fenwick node holds its range sum, and tags past the version are zero. */
  lemma StockViewsAgree(a: Accounts, tier: nat)
    requires a.Valid() && Inv(a.Abs()) && tier < |a.cfg.weights|
    ensures tier < |a.remaining|
    ensures a.remaining[tier] == Upto(a.inventory.tags, tier, a.version) == |TierItems(a.items, tier)|
    ensures a.inventory.data.Length == Space(a.version)
    ensures forall node, t :: 1 <= node <= a.inventory.Blocks() && 0 <= t < MAX_TIERS ==>
              a.inventory.Count(node, t) == NodeCount(a.inventory.tags, node, t)
    ensures forall b, o :: 0 <= b < a.inventory.Blocks() && 0 <= o < TAGS_PER_BLOCK && 64 * b + o >= a.version ==>
              TagAt(a.inventory.data[..], b, o) == 0
  {
    hide Queued, Reserved, Timely, Solvent, Custody, Logged, Recorded, Supply, NodeCount, CountAt, TagAt, Upto;
    TaggedCount(a.inventory.tags, tier, a.version);
    assert TierItems(a.items, tier) == Tagged(a.inventory.tags, tier, a.version);
  }

  /** CreatePool: bounds on the parameters, then a paused pool with empty stock. */
  method CreatePool(cfg: Config, vault: nat, wallets: map<Key, nat>, owners: map<Key, Key>, slot: nat)
    returns (r: Result<Accounts>)
    ensures match Create(cfg, vault, wallets, owners, slot)
            case Err(e) => r == Err(e)
            case Ok(s) => r.Ok? && fresh(r.value) && r.value.Valid() && r.value.Abs() == s
  {
    if cfg.authority == cfg.pool {
      return Err(NotSigner);
    }
    if |cfg.weights| == 0 || |cfg.weights| > MAX_TIERS || 0 in cfg.weights {
      return Err(InvalidPoolParams);
    }
    if cfg.price == 0 || cfg.bond == 0 || cfg.deadlineSlots == 0 || RefundAmount(cfg, MAX_COUNT).Err? {
      return Err(InvalidPoolParams);
    }
    var accounts := new Accounts(cfg, vault, wallets, owners, slot);
    return Ok(accounts);
  }
}
