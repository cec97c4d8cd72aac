/** Which error each instruction gives in a reachable state, and exactly when. The conditions are written
    on the accounts' own fields. Errors that are not listed for an instruction cannot occur. */
module Refusals {
  import opened Bits
  import opened Results
  import opened Stock
  import opened Draw
  import opened Protocol
  import opened Invariant
  import opened Preserve
  import opened Runs
  import opened Queue
  import opened Settlement
  import opened Conditions

  // ---- Administration ----

  /** CreatePool accepts exactly these parameters, and the pool starts paused and empty. */
  lemma CreateOutcome(cfg: Config, vault: nat, wallets: map<Key, nat>, owners: map<Key, Key>, slot: nat)
    ensures Create(cfg, vault, wallets, owners, slot).Ok? <==>
              && cfg.authority != cfg.pool
              && 1 <= |cfg.weights| <= 8 && (forall t :: 0 <= t < |cfg.weights| ==> cfg.weights[t] > 0)
              && cfg.price > 0 && cfg.bond > 0 && cfg.deadlineSlots > 0
              && (cfg.price + cfg.bond) * 10 <= U64_MAX
    ensures Create(cfg, vault, wallets, owners, slot).Err? ==>
              Create(cfg, vault, wallets, owners, slot)
              == Err(if cfg.authority == cfg.pool then NotSigner else InvalidPoolParams)
    ensures Create(cfg, vault, wallets, owners, slot).Ok? ==>
              var s := Create(cfg, vault, wallets, owners, slot).value;
              && s == State(cfg, Paused, [], s.remaining, 0, 0, 0, map[], map[], vault, wallets, owners, slot, [])
              && |s.remaining| == |cfg.weights| && forall t :: 0 <= t < |s.remaining| ==> s.remaining[t] == 0
  {
    assert Owed(cfg, MAX_COUNT) == (cfg.price + cfg.bond) * 10;
  }

  lemma SetStatusErrors(s: State, signer: Key, status: nat)
    ensures var r := ApplySetStatus(s, signer, status);
            && (r == Err(InvalidAuthority) <==> signer != s.cfg.authority)
            && (r == Err(InvalidInstructionData) <==> signer == s.cfg.authority && status > 2)
            && (r == Err(InvalidPoolStatus) <==> signer == s.cfg.authority && status < 2 && s.status == Retired)
            && (r.Err? ==> r.error in {InvalidAuthority, InvalidInstructionData, InvalidPoolStatus})
  {
  }

  lemma WithdrawErrors(s: State, signer: Key, destination: Key, amount: nat)
    requires Inv(s)
    ensures var r := ApplyWithdraw(s, signer, destination, amount);
            && (r == Err(InvalidAuthority) <==> signer != s.cfg.authority)
            && (r == Err(InsufficientBalance) <==>
                signer == s.cfg.authority && (s.cfg.price + s.cfg.bond) * s.pendingDraws + amount > s.vault)
            && (r.Err? ==> r.error in {InvalidAuthority, InsufficientBalance})
  {
    hide Inv, Spendable, Owed, RefundAmount, Credit;
    AmountsAre(s.cfg, s.pendingDraws);
    AlwaysSolvent(s);
  }

  // ---- Stock in and out ----

  lemma DepositErrors(s: State, signer: Key, asset: Key, tier: nat)
    requires Inv(s) && Shaped(s)
    ensures var r, full := ApplyDeposit(s, signer, asset, tier), |s.tags| == U32_MAX;
            var open := signer == s.cfg.authority && s.status != Retired;
            && (r == Err(InvalidAuthority) <==> signer != s.cfg.authority)
            && (r == Err(InvalidPoolStatus) <==> signer == s.cfg.authority && s.status == Retired)
            && (r == Err(InvalidTier) <==> open && tier >= |s.cfg.weights|)
            && (r == Err(Abort) <==> open && tier < |s.cfg.weights| && full)
            && (r == Err(TransferFailed) <==>
                && open && tier < |s.cfg.weights| && !full
                && !(asset in s.owners && s.owners[asset] == signer))
            && (r.Err? ==> r.error in {InvalidAuthority, InvalidPoolStatus, InvalidTier, Abort, TransferFailed})
  {
    PositionsFit(s);
    hide Inv, CanRestock;
    if tier < |s.cfg.weights| {
      NextPositionIsFree(s, tier);
    }
  }

  lemma PositionsFit(s: State)
    requires Inv(s)
    ensures |s.tags| <= U32_MAX
  {
  }

  lemma ReclaimErrors(s: State, signer: Key, position: nat, asset: Key)
    requires Inv(s) && Shaped(s)
    ensures var r := ApplyReclaim(s, signer, position, asset);
            var closed := signer == s.cfg.authority && s.status == Retired;
            && (r == Err(InvalidAuthority) <==> signer != s.cfg.authority)
            && (r == Err(InvalidPoolStatus) <==> signer == s.cfg.authority && s.status != Retired)
            && (r == Err(PendingPurchases) <==> closed && s.pendingDraws > 0)
            && (r == Err(InvalidAccountOwner) <==> closed && s.pendingDraws == 0 && position !in s.items)
            && (r == Err(InvalidItem) <==>
                closed && s.pendingDraws == 0 && position in s.items && s.items[position].asset != asset)
            && (r.Err? ==> r.error in {InvalidAuthority, InvalidPoolStatus, PendingPurchases, InvalidAccountOwner,
                                       InvalidItem})
  {
    ReclaimSucceedsExactly(s, signer, position, asset);
    if position in s.items {
      hide Queued, Reserved, Timely, Solvent, Logged, Recorded, Supply, Custody;
      RemoveKeepsStock(s.cfg, s.tags, s.remaining, s.items, position);
    }
    hide Inv;
  }

  lemma BuybackErrors(s: State, seller: Key, asset: Key, destination: Key, tier: nat, price: nat,
                      quoted: bool, expired: bool)
    requires Inv(s) && Shaped(s)
    ensures var r := ApplyBuyback(s, seller, asset, destination, tier, price, quoted, expired);
            var active := seller != s.cfg.pool && s.status == Active;
            var paid := active && destination != s.cfg.vault && destination in s.cfg.holders
                        && s.cfg.holders[destination] == seller;
            var offered := paid && !expired && quoted && tier < |s.cfg.weights|;
            var funded := offered && (s.cfg.price + s.cfg.bond) * s.pendingDraws + price <= s.vault;
            var held := funded && asset in s.owners && s.owners[asset] == seller;
            && (r == Err(NotSigner) <==> seller == s.cfg.pool)
            && (r == Err(InvalidPoolStatus) <==> seller != s.cfg.pool && s.status != Active)
            && (r == Err(InvalidTokenAddress) <==> active && !paid)
            && (r == Err(QuoteExpired) <==> paid && expired)
            && (r == Err(InvalidQuote) <==> paid && !expired && !offered)
            && (r == Err(InsufficientBalance) <==> offered && !funded)
            && (r == Err(TransferFailed) <==> funded && !held)
            && (r == Err(Abort) <==> held && |s.tags| == U32_MAX)
            && (r.Err? ==> r.error in {NotSigner, InvalidPoolStatus, InvalidTokenAddress, QuoteExpired, InvalidQuote,
                                       InsufficientBalance, TransferFailed, Abort})
  {
    hide Inv, Spendable, CanRestock, CheckRestock, Owed, RefundAmount, Restocked, Credit;
    AmountsAre(s.cfg, s.pendingDraws);
    AlwaysSolvent(s);
    PositionsFit(s);
    if tier < |s.cfg.weights| {
      NextPositionIsFree(s, tier);
    }
  }

  // ---- Buy ----

  ghost function LivePositions(tags: seq<u8>, n: nat): set<nat> {
    set p: nat | p < n && p < |tags| && tags[p] != 0
  }

  lemma {:induction false} LiveCount(tags: seq<u8>, n: nat)
    ensures |LivePositions(tags, n)| == LiveUpto(tags, n)
  {
    if n > 0 {
      LiveCount(tags, n - 1);
      if n <= |tags| && tags[n - 1] != 0 {
        assert LivePositions(tags, n) == LivePositions(tags, n - 1) + {n - 1};
      } else {
        assert LivePositions(tags, n) == LivePositions(tags, n - 1);
      }
    }
  }

  /** The header's stock is the number of live Items. */
  lemma StockIsLiveItems(s: State)
    requires Inv(s)
    ensures Sum(s.remaining) == |s.items|
  {
    hide Queued, Reserved, Timely, Solvent, Logged, Recorded, Supply, Custody;
    TiersPartitionStock(s.tags, |s.cfg.weights|, |s.tags|);
    LiveCount(s.tags, |s.tags|);
    assert s.items.Keys == LivePositions(s.tags, |s.tags|);
  }

  lemma BuyErrors(s: State, buyer: Key, source: Key, count: nat, version: nat, address: PullAddress)
    requires Inv(s)
    ensures var r := ApplyBuy(s, buyer, source, count, version, address);
            var free := buyer != s.cfg.pool && !(exists i :: i in s.pulls && s.pulls[i].address == address);
            var open := free && s.status == Active && 1 <= count <= 10;
            var stocked := open && version == |s.tags| && s.pendingDraws + count <= |s.items|;
            var received := s.vault + s.cfg.price * count;
            var owed := (s.cfg.price + s.cfg.bond) * (s.pendingDraws + count);
            var counted := s.slot + s.cfg.deadlineSlots <= U64_MAX && s.nextIndex < U64_MAX;
            && (r == Err(NotSigner) <==> buyer == s.cfg.pool)
            && (r == Err(AlreadyInitialized) <==> buyer != s.cfg.pool && !free)
            && (r == Err(InvalidPoolStatus) <==> free && s.status != Active)
            && (r == Err(InvalidCount) <==> free && s.status == Active && !open)
            && (r == Err(InventoryChanged) <==> open && version != |s.tags|)
            && (r == Err(SoldOut) <==> open && version == |s.tags| && !stocked)
            && (r == Err(ArithmeticOverflow) <==> stocked && received <= U64_MAX < owed)
            && (r == Err(InsufficientBalance) <==> stocked && received < owed <= U64_MAX)
            && (r == Err(Abort) <==> stocked && (received > U64_MAX || (owed <= received && !counted)))
            && (r == Err(TransferFailed) <==>
                && stocked && owed <= received <= U64_MAX && counted
                && (source == s.cfg.vault || source !in s.wallets || s.wallets[source] < s.cfg.price * count))
            && (r.Err? ==> r.error in {NotSigner, AlreadyInitialized, InvalidPoolStatus, InvalidCount,
                                       InventoryChanged, SoldOut, ArithmeticOverflow, InsufficientBalance, Abort,
                                       TransferFailed})
  {
    hide Inv, Sum, Owed, RefundAmount, Payment;
    StockIsLiveItems(s);
    AmountsAre(s.cfg, count);
    AmountsAre(s.cfg, s.pendingDraws + count);
    if 1 <= count <= 10 {
      FundsFacts(s, count);
      PricePositive(s, count);
    }
  }

  /** The two amounts of the header, in its own fields. */
  lemma AmountsAre(cfg: Config, count: nat)
    ensures var payment, owed := cfg.price * count, (cfg.price + cfg.bond) * count;
            && Owed(cfg, count) == owed
            && Payment(cfg, count) == (if payment <= U64_MAX then Ok(payment) else Err(ArithmeticOverflow))
            && (cfg.price + cfg.bond <= U64_MAX ==>
                  RefundAmount(cfg, count) == if owed <= U64_MAX then Ok(owed) else Err(ArithmeticOverflow))
  {
  }

  lemma PricePositive(s: State, count: nat)
    requires Inv(s) && count >= 1
    ensures s.cfg.price * count > 0
  {
    hide StockAgrees, Queued, Reserved, Timely, Solvent, Custody, Logged, Recorded, Supply, Owed;
  }

  // ---- Resolving and delivering ----

  lemma RefundErrors(s: State, index: nat, destination: Key)
    requires Inv(s)
    ensures var r := ApplyRefund(s, index, destination);
            var late := index == s.nextSettle && index in s.pulls && s.pulls[index].deadline < s.slot;
            && (r == Err(InvalidAccountOwner) <==> index !in s.pulls)
            && (r == Err(InvalidPullStatus) <==> index in s.pulls && index < s.nextSettle)
            && (r == Err(NotNextInQueue) <==> index in s.pulls && index > s.nextSettle)
            && (r == Err(DeadlineNotReached) <==>
                index in s.pulls && index == s.nextSettle && s.slot <= s.pulls[index].deadline)
            && (r == Err(InvalidTokenAddress) <==>
                && late
                && !(&& destination != s.cfg.vault && destination in s.cfg.holders
                     && s.cfg.holders[destination] == s.pulls[index].buyer))
            && (r.Err? ==> r.error in {InvalidAccountOwner, InvalidPullStatus, NotNextInQueue, DeadlineNotReached,
                                       InvalidTokenAddress})
  {
    hide Inv, RefundAmount;
    QueueFacts(s);
    RefundSucceedsExactly(s, index, destination);
  }

  /** The first passed account that is not the planned Item. */
  ghost predicate FirstWrong(refs: seq<ItemRef>, picks: seq<Pick>, i: nat) {
    && i < |refs| == |picks| && refs[i] != Here(picks[i].position)
    && forall j :: 0 <= j < i ==> refs[j] == Here(picks[j].position)
  }

  ghost predicate AlreadyDrawn(refs: seq<ItemRef>, picks: seq<Pick>, i: nat) {
    i < |refs| == |picks| && exists j :: 0 <= j < i && refs[i] == Here(picks[j].position)
  }

  lemma {:induction false} PlanPrefixes(weights: seq<nat>, tags: seq<u8>, cutoff: nat, output: seq<Hash>, m: nat,
                                        n: nat)
    requires |weights| <= MAX_TIERS && m <= n <= |output| && DrawAll(weights, tags, cutoff, output, n).Some?
    ensures DrawAll(weights, tags, cutoff, output, m).Some?
    ensures DrawAll(weights, tags, cutoff, output, m).value.picks
            == DrawAll(weights, tags, cutoff, output, n).value.picks[..m]
    decreases n
  {
    hide DrawAll;
    if m < n {
      DrawAllStep(weights, tags, cutoff, output, n);
      PlanPrefixes(weights, tags, cutoff, output, m, n - 1);
    }
  }

  /** The draw loop fails at the first wrong account: as a closed Item if an earlier draw took it, as the
      wrong Item otherwise. */
  lemma LoopFailsAtFirstWrong(cfg: Config, cutoff: nat, refs: seq<ItemRef>, output: seq<Hash>, n: nat, start: Drawn,
                              picks: seq<Pick>, i: nat)
    requires StockAgrees(cfg, start.tags, start.remaining, start.items) && start.awards == []
    requires n == |refs| && n <= |output| && n <= |start.outcomes| && AllLive(start.items, refs)
    requires |cfg.weights| <= MAX_TIERS && DrawAll(cfg.weights, start.tags, cutoff, output, n).Some?
    requires picks == DrawAll(cfg.weights, start.tags, cutoff, output, n).value.picks && FirstWrong(refs, picks, i)
    requires |start.remaining| == |cfg.weights|
    ensures DrawSteps(cfg.weights, cutoff, refs, output, n, start)
            == Err(if AlreadyDrawn(refs, picks, i) then InvalidAccountOwner else InvalidItem)
  {
    hide StockAgrees, DrawOne, DrawAll, DrawStep, FollowsPlan, ItemsClosed;
    PlanPrefixes(cfg.weights, start.tags, cutoff, output, i, n);
    PlanPrefixes(cfg.weights, start.tags, cutoff, output, i + 1, n);
    DrawStepsTotal(cfg, cutoff, refs, output, i, start);
    var d := DrawSteps(cfg.weights, cutoff, refs, output, i, start).value;
    LoopFollowsPlan(cfg, cutoff, refs, output, i, start);
    DrawStepsFollowPlan(cfg.weights, cutoff, refs, output, i, start);
    ClosedIsDrawn(cfg.weights, cutoff, refs, output, i, start, d, picks);
    DrawAllStep(cfg.weights, start.tags, cutoff, output, i + 1);
    DrawStepExactly(cfg, cutoff, refs[i], output[i], i, d);
    DrawStepsStop(cfg.weights, cutoff, refs, output, i + 1, n, start);
  }

  lemma ClosedIsDrawn(weights: seq<nat>, cutoff: nat, refs: seq<ItemRef>, output: seq<Hash>, i: nat, start: Drawn,
                      d: Drawn, picks: seq<Pick>)
    requires |weights| <= MAX_TIERS && i < |refs| == |picks| && i <= |output| && AllLive(start.items, refs)
    requires FollowsPlan(weights, cutoff, refs, output, i, start, d) && ItemsClosed(start.items, d.items, d.awards)
    requires DrawAll(weights, start.tags, cutoff, output, i).Some?
    requires DrawAll(weights, start.tags, cutoff, output, i).value.picks == picks[..i]
    ensures LiveRef(d.items, refs[i]) <==> !AlreadyDrawn(refs, picks, i)
  {
    hide DrawAll;
    assert forall j :: 0 <= j < i ==> picks[j] == picks[..i][j] && d.awards[j].position == picks[j].position;
    if !LiveRef(d.items, refs[i]) {
      var j :| 0 <= j < |d.awards| && d.awards[j].position == refs[i].position;
      assert refs[i] == Here(picks[j].position);
    }
  }

  /** Settle's guards and, past them, its first wrong account decide the error. */
  lemma SettleErrors(s: State, index: nat, refs: seq<ItemRef>, proof: Option<Output>)
    requires Inv(s) && Shaped(s)
    ensures index in s.pulls && index == s.nextSettle ==> s.nextSettle < s.nextIndex
    ensures var r := ApplySettle(s, index, refs, proof);
            var head := index in s.pulls && index == s.nextSettle;
            var counted := head && s.slot <= s.pulls[index].deadline && |refs| == s.pulls[index].count;
            var live := counted && forall i :: 0 <= i < |refs| && refs[i].Here? ==> refs[i].position in s.items;
            && (index !in s.pulls ==> r == Err(InvalidAccountOwner))
            && (r == Err(InvalidPullStatus) <==> index in s.pulls && index < s.nextSettle)
            && (r == Err(NotNextInQueue) <==> index in s.pulls && index > s.nextSettle)
            && (r == Err(DeadlinePassed) <==> head && s.slot > s.pulls[index].deadline)
            && (r == Err(InvalidItemCount) <==> head && s.slot <= s.pulls[index].deadline && !counted)
            && (counted && !live ==> r == Err(InvalidAccountOwner))
            && (r == Err(InvalidProof) <==> live && proof.None?)
            && (live && proof.Some? ==>
                  forall i :: FirstWrong(refs, HeadPlan(s, proof.value), i) ==>
                    r == Err(if AlreadyDrawn(refs, HeadPlan(s, proof.value), i) then InvalidAccountOwner
                             else InvalidItem))
            && (r.Err? ==> r.error in {InvalidAccountOwner, InvalidPullStatus, NotNextInQueue, DeadlinePassed,
                                       InvalidItemCount, InvalidProof, InvalidItem})
  {
    hide Inv, DrawSteps, DrawAll, HeadPlan, FirstWrong, AlreadyDrawn;
    QueueFacts(s);
    PullShape(s);
    if index in s.pulls && index == s.nextSettle {
      HeadIsReserved(s);
      if proof.Some? && |refs| == s.pulls[index].count && AllLive(s.items, refs) {
        HeadLoopFails(s, refs, proof.value);
      }
    }
  }

  lemma HeadLoopFails(s: State, refs: seq<ItemRef>, output: Output)
    requires Inv(s) && Shaped(s) && s.nextSettle < s.nextIndex && s.nextSettle in s.pulls
    requires |refs| == s.pulls[s.nextSettle].count <= MAX_COUNT == |s.pulls[s.nextSettle].outcomes|
    requires AllLive(s.items, refs)
    ensures var pull, picks := s.pulls[s.nextSettle], HeadPlan(s, output);
            var r := DrawSteps(s.cfg.weights, pull.version, refs, output, pull.count,
                               Drawn(s.tags, s.remaining, s.items, pull.outcomes, []));
            && (r.Ok? <==> refs == PlannedRefs(picks))
            && (forall i :: FirstWrong(refs, picks, i) ==>
                  r == Err(if AlreadyDrawn(refs, picks, i) then InvalidAccountOwner else InvalidItem))
            && (r.Err? ==> r.error in {InvalidAccountOwner, InvalidItem})
  {
    hide Inv, DrawSteps, DrawAll, AlreadyDrawn;
    var pull, picks := s.pulls[s.nextSettle], HeadPlan(s, output);
    var start := Drawn(s.tags, s.remaining, s.items, pull.outcomes, []);
    SettleLoopExactly(s, refs, output);
    InvStock(s);
    forall i | FirstWrong(refs, picks, i)
      ensures DrawSteps(s.cfg.weights, pull.version, refs, output, pull.count, start)
              == Err(if AlreadyDrawn(refs, picks, i) then InvalidAccountOwner else InvalidItem)
    {
      LoopFailsAtFirstWrong(s.cfg, pull.version, refs, output, pull.count, start, picks, i);
    }
    if refs != PlannedRefs(picks) {
      var i := WrongAccount(refs, picks, 0);
    }
  }

  lemma InvStock(s: State)
    requires Inv(s)
    ensures StockAgrees(s.cfg, s.tags, s.remaining, s.items)
  {
  }

  lemma WrongAccount(refs: seq<ItemRef>, picks: seq<Pick>, from: nat) returns (i: nat)
    requires |refs| == |picks| && refs != PlannedRefs(picks) && from <= |refs|
    requires forall j :: 0 <= j < from ==> refs[j] == Here(picks[j].position)
    ensures FirstWrong(refs, picks, i)
    decreases |refs| - from
  {
    assert from == |refs| ==> refs == PlannedRefs(picks);
    if from < |refs| && refs[from] == Here(picks[from].position) {
      i := WrongAccount(refs, picks, from + 1);
    } else {
      i := from;
    }
  }

  lemma DeliverErrors(s: State, index: nat, outcome: nat, asset: Key)
    requires Inv(s)
    ensures var r := ApplyDeliver(s, index, outcome, asset);
            var drawn := index in s.pulls && index < s.nextSettle && outcome < s.pulls[index].count;
            && (index in s.pulls ==> s.pulls[index].count <= |s.pulls[index].outcomes|)
            && (r == Err(InvalidAccountOwner) <==> index !in s.pulls)
            && (r == Err(InvalidPullStatus) <==> index in s.pulls && index >= s.nextSettle)
            && (r == Err(InvalidOutcome) <==>
                && index in s.pulls && index < s.nextSettle
                && (outcome >= s.pulls[index].count || s.pulls[index].outcomes[outcome].tier == 255))
            && (r == Err(InvalidAsset) <==>
                && drawn && s.pulls[index].outcomes[outcome].tier != 255
                && s.pulls[index].outcomes[outcome].asset != asset)
            && (r.Err? ==> r.error in {InvalidAccountOwner, InvalidPullStatus, InvalidOutcome, InvalidAsset})
  {
    QueueFacts(s);
    PullShape(s);
    DeliverSucceedsExactly(s, index, outcome, asset);
    hide Inv;
  }

  lemma PullShape(s: State)
    requires Inv(s)
    ensures forall i :: i in s.pulls ==> 1 <= s.pulls[i].count <= MAX_COUNT == |s.pulls[i].outcomes|
  {
    hide StockAgrees, Reserved, Timely, Solvent, Custody, Logged, Recorded, Supply, PendingSum;
  }

  // ---- The world outside the program ----

  lemma WorldErrors(s: State, source: Key, destination: Key, amount: nat, asset: Key, from: Key, to: Key, slot: nat)
    ensures var r := ApplySend(s, source, destination, amount);
            && (r == Err(TransferFailed) <==>
                source == s.cfg.vault || (amount > 0 && (source !in s.wallets || s.wallets[source] < amount)))
            && (r.Err? ==> r.error == TransferFailed)
    ensures var r := ApplyTrade(s, asset, from, to);
            && (r == Err(NotSigner) <==> from == s.cfg.pool)
            && (r == Err(TransferFailed) <==>
                from != s.cfg.pool && !(asset in s.owners && s.owners[asset] == from))
            && (r.Err? ==> r.error in {NotSigner, TransferFailed})
    ensures var r := ApplyAdvance(s, slot);
            && (r == Err(Abort) <==> slot < s.slot || slot > U64_MAX)
            && (r.Err? ==> r.error == Abort)
  {
  }
}
