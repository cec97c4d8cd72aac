/** What each successful instruction does, written on the accounts' own fields: every amount that moves,
    every record that changes, and that nothing else does. */
module Effects {
  import opened Bits
  import opened Results
  import opened Stock
  import opened Draw
  import opened Protocol
  import opened Invariant
  import opened Preserve
  import opened Runs
  import opened Queue
  import opened Settlement
  import opened Conditions
  import opened Refusals
  import opened Lifecycle

  // ---- Administration ----

  /** The authority's request is what the status becomes; retirement cannot be taken back. */
  lemma SetStatusEffect(s: State, signer: Key, status: nat)
    ensures ApplySetStatus(s, signer, status).Ok? <==>
              signer == s.cfg.authority && status <= 2 && (s.status == Retired ==> status == 2)
    ensures ApplySetStatus(s, signer, status).Ok? ==>
              var n := ApplySetStatus(s, signer, status).value;
              && n == s.(status := n.status)
              && (n.status == Paused <==> status == 0)
              && (n.status == Active <==> status == 1)
              && (n.status == Retired <==> status == 2)
  {
  }

  /** A withdrawal moves exactly the amount asked for, to the named account; to the vault itself, nothing. */
  lemma WithdrawEffect(s: State, signer: Key, destination: Key, amount: nat)
    requires Inv(s) && ApplyWithdraw(s, signer, destination, amount).Ok?
    ensures var n := ApplyWithdraw(s, signer, destination, amount).value;
            && amount <= s.vault
            && n == (if destination == s.cfg.vault then s
                     else s.(vault := s.vault - amount,
                             wallets := s.wallets[destination :=
                               (if destination in s.wallets then s.wallets[destination] else 0) + amount]))
  {
    AlwaysSolvent(s);
    hide Inv, Owed, Spendable;
  }

  // ---- Stock ----

  /** A deposit appends the asset to the stock and takes it from the authority. */
  lemma DepositsAsset(s: State, signer: Key, asset: Key, tier: nat)
    requires Shaped(s) && ApplyDeposit(s, signer, asset, tier).Ok?
    ensures tier < |s.remaining| && tier < 8 && asset in s.owners && s.owners[asset] == s.cfg.authority
    ensures ApplyDeposit(s, signer, asset, tier).value
            == s.(tags := s.tags + [tier + 1],
                  items := s.items[|s.tags| := Item(tier, asset)],
                  remaining := s.remaining[tier := s.remaining[tier] + 1],
                  owners := s.owners[asset := s.cfg.pool])
  {
  }

  /** A buyback appends the asset to the stock, takes it from the seller and pays the seller's account
      exactly the price. */
  lemma BuysBackAsset(s: State, seller: Key, asset: Key, destination: Key, tier: nat, price: nat,
                      quoted: bool, expired: bool)
    requires Inv(s) && Shaped(s) && ApplyBuyback(s, seller, asset, destination, tier, price, quoted, expired).Ok?
    ensures tier < |s.remaining| && tier < 8 && asset in s.owners && s.owners[asset] == seller
    ensures destination != s.cfg.vault && destination in s.cfg.holders && s.cfg.holders[destination] == seller
    ensures price <= s.vault
    ensures ApplyBuyback(s, seller, asset, destination, tier, price, quoted, expired).value
            == s.(tags := s.tags + [tier + 1],
                  items := s.items[|s.tags| := Item(tier, asset)],
                  remaining := s.remaining[tier := s.remaining[tier] + 1],
                  owners := s.owners[asset := s.cfg.pool],
                  vault := s.vault - price,
                  wallets := s.wallets[destination :=
                    (if destination in s.wallets then s.wallets[destination] else 0) + price])
  {
    hide Inv, ApplyBuyback, Spendable, Owed, RefundAmount;
    BuybackErrors(s, seller, asset, destination, tier, price, quoted, expired);
    BuybackEffect(s, seller, asset, destination, tier, price, quoted, expired);
  }

  /** A reclaim removes the position from the stock and returns its asset to the authority. */
  lemma ReclaimsAsset(s: State, signer: Key, position: nat, asset: Key)
    requires Inv(s) && Shaped(s) && ApplyReclaim(s, signer, position, asset).Ok?
    ensures position in s.items && s.items[position].asset == asset && position < |s.tags|
    ensures s.items[position].tier < |s.remaining| && s.remaining[s.items[position].tier] > 0
    ensures var tier := s.items[position].tier;
            ApplyReclaim(s, signer, position, asset).value
            == s.(tags := s.tags[position := 0],
                  items := s.items - {position},
                  remaining := s.remaining[tier := s.remaining[tier] - 1],
                  owners := s.owners[asset := s.cfg.authority])
  {
    ReclaimSucceedsExactly(s, signer, position, asset);
    ReclaimEffect(s, signer, position, asset);
    hide Inv, ApplyReclaim;
  }

  // ---- Purchases ----

  /** A purchase takes exactly the price of its draws from the source, reserves them, and opens a pending
      Pull pinned to the whole stock. */
  lemma OpensPull(s: State, buyer: Key, source: Key, count: nat, version: nat, address: PullAddress)
    requires Inv(s) && ApplyBuy(s, buyer, source, count, version, address).Ok?
    ensures source != s.cfg.vault && source in s.wallets && s.cfg.price * count <= s.wallets[source]
    ensures var n := ApplyBuy(s, buyer, source, count, version, address).value;
            && s.nextIndex in n.pulls && |n.pulls[s.nextIndex].outcomes| == 10
            && n.pulls[s.nextIndex] == Pull(Pending, count, |s.tags|, s.nextIndex, s.slot + s.cfg.deadlineSlots,
                                            buyer, address, n.pulls[s.nextIndex].outcomes)
            && (forall i :: 0 <= i < 10 ==> n.pulls[s.nextIndex].outcomes[i] == Outcome(0, 0))
            && n == s.(pulls := s.pulls[s.nextIndex := n.pulls[s.nextIndex]],
                       pendingDraws := s.pendingDraws + count,
                       nextIndex := s.nextIndex + 1,
                       vault := s.vault + s.cfg.price * count,
                       wallets := s.wallets[source := s.wallets[source] - s.cfg.price * count])
  {
    hide Inv, ApplyBuy, RefundAmount, Sum;
    BuyErrors(s, buyer, source, count, version, address);
    BuyEffect(s, buyer, source, count, version, address);
    PricePositive(s, count);
  }

  /** A refund pays price and penalty of all draws of the head, to an account of its buyer and to nobody
      else, and closes the Pull. */
  lemma PaysBuyer(s: State, index: nat, destination: Key) returns (amount: nat)
    requires Inv(s) && ApplyRefund(s, index, destination).Ok?
    ensures index in s.pulls && index == s.nextSettle && s.pulls[index].deadline < s.slot
    ensures destination != s.cfg.vault && destination in s.cfg.holders
    ensures s.cfg.holders[destination] == s.pulls[index].buyer
    ensures amount == (s.cfg.price + s.cfg.bond) * s.pulls[index].count
    ensures amount <= s.vault && s.pulls[index].count <= s.pendingDraws
    ensures ApplyRefund(s, index, destination).value
            == s.(pendingDraws := s.pendingDraws - s.pulls[index].count,
                     nextSettle := index + 1,
                     vault := s.vault - amount,
                     wallets := s.wallets[destination :=
                       (if destination in s.wallets then s.wallets[destination] else 0) + amount],
                     pulls := s.pulls - {index},
                     log := s.log + [Resolution(index, s.pulls[index].deadline, s.slot, TimedOut, [])])
  {
    hide Inv, ApplyRefund, Owed;
    RefundErrors(s, index, destination);
    InvQueued(s);
    hide Queued;
    RefundEffect(s, index, destination);
    AmountsAre(s.cfg, s.pulls[index].count);
    amount := Owed(s.cfg, s.pulls[index].count);
  }

  /** Position `p` is one of the picks. */
  ghost predicate Picked(picks: seq<Pick>, p: nat) {
    exists i :: 0 <= i < |picks| && picks[i].position == p
  }

  /** A settlement records, draw by draw, the tier and asset of the planned Item, and takes exactly the
      planned prizes out of tags and Items, with the counters following; money and custody stay. */
  lemma RecordsPlan(s: State, refs: seq<ItemRef>, output: Output)
    requires Inv(s) && Shaped(s) && s.nextSettle < s.nextIndex
    requires ApplySettle(s, s.nextSettle, refs, Some(output)).Ok?
    ensures s.nextSettle in s.pulls && s.pulls[s.nextSettle].count <= s.pendingDraws
    ensures var n := ApplySettle(s, s.nextSettle, refs, Some(output)).value;
            var head, picks := s.nextSettle, HeadPlan(s, output);
            && head in n.pulls && |picks| == s.pulls[head].count <= 10
            && |n.pulls[head].outcomes| == |s.pulls[head].outcomes| == 10
            && |n.log| == |s.log| + 1 && |n.tags| == |s.tags| && |n.log[|s.log|].awards| == |picks|
            && n == s.(tags := n.tags, remaining := n.remaining, items := n.items,
                       pendingDraws := s.pendingDraws - |picks|, nextSettle := head + 1,
                       pulls := s.pulls[head := s.pulls[head].(status := Settled, outcomes := n.pulls[head].outcomes)],
                       log := s.log + [Resolution(head, s.pulls[head].deadline, s.slot, Revealed(output),
                                                  n.log[|s.log|].awards)])
            && (forall i :: 0 <= i < |picks| ==>
                  && picks[i].position in s.items
                  && n.pulls[head].outcomes[i] == Outcome(picks[i].tier, s.items[picks[i].position].asset)
                  && n.log[|s.log|].awards[i]
                     == Award(picks[i].tier, picks[i].position, s.items[picks[i].position].asset))
            && (forall i :: |picks| <= i < 10 ==> n.pulls[head].outcomes[i] == s.pulls[head].outcomes[i])
            && |n.remaining| == |s.remaining|
            && (forall t :: 0 <= t < |n.remaining| ==> n.remaining[t] == Upto(n.tags, t, |n.tags|))
            && (forall p: nat :: p in n.items <==> p in s.items && !Picked(picks, p))
            && (forall p: nat :: p in n.items ==> n.items[p] == s.items[p])
            && (forall p: nat :: p < |s.tags| ==> n.tags[p] == if Picked(picks, p) then 0 else s.tags[p])
  {
    hide Inv, ApplySettle, DrawSteps, DrawAll, HeadPlan, FollowsPlan, ItemsClosed, Picked;
    var head := s.nextSettle;
    SettleSucceedsExactly(s, refs, Some(output));
    SettleEffectOf(s, head, refs, Some(output));
    var pull := s.pulls[head];
    var start := Drawn(s.tags, s.remaining, s.items, pull.outcomes, []);
    var d := DrawSteps(s.cfg.weights, pull.version, refs, output, pull.count, start).value;
    DrawStepsFollowPlan(s.cfg.weights, pull.version, refs, output, pull.count, start);
    HeadIsReserved(s);
    PlanTaken(s.cfg.weights, pull.version, refs, output, pull.count, start, d, HeadPlan(s, output));
    RestIsKept(s.cfg.weights, pull.version, refs, output, pull.count, start);
    CountersFollow(s, pull.version, refs, output, pull.count, start);
  }

  /** The loop writes no outcome past its draws. */
  lemma {:induction false} RestIsKept(weights: seq<nat>, cutoff: nat, refs: seq<ItemRef>, output: seq<Hash>, n: nat,
                                      start: Drawn)
    requires |start.remaining| == |weights| <= MAX_TIERS
    requires n <= |refs| && n <= |output| && n <= |start.outcomes|
    requires DrawSteps(weights, cutoff, refs, output, n, start).Ok?
    ensures forall i :: n <= i < |start.outcomes| ==>
              DrawSteps(weights, cutoff, refs, output, n, start).value.outcomes[i] == start.outcomes[i]
  {
    hide DrawOne, Without;
    if n > 0 {
      RestIsKept(weights, cutoff, refs, output, n - 1, start);
    }
  }

  lemma CountersFollow(s: State, cutoff: nat, refs: seq<ItemRef>, output: seq<Hash>, n: nat, start: Drawn)
    requires Inv(s) && start == Drawn(s.tags, s.remaining, s.items, start.outcomes, [])
    requires |s.remaining| == |s.cfg.weights| <= MAX_TIERS
    requires n <= |refs| && n <= |output| && n <= |start.outcomes|
    requires DrawSteps(s.cfg.weights, cutoff, refs, output, n, start).Ok?
    ensures var d := DrawSteps(s.cfg.weights, cutoff, refs, output, n, start).value;
            forall t :: 0 <= t < |d.remaining| ==> d.remaining[t] == Upto(d.tags, t, |d.tags|)
  {
    InvStock(s);
    hide Inv, DrawSteps;
    LoopFollowsPlan(s.cfg, cutoff, refs, output, n, start);
  }

  lemma PlanTaken(weights: seq<nat>, cutoff: nat, refs: seq<ItemRef>, output: seq<Hash>, n: nat, start: Drawn,
                  d: Drawn, picks: seq<Pick>)
    requires |weights| <= MAX_TIERS && n <= |output| && n <= |refs| && n == |picks|
    requires FollowsPlan(weights, cutoff, refs, output, n, start, d) && ItemsClosed(start.items, d.items, d.awards)
    requires DrawAll(weights, start.tags, cutoff, output, n).Some?
    requires DrawAll(weights, start.tags, cutoff, output, n).value.picks == picks
    ensures |d.awards| == n <= |d.outcomes| && |d.tags| == |start.tags|
    ensures forall i :: 0 <= i < n ==>
              && picks[i].position in start.items
              && d.outcomes[i] == Outcome(picks[i].tier, start.items[picks[i].position].asset)
              && d.awards[i] == Award(picks[i].tier, picks[i].position, start.items[picks[i].position].asset)
    ensures forall p: nat :: p in d.items <==> p in start.items && !Picked(picks, p)
    ensures forall p: nat :: p in d.items ==> d.items[p] == start.items[p]
    ensures forall p: nat :: p < |start.tags| ==> d.tags[p] == if Picked(picks, p) then 0 else start.tags[p]
  {
    DrawAllPicks(weights, start.tags, cutoff, output, n);
    hide DrawAll;
    assert forall i :: 0 <= i < n ==> d.awards[i].position == picks[i].position;
    forall p: nat
      ensures p in d.items <==> p in start.items && !Picked(picks, p)
    {
      if p in start.items && p !in d.items {
        var i :| 0 <= i < |d.awards| && d.awards[i].position == p;
        assert picks[i].position == p;
      }
      if Picked(picks, p) {
        var i :| 0 <= i < |picks| && picks[i].position == p;
        assert d.awards[i].position == p;
      }
    }
  }

  /** A delivery gives the asset to the recorded buyer, marks its entry alone, and closes the Pull exactly
      when no other award is left. */
  lemma DeliversAward(s: State, index: nat, outcome: nat, asset: Key)
    requires Inv(s) && ApplyDeliver(s, index, outcome, asset).Ok?
    ensures index in s.pulls && outcome < s.pulls[index].count <= |s.pulls[index].outcomes|
    ensures s.pulls[index].outcomes[outcome].asset == asset && s.pulls[index].outcomes[outcome].tier != 255
    ensures var n, pull := ApplyDeliver(s, index, outcome, asset).value, s.pulls[index];
            var left := exists i :: 0 <= i < pull.count && i != outcome && pull.outcomes[i].tier != 255;
            n == s.(owners := s.owners[asset := pull.buyer],
                    pulls := if left
                             then s.pulls[index := pull.(outcomes := pull.outcomes[outcome := Outcome(255, asset)])]
                             else s.pulls - {index})
  {
    hide Inv;
    DeliverErrors(s, index, outcome, asset);
    var pull := s.pulls[index];
    var marked := pull.outcomes[outcome := Outcome(255, asset)];
    assert forall i :: 0 <= i < pull.count ==>
        (marked[i].tier == 255 <==> i == outcome || pull.outcomes[i].tier == 255);
  }

  // ---- The world outside the program ----

  lemma SendMoves(s: State, source: Key, destination: Key, amount: nat)
    requires ApplySend(s, source, destination, amount).Ok? && source != destination
    ensures var n := ApplySend(s, source, destination, amount).value;
            && n == s.(vault := n.vault, wallets := n.wallets)
            && n.vault == s.vault + (if destination == s.cfg.vault then amount else 0)
            && source in n.wallets
            && n.wallets[source] + amount == (if source in s.wallets then s.wallets[source] else 0)
            && (destination != s.cfg.vault ==>
                  && destination in n.wallets
                  && n.wallets[destination]
                     == (if destination in s.wallets then s.wallets[destination] else 0) + amount)
            && forall a :: a != source && a != destination ==>
                 (a in n.wallets <==> a in s.wallets) && (a in s.wallets ==> n.wallets[a] == s.wallets[a])
  {
  }

  lemma TradeMoves(s: State, asset: Key, from: Key, to: Key)
    requires ApplyTrade(s, asset, from, to).Ok?
    ensures from != s.cfg.pool && asset in s.owners && s.owners[asset] == from
    ensures ApplyTrade(s, asset, from, to).value == s.(owners := s.owners[asset := to])
  {
  }

  lemma AdvanceMoves(s: State, slot: nat)
    requires ApplyAdvance(s, slot).Ok?
    ensures s.slot <= slot && ApplyAdvance(s, slot).value == s.(slot := slot)
  {
  }

  // ---- Addresses ----

  /** No two live Pulls share an address. */
  ghost predicate DistinctAddresses(pulls: map<nat, Pull>) {
    forall i, j :: i in pulls && j in pulls && i != j ==> pulls[i].address != pulls[j].address
  }

  lemma StepKeepsAddresses(s: State, ix: Instruction)
    requires Inv(s) && Shaped(s) && DistinctAddresses(s.pulls)
    ensures DistinctAddresses(Step(s, ix).pulls)
  {
    hide Inv, Step;
    QueueFacts(s);
    forall i | i in Step(s, ix).pulls && i < s.nextIndex
      ensures i in s.pulls && Step(s, ix).pulls[i].address == s.pulls[i].address
    {
      StepKeepsTerms(s, ix, i);
    }
    NewAddressIsFresh(s, ix);
  }

  /** The only new Pull is a purchase's, at an address that was free. */
  lemma NewAddressIsFresh(s: State, ix: Instruction)
    requires Inv(s) && Shaped(s)
    ensures forall i :: i in Step(s, ix).pulls && i >= s.nextIndex ==>
              i == s.nextIndex && forall j :: j in s.pulls ==> s.pulls[j].address != Step(s, ix).pulls[i].address
  {
    hide Inv, HeldBy, Spendable, Credit, Payment, CanPayIn, RefundAmount, Sum, NoOutcomes, DrawSteps, AfterDelivery,
         ApplySetStatus, ApplyDeposit, ApplyBuy, ApplySettle, ApplyRefund, ApplyDeliver, ApplyBuyback, ApplyWithdraw,
         ApplyReclaim, ApplySend, ApplyTrade, ApplyAdvance;
    QueueFacts(s);
    if IsQuiet(s, ix) {
      QuietStep(s, ix);
    } else {
      match ix
      case Deposit(signer, asset, tier) =>
        DepositEffect(s, signer, asset, tier);
      case Buyback(seller, asset, destination, tier, price, quoted, expired) =>
        BuybackEffect(s, seller, asset, destination, tier, price, quoted, expired);
      case Buy(buyer, source, count, version, address) =>
        BuyErrors(s, buyer, source, count, version, address);
        BuyEffect(s, buyer, source, count, version, address);
      case Settle(index, refs, proof) =>
        SettleEffectOf(s, index, refs, proof);
      case Refund(index, destination) =>
        RefundIsPending(s, index, destination);
      case Deliver(index, outcome, asset) =>
        DeliverEffect(s, index, outcome, asset);
        DeliveryClosesOnly(s.pulls, index, outcome);
      case Reclaim(signer, position, asset) =>
        ReclaimEffect(s, signer, position, asset);
    }
  }

  lemma DeliveryClosesOnly(pulls: map<nat, Pull>, index: nat, outcome: nat)
    requires index in pulls && outcome < pulls[index].count <= |pulls[index].outcomes|
    ensures AfterDelivery(pulls, index, outcome).Keys <= pulls.Keys
  {
  }

  /** On any run live Pulls keep distinct addresses, settled and undelivered ones included. */
  lemma {:induction false} AddressesStayDistinct(s: State, ixs: seq<Instruction>)
    requires Inv(s) && DistinctAddresses(s.pulls)
    ensures DistinctAddresses(Run(s, ixs).pulls)
    decreases |ixs|
  {
    hide Inv, Shaped, Step, DistinctAddresses;
    InvShaped(s);
    if ixs != [] {
      StepKeepsAddresses(s, ixs[0]);
      ApplyKeepsInv(s, ixs[0]);
      AddressesStayDistinct(Step(s, ixs[0]), ixs[1..]);
    }
  }

  /** From creation on, through any run, no two live Pulls share an address. */
  lemma ReachableAddressesAreDistinct(cfg: Config, vault: nat, wallets: map<Key, nat>, owners: map<Key, Key>,
                                      slot: nat, ixs: seq<Instruction>)
    requires Create(cfg, vault, wallets, owners, slot).Ok?
    requires Supply(vault, wallets) <= U64_MAX && slot <= U64_MAX
    ensures Inv(Create(cfg, vault, wallets, owners, slot).value)
    ensures var end := Run(Create(cfg, vault, wallets, owners, slot).value, ixs);
            forall i, j :: i in end.pulls && j in end.pulls && i != j ==> end.pulls[i].address != end.pulls[j].address
  {
    CreateEstablishesInv(cfg, vault, wallets, owners, slot);
    var created := Create(cfg, vault, wallets, owners, slot).value;
    assert created.pulls == map[];
    hide Inv;
    AddressesStayDistinct(created, ixs);
  }
}
