/** Custody over whole runs, retirement, and what a client can promise a buyer. */
module Lifecycle {
  import opened Results
  import opened Stock
  import opened Draw
  import opened Protocol
  import opened Invariant
  import opened Preserve
  import opened Runs
  import opened Queue
  import opened Conditions

  // ---- Promises ----

  /** Where a promise of `s` is after a step that keeps it: settled stock becomes an award. */
  ghost predicate StillPromised(s: State, asset: Key) {
    exists p :: Promised(s.items, s.pulls, p) && PromisedAsset(s.items, s.pulls, p) == asset
  }

  /** The one step that ends a promise by delivering to the recorded buyer. */
  predicate DeliversTo(s: State, ix: Instruction, p: Promise)
  {
    ix.Deliver? && p == Awarded(ix.index, ix.outcome)
  }

  predicate ReclaimsIt(ix: Instruction, p: Promise) {
    ix.Reclaim? && p == InStock(ix.position)
  }

  lemma KeptPromise(items: map<nat, Item>, pulls: map<nat, Pull>, s: State, p: Promise, q: Promise)
    requires Promised(items, pulls, p)
    requires Promised(s.items, s.pulls, q) && PromisedAsset(s.items, s.pulls, q) == PromisedAsset(items, pulls, p)
    ensures StillPromised(s, PromisedAsset(items, pulls, p))
  {
  }

  lemma SettleKeepsPromise(s: State, index: nat, refs: seq<ItemRef>, proof: Option<Output>, p: Promise)
    requires Inv(s) && Shaped(s) && ApplySettle(s, index, refs, proof).Ok? && Promised(s.items, s.pulls, p)
    ensures StillPromised(ApplySettle(s, index, refs, proof).value, PromisedAsset(s.items, s.pulls, p))
  {
    hide Inv, ApplySettle, DrawSteps, DrawAll, StillPromised;
    SettleEffectOf(s, index, refs, proof);
    StockTiersAreSmall(s);
    var pull := s.pulls[index];
    var start := Drawn(s.tags, s.remaining, s.items, pull.outcomes, []);
    var d := DrawSteps(s.cfg.weights, pull.version, refs, proof.value, pull.count, start).value;
    DrawStepsFollowPlan(s.cfg.weights, pull.version, refs, proof.value, pull.count, start);
    hide Shaped;
    var next := AfterSettle(s, index, proof.value, d);
    if p.InStock? && p.position !in d.items {
      var i :| 0 <= i < |d.awards| && d.awards[i].position == p.position;
      KeptPromise(s.items, s.pulls, next, p, Awarded(index, i));
    } else {
      KeptPromise(s.items, s.pulls, next, p, p);
    }
  }

  /** `SettleEffect` in a reachable state. */
  lemma SettleEffectOf(s: State, index: nat, refs: seq<ItemRef>, proof: Option<Output>)
    requires Inv(s) && Shaped(s) && ApplySettle(s, index, refs, proof).Ok?
    ensures index in s.pulls && s.pulls[index].status == Pending && s.pulls[index].count <= s.pendingDraws
    ensures proof.Some? && |refs| == s.pulls[index].count <= MAX_COUNT == |s.pulls[index].outcomes|
    ensures var pull := s.pulls[index];
            var r := DrawSteps(s.cfg.weights, pull.version, refs, proof.value, pull.count,
                               Drawn(s.tags, s.remaining, s.items, pull.outcomes, []));
            r.Ok? && ApplySettle(s, index, refs, proof).value == AfterSettle(s, index, proof.value, r.value)
  {
    hide ApplySettle, DrawSteps, AfterSettle;
    SettleEffect(s, index, refs, proof);
  }

  lemma StockTiersAreSmall(s: State)
    requires Inv(s)
    ensures forall p: nat :: p in s.items ==> s.items[p].tier < MAX_TIERS
  {
  }

  /** This instruction succeeds and ends the promise: the prize reaches the recorded buyer or returns to
      the authority. */
  ghost predicate Ends(s: State, ix: Instruction, p: Promise) {
    && Inv(s) && Shaped(s) && Promised(s.items, s.pulls, p) && Apply(s, ix).Ok?
    && var asset := PromisedAsset(s.items, s.pulls, p);
       || (DeliversTo(s, ix, p) && Owns(Step(s, ix).owners, s.pulls[ix.index].buyer, asset))
       || (ReclaimsIt(ix, p) && Owns(Step(s, ix).owners, s.cfg.authority, asset))
  }

  /** A step keeps a promise, in stock or as an award, or ends it. */
  lemma StepKeepsPromise(s: State, ix: Instruction, p: Promise)
    requires Inv(s) && Shaped(s) && Promised(s.items, s.pulls, p)
    ensures StillPromised(Step(s, ix), PromisedAsset(s.items, s.pulls, p)) || Ends(s, ix, p)
  {
    hide Inv, StillPromised, HeldBy, Spendable, Credit, Payment, CanPayIn, RefundAmount, Sum, NoOutcomes,
         ApplySetStatus, ApplyDeposit, ApplyBuy, ApplySettle, ApplyRefund, ApplyDeliver, ApplyBuyback, ApplyWithdraw,
         ApplyReclaim, ApplySend, ApplyTrade, ApplyAdvance;
    var next := Step(s, ix);
    if IsQuiet(s, ix) {
      QuietStep(s, ix);
      KeptPromise(s.items, s.pulls, next, p, p);
    } else {
      match ix
      case Settle(index, refs, proof) =>
        SettleKeepsPromise(s, index, refs, proof, p);
      case Deliver(index, outcome, asset) =>
        DeliverEffect(s, index, outcome, asset);
        if p != Awarded(index, outcome) {
          DeliveryKeepsOthers(s.items, s.pulls, index, outcome, p);
          KeptPromise(s.items, s.pulls, next, p, p);
        }
      case Reclaim(signer, position, asset) =>
        ReclaimEffect(s, signer, position, asset);
        ReclaimSigner(s, signer, position, asset);
        if p != InStock(position) {
          KeptPromise(s.items, s.pulls, next, p, p);
        }
      case Deposit(signer, asset, tier) =>
        DepositEffect(s, signer, asset, tier);
        KeptPromise(s.items, s.pulls, next, p, p);
      case Buyback(seller, asset, destination, tier, price, quoted, expired) =>
        BuybackEffect(s, seller, asset, destination, tier, price, quoted, expired);
        KeptPromise(s.items, s.pulls, next, p, p);
      case Buy(buyer, source, count, version, address) =>
        BuyEffect(s, buyer, source, count, version, address);
        NextIndexIsFresh(s);
        KeptPromise(s.items, s.pulls, next, p, p);
      case Refund(index, destination) =>
        RefundIsPending(s, index, destination);
        KeptPromise(s.items, s.pulls, next, p, p);
    }
  }

  ghost predicate EndsPromiseOf(s: State, ix: Instruction, asset: Key) {
    exists p :: Ends(s, ix, p) && PromisedAsset(s.items, s.pulls, p) == asset
  }

  /** On any run a promised prize stays promised, in stock or as an award, until an instruction of the
      run delivers it to the recorded buyer or reclaims it for the authority. */
  lemma {:induction false} PromisesAreKept(s: State, ixs: seq<Instruction>, asset: Key)
    requires Inv(s) && StillPromised(s, asset)
    ensures StillPromised(Run(s, ixs), asset)
            || exists j :: 0 <= j < |ixs| && EndsPromiseOf(Run(s, ixs[..j]), ixs[j], asset)
    decreases |ixs|
  {
    hide Inv, Shaped, Step, Apply;
    InvShaped(s);
    if ixs != [] {
      ApplyKeepsInv(s, ixs[0]);
      var p :| Promised(s.items, s.pulls, p) && PromisedAsset(s.items, s.pulls, p) == asset;
      hide StillPromised, Promised, Ends, PromisedAsset;
      StepKeepsPromise(s, ixs[0], p);
      if StillPromised(Step(s, ixs[0]), asset) {
        PromisesAreKept(Step(s, ixs[0]), ixs[1..], asset);
        if !StillPromised(Run(s, ixs), asset) {
          var j :| 0 <= j < |ixs[1..]| && EndsPromiseOf(Run(Step(s, ixs[0]), ixs[1..][..j]), ixs[1..][j], asset);
          assert ixs[..j + 1][1..] == ixs[1..][..j];
          assert EndsPromiseOf(Run(s, ixs[..j + 1]), ixs[j + 1], asset);
        }
      } else {
        assert ixs[..0] == [];
        assert EndsPromiseOf(Run(s, ixs[..0]), ixs[0], asset);
      }
    }
  }

  lemma DeliveryKeepsOthers(items: map<nat, Item>, pulls: map<nat, Pull>, index: nat, outcome: nat, p: Promise)
    requires index in pulls && pulls[index].status == Settled && outcome < pulls[index].count <= |pulls[index].outcomes|
    requires Promised(items, pulls, p) && p != Awarded(index, outcome)
    ensures var after := AfterDelivery(pulls, index, outcome);
            Promised(items, after, p) && PromisedAsset(items, after, p) == PromisedAsset(items, pulls, p)
  {
    if p.Awarded? && p.index == index {
      var pull := pulls[index];
      var marked := pull.(outcomes := pull.outcomes[outcome := Outcome(DELIVERED, pull.outcomes[outcome].asset)]);
      assert marked.outcomes[p.outcome].tier != DELIVERED;
    }
  }

  lemma RefundIsPending(s: State, index: nat, destination: Key)
    requires Inv(s) && ApplyRefund(s, index, destination).Ok?
    ensures index in s.pulls && s.pulls[index].status == Pending
    ensures ApplyRefund(s, index, destination).value.items == s.items
    ensures ApplyRefund(s, index, destination).value.pulls == Without(s.pulls, index)
  {
    RefundEffect(s, index, destination);
  }

  lemma ReclaimSigner(s: State, signer: Key, position: nat, asset: Key)
    requires Shaped(s) && ApplyReclaim(s, signer, position, asset).Ok?
    ensures signer == s.cfg.authority
  {
  }

  /** After any run from any created pool, live Items and undelivered awards together name pairwise
      distinct assets, and the pool owns every one of them. */
  lemma NoPrizeIsPromisedTwice(s: State, ixs: seq<Instruction>, p: Promise, q: Promise)
    requires Inv(s)
    requires Promised(Run(s, ixs).items, Run(s, ixs).pulls, p) && Promised(Run(s, ixs).items, Run(s, ixs).pulls, q)
    ensures var end := Run(s, ixs);
            && Owns(end.owners, s.cfg.pool, PromisedAsset(end.items, end.pulls, p))
            && (p != q ==> PromisedAsset(end.items, end.pulls, p) != PromisedAsset(end.items, end.pulls, q))
  {
    RunKeepsConfig(s, ixs);
    CustodyOf(Run(s, ixs), p, q);
    hide Inv;
  }

  lemma CustodyOf(s: State, p: Promise, q: Promise)
    requires Inv(s) && Promised(s.items, s.pulls, p) && Promised(s.items, s.pulls, q)
    ensures Owns(s.owners, s.cfg.pool, PromisedAsset(s.items, s.pulls, p))
    ensures p != q ==> PromisedAsset(s.items, s.pulls, p) != PromisedAsset(s.items, s.pulls, q)
  {
    hide StockAgrees, Queued, Reserved, Timely, Solvent, Logged, Recorded, Supply;
  }

  lemma StepKeepsConfig(s: State, ix: Instruction)
    requires Shaped(s)
    ensures Step(s, ix).cfg == s.cfg && Step(s, ix).slot >= s.slot
  {
    hide DrawSteps, HeldBy, RefundAmount, Spendable, AllDelivered, Credit, SettleRefusal, Sum;
  }

  /** The parameters of a pool are fixed, and the clock never goes back. */
  lemma {:induction false} RunKeepsConfig(s: State, ixs: seq<Instruction>)
    requires Inv(s)
    ensures Run(s, ixs).cfg == s.cfg && Run(s, ixs).slot >= s.slot
    decreases |ixs|
  {
    hide Step, Shaped, Inv;
    InvShaped(s);
    if ixs != [] {
      StepKeepsConfig(s, ixs[0]);
      ApplyKeepsInv(s, ixs[0]);
      RunKeepsConfig(Step(s, ixs[0]), ixs[1..]);
    }
  }

  // ---- Restocking ----

  predicate Restocks(ix: Instruction) {
    ix.Deposit? || ix.Buyback?
  }

  /** A restocked prize takes the next position, never used before, and goes last in its tier's
      candidate list; every other list, every older Item and every pinned prefix stay as they were. */
  lemma RestockGoesLast(s: State, ix: Instruction, tier: nat)
    requires Shaped(s) && Restocks(ix) && Apply(s, ix).Ok?
    ensures var next, position := Step(s, ix), |s.tags|;
            && |next.tags| == position + 1 && position !in s.items
            && next.items == s.items[position := Item(ix.tier, ix.asset)]
            && Owns(next.owners, s.cfg.pool, ix.asset)
            && Candidates(next.tags, tier, |next.tags|)
               == Candidates(s.tags, tier, position) + (if tier == ix.tier then [position] else [])
            && forall n: nat :: n <= position ==> Candidates(next.tags, tier, n) == Candidates(s.tags, tier, n)
  {
    var next := Step(s, ix);
    if ix.Deposit? {
      DepositEffect(s, ix.signer, ix.asset, ix.tier);
    } else {
      BuybackEffect(s, ix.seller, ix.asset, ix.destination, ix.tier, ix.price, ix.quoted, ix.expired);
    }
    hide ApplyDeposit, ApplyBuyback;
    assert next.tags == s.tags + [ix.tier + 1];
    forall n: nat | n <= |s.tags|
      ensures Candidates(next.tags, tier, n) == Candidates(s.tags, tier, n)
    {
      UptoAgree(s.tags, next.tags, tier, n);
    }
  }

  // ---- Delivery ----

  /** Every undelivered award of every reachable state, in any status, can be delivered. */
  lemma AwardsAreDeliverable(s: State, index: nat, outcome: nat)
    requires Inv(s) && Promised(s.items, s.pulls, Awarded(index, outcome))
    ensures var asset := s.pulls[index].outcomes[outcome].asset;
            && ApplyDeliver(s, index, outcome, asset).Ok?
            && Owns(ApplyDeliver(s, index, outcome, asset).value.owners, s.pulls[index].buyer, asset)
  {
    hide StockAgrees, Reserved, Timely, Solvent, Logged, Recorded, Supply, PendingSum;
    assert Owns(s.owners, s.cfg.pool, PromisedAsset(s.items, s.pulls, Awarded(index, outcome)));
  }

  /** There is no award to deliver here: no settled Pull, no such draw, or a delivered one. */
  ghost predicate Spent(pulls: map<nat, Pull>, index: nat, outcome: nat) {
    !Promised(map[], pulls, Awarded(index, outcome))
  }

  lemma DeliveryKeepsSpent(pulls: map<nat, Pull>, index: nat, outcome: nat, i: nat, o: nat)
    requires index in pulls && outcome < pulls[index].count <= |pulls[index].outcomes| && Spent(pulls, i, o)
    ensures Spent(AfterDelivery(pulls, index, outcome), i, o)
  {
  }

  /** No instruction brings back an award of a resolved purchase. */
  lemma StepKeepsSpent(s: State, ix: Instruction, i: nat, o: nat)
    requires Inv(s) && Shaped(s) && i < s.nextSettle && Spent(s.pulls, i, o)
    ensures i < Step(s, ix).nextSettle && Spent(Step(s, ix).pulls, i, o)
  {
    hide Inv, HeldBy, Spendable, Credit, Payment, CanPayIn, RefundAmount, Sum, NoOutcomes, DrawSteps, AfterDelivery,
         ApplySetStatus, ApplyDeposit, ApplyBuy, ApplySettle, ApplyRefund, ApplyDeliver, ApplyBuyback, ApplyWithdraw,
         ApplyReclaim, ApplySend, ApplyTrade, ApplyAdvance;
    StepResolvesHead(s, ix);
    if IsQuiet(s, ix) {
      QuietStep(s, ix);
    } else {
      match ix
      case Deposit(signer, asset, tier) =>
        DepositEffect(s, signer, asset, tier);
      case Buyback(seller, asset, destination, tier, price, quoted, expired) =>
        BuybackEffect(s, seller, asset, destination, tier, price, quoted, expired);
      case Buy(buyer, source, count, version, address) =>
        BuyEffect(s, buyer, source, count, version, address);
      case Settle(index, refs, proof) =>
        SettleEffectOf(s, index, refs, proof);
        QueueFacts(s);
      case Refund(index, destination) =>
        RefundIsPending(s, index, destination);
      case Deliver(index, outcome, asset) =>
        DeliverEffect(s, index, outcome, asset);
        DeliveryKeepsSpent(s.pulls, index, outcome, i, o);
      case Reclaim(signer, position, asset) =>
        ReclaimEffect(s, signer, position, asset);
    }
  }

  lemma {:induction false} RunKeepsSpent(s: State, ixs: seq<Instruction>, i: nat, o: nat)
    requires Inv(s) && i < s.nextSettle && Spent(s.pulls, i, o)
    ensures Spent(Run(s, ixs).pulls, i, o)
    decreases |ixs|
  {
    hide Inv, Shaped, Step, Spent;
    InvShaped(s);
    if ixs != [] {
      StepKeepsSpent(s, ixs[0], i, o);
      ApplyKeepsInv(s, ixs[0]);
      RunKeepsSpent(Step(s, ixs[0]), ixs[1..], i, o);
    }
  }

  /** Each award is delivered at most once: on every run after its delivery, delivering it again is
      refused, for whatever asset. */
  lemma AwardsAreDeliveredOnce(s: State, index: nat, outcome: nat, asset: Key, ixs: seq<Instruction>, again: Key)
    requires Inv(s) && ApplyDeliver(s, index, outcome, asset).Ok?
    ensures Inv(ApplyDeliver(s, index, outcome, asset).value)
    ensures var end := Run(ApplyDeliver(s, index, outcome, asset).value, ixs);
            && !Promised(end.items, end.pulls, Awarded(index, outcome))
            && ApplyDeliver(end, index, outcome, again).Err?
  {
    hide Inv, ApplyDeliver;
    DeliverEffect(s, index, outcome, asset);
    DeliverKeepsInv(s, index, outcome, asset);
    QueueFacts(s);
    var next := ApplyDeliver(s, index, outcome, asset).value;
    RunKeepsSpent(next, ixs, index, outcome);
    DeliverSucceedsExactly(Run(next, ixs), index, outcome, again);
  }

  // ---- Status ----

  predicate IsExit(ix: Instruction) {
    ix.Settle? || ix.Refund? || ix.Deliver? || ix.Withdraw?
  }

  /** Exits stay open: settlement, refunds, delivery and surplus withdrawals do the same thing,
      success or failure, whatever the pool's status. */
  lemma ExitsIgnoreStatus(s: State, ix: Instruction, status: Status)
    requires Shaped(s) && IsExit(ix)
    ensures Shaped(s.(status := status))
    ensures Apply(s.(status := status), ix)
            == match Apply(s, ix) case Ok(next) => Ok(next.(status := status)) case Err(e) => Err(e)
  {
    hide DrawSteps, HeldBy, RefundAmount, Spendable, AllDelivered, Credit;
    match ix
    case Settle(index, refs, proof) =>
      hide AllLive;
      assert SettleRefusal(s.(status := status), index, refs, proof) == SettleRefusal(s, index, refs, proof);
    case _ =>
  }

  /** Admissions follow the status: only an active pool sells or buys back, a retired pool takes no
      deposit, and only a retired pool with an empty queue returns unsold stock. */
  lemma AdmissionsFollowStatus(s: State, ix: Instruction)
    requires Inv(s) && Shaped(s) && Apply(s, ix).Ok?
    ensures ix.Buy? || ix.Buyback? ==> s.status == Active
    ensures ix.Deposit? ==> s.status != Retired
    ensures ix.Reclaim? ==> s.status == Retired && s.nextSettle == s.nextIndex
    ensures Step(s, ix).status != s.status ==> ix.SetStatus? && ix.signer == s.cfg.authority && s.status != Retired
  {
    hide StockAgrees, Queued, Reserved, Timely, Solvent, Custody, Logged, Recorded, Supply, DrawSteps, Sum, HeldBy,
         RefundAmount, Spendable, AllDelivered, Credit;
    if ix.Reclaim? {
      NoDrawsNoQueue(s.pulls, s.nextSettle, s.nextIndex);
    }
  }

  // ---- Retirement ----

  lemma {:induction false} RetirementIsTerminal(s: State, ixs: seq<Instruction>)
    requires Inv(s) && s.status == Retired
    ensures Run(s, ixs).status == Retired && Run(s, ixs).nextIndex == s.nextIndex
    ensures |Run(s, ixs).tags| == |s.tags|
    decreases |ixs|
  {
    InvShaped(s);
    if ixs != [] {
      ApplyKeepsInv(s, ixs[0]);
      RetiredStep(s, ixs[0]);
      hide Inv, Step;
      RetirementIsTerminal(Step(s, ixs[0]), ixs[1..]);
    }
  }

  lemma RetiredStep(s: State, ix: Instruction)
    requires Shaped(s) && s.status == Retired
    ensures Step(s, ix).status == Retired && Step(s, ix).nextIndex == s.nextIndex && |Step(s, ix).tags| == |s.tags|
  {
    hide DrawOne, DrawStep;
  }

  /** A live Item of a retired pool with an empty queue can always be reclaimed. */
  lemma ReclaimSucceeds(s: State, position: nat)
    requires Inv(s) && Shaped(s) && s.status == Retired && s.pendingDraws == 0 && position in s.items
    ensures var asset := s.items[position].asset;
            && ApplyReclaim(s, s.cfg.authority, position, asset).Ok?
            && var next := ApplyReclaim(s, s.cfg.authority, position, asset).value;
               && next.items == Without(s.items, position) && next.status == Retired && next.pendingDraws == 0
               && next.pulls == s.pulls && next.cfg == s.cfg && Owns(next.owners, s.cfg.authority, asset)
  {
    RemoveKeepsStock(s.cfg, s.tags, s.remaining, s.items, position);
    assert Owns(s.owners, s.cfg.pool, PromisedAsset(s.items, s.pulls, InStock(position)));
    hide Queued, Reserved, Timely, Solvent, Logged, Recorded, Supply, Custody;
  }

  ghost function Reclaims(cfg: Config, items: map<nat, Item>, order: seq<nat>): (ixs: seq<Instruction>)
    requires forall i :: 0 <= i < |order| ==> order[i] in items
    ensures |ixs| == |order|
  {
    seq(|order|, i requires 0 <= i < |order| => Reclaim(cfg.authority, order[i], items[order[i]].asset))
  }

  /** Any order of reclaims from a retired, drained pool succeeds at every step, leaves every award
      in place and, once it has named every live position, returns all unsold stock. */
  lemma {:induction false} AnyReclaimOrderSucceeds(s: State, order: seq<nat>)
    requires Inv(s) && s.status == Retired && s.pendingDraws == 0
    requires forall i :: 0 <= i < |order| ==> order[i] in s.items
    requires forall i, j :: 0 <= i < j < |order| ==> order[i] != order[j]
    ensures AllSucceed(s, Reclaims(s.cfg, s.items, order))
    ensures var end := Run(s, Reclaims(s.cfg, s.items, order));
            && end.pulls == s.pulls && end.pendingDraws == 0
            && (forall p: nat :: p in end.items <==> p in s.items && p !in order)
            && (forall p: nat :: p in end.items ==> end.items[p] == s.items[p])
    decreases |order|
  {
    hide Inv, ApplyReclaim, Shaped, Step, Apply;
    InvShaped(s);
    var ixs := Reclaims(s.cfg, s.items, order);
    if order != [] {
      ReclaimStep(s, order[0]);
      ApplyKeepsInv(s, ixs[0]);
      var next := Step(s, ixs[0]);
      ReclaimsTail(s.cfg, s.items, next.items, order);
      AnyReclaimOrderSucceeds(next, order[1..]);
      assert order == [order[0]] + order[1..];
    }
  }

  lemma ReclaimStep(s: State, position: nat)
    requires Inv(s) && Shaped(s) && s.status == Retired && s.pendingDraws == 0 && position in s.items
    ensures var ix := Reclaim(s.cfg.authority, position, s.items[position].asset);
            && Apply(s, ix).Ok?
            && Step(s, ix).items == Without(s.items, position) && Step(s, ix).status == Retired
            && Step(s, ix).pendingDraws == 0 && Step(s, ix).pulls == s.pulls && Step(s, ix).cfg == s.cfg
  {
    ReclaimSucceeds(s, position);
    hide Inv, ApplyReclaim;
  }

  lemma ReclaimsTail(cfg: Config, items: map<nat, Item>, left: map<nat, Item>, order: seq<nat>)
    requires order != [] && left == Without(items, order[0])
    requires forall i :: 0 <= i < |order| ==> order[i] in items
    requires forall i, j :: 0 <= i < j < |order| ==> order[i] != order[j]
    ensures forall i :: 0 <= i < |order[1..]| ==> order[1..][i] in left
    ensures forall i, j :: 0 <= i < j < |order[1..]| ==> order[1..][i] != order[1..][j]
    ensures Reclaims(cfg, items, order)[1..] == Reclaims(cfg, left, order[1..])
  {
  }
}
