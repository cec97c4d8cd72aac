/** The settle queue over whole runs: exactly-once resolution, draining by refunds, and the terms a
    purchase keeps. */
module Queue {
  import opened Results
  import opened Stock
  import opened Protocol
  import opened Invariant
  import opened Preserve
  import opened Runs
  import opened Settlement

  // ---- Exactly-once resolution ----

  predicate Resolves(s: State, ix: Instruction)
    requires Shaped(s)
  {
    (ix.Settle? || ix.Refund?) && Apply(s, ix).Ok?
  }

  /** Only a successful Settle or Refund resolves a purchase, and it resolves the head. */
  lemma StepResolvesHead(s: State, ix: Instruction)
    requires Inv(s) && Shaped(s)
    ensures Resolves(s, ix) ==>
              && s.nextSettle < s.nextIndex && s.nextSettle in s.pulls
              && Step(s, ix).nextSettle == s.nextSettle + 1
              && |Step(s, ix).log| == |s.log| + 1 && s.log <= Step(s, ix).log
              && Step(s, ix).log[|s.log|].deadline == s.pulls[s.nextSettle].deadline
    ensures !Resolves(s, ix) ==> Step(s, ix).nextSettle == s.nextSettle && Step(s, ix).log == s.log
    ensures Step(s, ix).nextIndex >= s.nextIndex
  {
    hide Inv, DrawSteps, AfterDelivery, Queued,
         ApplySetStatus, ApplyDeposit, ApplyBuy, ApplySettle, ApplyRefund, ApplyDeliver, ApplyBuyback, ApplyWithdraw,
         ApplyReclaim, ApplySend, ApplyTrade, ApplyAdvance;
    if !Resolves(s, ix) {
      OtherStep(s, ix);
    } else {
      InvQueued(s);
      QueueFacts(s);
      match ix
      case Settle(index, refs, proof) =>
        SettleEffect(s, index, refs, proof);
      case Refund(index, destination) =>
        RefundEffect(s, index, destination);
    }
  }

  lemma OtherStep(s: State, ix: Instruction)
    requires Shaped(s) && !Resolves(s, ix)
    ensures Step(s, ix).nextSettle == s.nextSettle && Step(s, ix).log == s.log && Step(s, ix).nextIndex >= s.nextIndex
  {
    hide Payment, CanPayIn, RefundAmount, Sum, NoOutcomes, AfterDelivery, HeldBy, Spendable, Credit,
         ApplySetStatus, ApplyDeposit, ApplyBuy, ApplySettle, ApplyRefund, ApplyDeliver, ApplyBuyback, ApplyWithdraw,
         ApplyReclaim, ApplySend, ApplyTrade, ApplyAdvance;
    if IsQuiet(s, ix) {
      QuietStep(s, ix);
    } else {
      match ix
      case Deposit(signer, asset, tier) =>
        DepositEffect(s, signer, asset, tier);
      case Buyback(seller, asset, destination, tier, price, quoted, expired) =>
        BuybackEffect(s, seller, asset, destination, tier, price, quoted, expired);
      case Buy(buyer, source, count, version, address) =>
        BuyEffect(s, buyer, source, count, version, address);
      case Deliver(index, outcome, asset) =>
        DeliverEffect(s, index, outcome, asset);
      case Reclaim(signer, position, asset) =>
        ReclaimEffect(s, signer, position, asset);
    }
  }

  lemma InvQueued(s: State)
    requires Inv(s)
    ensures Queued(s.pulls, s.nextSettle, s.nextIndex, s.pendingDraws)
  {
    hide StockAgrees, Reserved, Timely, Solvent, Custody, Logged, Recorded, Supply;
  }

  /** A resolution, once made, is never revised or repeated: later runs only append later indices. */
  lemma {:induction false} ResolutionsAreFinal(s: State, ixs: seq<Instruction>)
    requires Inv(s)
    ensures var end := Run(s, ixs);
            && s.log <= end.log && |end.log| == end.nextSettle >= s.nextSettle == |s.log|
            && end.nextIndex >= s.nextIndex
            && (forall i :: 0 <= i < |end.log| ==>
                  && end.log[i].index == i
                  && (end.log[i].choice.Revealed? <==> end.log[i].slot <= end.log[i].deadline))
            && (forall i :: i in end.pulls && end.pulls[i].status == Pending <==> end.nextSettle <= i < end.nextIndex)
    decreases |ixs|
  {
    hide Inv, Shaped, Step, Resolves;
    InvShaped(s);
    QueueFacts(Run(s, ixs));
    QueueFacts(s);
    if ixs != [] {
      ApplyKeepsInv(s, ixs[0]);
      StepResolvesHead(s, ixs[0]);
      ResolutionsAreFinal(Step(s, ixs[0]), ixs[1..]);
    }
  }

  lemma QueueFacts(s: State)
    requires Inv(s)
    ensures |s.log| == s.nextSettle <= s.nextIndex
    ensures forall i :: 0 <= i < |s.log| ==>
              s.log[i].index == i && (s.log[i].choice.Revealed? <==> s.log[i].slot <= s.log[i].deadline)
    ensures forall i :: i in s.pulls ==> i < s.nextIndex && s.pulls[i].index == i
    ensures forall i :: i in s.pulls && s.pulls[i].status == Pending <==> s.nextSettle <= i < s.nextIndex
  {
    hide StockAgrees, Reserved, Timely, Solvent, Custody, Recorded, Supply, PendingSum;
  }

  // ---- Draining ----

  /** An expired head can always be refunded in full. */
  lemma RefundHeadSucceeds(s: State, destination: Key)
    requires Inv(s) && s.nextSettle < s.nextIndex && s.nextSettle in s.pulls
    requires s.pulls[s.nextSettle].deadline < s.slot && HeldBy(s.cfg, destination, s.pulls[s.nextSettle].buyer)
    ensures ApplyRefund(s, s.nextSettle, destination).Ok?
  {
    hide StockAgrees, Reserved, Timely, Custody, Logged, Recorded, Supply, PendingSum;
    AlwaysSolvent(s);
    PendingSumFrontOf(s);
    SolventAfter(s.cfg, s.vault, s.pendingDraws, s.pulls[s.nextSettle].count);
    assert Owed(s.cfg, MAX_COUNT) == (s.cfg.price + s.cfg.bond) * 10;
  }

  lemma PendingSumFrontOf(s: State)
    requires Queued(s.pulls, s.nextSettle, s.nextIndex, s.pendingDraws) && s.nextSettle < s.nextIndex
    ensures s.pulls[s.nextSettle].count <= s.pendingDraws
  {
    PendingSumFront(s.pulls, s.nextSettle, s.nextIndex);
  }

  function Refunds(head: nat, destinations: seq<Key>): (ixs: seq<Instruction>)
    ensures |ixs| == |destinations|
    decreases |destinations|
  {
    if destinations == [] then [] else [Refund(head, destinations[0])] + Refunds(head + 1, destinations[1..])
  }

  /** The state after refunding the head, and the expiry of the rest of the queue. */
  lemma RefundStep(s: State, destination: Key)
    requires Inv(s) && Shaped(s) && s.nextSettle < s.nextIndex && s.nextSettle in s.pulls
    requires destination != s.cfg.vault && destination in s.cfg.holders
    requires s.cfg.holders[destination] == s.pulls[s.nextSettle].buyer
    requires s.nextIndex - 1 in s.pulls && s.pulls[s.nextIndex - 1].deadline < s.slot
    ensures Apply(s, Refund(s.nextSettle, destination)).Ok?
    ensures var next := Step(s, Refund(s.nextSettle, destination));
            && next.nextSettle == s.nextSettle + 1 && next.nextIndex == s.nextIndex
            && next.cfg == s.cfg && next.slot == s.slot && next.pendingDraws <= s.pendingDraws
            && next.pulls == Without(s.pulls, s.nextSettle)
            && next.wallets == Credit(s.wallets, destination, Owed(s.cfg, s.pulls[s.nextSettle].count))
            && next.vault + Owed(s.cfg, s.pendingDraws) == s.vault + Owed(s.cfg, next.pendingDraws)
            && (next.nextSettle < next.nextIndex ==>
                  next.nextIndex - 1 in next.pulls && next.pulls[s.nextIndex - 1].deadline < next.slot)
  {
    hide StockAgrees, Reserved, Solvent, Custody, Logged, Recorded, Supply, PendingSum, ApplyRefund, Owed;
    assert s.nextSettle in s.pulls && s.pulls[s.nextSettle].deadline <= s.pulls[s.nextIndex - 1].deadline;
    RefundHeadSucceeds(s, destination);
    RefundEffect(s, s.nextSettle, destination);
    SolventAfter(s.cfg, s.vault, s.pendingDraws, s.pulls[s.nextSettle].count);
  }

  /** One token account of each queued buyer, in queue order. */
  ghost predicate Payees(cfg: Config, pulls: map<nat, Pull>, head: nat, destinations: seq<Key>) {
    forall k :: head <= k < head + |destinations| ==>
      k in pulls && HeldBy(cfg, destinations[k - head], pulls[k].buyer)
  }

  lemma PayeesTail(cfg: Config, pulls: map<nat, Pull>, head: nat, destinations: seq<Key>)
    requires destinations != [] && Payees(cfg, pulls, head, destinations)
    ensures head in pulls && HeldBy(cfg, destinations[0], pulls[head].buyer)
    ensures Payees(cfg, Without(pulls, head), head + 1, destinations[1..])
  {
    assert head in pulls;
  }

  lemma RefundsUnfold(head: nat, destinations: seq<Key>)
    requires destinations != []
    ensures Refunds(head, destinations)[0] == Refund(head, destinations[0])
    ensures Refunds(head, destinations)[1..] == Refunds(head + 1, destinations[1..])
  {
  }

  /** Once the slot has passed the last deadline, refunding heads one by one succeeds at every step,
      empties the queue and pays out exactly what all pending draws were owed. */
  lemma {:induction false} QueueDrains(s: State, destinations: seq<Key>)
    requires Inv(s) && |destinations| == s.nextIndex - s.nextSettle
    requires Payees(s.cfg, s.pulls, s.nextSettle, destinations)
    requires s.nextSettle < s.nextIndex ==>
               s.nextIndex - 1 in s.pulls && s.pulls[s.nextIndex - 1].deadline < s.slot
    ensures AllSucceed(s, Refunds(s.nextSettle, destinations))
    ensures var end := Run(s, Refunds(s.nextSettle, destinations));
            && end.nextSettle == end.nextIndex == s.nextIndex
            && end.pendingDraws == 0
            && end.vault == s.vault - Owed(s.cfg, s.pendingDraws)
    decreases |destinations|
  {
    hide Inv, Step, Apply, Owed, Shaped, Resolves, Payees, HeldBy, Refunds, Credit, Without;
    InvShaped(s);
    if destinations == [] {
      EmptyQueueOwesNothing(s);
      NoRefunds(s.nextSettle);
    } else {
      var ix := Refund(s.nextSettle, destinations[0]);
      ApplyKeepsInv(s, ix);
      PayeesTail(s.cfg, s.pulls, s.nextSettle, destinations);
      RefundStep(s, destinations[0]);
      QueueDrains(Step(s, ix), destinations[1..]);
      RefundsUnfold(s.nextSettle, destinations);
    }
  }

  lemma NoRefunds(head: nat)
    ensures Refunds(head, []) == []
  {
  }

  lemma EmptyQueueOwesNothing(s: State)
    requires Inv(s) && s.nextSettle == s.nextIndex
    ensures s.pendingDraws == 0 && Owed(s.cfg, s.pendingDraws) == 0
  {
  }

  /** The head of the queue, if any, is still within its deadline. */
  ghost predicate InTime(s: State) {
    s.nextSettle < s.nextIndex ==> s.nextSettle in s.pulls && s.slot <= s.pulls[s.nextSettle].deadline
  }

  ghost function SettleHead(s: State, output: Output): Instruction
    requires Inv(s) && s.nextSettle < s.nextIndex
  {
    Settle(s.nextSettle, PlannedRefs(HeadPlan(s, output)), Some(output))
  }

  /** Settling the head succeeds, pays nothing out and leaves the next purchase in time. */
  lemma SettleStep(s: State, output: Output)
    requires Inv(s) && Shaped(s) && s.nextSettle < s.nextIndex && InTime(s)
    ensures Apply(s, SettleHead(s, output)).Ok?
    ensures var next := Step(s, SettleHead(s, output));
            && next.nextSettle == s.nextSettle + 1 && next.nextIndex == s.nextIndex && InTime(next)
            && next.vault == s.vault && next.wallets == s.wallets
            && |next.log| == |s.log| + 1 && s.log <= next.log
            && next.log[|s.log|].choice == Revealed(output)
  {
    hide ApplySettle, HeadPlan, Inv, DrawSteps;
    SettleSucceedsExactly(s, PlannedRefs(HeadPlan(s, output)), Some(output));
    InvQueued(s);
    hide Queued;
    SettleEffect(s, s.nextSettle, PlannedRefs(HeadPlan(s, output)), Some(output));
    LaterDeadline(s);
  }

  lemma LaterDeadline(s: State)
    requires Inv(s)
    ensures s.nextSettle + 1 < s.nextIndex ==>
              && s.nextSettle in s.pulls && s.nextSettle + 1 in s.pulls
              && s.pulls[s.nextSettle].deadline <= s.pulls[s.nextSettle + 1].deadline
  {
    hide StockAgrees, Reserved, Solvent, Custody, Logged, Recorded, Supply, PendingSum;
  }

  /** Settle heads one by one, each with its plan in the state it is settled in. */
  ghost function Settlements(s: State, outputs: seq<Output>): (ixs: seq<Instruction>)
    requires Inv(s) && |outputs| == s.nextIndex - s.nextSettle && InTime(s)
    ensures |ixs| == |outputs|
    decreases |outputs|
  {
    InvShaped(s);
    if outputs == [] then []
    else
      var ix := SettleHead(s, outputs[0]);
      ApplyKeepsInv(s, ix);
      SettleStep(s, outputs[0]);
      [ix] + Settlements(Step(s, ix), outputs[1..])
  }

  /** While the head is within its deadline the whole queue can be settled: whatever the verified
      outputs, settling heads one by one with the planned Items succeeds at every step, reveals every
      pending purchase, empties the queue and takes nothing from the vault. */
  lemma {:induction false} QueueSettles(s: State, outputs: seq<Output>)
    requires Inv(s) && |outputs| == s.nextIndex - s.nextSettle && InTime(s)
    ensures AllSucceed(s, Settlements(s, outputs))
    ensures var end := Run(s, Settlements(s, outputs));
            && end.nextSettle == end.nextIndex == s.nextIndex
            && end.pendingDraws == 0 && end.vault == s.vault && end.wallets == s.wallets
            && |s.log| == s.nextSettle && |end.log| == s.nextIndex
            && forall i :: s.nextSettle <= i < s.nextIndex ==> end.log[i].choice == Revealed(outputs[i - s.nextSettle])
    decreases |outputs|
  {
    hide Inv, Step, Apply, Shaped, SettleHead, InTime, Resolves;
    InvShaped(s);
    QueueFacts(s);
    if outputs == [] {
      EmptyQueueOwesNothing(s);
    } else {
      var ix := SettleHead(s, outputs[0]);
      ApplyKeepsInv(s, ix);
      SettleStep(s, outputs[0]);
      var next := Step(s, ix);
      QueueSettles(next, outputs[1..]);
      ResolutionsAreFinal(next, Settlements(next, outputs[1..]));
      var ixs := Settlements(s, outputs);
      assert ixs[0] == ix && ixs[1..] == Settlements(next, outputs[1..]);
      var end := Run(s, ixs);
      assert end.log[s.nextSettle] == next.log[s.nextSettle];
      forall i | s.nextSettle <= i < s.nextIndex
        ensures end.log[i].choice == Revealed(outputs[i - s.nextSettle])
      {
        if i > s.nextSettle {
          assert outputs[1..][i - next.nextSettle] == outputs[i - s.nextSettle];
        }
      }
    }
  }

  // ---- Emptying any queue ----

  /** The way out of the queue that is open to its head in the current slot. */
  ghost function ResolveHead(s: State, output: Output, destination: Key): Instruction
    requires Inv(s) && s.nextSettle < s.nextIndex && s.nextSettle in s.pulls
  {
    if s.pulls[s.nextSettle].deadline < s.slot then Refund(s.nextSettle, destination) else SettleHead(s, output)
  }

  /** Draws of the queued purchases whose deadline has passed. */
  function LateDraws(pulls: map<nat, Pull>, lo: nat, hi: nat, slot: nat): nat
    decreases hi - lo
  {
    if hi <= lo then 0
    else (if lo in pulls && pulls[lo].deadline < slot then pulls[lo].count else 0) + LateDraws(pulls, lo + 1, hi, slot)
  }

  lemma LateDrawsStep(pulls: map<nat, Pull>, lo: nat, hi: nat, slot: nat)
    ensures hi <= lo ==> LateDraws(pulls, lo, hi, slot) == 0
    ensures lo < hi && lo in pulls ==>
              LateDraws(pulls, lo, hi, slot)
              == (if pulls[lo].deadline < slot then pulls[lo].count else 0) + LateDraws(pulls, lo + 1, hi, slot)
  {
  }

  ghost predicate SameBehind(pulls: map<nat, Pull>, pulls': map<nat, Pull>, head: nat) {
    forall k :: k > head ==> (k in pulls <==> k in pulls') && (k in pulls ==> pulls[k] == pulls'[k])
  }

  lemma {:induction false} LateDrawsFrame(pulls: map<nat, Pull>, pulls': map<nat, Pull>, head: nat,
                                          lo: nat, hi: nat, slot: nat)
    requires SameBehind(pulls, pulls', head) && head < lo
    ensures LateDraws(pulls', lo, hi, slot) == LateDraws(pulls, lo, hi, slot)
    decreases hi - lo
  {
    if lo < hi {
      LateDrawsFrame(pulls, pulls', head, lo + 1, hi, slot);
    }
  }

  lemma PayeesBehind(cfg: Config, pulls: map<nat, Pull>, pulls': map<nat, Pull>, head: nat, destinations: seq<Key>)
    requires destinations != [] && Payees(cfg, pulls, head, destinations) && SameBehind(pulls, pulls', head)
    ensures Payees(cfg, pulls', head + 1, destinations[1..])
  {
  }

  lemma OwedAdds(cfg: Config, a: nat, b: nat)
    ensures Owed(cfg, a + b) == Owed(cfg, a) + Owed(cfg, b)
  {
    var unit := cfg.price + cfg.bond;
    assert unit * (a + b) == unit * a + unit * b;
  }

  /** The head always has a way out: it resolves as its deadline says and pays out only if it is late. */
  lemma ResolveStep(s: State, output: Output, destination: Key)
    requires Inv(s) && Shaped(s) && s.nextSettle < s.nextIndex && s.nextSettle in s.pulls
    requires HeldBy(s.cfg, destination, s.pulls[s.nextSettle].buyer)
    ensures Apply(s, ResolveHead(s, output, destination)).Ok?
    ensures var next, pull := Step(s, ResolveHead(s, output, destination)), s.pulls[s.nextSettle];
            && next.nextSettle == s.nextSettle + 1 && next.nextIndex == s.nextIndex
            && next.cfg == s.cfg && next.slot == s.slot && SameBehind(s.pulls, next.pulls, s.nextSettle)
            && next.vault + Owed(s.cfg, if pull.deadline < s.slot then pull.count else 0) == s.vault
            && |next.log| == |s.log| + 1 && s.log <= next.log
            && next.log[|s.log|].choice == (if pull.deadline < s.slot then TimedOut else Revealed(output))
  {
    hide ApplySettle, ApplyRefund, HeadPlan, Inv, DrawSteps, Queued, Owed, HeldBy, Credit;
    InvQueued(s);
    if s.pulls[s.nextSettle].deadline < s.slot {
      RefundHeadSucceeds(s, destination);
      RefundEffect(s, s.nextSettle, destination);
    } else {
      SettleSucceedsExactly(s, PlannedRefs(HeadPlan(s, output)), Some(output));
      SettleEffect(s, s.nextSettle, PlannedRefs(HeadPlan(s, output)), Some(output));
      NothingOwed(s.cfg);
    }
  }

  lemma NothingOwed(cfg: Config)
    ensures Owed(cfg, 0) == 0
  {
  }

  ghost predicate WaysOut(s: State, outputs: seq<Output>, destinations: seq<Key>) {
    && |outputs| == |destinations| && s.nextSettle + |outputs| == s.nextIndex
    && Payees(s.cfg, s.pulls, s.nextSettle, destinations)
  }

  lemma NextWaysOut(s: State, outputs: seq<Output>, destinations: seq<Key>)
    requires Inv(s) && Shaped(s) && WaysOut(s, outputs, destinations) && outputs != []
    ensures s.nextSettle < s.nextIndex && s.nextSettle in s.pulls
    ensures HeldBy(s.cfg, destinations[0], s.pulls[s.nextSettle].buyer)
    ensures WaysOut(Step(s, ResolveHead(s, outputs[0], destinations[0])), outputs[1..], destinations[1..])
  {
    hide Inv, Shaped, Step, Apply, ResolveHead, HeldBy, Owed, SameBehind;
    PayeesTail(s.cfg, s.pulls, s.nextSettle, destinations);
    ResolveStep(s, outputs[0], destinations[0]);
    hide Payees;
    var next := Step(s, ResolveHead(s, outputs[0], destinations[0]));
    PayeesBehind(s.cfg, s.pulls, next.pulls, s.nextSettle, destinations);
  }

  /** Resolve heads one by one, each in the way open to it. */
  ghost function Exits(s: State, outputs: seq<Output>, destinations: seq<Key>): (ixs: seq<Instruction>)
    requires Inv(s) && WaysOut(s, outputs, destinations)
    ensures |ixs| == |outputs|
    decreases |outputs|
  {
    InvShaped(s);
    if outputs == [] then []
    else
      NextWaysOut(s, outputs, destinations);
      var ix := ResolveHead(s, outputs[0], destinations[0]);
      ApplyKeepsInv(s, ix);
      [ix] + Exits(Step(s, ix), outputs[1..], destinations[1..])
  }

  /** Each index from `lo` up to `hi` was resolved as its deadline says: refunded when late, otherwise by
      its own output. */
  ghost predicate ResolvedByDeadline(pulls: map<nat, Pull>, lo: nat, hi: nat, slot: nat, outputs: seq<Output>,
                                     log: seq<Resolution>) {
    && hi - lo == |outputs| && (lo < hi ==> hi <= |log|)
    && forall i :: lo <= i < hi ==>
         && i in pulls
         && log[i].choice == if pulls[i].deadline < slot then TimedOut else Revealed(outputs[i - lo])
  }

  lemma NothingToResolve(pulls: map<nat, Pull>, lo: nat, slot: nat, outputs: seq<Output>, log: seq<Resolution>)
    requires outputs == []
    ensures ResolvedByDeadline(pulls, lo, lo, slot, outputs, log)
  {
  }

  lemma ResolvedFront(pulls: map<nat, Pull>, pulls': map<nat, Pull>, lo: nat, hi: nat, slot: nat,
                      outputs: seq<Output>, log: seq<Resolution>)
    requires lo < hi <= |log| && hi - lo == |outputs| && lo in pulls && SameBehind(pulls, pulls', lo)
    requires log[lo].choice == if pulls[lo].deadline < slot then TimedOut else Revealed(outputs[0])
    requires ResolvedByDeadline(pulls', lo + 1, hi, slot, outputs[1..], log)
    ensures ResolvedByDeadline(pulls, lo, hi, slot, outputs, log)
  {
    forall i | lo < i < hi
      ensures i in pulls && log[i].choice == if pulls[i].deadline < slot then TimedOut else Revealed(outputs[i - lo])
    {
      assert outputs[1..][i - (lo + 1)] == outputs[i - lo];
    }
  }

  /** Every reachable queue can be emptied in the current slot: refunding the head when it is late and
      settling it with its plan otherwise succeeds at every step, resolves each purchase as its deadline
      says, and pays out exactly what the late draws are owed. */
  lemma {:induction false} QueueEmpties(s: State, outputs: seq<Output>, destinations: seq<Key>)
    requires Inv(s) && WaysOut(s, outputs, destinations)
    ensures AllSucceed(s, Exits(s, outputs, destinations))
    ensures var end := Run(s, Exits(s, outputs, destinations));
            && end.nextSettle == end.nextIndex == s.nextIndex && end.pendingDraws == 0
            && end.vault + Owed(s.cfg, LateDraws(s.pulls, s.nextSettle, s.nextIndex, s.slot)) == s.vault
            && |s.log| == s.nextSettle && |end.log| == s.nextIndex
            && ResolvedByDeadline(s.pulls, s.nextSettle, s.nextIndex, s.slot, outputs, end.log)
    decreases |outputs|
  {
    hide Inv, Step, Apply, Shaped, ResolveHead, Resolves, WaysOut, Owed, HeldBy, SameBehind, LateDraws,
         ResolvedByDeadline;
    InvShaped(s);
    QueueFacts(s);
    WaysOutFacts(s, outputs, destinations);
    if outputs == [] {
      EmptyQueueOwesNothing(s);
      NothingOwed(s.cfg);
      NothingToResolve(s.pulls, s.nextSettle, s.slot, outputs, s.log);
      LateDrawsStep(s.pulls, s.nextSettle, s.nextIndex, s.slot);
    } else {
      NextWaysOut(s, outputs, destinations);
      var ix := ResolveHead(s, outputs[0], destinations[0]);
      ApplyKeepsInv(s, ix);
      ResolveStep(s, outputs[0], destinations[0]);
      var next := Step(s, ix);
      QueueEmpties(next, outputs[1..], destinations[1..]);
      ResolutionsAreFinal(next, Exits(next, outputs[1..], destinations[1..]));
      LateDrawsFrame(s.pulls, next.pulls, s.nextSettle, next.nextSettle, s.nextIndex, s.slot);
      LateDrawsStep(s.pulls, s.nextSettle, s.nextIndex, s.slot);
      var late := if s.pulls[s.nextSettle].deadline < s.slot then s.pulls[s.nextSettle].count else 0;
      OwedAdds(s.cfg, late, LateDraws(s.pulls, next.nextSettle, s.nextIndex, s.slot));
      var ixs := Exits(s, outputs, destinations);
      assert ixs[0] == ix && ixs[1..] == Exits(next, outputs[1..], destinations[1..]);
      var end := Run(s, ixs);
      assert end.log[s.nextSettle] == next.log[s.nextSettle];
      ResolvedFront(s.pulls, next.pulls, s.nextSettle, s.nextIndex, s.slot, outputs, end.log);
    }
  }

  lemma WaysOutFacts(s: State, outputs: seq<Output>, destinations: seq<Key>)
    requires WaysOut(s, outputs, destinations)
    ensures |outputs| == |destinations| && s.nextSettle + |outputs| == s.nextIndex
  {
  }

  // ---- A purchase's terms ----

  /** The terms of a purchase never change while its Pull is open, and a closed Pull stays closed. */
  lemma StepKeepsTerms(s: State, ix: Instruction, i: nat)
    requires Inv(s) && Shaped(s) && i < s.nextIndex
    ensures i in Step(s, ix).pulls ==> i in s.pulls
    ensures i in Step(s, ix).pulls ==>
              var before, after := s.pulls[i], Step(s, ix).pulls[i];
              after == before.(status := after.status, outcomes := after.outcomes)
    ensures i in s.pulls && s.pulls[i].status == Pending && i >= Step(s, ix).nextSettle ==> i in Step(s, ix).pulls
    ensures i < Step(s, ix).nextIndex
  {
    hide Inv, HeldBy, Spendable, Credit, Payment, CanPayIn, RefundAmount, Sum, NoOutcomes, DrawSteps, AfterDelivery,
         ApplySetStatus, ApplyDeposit, ApplyBuy, ApplySettle, ApplyRefund, ApplyDeliver, ApplyBuyback, ApplyWithdraw,
         ApplyReclaim, ApplySend, ApplyTrade, ApplyAdvance;
    QueueFacts(s);
    if IsQuiet(s, ix) {
      QuietStep(s, ix);
    } else {
      match ix
      case Deposit(signer, asset, tier) =>
        DepositEffect(s, signer, asset, tier);
      case Buyback(seller, asset, destination, tier, price, quoted, expired) =>
        BuybackEffect(s, seller, asset, destination, tier, price, quoted, expired);
      case Buy(buyer, source, count, version, address) =>
        BuyEffect(s, buyer, source, count, version, address);
      case Settle(index, refs, proof) =>
        InvQueued(s);
        SettleEffect(s, index, refs, proof);
      case Refund(index, destination) =>
        InvQueued(s);
        RefundEffect(s, index, destination);
      case Deliver(index, outcome, asset) =>
        DeliverEffect(s, index, outcome, asset);
        DeliveryKeepsTerms(s.pulls, index, outcome, i);
      case Reclaim(signer, position, asset) =>
        ReclaimEffect(s, signer, position, asset);
    }
  }

  lemma DeliveryKeepsTerms(pulls: map<nat, Pull>, index: nat, outcome: nat, i: nat)
    requires index in pulls && outcome < pulls[index].count <= |pulls[index].outcomes|
    ensures var after := AfterDelivery(pulls, index, outcome);
            && (i in after ==> i in pulls && after[i] == pulls[i].(outcomes := after[i].outcomes))
            && (i in pulls && i != index ==> i in after)
  {
  }

  /** What a buyer signed for: on any run, as long as its Pull is open, the purchase keeps its count,
      pinned version, queue index, deadline, buyer and address. */
  lemma {:induction false} RunKeepsTerms(s: State, ixs: seq<Instruction>, i: nat)
    requires Inv(s) && i < s.nextIndex
    ensures i in Run(s, ixs).pulls ==> i in s.pulls
    ensures i in Run(s, ixs).pulls ==>
              var before, after := s.pulls[i], Run(s, ixs).pulls[i];
              after == before.(status := after.status, outcomes := after.outcomes)
    decreases |ixs|
  {
    hide Inv, Shaped, Step;
    InvShaped(s);
    if ixs != [] {
      StepKeepsTerms(s, ixs[0], i);
      ApplyKeepsInv(s, ixs[0]);
      RunKeepsTerms(Step(s, ixs[0]), ixs[1..], i);
    }
  }

  /** Every purchase is judged by the deadline it was sold with. */
  lemma {:induction false} RunKeepsDeadline(s: State, ixs: seq<Instruction>, i: nat)
    requires Inv(s) && s.nextSettle <= i < s.nextIndex && i in s.pulls && i < Run(s, ixs).nextSettle
    ensures i < |Run(s, ixs).log| && Run(s, ixs).log[i].deadline == s.pulls[i].deadline
    decreases |ixs|
  {
    hide Inv, Shaped, Step, Resolves, Apply;
    InvShaped(s);
    QueueFacts(s);
    var next := Step(s, ixs[0]);
    ApplyKeepsInv(s, ixs[0]);
    StepResolvesHead(s, ixs[0]);
    ResolutionsAreFinal(next, ixs[1..]);
    if i >= next.nextSettle {
      StepKeepsTerms(s, ixs[0], i);
      RunKeepsDeadline(next, ixs[1..], i);
    }
  }

  /** From the sale on: the Pull that a successful Buy opens is pinned to the stock of that moment, and
      its deadline, counted from that slot, decides its resolution on every run. */
  lemma SaleTerms(s: State, buyer: Key, source: Key, count: nat, version: nat, address: PullAddress,
                  ixs: seq<Instruction>)
    requires Inv(s) && ApplyBuy(s, buyer, source, count, version, address).Ok?
    ensures var sold := ApplyBuy(s, buyer, source, count, version, address).value;
            var deadline := s.slot + s.cfg.deadlineSlots;
            && Inv(sold)
            && var end := Run(sold, ixs);
               && (s.nextIndex in end.pulls ==>
                     var pull := end.pulls[s.nextIndex];
                     pull == Pull(pull.status, count, |s.tags|, s.nextIndex, deadline, buyer, address, pull.outcomes))
               && (s.nextIndex < end.nextSettle ==>
                     s.nextIndex < |end.log| && end.log[s.nextIndex].deadline == deadline)
  {
    hide ApplyBuy, Inv, Shaped, Payment, CanPayIn, RefundAmount, Sum, Debit, NoOutcomes;
    QueueFacts(s);
    BuyEffect(s, buyer, source, count, version, address);
    BuyKeepsInv(s, buyer, source, count, version, address);
    var sold := ApplyBuy(s, buyer, source, count, version, address).value;
    RunKeepsTerms(sold, ixs, s.nextIndex);
    if s.nextIndex < Run(sold, ixs).nextSettle {
      RunKeepsDeadline(sold, ixs, s.nextIndex);
    }
  }
}
