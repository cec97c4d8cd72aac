/** Restocking cannot touch an earlier purchase.

    `ViewOf(s, k)` is the part of a state that pending purchase `k` was sold on: the stock below its
    pinned version and the purchases queued up to it. However a run continues, the awards of these
    purchases are a function of that view and of how each of them is resolved. */
module Pinned {
  import opened Bits
  import opened Results
  import opened Stock
  import opened Draw
  import opened Protocol
  import opened Invariant
  import opened Preserve
  import opened Runs
  import opened Queue
  import opened Settlement

  datatype Ticket = Ticket(version: nat, count: nat)
  datatype View = View(weights: seq<nat>, tags: seq<u8>, items: map<nat, Item>, queue: seq<Ticket>)

  ghost predicate Waiting(s: State, k: nat) {
    Inv(s) && s.nextSettle <= k < s.nextIndex
  }

  /** The live Items below a position. */
  ghost function Below(items: map<nat, Item>, version: nat): map<nat, Item> {
    map p | p in items && p < version :: items[p]
  }

  ghost function Tickets(pulls: map<nat, Pull>, lo: nat, k: nat): (tickets: seq<Ticket>)
    requires lo <= k + 1 && forall i :: lo <= i <= k ==> i in pulls
    ensures |tickets| == k + 1 - lo
  {
    seq(k + 1 - lo, i requires 0 <= i < k + 1 - lo => Ticket(pulls[lo + i].version, pulls[lo + i].count))
  }

  ghost function ViewOf(s: State, k: nat): View
    requires Waiting(s, k)
  {
    var version := s.pulls[k].version;
    View(s.cfg.weights, s.tags[..version], Below(s.items, version), Tickets(s.pulls, s.nextSettle, k))
  }

  /** The queue of a view that can be replayed. */
  ghost predicate Replayable(view: View) {
    |view.weights| <= MAX_TIERS && forall i :: 0 <= i < |view.queue| ==> view.queue[i].count <= MAX_COUNT
  }

  /** The awards of a plan, given the Items it was drawn from. */
  ghost function AwardsOf(items: map<nat, Item>, picks: seq<Pick>): (awards: seq<Award>)
    ensures |awards| == |picks|
  {
    seq(|picks|, i requires 0 <= i < |picks| =>
      Award(picks[i].tier, picks[i].position, if picks[i].position in items then items[picks[i].position].asset else 0))
  }

  ghost function WithoutPicked(items: map<nat, Item>, picks: seq<Pick>): map<nat, Item> {
    map p | p in items && !(exists i :: 0 <= i < |picks| && picks[i].position == p) :: items[p]
  }

  /** The awards of the first queued purchase of a view. */
  ghost function HeadAwards(view: View, choice: Choice): seq<Award>
    requires |view.queue| > 0 && view.queue[0].count <= MAX_COUNT && |view.weights| <= MAX_TIERS
  {
    match choice
    case TimedOut => []
    case Revealed(output) =>
      match DrawAll(view.weights, view.tags, view.queue[0].version, output, view.queue[0].count)
      case None => []
      case Some(plan) => AwardsOf(view.items, plan.picks)
  }

  /** What its resolution leaves for the purchases behind it. */
  ghost function TailView(view: View, choice: Choice): View
    requires |view.queue| > 0 && view.queue[0].count <= MAX_COUNT && |view.weights| <= MAX_TIERS
  {
    match choice
    case TimedOut => view.(queue := view.queue[1..])
    case Revealed(output) =>
      match DrawAll(view.weights, view.tags, view.queue[0].version, output, view.queue[0].count)
      case None => view.(queue := view.queue[1..])
      case Some(plan) => View(view.weights, plan.tags, WithoutPicked(view.items, plan.picks), view.queue[1..])
  }

  /** The awards of the first `|choices|` queued purchases: a function of the view and the choices. */
  ghost function Replay(view: View, choices: seq<Choice>): (awards: seq<seq<Award>>)
    requires |choices| <= |view.queue| && Replayable(view)
    ensures |awards| == |choices|
    decreases |choices|
  {
    if choices == [] then []
    else [HeadAwards(view, choices[0])] + Replay(TailView(view, choices[0]), choices[1..])
  }

  ghost function Choices(log: seq<Resolution>): (choices: seq<Choice>)
    ensures |choices| == |log|
  {
    seq(|log|, i requires 0 <= i < |log| => log[i].choice)
  }

  ghost function Awards(log: seq<Resolution>): (awards: seq<seq<Award>>)
    ensures |awards| == |log|
  {
    seq(|log|, i requires 0 <= i < |log| => log[i].awards)
  }

  lemma WaitingFacts(s: State, k: nat)
    requires Waiting(s, k)
    ensures forall i :: s.nextSettle <= i <= k ==>
              && i in s.pulls && s.pulls[i].status == Pending && s.pulls[i].index == i
              && 1 <= s.pulls[i].count <= MAX_COUNT
              && s.pulls[i].version <= s.pulls[k].version <= |s.tags|
    ensures s.pendingDraws > 0 && |s.cfg.weights| <= MAX_TIERS && |s.log| == s.nextSettle
    ensures forall p: nat :: p in s.items ==> p < |s.tags|
  {
    hide Timely, Solvent, Custody, Recorded, Supply, LiveUpto;
    PendingSumAtLeast(s.pulls, s.nextSettle, s.nextIndex);
  }

  lemma ViewFacts(s: State, k: nat)
    requires Waiting(s, k)
    ensures var view := ViewOf(s, k);
            Replayable(view) && |view.queue| == k + 1 - s.nextSettle && |view.tags| == s.pulls[k].version
  {
    WaitingFacts(s, k);
    hide Inv;
  }

  // ---- Steps that resolve nothing ----

  /** `next` extends `s` only past its last position and past pull `k`. */
  ghost predicate SamePast(s: State, next: State, k: nat) {
    && next.cfg == s.cfg && s.tags <= next.tags
    && (forall p: nat :: p < |s.tags| ==> (p in next.items <==> p in s.items))
    && (forall p: nat :: p < |s.tags| && p in s.items && p in next.items ==> next.items[p] == s.items[p])
    && (forall i :: s.nextSettle <= i <= k ==> i in s.pulls && i in next.pulls && next.pulls[i] == s.pulls[i])
  }

  lemma RestockIsPast(s: State, next: State, k: nat, tag: u8, item: Item)
    requires Waiting(s, k) && next.cfg == s.cfg && next.pulls == s.pulls
    requires next.tags == s.tags + [tag] && next.items == s.items[|s.tags| := item]
    ensures SamePast(s, next, k)
  {
    WaitingFacts(s, k);
    hide Inv;
  }

  lemma QueueIsPast(s: State, next: State, k: nat)
    requires Waiting(s, k) && next.cfg == s.cfg && next.tags == s.tags && next.items == s.items
    requires forall i :: i in s.pulls && s.pulls[i].status == Pending ==> i in next.pulls && next.pulls[i] == s.pulls[i]
    ensures SamePast(s, next, k)
  {
    WaitingFacts(s, k);
    hide Inv;
  }

  /** Anything but a resolution leaves the pinned tags, their Items and the queue up to `k` alone. */
  lemma UnresolvedStepKeepsPast(s: State, ix: Instruction, k: nat)
    requires Waiting(s, k) && Shaped(s) && !Resolves(s, ix)
    ensures SamePast(s, Step(s, ix), k)
  {
    hide Inv, Without, SamePast, HeldBy, Spendable, Credit, Payment, CanPayIn, RefundAmount, Sum, NoOutcomes,
         ApplySetStatus, ApplyDeposit, ApplyBuy, ApplySettle, ApplyRefund, ApplyDeliver, ApplyBuyback, ApplyWithdraw,
         ApplyReclaim, ApplySend, ApplyTrade, ApplyAdvance;
    WaitingFacts(s, k);
    var next := Step(s, ix);
    if IsQuiet(s, ix) {
      QuietStep(s, ix);
      QueueIsPast(s, next, k);
    } else {
      match ix
      case Deposit(signer, asset, tier) =>
        DepositEffect(s, signer, asset, tier);
        RestockIsPast(s, next, k, tier + 1, Item(tier, asset));
      case Buyback(seller, asset, destination, tier, price, quoted, expired) =>
        BuybackEffect(s, seller, asset, destination, tier, price, quoted, expired);
        RestockIsPast(s, next, k, tier + 1, Item(tier, asset));
      case Reclaim(signer, position, asset) =>
        ReclaimEffect(s, signer, position, asset);
      case Buy(buyer, source, count, version, address) =>
        BuyEffect(s, buyer, source, count, version, address);
        NextIndexIsFresh(s);
        QueueIsPast(s, next, k);
      case Deliver(index, outcome, asset) =>
        DeliverEffect(s, index, outcome, asset);
        DeliveryIsBehind(s.pulls, index, outcome);
        hide AfterDelivery;
        QueueIsPast(s, next, k);
    }
  }

  lemma DeliveryIsBehind(pulls: map<nat, Pull>, index: nat, outcome: nat)
    requires index in pulls && outcome < pulls[index].count <= |pulls[index].outcomes|
    ensures forall i :: i in pulls && i != index ==>
              i in AfterDelivery(pulls, index, outcome) && AfterDelivery(pulls, index, outcome)[i] == pulls[i]
  {
  }

  lemma SamePastSameView(s: State, next: State, k: nat)
    requires Waiting(s, k) && Waiting(next, k) && next.nextSettle == s.nextSettle && SamePast(s, next, k)
    ensures ViewOf(next, k) == ViewOf(s, k)
  {
    hide Inv, Below, Tickets;
    WaitingFacts(s, k);
    var version := s.pulls[k].version;
    assert next.tags[..version] == s.tags[..version];
    SameBelow(s.items, next.items, version);
    SameTickets(s.pulls, next.pulls, s.nextSettle, k);
  }

  lemma SameTickets(pulls: map<nat, Pull>, pulls': map<nat, Pull>, lo: nat, k: nat)
    requires lo <= k + 1 && forall i :: lo <= i <= k ==> i in pulls && i in pulls' && pulls'[i] == pulls[i]
    ensures Tickets(pulls', lo, k) == Tickets(pulls, lo, k)
  {
  }

  lemma SameBelow(items: map<nat, Item>, items': map<nat, Item>, version: nat)
    requires forall p: nat :: p < version ==> (p in items' <==> p in items)
    requires forall p: nat :: p < version && p in items && p in items' ==> items'[p] == items[p]
    ensures Below(items', version) == Below(items, version)
  {
  }

  lemma UnresolvedStepKeepsView(s: State, ix: Instruction, k: nat)
    requires Waiting(s, k) && Shaped(s) && !Resolves(s, ix)
    ensures Waiting(Step(s, ix), k) && ViewOf(Step(s, ix), k) == ViewOf(s, k)
    ensures Step(s, ix).nextSettle == s.nextSettle && Step(s, ix).log == s.log
  {
    ApplyKeepsInv(s, ix);
    StepResolvesHead(s, ix);
    UnresolvedStepKeepsPast(s, ix, k);
    hide Inv, Step, Resolves, SamePast, ViewOf;
    SamePastSameView(s, Step(s, ix), k);
  }

  // ---- Steps that resolve the head ----

  /** Once the head is gone the view keeps its queue behind it and reads the new stock. */
  lemma ViewBehindHead(s: State, next: State, k: nat)
    requires Waiting(s, k) && Waiting(next, k) && next.cfg == s.cfg && next.nextSettle == s.nextSettle + 1
    requires forall i :: i in s.pulls && i != s.nextSettle ==> i in next.pulls && next.pulls[i] == s.pulls[i]
    ensures k in s.pulls && s.pulls[k].version <= |next.tags| && |ViewOf(s, k).queue| > 0
    ensures ViewOf(next, k) == View(s.cfg.weights, next.tags[..s.pulls[k].version],
                                    Below(next.items, s.pulls[k].version), ViewOf(s, k).queue[1..])
  {
    hide Inv, Below, Tickets;
    WaitingFacts(s, k);
    WaitingFacts(next, k);
    TicketsBehind(s.pulls, next.pulls, s.nextSettle, k);
  }

  lemma TicketsBehind(pulls: map<nat, Pull>, pulls': map<nat, Pull>, lo: nat, k: nat)
    requires lo < k && forall i :: lo <= i <= k ==> i in pulls
    requires forall i :: lo < i <= k ==> i in pulls' && pulls'[i] == pulls[i]
    ensures Tickets(pulls', lo + 1, k) == Tickets(pulls, lo, k)[1..]
  {
  }

  /** A resolution's log entry is the head of the replay. */
  lemma ResolutionIsHead(s: State, ix: Instruction, k: nat)
    requires Waiting(s, k) && Shaped(s) && Resolves(s, ix)
    ensures |ViewOf(s, k).queue| > 0 && Replayable(ViewOf(s, k))
    ensures |Step(s, ix).log| == |s.log| + 1 && s.log <= Step(s, ix).log
    ensures Step(s, ix).log[|s.log|].awards == HeadAwards(ViewOf(s, k), Step(s, ix).log[|s.log|].choice)
  {
    hide Inv, ApplySetStatus, ApplyDeposit, ApplyBuy, ApplySettle, ApplyRefund, ApplyDeliver, ApplyBuyback,
         ApplyWithdraw, ApplyReclaim, ApplySend, ApplyTrade, ApplyAdvance, DrawSteps, ViewOf, Shaped, DrawAll,
         TailView, Below, Replayable;
    ViewFacts(s, k);
    match ix
    case Refund(index, destination) =>
      RefundFacts(s, index, destination);
    case Settle(index, refs, proof) =>
      SettleIsHead(s, index, refs, proof, k);
  }

  lemma RefundFacts(s: State, index: nat, destination: Key)
    requires Inv(s) && ApplyRefund(s, index, destination).Ok?
    ensures var next := ApplyRefund(s, index, destination).value;
            && index in s.pulls && index == s.nextSettle
            && next.log == s.log + [Resolution(index, s.pulls[index].deadline, s.slot, TimedOut, [])]
            && next.tags == s.tags && next.items == s.items && next.cfg == s.cfg && next.nextSettle == index + 1
            && next.pulls == Without(s.pulls, index)
  {
    RefundEffect(s, index, destination);
  }

  /** The awards and the remaining stock of a settlement, seen from the pinned prefix. */
  lemma SettleIsHead(s: State, index: nat, refs: seq<ItemRef>, proof: Option<Output>, k: nat)
    requires Waiting(s, k) && Shaped(s) && ApplySettle(s, index, refs, proof).Ok?
    ensures proof.Some?
    ensures var next := ApplySettle(s, index, refs, proof).value;
            var view, choice := ViewOf(s, k), Revealed(proof.value);
            && index == s.nextSettle
            && index in s.pulls && next.pulls == s.pulls[index := next.pulls[index]]
            && next.log
               == s.log + [Resolution(index, s.pulls[index].deadline, s.slot, choice, HeadAwards(view, choice))]
            && s.pulls[k].version <= |next.tags|
            && next.tags[..s.pulls[k].version] == TailView(view, choice).tags
            && Below(next.items, s.pulls[k].version) == TailView(view, choice).items
            && next.cfg == s.cfg && next.nextSettle == index + 1
  {
    SettleEffect(s, index, refs, proof);
    WaitingFacts(s, k);
    hide Inv, ApplySettle, DrawSteps, Shaped;
    var pull, version := s.pulls[index], s.pulls[k].version;
    var start := Drawn(s.tags, s.remaining, s.items, pull.outcomes, []);
    var d := DrawSteps(s.cfg.weights, pull.version, refs, proof.value, pull.count, start).value;
    DrawStepsFollowPlan(s.cfg.weights, pull.version, refs, proof.value, pull.count, start);
    PlanInView(s, k, refs, proof.value, start, d);
  }

  lemma PlanInView(s: State, k: nat, refs: seq<ItemRef>, output: Output, start: Drawn, d: Drawn)
    requires Waiting(s, k) && |refs| == s.pulls[s.nextSettle].count <= MAX_COUNT && |s.cfg.weights| <= MAX_TIERS
    requires start.tags == s.tags && start.items == s.items && |d.tags| == |s.tags|
    requires s.pulls[s.nextSettle].version <= s.pulls[k].version <= |s.tags|
    requires FollowsPlan(s.cfg.weights, s.pulls[s.nextSettle].version, refs, output, |refs|, start, d)
    requires ItemsClosed(s.items, d.items, d.awards)
    ensures var view, choice := ViewOf(s, k), Revealed(output);
            && |view.queue| > 0 && view.queue[0].count <= MAX_COUNT && |view.weights| <= MAX_TIERS
            && d.awards == HeadAwards(view, choice)
            && d.tags[..s.pulls[k].version] == TailView(view, choice).tags
            && Below(d.items, s.pulls[k].version) == TailView(view, choice).items
  {
    var cutoff, version := s.pulls[s.nextSettle].version, s.pulls[k].version;
    ViewFacts(s, k);
    hide Inv, DrawAll, Below;
    var view := ViewOf(s, k);
    assert view.queue[0] == Ticket(cutoff, |refs|);
    PlanBelow(s.cfg.weights, s.tags, view.tags, cutoff, version, output, |refs|);
    var plan := DrawAll(s.cfg.weights, view.tags, cutoff, output, |refs|).value;
    AwardsInView(s.items, d.items, d.awards, plan.picks, version);
    BelowClosed(s.items, d.items, d.awards, plan.picks, version);
  }

  /** The plan over the whole stock is the plan over the pinned prefix. */
  lemma PlanBelow(weights: seq<nat>, tags: seq<u8>, pinned: seq<u8>, cutoff: nat, version: nat, output: seq<Hash>,
                  n: nat)
    requires |weights| <= MAX_TIERS && n <= |output| && cutoff <= version <= |tags| && pinned == tags[..version]
    requires DrawAll(weights, tags, cutoff, output, n).Some?
    ensures var whole := DrawAll(weights, tags, cutoff, output, n).value;
            var part := DrawAll(weights, pinned, cutoff, output, n);
            && part.Some? && part.value.picks == whole.picks && part.value.tags == whole.tags[..version]
            && forall i :: 0 <= i < n ==> whole.picks[i].position < version
  {
    assert pinned[..version] == tags[..version];
    DrawAllIgnoresLaterStock(weights, tags, pinned, cutoff, output, n, version);
    DrawAllPicks(weights, tags, cutoff, output, n);
    hide DrawAll;
    var part := DrawAll(weights, pinned, cutoff, output, n).value;
    assert part.tags[..version] == part.tags;
  }

  lemma AwardsInView(items: map<nat, Item>, left: map<nat, Item>, awards: seq<Award>, picks: seq<Pick>, version: nat)
    requires ItemsClosed(items, left, awards) && |picks| == |awards|
    requires forall i :: 0 <= i < |picks| ==>
               picks[i] == Pick(awards[i].tier, awards[i].position) && picks[i].position < version
    ensures AwardsOf(Below(items, version), picks) == awards
  {
  }

  lemma BelowClosed(items: map<nat, Item>, left: map<nat, Item>, awards: seq<Award>, picks: seq<Pick>, version: nat)
    requires ItemsClosed(items, left, awards) && |picks| == |awards|
    requires forall i :: 0 <= i < |picks| ==> picks[i] == Pick(awards[i].tier, awards[i].position)
    ensures Below(left, version) == WithoutPicked(Below(items, version), picks)
  {
    forall p: nat | p in items
      ensures p !in left <==> exists i :: 0 <= i < |picks| && picks[i].position == p
    {
      if p !in left {
        var i :| 0 <= i < |awards| && awards[i].position == p;
        assert picks[i].position == p;
      }
    }
  }

  lemma RefundLeavesTail(s: State, index: nat, destination: Key, k: nat)
    requires Waiting(s, k) && ApplyRefund(s, index, destination).Ok?
    requires Waiting(ApplyRefund(s, index, destination).value, k)
    ensures |ViewOf(s, k).queue| > 0 && Replayable(ViewOf(s, k))
    ensures ViewOf(ApplyRefund(s, index, destination).value, k) == TailView(ViewOf(s, k), TimedOut)
  {
    hide Inv, ApplyRefund, ViewOf, Below;
    ViewFacts(s, k);
    RefundFacts(s, index, destination);
    ViewBehindHead(s, ApplyRefund(s, index, destination).value, k);
    ViewBasics(s, k);
  }

  lemma SettleLeavesTail(s: State, index: nat, refs: seq<ItemRef>, proof: Option<Output>, k: nat)
    requires Waiting(s, k) && Shaped(s) && ApplySettle(s, index, refs, proof).Ok?
    requires Waiting(ApplySettle(s, index, refs, proof).value, k)
    ensures proof.Some? && |ViewOf(s, k).queue| > 0 && Replayable(ViewOf(s, k))
    ensures ViewOf(ApplySettle(s, index, refs, proof).value, k) == TailView(ViewOf(s, k), Revealed(proof.value))
  {
    hide Inv, ApplySettle, ViewOf, Below, DrawAll, HeadAwards, Shaped;
    ViewFacts(s, k);
    SettleIsHead(s, index, refs, proof, k);
    ViewBehindHead(s, ApplySettle(s, index, refs, proof).value, k);
    HeadViewFacts(ViewOf(s, k), Revealed(proof.value));
    ViewBasics(s, k);
  }

  lemma ResolutionLeavesTail(s: State, ix: Instruction, k: nat)
    requires Waiting(s, k) && Shaped(s) && Resolves(s, ix) && Waiting(Step(s, ix), k)
    ensures |Step(s, ix).log| == |s.log| + 1 && |ViewOf(s, k).queue| > 0 && Replayable(ViewOf(s, k))
    ensures ViewOf(Step(s, ix), k) == TailView(ViewOf(s, k), Step(s, ix).log[|s.log|].choice)
  {
    hide Inv, ApplySettle, ApplyRefund, DrawSteps, ViewOf, HeadAwards, TailView, Shaped;
    match ix
    case Refund(index, destination) =>
      RefundFacts(s, index, destination);
      RefundLeavesTail(s, index, destination, k);
    case Settle(index, refs, proof) =>
      SettleIsHead(s, index, refs, proof, k);
      SettleLeavesTail(s, index, refs, proof, k);
  }

  lemma ViewBasics(s: State, k: nat)
    requires Waiting(s, k)
    ensures ViewOf(s, k).weights == s.cfg.weights && k in s.pulls && s.pulls[k].version <= |s.tags|
    ensures ViewOf(s, k).tags == s.tags[..s.pulls[k].version]
    ensures ViewOf(s, k).items == Below(s.items, s.pulls[k].version)
  {
    WaitingFacts(s, k);
    hide Inv;
  }

  // ---- Whole runs ----

  lemma HeadViewFacts(view: View, choice: Choice)
    requires |view.queue| > 0 && view.queue[0].count <= MAX_COUNT && |view.weights| <= MAX_TIERS
    ensures TailView(view, choice).queue == view.queue[1..] && TailView(view, choice).weights == view.weights
  {
  }

  /** A log of resolutions is the replay of a view. */
  ghost predicate Replays(view: View, log: seq<Resolution>) {
    && Replayable(view) && |log| <= |view.queue|
    && Awards(log) == Replay(view, Choices(log))
  }

  lemma ReplayCons(view: View, log: seq<Resolution>)
    requires Replayable(view) && 0 < |log| <= |view.queue|
    requires log[0].awards == HeadAwards(view, log[0].choice)
    requires |log| == 1 || Replays(TailView(view, log[0].choice), log[1..])
    ensures Replays(view, log)
  {
    HeadViewFacts(view, log[0].choice);
    hide HeadAwards, TailView;
    assert Choices(log)[1..] == Choices(log[1..]);
    assert Awards(log) == [log[0].awards] + Awards(log[1..]);
    if |log| == 1 {
      assert Awards(log[1..]) == [];
    }
  }

  lemma NothingReplays(view: View)
    requires Replayable(view)
    ensures Replays(view, [])
  {
    assert Awards([]) == [];
  }

  /** A resolution in front of the replay of what it leaves. */
  lemma ResolvedReplays(s: State, ix: Instruction, k: nat, m: nat, log: seq<Resolution>)
    requires Waiting(s, k) && Shaped(s) && Resolves(s, ix) && s.nextSettle < m <= k + 1 && m <= |log|
    requires |s.log| == s.nextSettle && Step(s, ix).log <= log
    requires m > s.nextSettle + 1 ==>
               Waiting(Step(s, ix), k) && Replays(ViewOf(Step(s, ix), k), log[s.nextSettle + 1..m])
    ensures Replays(ViewOf(s, k), log[s.nextSettle..m])
  {
    hide Inv, ViewOf, Step, Apply, Resolves, HeadAwards, TailView, Replays, Shaped;
    ViewFacts(s, k);
    ResolutionIsHead(s, ix, k);
    var resolved := log[s.nextSettle..m];
    assert resolved[0] == Step(s, ix).log[s.nextSettle];
    if m > s.nextSettle + 1 {
      ResolutionLeavesTail(s, ix, k);
      assert resolved[1..] == log[s.nextSettle + 1..m];
    }
    ReplayCons(ViewOf(s, k), resolved);
  }

  /** However a run continues, the awards of the purchases up to `k` replay the view of `k` under
      their resolutions. */
  lemma {:induction false} RunsReplay(s: State, ixs: seq<Instruction>, k: nat, m: nat)
    requires Waiting(s, k) && s.nextSettle <= m <= k + 1 && m <= Run(s, ixs).nextSettle
    ensures |Run(s, ixs).log| == Run(s, ixs).nextSettle
    ensures Replays(ViewOf(s, k), Run(s, ixs).log[s.nextSettle..m])
    decreases |ixs|
  {
    hide Inv, ViewOf, Step, Apply, Resolves, HeadAwards, TailView, Replays, Shaped;
    ResolutionsAreFinal(s, ixs);
    InvShaped(s);
    ViewFacts(s, k);
    if m == s.nextSettle {
      NothingReplays(ViewOf(s, k));
      assert Run(s, ixs).log[s.nextSettle..m] == [];
    } else {
      var next := Step(s, ixs[0]);
      ApplyKeepsInv(s, ixs[0]);
      StepResolvesHead(s, ixs[0]);
      if !Resolves(s, ixs[0]) {
        UnresolvedStepKeepsView(s, ixs[0], k);
        RunsReplay(next, ixs[1..], k, m);
      } else {
        ResolutionsAreFinal(next, ixs[1..]);
        if m > s.nextSettle + 1 {
          RunsReplay(next, ixs[1..], k, m);
        }
        ResolvedReplays(s, ixs[0], k, m, Run(s, ixs).log);
      }
    }
  }

  /** Restocking, buybacks and later purchases cannot touch an earlier purchase. Take any two
      reachable states that agree on what purchase `k` was sold on, and any two runs from them that
      resolve every purchase up to `k` in the same way: they award the same prizes. */
  lemma LaterStockCannotSteer(a: State, b: State, left: seq<Instruction>, right: seq<Instruction>, k: nat)
    requires Waiting(a, k) && Waiting(b, k) && a.nextSettle == b.nextSettle && ViewOf(a, k) == ViewOf(b, k)
    requires k < Run(a, left).nextSettle == |Run(a, left).log|
    requires k < Run(b, right).nextSettle == |Run(b, right).log|
    requires forall i :: a.nextSettle <= i <= k ==> Run(a, left).log[i].choice == Run(b, right).log[i].choice
    ensures forall i :: a.nextSettle <= i <= k ==> Run(a, left).log[i].awards == Run(b, right).log[i].awards
  {
    hide Inv, Replays, ViewOf;
    RunsReplay(a, left, k, k + 1);
    RunsReplay(b, right, k, k + 1);
    EqualReplaysAt(ViewOf(a, k), Run(a, left).log, Run(b, right).log, a.nextSettle, k);
  }

  lemma EqualReplaysAt(view: View, left: seq<Resolution>, right: seq<Resolution>, n: nat, k: nat)
    requires n <= k < |left| && k < |right|
    requires Replays(view, left[n..k + 1]) && Replays(view, right[n..k + 1])
    requires forall i :: n <= i <= k ==> left[i].choice == right[i].choice
    ensures forall i :: n <= i <= k ==> left[i].awards == right[i].awards
  {
    hide Replays;
    EqualReplays(view, left[n..k + 1], right[n..k + 1]);
    forall i | n <= i <= k
      ensures left[i].awards == right[i].awards
    {
      assert left[i] == left[n..k + 1][i - n] && right[i] == right[n..k + 1][i - n];
    }
  }

  lemma EqualReplays(view: View, left: seq<Resolution>, right: seq<Resolution>)
    requires Replays(view, left) && Replays(view, right) && |left| == |right|
    requires forall i :: 0 <= i < |left| ==> left[i].choice == right[i].choice
    ensures forall i :: 0 <= i < |left| ==> left[i].awards == right[i].awards
  {
    hide Replay, Replayable;
    assert Choices(left) == Choices(right);
    forall i | 0 <= i < |left|
      ensures left[i].awards == right[i].awards
    {
      assert Awards(left)[i] == Awards(right)[i];
    }
  }

  /** Runs that resolve nothing leave the view of every waiting purchase alone. */
  lemma {:induction false} RunKeepsView(s: State, ixs: seq<Instruction>, k: nat)
    requires Waiting(s, k) && Run(s, ixs).nextSettle == s.nextSettle
    ensures Waiting(Run(s, ixs), k) && ViewOf(Run(s, ixs), k) == ViewOf(s, k)
    decreases |ixs|
  {
    hide Inv, ViewOf, Step, Apply, Resolves, Shaped;
    InvShaped(s);
    if ixs != [] {
      var next := Step(s, ixs[0]);
      ApplyKeepsInv(s, ixs[0]);
      StepResolvesHead(s, ixs[0]);
      ResolutionsAreFinal(next, ixs[1..]);
      UnresolvedStepKeepsView(s, ixs[0], k);
      RunKeepsView(next, ixs[1..], k);
    }
  }

  /** The plan of the head purchase is a function of what it was sold on. */
  lemma HeadPlanOfView(a: State, b: State, output: Output)
    requires Waiting(a, a.nextSettle) && Waiting(b, b.nextSettle)
    requires ViewOf(a, a.nextSettle) == ViewOf(b, b.nextSettle)
    ensures HeadPlan(a, output) == HeadPlan(b, output)
  {
    hide Inv, DrawAll, Below;
    var view := ViewOf(a, a.nextSettle);
    ViewFacts(a, a.nextSettle);
    ViewFacts(b, b.nextSettle);
    ViewBasics(a, a.nextSettle);
    ViewBasics(b, b.nextSettle);
    WaitingFacts(a, a.nextSettle);
    var version, count := a.pulls[a.nextSettle].version, a.pulls[a.nextSettle].count;
    assert view.queue[0] == Ticket(version, count);
    assert view.queue[0] == Ticket(b.pulls[b.nextSettle].version, b.pulls[b.nextSettle].count);
    DrawAllIgnoresLaterStock(a.cfg.weights, a.tags, b.tags, version, output, count, version);
  }

  /** A purchase sold to an empty queue: its award is fixed by the stock it was sold on and the output
      verified at its address, for any map from addresses to outputs and on any run that settles it. */
  lemma AwardIsFixedAtSale(s: State, buyer: Key, source: Key, count: nat, version: nat, address: PullAddress,
                           ixs: seq<Instruction>, outputAt: PullAddress -> Output)
    requires Inv(s) && s.nextSettle == s.nextIndex && ApplyBuy(s, buyer, source, count, version, address).Ok?
    ensures |s.cfg.weights| <= MAX_TIERS && count <= MAX_COUNT
    ensures Inv(ApplyBuy(s, buyer, source, count, version, address).value)
    ensures var plan := DrawAll(s.cfg.weights, s.tags, |s.tags|, outputAt(address), count);
            var end := Run(ApplyBuy(s, buyer, source, count, version, address).value, ixs);
            && plan.Some?
            && (s.nextIndex < |end.log| && end.log[s.nextIndex].choice == Revealed(outputAt(address)) ==>
                  end.log[s.nextIndex].awards == AwardsOf(s.items, plan.value.picks))
  {
    hide Inv, ApplyBuy, DrawAll, ViewOf, Payment, CanPayIn, RefundAmount, Sum, Debit, NoOutcomes, Replays, AwardsOf;
    BuyEffect(s, buyer, source, count, version, address);
    BuyKeepsInv(s, buyer, source, count, version, address);
    var k := s.nextIndex;
    var sold := ApplyBuy(s, buyer, source, count, version, address).value;
    HeadIsReserved(sold);
    InvWeights(s);
    PlanExists(s.cfg.weights, s.tags, |s.tags|, outputAt(address), count);
    var end := Run(sold, ixs);
    QueueFacts(end);
    if k < |end.log| && end.log[k].choice == Revealed(outputAt(address)) {
      RunsReplay(sold, ixs, k, k + 1);
      FirstAwards(ViewOf(sold, k), end.log[k..k + 1]);
      ViewOfSale(s, sold, count);
    }
  }

  lemma InvWeights(s: State)
    requires Inv(s)
    ensures |s.cfg.weights| <= MAX_TIERS && Positive(s.cfg.weights) && ValidTags(s.tags, |s.cfg.weights|)
    ensures forall p: nat :: p in s.items ==> p < |s.tags|
  {
    hide Queued, Reserved, Timely, Solvent, Custody, Logged, Recorded, Supply;
  }

  lemma FirstAwards(view: View, log: seq<Resolution>)
    requires |log| == 1 && Replays(view, log)
    ensures |view.queue| > 0 && Replayable(view) && log[0].awards == HeadAwards(view, log[0].choice)
  {
    hide HeadAwards;
    assert Awards(log)[0] == log[0].awards && Choices(log)[0] == log[0].choice;
  }

  lemma ViewOfSale(s: State, sold: State, count: nat)
    requires Inv(s) && Waiting(sold, s.nextIndex) && sold.nextSettle == s.nextIndex
    requires sold.tags == s.tags && sold.items == s.items && sold.cfg == s.cfg && s.nextIndex in sold.pulls
    requires sold.pulls[s.nextIndex].version == |s.tags| && sold.pulls[s.nextIndex].count == count
    ensures ViewOf(sold, s.nextIndex) == View(s.cfg.weights, s.tags, s.items, [Ticket(|s.tags|, count)])
  {
    hide Inv, Below, Tickets, ValidTags, Positive;
    InvWeights(s);
    WaitingFacts(sold, s.nextIndex);
    assert s.tags[..|s.tags|] == s.tags;
    AllBelow(s.items, |s.tags|);
    OneTicket(sold.pulls, s.nextIndex);
  }

  lemma AllBelow(items: map<nat, Item>, version: nat)
    requires forall p: nat :: p in items ==> p < version
    ensures Below(items, version) == items
  {
  }

  lemma OneTicket(pulls: map<nat, Pull>, k: nat)
    requires k in pulls
    ensures Tickets(pulls, k, k) == [Ticket(pulls[k].version, pulls[k].count)]
  {
  }

  /** In particular, two continuations of the same sale: every deposit, buyback and purchase that
      lands after it may differ. */
  lemma ContinuationsAgree(s: State, left: seq<Instruction>, right: seq<Instruction>, k: nat)
    requires Waiting(s, k)
    requires k < Run(s, left).nextSettle == |Run(s, left).log|
    requires k < Run(s, right).nextSettle == |Run(s, right).log|
    requires forall i :: s.nextSettle <= i <= k ==> Run(s, left).log[i].choice == Run(s, right).log[i].choice
    ensures forall i :: s.nextSettle <= i <= k ==> Run(s, left).log[i].awards == Run(s, right).log[i].awards
  {
    LaterStockCannotSteer(s, s, left, right, k);
  }
}
