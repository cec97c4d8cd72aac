/** Settlement is total: the head purchase can always be settled before its deadline, with exactly
    the Items the linear plan names, and nothing in the draw loop can fail on its own. */
module Settlement {
  import opened Bits
  import opened Results
  import opened Stock
  import opened Draw
  import opened Protocol
  import opened Invariant
  import opened Preserve

  function PlannedRefs(picks: seq<Pick>): (refs: seq<ItemRef>)
    ensures |refs| == |picks|
    ensures forall i :: 0 <= i < |picks| ==> refs[i] == Here(picks[i].position)
  {
    seq(|picks|, i requires 0 <= i < |picks| => Here(picks[i].position))
  }

  /** In agreeing stock the planned pick's Item is live, in the right tier, and counted. */
  lemma PickIsLive(cfg: Config, d: Drawn, cutoff: nat, hash: Hash)
    requires StockAgrees(cfg, d.tags, d.remaining, d.items) && DrawOne(cfg.weights, d.tags, cutoff, hash).Some?
    ensures var pick := DrawOne(cfg.weights, d.tags, cutoff, hash).value;
            && pick.position in d.items && d.items[pick.position].tier == pick.tier
            && pick.tier < |d.remaining| && d.remaining[pick.tier] > 0
  {
    var pick := DrawOne(cfg.weights, d.tags, cutoff, hash).value;
    hide DrawOne;
    RemoveKeepsStock(cfg, d.tags, d.remaining, d.items, pick.position);
  }

  /** One iteration fails only for a wrong or closed Item account. */
  lemma DrawStepExactly(cfg: Config, cutoff: nat, ref: ItemRef, hash: Hash, i: nat, d: Drawn)
    requires StockAgrees(cfg, d.tags, d.remaining, d.items) && i < |d.outcomes|
    requires DrawOne(cfg.weights, d.tags, cutoff, hash).Some?
    ensures var r := DrawStep(cfg.weights, cutoff, ref, hash, i, d);
            && (r.Ok? <==> ref == Here(DrawOne(cfg.weights, d.tags, cutoff, hash).value.position))
            && (r.Err? ==> r.error == if LiveRef(d.items, ref) then InvalidItem else InvalidAccountOwner)
  {
    PickIsLive(cfg, d, cutoff, hash);
    StockShape(cfg, d.tags, d.remaining, d.items);
    hide StockAgrees, DrawOne;
  }

  /** The draw loop stops at its first error. */
  lemma {:induction false} DrawStepsStop(weights: seq<nat>, cutoff: nat, refs: seq<ItemRef>, output: seq<Hash>,
                              m: nat, n: nat, start: Drawn)
    requires |start.remaining| == |weights| <= MAX_TIERS
    requires m <= n <= |refs| && n <= |output| && n <= |start.outcomes|
    requires DrawSteps(weights, cutoff, refs, output, m, start).Err?
    ensures DrawSteps(weights, cutoff, refs, output, n, start) == DrawSteps(weights, cutoff, refs, output, m, start)
    decreases n
  {
    if m < n {
      DrawStepsStop(weights, cutoff, refs, output, m, n - 1, start);
    }
  }

  /** After any number of iterations the draw loop stands where the plan stands. */
  lemma LoopFollowsPlan(cfg: Config, cutoff: nat, refs: seq<ItemRef>, output: seq<Hash>, n: nat, start: Drawn)
    requires StockAgrees(cfg, start.tags, start.remaining, start.items) && start.awards == []
    requires n <= |refs| && n <= |output| && n <= |start.outcomes|
    requires DrawSteps(cfg.weights, cutoff, refs, output, n, start).Ok?
    ensures var d := DrawSteps(cfg.weights, cutoff, refs, output, n, start).value;
            && DrawAll(cfg.weights, start.tags, cutoff, output, n).Some?
            && DrawAll(cfg.weights, start.tags, cutoff, output, n).value.tags == d.tags
            && StockAgrees(cfg, d.tags, d.remaining, d.items)
  {
    DrawStepsKeepStock(cfg, cutoff, refs, output, n, start);
    DrawStepsFollowPlan(cfg.weights, cutoff, refs, output, n, start);
  }

  lemma PlanExists(weights: seq<nat>, tags: seq<u8>, cutoff: nat, output: seq<Hash>, n: nat)
    requires |weights| <= MAX_TIERS && Positive(weights) && ValidTags(tags, |weights|)
    requires n <= |output| && n <= LiveUpto(tags, cutoff)
    ensures DrawAll(weights, tags, cutoff, output, n).Some?
  {
    DrawAllSucceeds(weights, tags, cutoff, output, n);
  }

  lemma {:induction false} DrawStepsTotal(cfg: Config, cutoff: nat, refs: seq<ItemRef>, output: seq<Hash>, n: nat,
                              start: Drawn)
    requires StockAgrees(cfg, start.tags, start.remaining, start.items) && start.awards == []
    requires n <= |refs| && n <= |output| && n <= |start.outcomes|
    requires DrawAll(cfg.weights, start.tags, cutoff, output, n).Some?
    requires forall i :: 0 <= i < n ==>
               refs[i] == Here(DrawAll(cfg.weights, start.tags, cutoff, output, n).value.picks[i].position)
    ensures DrawSteps(cfg.weights, cutoff, refs, output, n, start).Ok?
  {
    hide StockAgrees, DrawOne, DrawAll, DrawStep, ValidTags;
    StockShape(cfg, start.tags, start.remaining, start.items);
    if n > 0 {
      DrawAllStep(cfg.weights, start.tags, cutoff, output, n);
      DrawStepsTotal(cfg, cutoff, refs, output, n - 1, start);
      LoopFollowsPlan(cfg, cutoff, refs, output, n - 1, start);
      DrawStepExactly(cfg, cutoff, refs[n - 1], output[n - 1], n - 1,
                      DrawSteps(cfg.weights, cutoff, refs, output, n - 1, start).value);
    }
  }

  /** Whatever Items are passed, the loop never runs out of stock and never underflows a counter. */
  lemma {:induction false} DrawStepsNeverStarve(cfg: Config, cutoff: nat, refs: seq<ItemRef>, output: seq<Hash>,
                              n: nat, start: Drawn)
    requires StockAgrees(cfg, start.tags, start.remaining, start.items) && start.awards == [] && Positive(cfg.weights)
    requires n <= |refs| && n <= |output| && n <= |start.outcomes|
    requires n <= LiveUpto(start.tags, cutoff)
    ensures DrawSteps(cfg.weights, cutoff, refs, output, n, start) != Err(SoldOut)
    ensures DrawSteps(cfg.weights, cutoff, refs, output, n, start) != Err(Abort)
  {
    StockShape(cfg, start.tags, start.remaining, start.items);
    hide StockAgrees, DrawOne, DrawAll, DrawStep, Positive, LiveUpto, ValidTags;
    if n > 0 {
      DrawStepsNeverStarve(cfg, cutoff, refs, output, n - 1, start);
      var before := DrawSteps(cfg.weights, cutoff, refs, output, n - 1, start);
      if before.Ok? {
        LoopFollowsPlan(cfg, cutoff, refs, output, n - 1, start);
        PlanExists(cfg.weights, start.tags, cutoff, output, n);
        DrawAllStep(cfg.weights, start.tags, cutoff, output, n);
        DrawStepExactly(cfg, cutoff, refs[n - 1], output[n - 1], n - 1, before.value);
      }
    }
  }

  lemma StockShape(cfg: Config, tags: seq<u8>, remaining: seq<nat>, items: map<nat, Item>)
    requires StockAgrees(cfg, tags, remaining, items)
    ensures |remaining| == |cfg.weights| <= MAX_TIERS && ValidTags(tags, |cfg.weights|)
    ensures forall p: nat :: p < |tags| && tags[p] != 0 ==> p in items
  {
  }

  /** The head of the queue: its reservation covers its own draws below its pinned version. */
  lemma HeadIsReserved(s: State)
    requires Inv(s) && s.nextSettle < s.nextIndex
    ensures var head := s.nextSettle;
            && head in s.pulls && s.pulls[head].status == Pending && s.pulls[head].index == head
            && 1 <= s.pulls[head].count <= MAX_COUNT == |s.pulls[head].outcomes|
            && s.pulls[head].count <= s.pendingDraws && head + 1 <= U64_MAX
            && s.pulls[head].version <= |s.tags|
            && s.pulls[head].count <= LiveUpto(s.tags, s.pulls[head].version)
  {
    hide StockAgrees, Timely, Solvent, Custody, Logged, Recorded, Supply, LiveUpto;
    PendingSumFront(s.pulls, s.nextSettle, s.nextIndex);
    assert PendingSum(s.pulls, s.nextSettle, s.nextSettle) == 0;
    assert PendingSum(s.pulls, s.nextSettle, s.nextSettle + 1) == s.pulls[s.nextSettle].count;
    assert PendingThrough(s.pulls, s.nextSettle, s.nextSettle) == s.pulls[s.nextSettle].count;
  }

  /** The linear plan of the head purchase for a verified output; it always exists. */
  ghost function HeadPlan(s: State, output: Output): (picks: seq<Pick>)
    requires Inv(s) && s.nextSettle < s.nextIndex
    ensures |picks| == s.pulls[s.nextSettle].count
    ensures DrawAll(s.cfg.weights, s.tags, s.pulls[s.nextSettle].version, output, |picks|).Some?
    ensures DrawAll(s.cfg.weights, s.tags, s.pulls[s.nextSettle].version, output, |picks|).value.picks == picks
  {
    HeadIsReserved(s);
    DrawAllSucceeds(s.cfg.weights, s.tags, s.pulls[s.nextSettle].version, output, s.pulls[s.nextSettle].count);
    DrawAll(s.cfg.weights, s.tags, s.pulls[s.nextSettle].version, output, s.pulls[s.nextSettle].count).value.picks
  }

  /** In every reachable state, settling the head succeeds exactly when its deadline has not passed,
      the proof verifies, and the passed accounts are the planned Items in order. */
  lemma SettleSucceedsExactly(s: State, refs: seq<ItemRef>, proof: Option<Output>)
    requires Inv(s) && Shaped(s) && s.nextSettle < s.nextIndex
    ensures s.nextSettle in s.pulls
    ensures ApplySettle(s, s.nextSettle, refs, proof).Ok? <==>
              && s.slot <= s.pulls[s.nextSettle].deadline
              && proof.Some?
              && refs == PlannedRefs(HeadPlan(s, proof.value))
  {
    hide Inv, DrawSteps, DrawAll, HeadPlan;
    HeadIsReserved(s);
    var pull := s.pulls[s.nextSettle];
    if proof.Some? && |refs| == pull.count {
      SettleLoopExactly(s, refs, proof.value);
      if refs == PlannedRefs(HeadPlan(s, proof.value)) {
        PlannedItemsAreLive(s, proof.value);
      }
    }
  }

  lemma SettleLoopExactly(s: State, refs: seq<ItemRef>, output: Output)
    requires Inv(s) && Shaped(s) && s.nextSettle < s.nextIndex && s.nextSettle in s.pulls
    requires |refs| == s.pulls[s.nextSettle].count <= MAX_COUNT == |s.pulls[s.nextSettle].outcomes|
    ensures var pull := s.pulls[s.nextSettle];
            DrawSteps(s.cfg.weights, pull.version, refs, output, pull.count,
                      Drawn(s.tags, s.remaining, s.items, pull.outcomes, [])).Ok?
            <==> refs == PlannedRefs(HeadPlan(s, output))
  {
    hide StockAgrees, Queued, Reserved, Timely, Solvent, Custody, Logged, Recorded, Supply, DrawAll, DrawSteps;
    var pull := s.pulls[s.nextSettle];
    var start := Drawn(s.tags, s.remaining, s.items, pull.outcomes, []);
    var picks := HeadPlan(s, output);
    if refs == PlannedRefs(picks) {
      DrawStepsTotal(s.cfg, pull.version, refs, output, pull.count, start);
    }
    if DrawSteps(s.cfg.weights, pull.version, refs, output, pull.count, start).Ok? {
      DrawStepsFollowPlan(s.cfg.weights, pull.version, refs, output, pull.count, start);
      assert refs == PlannedRefs(picks);
    }
  }

  lemma PlannedItemsAreLive(s: State, output: Output)
    requires Inv(s) && s.nextSettle < s.nextIndex
    ensures AllLive(s.items, PlannedRefs(HeadPlan(s, output)))
  {
    hide Queued, Reserved, Timely, Solvent, Custody, Logged, Recorded, Supply, DrawAll;
    HeadIsReserved(s);
    var picks := HeadPlan(s, output);
    DrawAllPicks(s.cfg.weights, s.tags, s.pulls[s.nextSettle].version, output, |picks|);
    StockShape(s.cfg, s.tags, s.remaining, s.items);
    hide Inv;
    assert forall i :: 0 <= i < |picks| ==> picks[i].position in s.items;
  }

  /** Settle never fails for want of stock and never aborts, whatever accounts are passed. */
  lemma SettleNeverStarves(s: State, index: nat, refs: seq<ItemRef>, proof: Option<Output>)
    requires Inv(s) && Shaped(s)
    ensures ApplySettle(s, index, refs, proof) != Err(SoldOut)
    ensures ApplySettle(s, index, refs, proof) != Err(Abort)
  {
    hide StockAgrees, Reserved, Timely, Solvent, Custody, Logged, Recorded, Supply, DrawSteps, LiveUpto, PendingSum;
    if index in s.pulls && s.pulls[index].status == Pending && s.pulls[index].index == s.nextSettle {
      HeadIsReserved(s);
      var pull := s.pulls[index];
      if proof.Some? && |refs| == pull.count {
        DrawStepsNeverStarve(s.cfg, pull.version, refs, proof.value, pull.count,
                             Drawn(s.tags, s.remaining, s.items, pull.outcomes, []));
      }
    }
  }
}
