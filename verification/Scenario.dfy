/** One sale from creation to delivery: a concrete pool meets the hypotheses of the theorems about
    pending purchases, settlements and awards. */
module Scenario {
  import opened Results
  import opened Stock
  import opened Draw
  import opened Protocol
  import opened Invariant
  import opened Preserve
  import opened Settlement
  import opened Lifecycle
  import opened Conditions
  import opened Deadlines

  const BUYER := 2

  /** Price 5, penalty 2, a deadline of 100 slots and one tier. */
  function Parameters(): Config {
    Config(1, 9, 3, map[4 := BUYER], 5, 100, 2, [1])
  }

  /** One pending purchase of one draw, bought at slot 0. */
  lemma Sold() returns (s: State)
    ensures Inv(s) && s.nextSettle == 0 && s.nextIndex == 1 && 0 in s.pulls
    ensures s.pulls[0].version == 1 && s.pulls[0].count == 1 && s.pulls[0].buyer == BUYER
    ensures s.slot <= s.pulls[0].deadline && s.items == map[0 := Item(0, ASSET)] && s.cfg == Parameters()
  {
    hide Inv, MayBuy, ApplyBuy, Payment, CanPayIn, Sum, Debit, Launch, Launched, Opening, Funding;
    ParametersAreAccepted();
    var created, ready := DeadlineDecides(Parameters(), 0);
    hide RefundAmount, Create;
    InvShaped(ready);
    var address := PullAddress(0, 255);
    BuyEffect(ready, BUYER, Wallet(Parameters()), 1, 1, address);
    BuyKeepsInv(ready, BUYER, Wallet(Parameters()), 1, 1, address);
    s := ApplyBuy(ready, BUYER, Wallet(Parameters()), 1, 1, address).value;
    MayBuyVersion(ready, BUYER, Wallet(Parameters()), address);
  }

  lemma ParametersAreAccepted()
    ensures Create(Parameters(), 0, map[], map[], 0).Ok?
  {
  }

  lemma MayBuyVersion(s: State, buyer: Key, source: Key, address: PullAddress)
    requires MayBuy(s, buyer, source, 1, 1, address)
    ensures |s.tags| == 1
  {
  }

  /** Whatever the verified output, it settles with the only Item, and the award reaches the buyer. */
  lemma OneSale(output: Output) returns (sold: State, settled: State, delivered: State)
    ensures Inv(sold) && sold.nextSettle < sold.nextIndex
    ensures Shaped(sold) && ApplySettle(sold, 0, [Here(0)], Some(output)) == Ok(settled) && Inv(settled)
    ensures Promised(settled.items, settled.pulls, Awarded(0, 0))
    ensures ApplyDeliver(settled, 0, 0, ASSET) == Ok(delivered) && Owns(delivered.owners, BUYER, ASSET)
  {
    sold := Sold();
    InvShaped(sold);
    OnlyPlan(sold, output);
    SettleSucceedsExactly(sold, [Here(0)], Some(output));
    settled := ApplySettle(sold, 0, [Here(0)], Some(output)).value;
    SettleKeepsInv(sold, 0, [Here(0)], Some(output));
    FirstAward(sold, output, settled);
    hide Inv, ApplySettle, ApplyDeliver;
    AwardsAreDeliverable(settled, 0, 0);
    delivered := ApplyDeliver(settled, 0, 0, ASSET).value;
  }

  lemma OnlyPlan(s: State, output: Output)
    requires Inv(s) && s.nextSettle == 0 < s.nextIndex && 0 in s.pulls
    requires s.pulls[0].version == 1 && s.pulls[0].count == 1
    ensures PlannedRefs(HeadPlan(s, output)) == [Here(0)]
  {
    hide Inv, DrawAll;
    HeadIsReserved(s);
    var picks := HeadPlan(s, output);
    InvShaped(s);
    DrawAllPicks(s.cfg.weights, s.tags, 1, output, 1);
    assert picks[0].position < 1;
  }

  lemma FirstAward(s: State, output: Output, next: State)
    requires Inv(s) && Shaped(s) && ApplySettle(s, 0, [Here(0)], Some(output)) == Ok(next)
    requires 0 in s.pulls && s.pulls[0].buyer == BUYER && s.items == map[0 := Item(0, ASSET)]
    ensures Promised(next.items, next.pulls, Awarded(0, 0))
    ensures next.pulls[0].outcomes[0].asset == ASSET && next.pulls[0].buyer == BUYER
  {
    hide Inv, ApplySettle, DrawSteps, DrawAll;
    SettleEffectOf(s, 0, [Here(0)], Some(output));
    var pull := s.pulls[0];
    var start := Drawn(s.tags, s.remaining, s.items, pull.outcomes, []);
    DrawStepsFollowPlan(s.cfg.weights, pull.version, [Here(0)], output, 1, start);
  }

}
