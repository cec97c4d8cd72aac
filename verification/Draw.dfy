/** Drawing a prize: the tier from the first hash word, its rank in the tier from the second. */
module Draw {
  import opened Bits
  import opened Results
  import opened Stock

  /** The two little-endian `u64` words a draw reads from its hash. */
  datatype Hash = Hash(roll: nat, rank: nat)
  datatype Pick = Pick(tier: nat, position: nat)
  datatype Plan = Plan(picks: seq<Pick>, tags: seq<u8>)

  /** Total weight of the nonempty tiers below `n`. */
  function Weight(weights: seq<nat>, counts: seq<nat>, n: nat): nat
    requires n <= |weights| <= |counts|
  {
    if n == 0 then 0
    else Weight(weights, counts, n - 1) + if counts[n - 1] > 0 then weights[n - 1] else 0
  }

  /** The tier whose share of the eligible weight contains `roll`. */
  function TierAt(weights: seq<nat>, counts: seq<nat>, n: nat, roll: nat): (tier: nat)
    requires n <= |weights| <= |counts| && roll < Weight(weights, counts, n)
    ensures tier < n && counts[tier] > 0
    ensures Weight(weights, counts, tier) <= roll < Weight(weights, counts, tier + 1)
  {
    if roll >= Weight(weights, counts, n - 1) then n - 1 else TierAt(weights, counts, n - 1, roll)
  }

  lemma {:induction false} WeightMonotone(weights: seq<nat>, counts: seq<nat>, m: nat, n: nat)
    requires m <= n <= |weights| <= |counts|
    ensures Weight(weights, counts, m) <= Weight(weights, counts, n)
    decreases n - m
  {
    if m < n {
      WeightMonotone(weights, counts, m, n - 1);
    }
  }

  /** Shares are disjoint: a roll inside a tier's share selects that tier. */
  lemma TierAtUnique(weights: seq<nat>, counts: seq<nat>, n: nat, roll: nat, tier: nat)
    requires tier < n <= |weights| <= |counts|
    requires Weight(weights, counts, tier) <= roll < Weight(weights, counts, tier + 1)
    ensures roll < Weight(weights, counts, n) && TierAt(weights, counts, n, roll) == tier
  {
    WeightMonotone(weights, counts, tier + 1, n);
    var chosen := TierAt(weights, counts, n, roll);
    if chosen < tier {
      WeightMonotone(weights, counts, chosen + 1, tier);
    } else if tier < chosen {
      WeightMonotone(weights, counts, tier + 1, chosen);
    }
  }

  /** `Pool::draw_tier`: two passes over the tiers with a running roll. The error after the second
      pass is unreachable. */
  method DrawTier(weights: seq<nat>, counts: seq<nat>, word: nat) returns (r: Result<nat>)
    requires |weights| <= |counts|
    ensures var total := Weight(weights, counts, |weights|);
            r == if total == 0 then Err(SoldOut) else Ok(TierAt(weights, counts, |weights|, word % total))
  {
    var total := 0;
    for i := 0 to |weights|
      invariant total == Weight(weights, counts, i)
    {
      if counts[i] > 0 {
        total := total + weights[i];
      }
    }
    if total == 0 {
      return Err(SoldOut);
    }
    ghost var drawn := word % total;
    var roll := word % total;
    for i := 0 to |weights|
      invariant 0 <= roll && drawn == Weight(weights, counts, i) + roll
    {
      if counts[i] == 0 {
        continue;
      }
      if roll < weights[i] {
        TierAtUnique(weights, counts, |weights|, drawn, i);
        return Ok(i);
      }
      roll := roll - weights[i];
    }
    assert false;
  }

  // ---- Odds ----

  /** How many of the words below `n` select `tier`. */
  function Selecting(weights: seq<nat>, counts: seq<nat>, tier: nat, n: nat): (hits: nat)
    requires tier < |weights| <= |counts| && Weight(weights, counts, |weights|) > 0
    ensures hits <= n
  {
    if n == 0 then 0
    else
      var total := Weight(weights, counts, |weights|);
      Selecting(weights, counts, tier, n - 1)
      + if TierAt(weights, counts, |weights|, (n - 1) % total) == tier then 1 else 0
  }

  lemma SmallMod(x: nat, d: nat)
    requires x < d
    ensures x % d == x
  {
  }

  lemma MulStep(a: nat, b: nat, c: nat)
    requires a < b
    ensures a * c + c <= b * c
  {
    var k := b - a - 1;
    assert 0 <= k * c;
    assert b * c == (a + 1 + k) * c == a * c + c + k * c;
  }

  lemma DivMod(x: nat, d: nat)
    requires d > 0
    ensures x == x / d * d + x % d && x % d < d
  {
  }

  lemma ModUnique(x: nat, d: nat, q: nat, r: nat)
    requires r < d && x == q * d + r
    ensures x % d == r
  {
    var p, m := x / d, x % d;
    DivMod(x, d);
    if q > p {
      MulStep(p, q, d);
    } else if q < p {
      MulStep(q, p, d);
    }
  }

  lemma ModPeriod(x: nat, d: nat)
    requires 0 < d
    ensures (x + d) % d == x % d
  {
    var q, r := x / d, x % d;
    assert (q + 1) * d == q * d + d;
    ModUnique(x + d, d, q + 1, r);
  }

  lemma SelectingStep(weights: seq<nat>, counts: seq<nat>, tier: nat, n: nat)
    requires tier < |weights| <= |counts| && Weight(weights, counts, |weights|) > 0 && n > 0
    ensures var roll := (n - 1) % Weight(weights, counts, |weights|);
            Selecting(weights, counts, tier, n) == Selecting(weights, counts, tier, n - 1)
              + if Weight(weights, counts, tier) <= roll < Weight(weights, counts, tier + 1) then 1 else 0
  {
    var roll := (n - 1) % Weight(weights, counts, |weights|);
    if Weight(weights, counts, tier) <= roll < Weight(weights, counts, tier + 1) {
      TierAtUnique(weights, counts, |weights|, roll, tier);
    }
  }

  function Clamp(n: nat, from: nat, to: nat): (inside: nat)
    requires from <= to
    ensures inside <= to - from
  {
    if n <= from then 0 else if n <= to then n - from else to - from
  }

  lemma NothingSelected(weights: seq<nat>, counts: seq<nat>, tier: nat)
    requires tier < |weights| <= |counts| && Weight(weights, counts, |weights|) > 0
    ensures Selecting(weights, counts, tier, 0) == 0
  {
  }

  /** Within one period the hits are the rolls already past the start of the tier's share. */
  lemma {:induction false} SelectingWithinPeriod(weights: seq<nat>, counts: seq<nat>, tier: nat, n: nat)
    requires tier < |weights| <= |counts| && Weight(weights, counts, |weights|) > 0
    requires n <= Weight(weights, counts, |weights|)
    ensures Selecting(weights, counts, tier, n)
            == Clamp(n, Weight(weights, counts, tier), Weight(weights, counts, tier + 1))
  {
    hide Selecting, TierAt, Weight;
    if n == 0 {
      NothingSelected(weights, counts, tier);
    } else {
      SelectingWithinPeriod(weights, counts, tier, n - 1);
      SelectingStep(weights, counts, tier, n);
      SmallMod(n - 1, Weight(weights, counts, |weights|));
    }
  }

  /** Over all rolls below the eligible total a nonempty tier is chosen for exactly its weight's
      number of rolls, and an empty tier for none. */
  lemma OddsAreExactlyWeighted(weights: seq<nat>, counts: seq<nat>, tier: nat)
    requires tier < |weights| <= |counts| && Weight(weights, counts, |weights|) > 0
    ensures Selecting(weights, counts, tier, Weight(weights, counts, |weights|))
            == if counts[tier] > 0 then weights[tier] else 0
  {
    WeightMonotone(weights, counts, tier + 1, |weights|);
    SelectingWithinPeriod(weights, counts, tier, Weight(weights, counts, |weights|));
  }

  lemma {:induction false} SelectingPeriodic(weights: seq<nat>, counts: seq<nat>, tier: nat, n: nat)
    requires tier < |weights| <= |counts| && Weight(weights, counts, |weights|) > 0
    ensures var total := Weight(weights, counts, |weights|);
            Selecting(weights, counts, tier, n + total)
            == Selecting(weights, counts, tier, n) + Selecting(weights, counts, tier, total)
  {
    hide Weight, TierAt;
    if n > 0 {
      var total := Weight(weights, counts, |weights|);
      hide Selecting;
      SelectingPeriodic(weights, counts, tier, n - 1);
      SelectingStep(weights, counts, tier, n);
      SelectingStep(weights, counts, tier, n + total);
      assert n - 1 + total == n + total - 1;
      ModPeriod(n - 1, total);
    }
  }

  /** The hits differ from the ideal share `n * w / total` by less than `w`, scaled by `total`. */
  ghost predicate WithinWeight(hits: nat, n: nat, w: nat, total: nat) {
    -(w * total) < hits * total - n * w < w * total
  }

  lemma BiasWithinPeriod(n: nat, from: nat, w: nat, total: nat)
    requires 0 < w && from + w <= total && n < total
    ensures WithinWeight(Clamp(n, from, from + w), n, w, total)
  {
    var hits := Clamp(n, from, from + w);
    MulStep(n, total, w); // n * w + w <= total * w
    Commute(w, total);
    if hits < w {
      MulStep(hits, w, total); // hits * total + total <= w * total
      NonNegative(hits, total);
      NonNegative(n, w);
    } else {
      MulStep(0, n, w); // w <= n * w
    }
  }

  lemma Commute(a: nat, b: nat)
    ensures a * b == b * a
  {
  }

  lemma NonNegative(a: nat, b: nat)
    ensures a * b >= 0
  {
  }

  lemma BiasPeriodic(hits: nat, n: nat, w: nat, total: nat)
    requires total <= n && WithinWeight(hits, n - total, w, total)
    ensures WithinWeight(hits + w, n, w, total)
  {
    assert (hits + w) * total == hits * total + w * total;
    assert (n - total) * w == n * w - total * w;
  }

  lemma ShareFits(weights: seq<nat>, counts: seq<nat>, tier: nat)
    requires tier < |weights| <= |counts| && counts[tier] > 0
    ensures Weight(weights, counts, tier + 1) == Weight(weights, counts, tier) + weights[tier]
    ensures Weight(weights, counts, tier + 1) <= Weight(weights, counts, |weights|)
  {
    WeightMonotone(weights, counts, tier + 1, |weights|);
  }

  /** Reducing any number of words modulo the total (2^64 of them on chain) moves a tier's count off
      its ideal share `n * weight / total` by less than its weight. */
  lemma {:induction false} ModuloBiasBelowWeight(weights: seq<nat>, counts: seq<nat>, tier: nat, n: nat)
    requires tier < |weights| <= |counts| && counts[tier] > 0 && weights[tier] > 0
    ensures var total := Weight(weights, counts, |weights|);
            total > 0 && WithinWeight(Selecting(weights, counts, tier, n), n, weights[tier], total)
  {
    hide WithinWeight, Weight, TierAt, Selecting, Clamp;
    var total := Weight(weights, counts, |weights|);
    ShareFits(weights, counts, tier);
    if n < total {
      SelectingWithinPeriod(weights, counts, tier, n);
      BiasWithinPeriod(n, Weight(weights, counts, tier), weights[tier], total);
    } else {
      ModuloBiasBelowWeight(weights, counts, tier, n - total);
      SelectingPeriodic(weights, counts, tier, n - total);
      OddsAreExactlyWeighted(weights, counts, tier);
      BiasPeriodic(Selecting(weights, counts, tier, n - total), n, weights[tier], total);
    }
  }

  // ---- Ranks ----

  /** How many of the words below `n` select `rank` among `count` candidates. */
  function RankHits(count: nat, rank: nat, n: nat): (hits: nat)
    requires rank < count
    ensures hits <= n
  {
    if n == 0 then 0 else RankHits(count, rank, n - 1) + if (n - 1) % count == rank then 1 else 0
  }

  lemma {:induction false} RankHitsWithinPeriod(count: nat, rank: nat, n: nat)
    requires rank < count && n <= count
    ensures RankHits(count, rank, n) == Clamp(n, rank, rank + 1)
  {
    if n > 0 {
      RankHitsWithinPeriod(count, rank, n - 1);
      SmallMod(n - 1, count);
    }
  }

  lemma {:induction false} RankHitsPeriodic(count: nat, rank: nat, n: nat)
    requires rank < count
    ensures RankHits(count, rank, n + count) == RankHits(count, rank, n) + 1
  {
    if n == 0 {
      RankHitsWithinPeriod(count, rank, count);
    } else {
      RankHitsPeriodic(count, rank, n - 1);
      ModPeriod(n - 1, count);
      assert n - 1 + count == n + count - 1;
    }
  }

  /** Ranks are uniform: over the words below any `n` a candidate's hits differ from `n / count` by less
      than one, and over one period it is hit exactly once. */
  lemma {:induction false} RanksAreUniform(count: nat, rank: nat, n: nat)
    requires rank < count
    ensures WithinWeight(RankHits(count, rank, n), n, 1, count)
    ensures RankHits(count, rank, count) == 1
  {
    hide WithinWeight, RankHits, Clamp;
    OneRankPerPeriod(count, rank);
    if n < count {
      RankHitsWithinPeriod(count, rank, n);
      BiasWithinPeriod(n, rank, 1, count);
    } else {
      RanksAreUniform(count, rank, n - count);
      RankHitsPeriodic(count, rank, n - count);
      BiasPeriodic(RankHits(count, rank, n - count), n, 1, count);
    }
  }

  lemma OneRankPerPeriod(count: nat, rank: nat)
    requires rank < count
    ensures RankHits(count, rank, count) == 1
  {
    RankHitsWithinPeriod(count, rank, count);
  }

  // ---- One purchase's draws ----

  /** One draw from the prizes below `cutoff`; `None` when none is left. */
  function DrawOne(weights: seq<nat>, tags: seq<u8>, cutoff: nat, hash: Hash): (pick: Option<Pick>)
    requires |weights| <= MAX_TIERS
    ensures pick.Some? ==>
              && pick.value.tier < |weights| && pick.value.position < cutoff && pick.value.position < |tags|
              && tags[pick.value.position] == pick.value.tier + 1
  {
    var counts := Available(tags, MAX_TIERS, cutoff);
    var total := Weight(weights, counts, |weights|);
    if total == 0 then None
    else
      var tier := TierAt(weights, counts, |weights|, hash.roll % total);
      var rank := hash.rank % counts[tier];
      CandidateRank(tags, tier, cutoff, rank);
      Some(Pick(tier, Candidates(tags, tier, cutoff)[rank]))
  }

  // ---- Odds of one prize ----

  /** How many rank words below `m`, with this roll word, draw position `p`. */
  function RowHits(weights: seq<nat>, tags: seq<u8>, cutoff: nat, p: nat, roll: nat, m: nat): nat
    requires |weights| <= MAX_TIERS
  {
    if m == 0 then 0
    else
      RowHits(weights, tags, cutoff, p, roll, m - 1)
      + if Draws(weights, tags, cutoff, p, Hash(roll, m - 1)) then 1 else 0
  }

  predicate Draws(weights: seq<nat>, tags: seq<u8>, cutoff: nat, p: nat, hash: Hash)
    requires |weights| <= MAX_TIERS
  {
    var pick := DrawOne(weights, tags, cutoff, hash);
    pick.Some? && pick.value.position == p
  }

  /** How many pairs of a roll word below `n` and a rank word below `m` draw position `p`. */
  function PositionHits(weights: seq<nat>, tags: seq<u8>, cutoff: nat, p: nat, n: nat, m: nat): nat
    requires |weights| <= MAX_TIERS
  {
    if n == 0 then 0
    else PositionHits(weights, tags, cutoff, p, n - 1, m) + RowHits(weights, tags, cutoff, p, n - 1, m)
  }

  /** A prize that is eligible for a draw. */
  ghost predicate Eligible(weights: seq<nat>, tags: seq<u8>, cutoff: nat, p: nat, tier: nat) {
    && tier < |weights| <= MAX_TIERS && weights[tier] > 0
    && p < cutoff && p < |tags| && tags[p] == tier + 1
  }

  lemma EligibleCounts(weights: seq<nat>, tags: seq<u8>, cutoff: nat, p: nat, tier: nat)
    requires Eligible(weights, tags, cutoff, p, tier)
    ensures var counts := Available(tags, MAX_TIERS, cutoff);
            Upto(tags, tier, p) < counts[tier] && weights[tier] <= Weight(weights, counts, |weights|)
  {
    RankDeterminesPosition(tags, tier, cutoff, p);
    ShareFits(weights, Available(tags, MAX_TIERS, cutoff), tier);
  }

  /** A draw takes a prize exactly when its words name the prize's tier and its rank. */
  lemma DrawsByTierAndRank(weights: seq<nat>, tags: seq<u8>, cutoff: nat, p: nat, tier: nat, hash: Hash)
    requires Eligible(weights, tags, cutoff, p, tier)
    ensures var counts := Available(tags, MAX_TIERS, cutoff);
            var total := Weight(weights, counts, |weights|);
            && total > 0 && counts[tier] > 0
            && (Draws(weights, tags, cutoff, p, hash) <==>
                TierAt(weights, counts, |weights|, hash.roll % total) == tier
                && hash.rank % counts[tier] == Upto(tags, tier, p))
  {
    EligibleCounts(weights, tags, cutoff, p, tier);
    RankDeterminesPosition(tags, tier, cutoff, p);
    var counts := Available(tags, MAX_TIERS, cutoff);
    if TierAt(weights, counts, |weights|, hash.roll % Weight(weights, counts, |weights|)) == tier {
      CandidateRank(tags, tier, cutoff, hash.rank % counts[tier]);
    }
  }

  lemma {:induction false} RowIsRankHits(weights: seq<nat>, tags: seq<u8>, cutoff: nat, p: nat, tier: nat,
                                         roll: nat, m: nat)
    requires Eligible(weights, tags, cutoff, p, tier)
    ensures var counts := Available(tags, MAX_TIERS, cutoff);
            var total := Weight(weights, counts, |weights|);
            && total > 0 && Upto(tags, tier, p) < counts[tier]
            && RowHits(weights, tags, cutoff, p, roll, m)
               == if TierAt(weights, counts, |weights|, roll % total) == tier
                  then RankHits(counts[tier], Upto(tags, tier, p), m) else 0
  {
    hide Draws, Weight, TierAt, Upto, Eligible;
    EligibleCounts(weights, tags, cutoff, p, tier);
    DrawsByTierAndRank(weights, tags, cutoff, p, tier, Hash(roll, 0));
    if m > 0 {
      RowIsRankHits(weights, tags, cutoff, p, tier, roll, m - 1);
      DrawsByTierAndRank(weights, tags, cutoff, p, tier, Hash(roll, m - 1));
    }
  }

  lemma {:induction false} PositionHitsSplit(weights: seq<nat>, tags: seq<u8>, cutoff: nat, p: nat, tier: nat,
                                             n: nat, m: nat)
    requires Eligible(weights, tags, cutoff, p, tier)
    ensures var counts := Available(tags, MAX_TIERS, cutoff);
            && Weight(weights, counts, |weights|) > 0 && Upto(tags, tier, p) < counts[tier]
            && PositionHits(weights, tags, cutoff, p, n, m)
               == Selecting(weights, counts, tier, n) * RankHits(counts[tier], Upto(tags, tier, p), m)
  {
    hide RowHits, Weight, TierAt, Upto, RankHits, DrawOne, Draws;
    RowIsRankHits(weights, tags, cutoff, p, tier, 0, m);
    if n > 0 {
      PositionHitsSplit(weights, tags, cutoff, p, tier, n - 1, m);
      RowIsRankHits(weights, tags, cutoff, p, tier, n - 1, m);
      var counts := Available(tags, MAX_TIERS, cutoff);
      Distribute(Selecting(weights, counts, tier, n - 1), Selecting(weights, counts, tier, n),
                 RankHits(counts[tier], Upto(tags, tier, p), m), RowHits(weights, tags, cutoff, p, n - 1, m));
    }
  }

  lemma Distribute(a: nat, next: nat, b: nat, row: nat)
    requires (next == a + 1 && row == b) || (next == a && row == 0)
    ensures next * b == a * b + row
  {
    assert (a + 1) * b == a * b + b;
  }

  /** The odds of one prize: its hits among all pairs of words are the hits of its tier times the hits of
      its rank, each within its bound; over one period of both words they are exactly its tier's weight,
      the same for every prize of the tier. */
  lemma PrizeOdds(weights: seq<nat>, tags: seq<u8>, cutoff: nat, p: nat, tier: nat, n: nat, m: nat)
    requires Eligible(weights, tags, cutoff, p, tier)
    ensures var counts := Available(tags, MAX_TIERS, cutoff);
            var total := Weight(weights, counts, |weights|);
            && total > 0 && Upto(tags, tier, p) < counts[tier]
            && var rolls, ranks := Selecting(weights, counts, tier, n), RankHits(counts[tier], Upto(tags, tier, p), m);
               && PositionHits(weights, tags, cutoff, p, n, m) == rolls * ranks
               && WithinWeight(rolls, n, weights[tier], total) && WithinWeight(ranks, m, 1, counts[tier])
               && PositionHits(weights, tags, cutoff, p, total, counts[tier]) == weights[tier]
  {
    var counts := Available(tags, MAX_TIERS, cutoff);
    EligibleCounts(weights, tags, cutoff, p, tier);
    hide Weight, Upto, Selecting, RankHits, PositionHits, WithinWeight, TierAt;
    var total := Weight(weights, counts, |weights|);
    PositionHitsSplit(weights, tags, cutoff, p, tier, n, m);
    PositionHitsSplit(weights, tags, cutoff, p, tier, total, counts[tier]);
    ModuloBiasBelowWeight(weights, counts, tier, n);
    OddsAreExactlyWeighted(weights, counts, tier);
    RanksAreUniform(counts[tier], Upto(tags, tier, p), m);
  }

  /** The first `n` draws, each removing its prize before the next. */
  function DrawAll(weights: seq<nat>, tags: seq<u8>, cutoff: nat, hashes: seq<Hash>, n: nat): (plan: Option<Plan>)
    requires |weights| <= MAX_TIERS && n <= |hashes|
    ensures plan.Some? ==> |plan.value.picks| == n && |plan.value.tags| == |tags|
  {
    if n == 0 then Some(Plan([], tags))
    else
      match DrawAll(weights, tags, cutoff, hashes, n - 1)
      case None => None
      case Some(before) =>
        match DrawOne(weights, before.tags, cutoff, hashes[n - 1])
        case None => None
        case Some(pick) => Some(Plan(before.picks + [pick], before.tags[pick.position := 0]))
  }

  ghost predicate Positive(weights: seq<nat>) {
    forall t :: 0 <= t < |weights| ==> weights[t] > 0
  }

  lemma {:induction false} NoWeightNoStock(weights: seq<nat>, tags: seq<u8>, cutoff: nat, n: nat)
    requires n <= |weights| <= MAX_TIERS && Positive(weights)
    requires Weight(weights, Available(tags, MAX_TIERS, cutoff), n) == 0
    ensures forall t :: 0 <= t < n ==> Upto(tags, t, cutoff) == 0
  {
    if n > 0 {
      NoWeightNoStock(weights, tags, cutoff, n - 1);
    }
  }

  /** A draw finds a prize exactly when any prize is available below the cutoff. */
  lemma DrawOneSucceeds(weights: seq<nat>, tags: seq<u8>, cutoff: nat, hash: Hash)
    requires |weights| <= MAX_TIERS && Positive(weights) && ValidTags(tags, |weights|)
    ensures DrawOne(weights, tags, cutoff, hash).Some? <==> LiveUpto(tags, cutoff) > 0
  {
    TiersPartitionStock(tags, |weights|, cutoff);
    var counts := Available(tags, |weights|, cutoff);
    if DrawOne(weights, tags, cutoff, hash).Some? {
      SumBound(counts, DrawOne(weights, tags, cutoff, hash).value.tier);
    } else {
      NoWeightNoStock(weights, tags, cutoff, |weights|);
      SumZero(counts);
    }
  }

  /** `n` draws succeed exactly when `n` prizes are available below the cutoff, and they lower the
      stock of every longer prefix by exactly `n`. */
  lemma {:induction false} DrawAllSucceeds(weights: seq<nat>, tags: seq<u8>, cutoff: nat, hashes: seq<Hash>, n: nat)
    requires |weights| <= MAX_TIERS && n <= |hashes| && Positive(weights) && ValidTags(tags, |weights|)
    ensures DrawAll(weights, tags, cutoff, hashes, n).Some? <==> LiveUpto(tags, cutoff) >= n
    ensures DrawAll(weights, tags, cutoff, hashes, n).Some? ==>
              var after := DrawAll(weights, tags, cutoff, hashes, n).value.tags;
              && ValidTags(after, |weights|)
              && forall m :: m >= cutoff ==> LiveUpto(after, m) == LiveUpto(tags, m) - n
  {
    hide DrawOne;
    if n > 0 {
      DrawAllSucceeds(weights, tags, cutoff, hashes, n - 1);
      var plan := DrawAll(weights, tags, cutoff, hashes, n - 1);
      if plan.Some? {
        var before := plan.value.tags;
        DrawOneSucceeds(weights, before, cutoff, hashes[n - 1]);
        assert LiveUpto(before, cutoff) == LiveUpto(tags, cutoff) - (n - 1);
        var pick := DrawOne(weights, before, cutoff, hashes[n - 1]);
        if pick.Some? {
          var p := pick.value.position;
          forall m | m >= cutoff
            ensures LiveUpto(before[p := 0], m) == LiveUpto(before, m) - 1
          {
            UptoRemove(before, p, 0, m);
          }
        }
      }
    }
  }

  lemma NoDrawsYet(weights: seq<nat>, tags: seq<u8>, cutoff: nat, hashes: seq<Hash>)
    requires |weights| <= MAX_TIERS
    ensures DrawAll(weights, tags, cutoff, hashes, 0) == Some(Plan([], tags))
  {
  }

  /** A plan is built by adding one pick to the shorter plan. */
  lemma DrawAllStep(weights: seq<nat>, tags: seq<u8>, cutoff: nat, hashes: seq<Hash>, n: nat)
    requires |weights| <= MAX_TIERS && 0 < n <= |hashes| && DrawAll(weights, tags, cutoff, hashes, n).Some?
    ensures var shorter := DrawAll(weights, tags, cutoff, hashes, n - 1);
            var plan := DrawAll(weights, tags, cutoff, hashes, n).value;
            && shorter.Some?
            && DrawOne(weights, shorter.value.tags, cutoff, hashes[n - 1]) == Some(plan.picks[n - 1])
            && plan.picks == shorter.value.picks + [plan.picks[n - 1]]
            && plan.picks[n - 1].position < |tags|
            && plan.tags == shorter.value.tags[plan.picks[n - 1].position := 0]
  {
  }

  /** The picks of a plan: distinct positions below the cutoff that carried their tier's tag, and
      exactly these tags are cleared. */
  lemma {:induction false} DrawAllPicks(weights: seq<nat>, tags: seq<u8>, cutoff: nat, hashes: seq<Hash>, n: nat)
    requires |weights| <= MAX_TIERS && n <= |hashes| && DrawAll(weights, tags, cutoff, hashes, n).Some?
    ensures var plan := DrawAll(weights, tags, cutoff, hashes, n).value;
            && (forall i :: 0 <= i < n ==> var pick := plan.picks[i];
                  && pick.tier < |weights| && pick.position < cutoff && pick.position < |tags|
                  && tags[pick.position] == pick.tier + 1 && plan.tags[pick.position] == 0)
            && (forall i, j :: 0 <= i < j < n ==> plan.picks[i].position != plan.picks[j].position)
            && (forall p :: 0 <= p < |tags| ==>
                  (plan.tags[p] == tags[p]
                   || (plan.tags[p] == 0 && exists i :: 0 <= i < n && plan.picks[i].position == p)))
  {
    hide DrawOne, DrawAll;
    if n == 0 {
      NoDrawsYet(weights, tags, cutoff, hashes);
    } else {
      DrawAllStep(weights, tags, cutoff, hashes, n);
      DrawAllPicks(weights, tags, cutoff, hashes, n - 1);
      var before := DrawAll(weights, tags, cutoff, hashes, n - 1).value;
      var plan := DrawAll(weights, tags, cutoff, hashes, n).value;
      var last := plan.picks[n - 1];
      assert before.tags[last.position] == last.tier + 1;
      forall p | 0 <= p < |tags|
        ensures plan.tags[p] == tags[p] ||
                (plan.tags[p] == 0 && exists i :: 0 <= i < n && plan.picks[i].position == p)
      {
        if p == last.position {
          assert plan.picks[n - 1].position == p;
        } else if before.tags[p] != tags[p] {
          var i :| 0 <= i < n - 1 && before.picks[i].position == p;
          assert plan.picks[i].position == p;
        }
      }
    }
  }

  /** Positions at or past the cutoff cannot influence a purchase's draws. */
  lemma {:induction false} DrawAllIgnoresLaterStock(weights: seq<nat>, tags: seq<u8>, other: seq<u8>, cutoff: nat,
                                                    hashes: seq<Hash>, n: nat, pinned: nat)
    requires |weights| <= MAX_TIERS && n <= |hashes|
    requires cutoff <= pinned <= |tags| && pinned <= |other| && tags[..pinned] == other[..pinned]
    ensures var left, right := DrawAll(weights, tags, cutoff, hashes, n), DrawAll(weights, other, cutoff, hashes, n);
            && (left.Some? <==> right.Some?)
            && (left.Some? ==> left.value.picks == right.value.picks
                               && left.value.tags[..pinned] == right.value.tags[..pinned])
  {
    hide DrawOne;
    if n > 0 {
      DrawAllIgnoresLaterStock(weights, tags, other, cutoff, hashes, n - 1, pinned);
      var left, right := DrawAll(weights, tags, cutoff, hashes, n - 1), DrawAll(weights, other, cutoff, hashes, n - 1);
      if left.Some? {
        DrawOneIgnoresLaterStock(weights, left.value.tags, right.value.tags, cutoff, hashes[n - 1], pinned);
      }
    }
  }

  lemma DrawOneIgnoresLaterStock(weights: seq<nat>, tags: seq<u8>, other: seq<u8>, cutoff: nat, hash: Hash, pinned: nat)
    requires |weights| <= MAX_TIERS
    requires cutoff <= pinned <= |tags| && pinned <= |other| && tags[..pinned] == other[..pinned]
    ensures DrawOne(weights, tags, cutoff, hash) == DrawOne(weights, other, cutoff, hash)
  {
    forall t | 0 <= t < MAX_TIERS
      ensures Upto(tags, t, cutoff) == Upto(other, t, cutoff)
      ensures Candidates(tags, t, cutoff) == Candidates(other, t, cutoff)
    {
      assert forall p :: 0 <= p < cutoff ==> tags[..pinned][p] == other[..pinned][p];
      UptoAgree(tags, other, t, cutoff);
    }
    assert Available(tags, MAX_TIERS, cutoff) == Available(other, MAX_TIERS, cutoff);
  }
}
