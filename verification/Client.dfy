/** The two off-chain clients: snapshot validation, settlement planning by a linear scan, and what
    they report about a pool. */
module Client {
  import opened Bits
  import opened Results
  import opened Stock
  import opened Draw
  import opened Index
  import opened Protocol
  import opened Invariant
  import opened Settlement
  import opened Runs
  import opened Queue
  import opened Pinned
  import opened Conditions

  /** An owned copy of a pool account: header fields and the bytes of its index, which are missing
      when only the header was fetched. */
  datatype Snapshot = Snapshot(cfg: Config, status: nat, version: nat, remaining: seq<nat>,
                               pendingDraws: nat, nextSettle: nat, index: seq<u8>)

  /** The Pull fields the planner reads. */
  datatype PullView = PullView(pool: Key, settled: bool, count: nat, version: nat, index: nat)

  function Tag(index: seq<u8>, position: nat): u8
    requires (position / TAGS_PER_BLOCK + 1) * BLOCK_LEN <= |index|
  {
    TagAt(index, position / TAGS_PER_BLOCK, position % TAGS_PER_BLOCK)
  }

  lemma PositionInSpace(position: nat, version: nat)
    requires position < version
    ensures (position / TAGS_PER_BLOCK + 1) * BLOCK_LEN <= Space(version)
  {
  }

  /** The tags an index stores for its positions. */
  ghost function TagsOf(index: seq<u8>, version: nat): (tags: seq<u8>)
    requires |index| == Space(version)
    ensures |tags| == version
    ensures forall p: nat :: p < version ==> (p / TAGS_PER_BLOCK + 1) * BLOCK_LEN <= |index| && tags[p] == Tag(index, p)
  {
    forall p: nat | p < version
      ensures (p / TAGS_PER_BLOCK + 1) * BLOCK_LEN <= Space(version)
    {
      PositionInSpace(p, version);
    }
    seq(version, p requires 0 <= p < version => Tag(index, p))
  }

  lemma TagsOfIndex(data: seq<u8>, tags: seq<u8>)
    requires Represents(data, tags)
    ensures |data| == Space(|tags|) && TagsOf(data, |tags|) == tags
  {
    hide NodesMatch;
    forall p: nat | p < |tags|
      ensures TagsOf(data, |tags|)[p] == tags[p]
    {
      PositionInSpace(p, |tags|);
      assert TagAt(data, p / TAGS_PER_BLOCK, p % TAGS_PER_BLOCK) == TagOf(tags, p);
    }
  }

  // ---- Snapshot validation ----

  ghost predicate HeaderAccepted(p: Snapshot) {
    && 1 <= |p.cfg.weights| <= MAX_TIERS && |p.remaining| == |p.cfg.weights|
    && p.status <= 2
    && (p.index == [] || |p.index| == Space(p.version))
    && p.cfg.price != 0 && p.cfg.bond != 0 && p.cfg.deadlineSlots != 0
    && RefundAmount(p.cfg, MAX_COUNT).Ok?
    && 0 !in p.cfg.weights
  }

  /** What `from_account` accepts: a sane header and an index whose tags agree with it. */
  ghost predicate Accepted(p: Snapshot) {
    && HeaderAccepted(p)
    && (p.index != [] ==>
          && ValidTags(TagsOf(p.index, p.version), |p.cfg.weights|)
          && p.remaining == Available(TagsOf(p.index, p.version), |p.cfg.weights|, p.version))
  }

  /** What a client knows of a fetched account besides the pool: its owner, the layout version and the
      bump in its data. */
  datatype Account = Account(ownedByProgram: bool, layout: nat, bump: nat)

  /** The addresses a client derives: the canonical one for the pool's authority and id, with its bump,
      and that pool's vault. */
  datatype Derived = Derived(pool: Key, bump: nat, vault: Key)

  predicate Genuine(a: Account, p: Snapshot, d: Derived) {
    && a.ownedByProgram && a.layout == 1
    && d.pool == p.cfg.pool && d.bump == a.bump && d.vault == p.cfg.vault
  }

  lemma AcceptedMeans(p: Snapshot)
    requires |p.remaining| == |p.cfg.weights|
    ensures Accepted(p) <==>
              && 1 <= |p.cfg.weights| <= 8 && (forall t :: 0 <= t < |p.cfg.weights| ==> p.cfg.weights[t] > 0)
              && p.status <= 2 && p.cfg.price > 0 && p.cfg.bond > 0 && p.cfg.deadlineSlots > 0
              && (p.cfg.price + p.cfg.bond) * 10 <= U64_MAX
              && (p.index == []
                  || (&& |p.index| == (p.version + 63) / 64 * 96
                      && var tags := TagsOf(p.index, p.version);
                         && (forall q :: 0 <= q < p.version ==> tags[q] <= |p.cfg.weights|)
                         && forall t :: 0 <= t < |p.cfg.weights| ==> p.remaining[t] == Upto(tags, t, p.version)))
  {
    hide Upto;
    assert Owed(p.cfg, MAX_COUNT) == (p.cfg.price + p.cfg.bond) * 10;
    if HeaderAccepted(p) && p.index != [] {
      var counts := Available(TagsOf(p.index, p.version), |p.cfg.weights|, p.version);
      assert p.remaining == counts <==> forall t :: 0 <= t < |counts| ==> p.remaining[t] == counts[t];
    }
  }

  method FromAccount(a: Account, p: Snapshot, d: Derived) returns (r: Result<Snapshot>)
    requires |p.remaining| == |p.cfg.weights|
    ensures r == if Genuine(a, p, d) && Accepted(p) then Ok(p) else Err(InvalidAccount)
    ensures r.Ok? <==>
              && a.ownedByProgram && a.layout == 1
              && d.pool == p.cfg.pool && d.bump == a.bump && d.vault == p.cfg.vault
              && 1 <= |p.cfg.weights| <= 8 && (forall t :: 0 <= t < |p.cfg.weights| ==> p.cfg.weights[t] > 0)
              && p.status <= 2 && p.cfg.price > 0 && p.cfg.bond > 0 && p.cfg.deadlineSlots > 0
              && (p.cfg.price + p.cfg.bond) * 10 <= U64_MAX
              && (p.index == []
                  || (&& |p.index| == (p.version + 63) / 64 * 96
                      && var tags := TagsOf(p.index, p.version);
                         && (forall q :: 0 <= q < p.version ==> tags[q] <= |p.cfg.weights|)
                         && forall t :: 0 <= t < |p.cfg.weights| ==> p.remaining[t] == Upto(tags, t, p.version)))
  {
    AcceptedMeans(p);
    hide TagsOf, Upto;
    if !a.ownedByProgram || a.layout != 1 {
      return Err(InvalidAccount);
    }
    if |p.cfg.weights| < 1 || |p.cfg.weights| > MAX_TIERS || p.status > 2
       || (p.index != [] && |p.index| != Space(p.version))
       || d.pool != p.cfg.pool || d.bump != a.bump || d.vault != p.cfg.vault
       || p.cfg.price == 0 || p.cfg.bond == 0 || p.cfg.deadlineSlots == 0
       || RefundAmount(p.cfg, MAX_COUNT).Err? || 0 in p.cfg.weights {
      return Err(InvalidAccount);
    }
    if p.index != [] {
      var agrees := IndexAgrees(p);
      if !agrees {
        return Err(InvalidAccount);
      }
    }
    return Ok(p);
  }

  /** Recount the tags of a fetched index and compare with the header. */
  method IndexAgrees(p: Snapshot) returns (agrees: bool)
    requires |p.remaining| == |p.cfg.weights| <= MAX_TIERS && |p.index| == Space(p.version)
    ensures agrees <==>
              && ValidTags(TagsOf(p.index, p.version), |p.cfg.weights|)
              && p.remaining == Available(TagsOf(p.index, p.version), |p.cfg.weights|, p.version)
  {
    hide TagsOf, Upto;
    ghost var tags := TagsOf(p.index, p.version);
    var counts: seq<nat> := seq(MAX_TIERS, _ => 0);
    for position := 0 to p.version
      invariant counts == Available(tags, MAX_TIERS, position)
      invariant forall q :: 0 <= q < position ==> tags[q] <= |p.cfg.weights|
    {
      PositionInSpace(position, p.version);
      var tag := Tag(p.index, position);
      assert tag == tags[position];
      if tag > |p.cfg.weights| {
        return false;
      }
      CountTag(tags, position);
      if tag > 0 {
        counts := counts[tag as int - 1 := counts[tag as int - 1] + 1];
      }
    }
    for t := 0 to |p.cfg.weights|
      invariant forall u :: 0 <= u < t ==> p.remaining[u] == counts[u]
    {
      if p.remaining[t] != counts[t] {
        return false;
      }
    }
    assert p.remaining == Available(tags, |p.cfg.weights|, p.version);
    return true;
  }

  lemma CountTag(tags: seq<u8>, position: nat)
    requires position < |tags|
    ensures forall t :: 0 <= t < MAX_TIERS ==>
              Upto(tags, t, position + 1) == Upto(tags, t, position) + if tags[position] == t + 1 then 1 else 0
  {
  }

  /** The account of a pool state, as a client fetches it. */
  ghost predicate SnapshotOf(p: Snapshot, s: State) {
    && p.cfg == s.cfg && p.status == (if s.status == Paused then 0 else if s.status == Active then 1 else 2)
    && p.version == |s.tags| && p.remaining == s.remaining
    && p.pendingDraws == s.pendingDraws && p.nextSettle == s.nextSettle
    && Represents(p.index, s.tags)
  }

  /** Every reachable pool passes validation: header counters, index and tags always agree. */
  lemma ReachablePoolsAreAccepted(p: Snapshot, s: State)
    requires Inv(s) && SnapshotOf(p, s)
    ensures Accepted(p)
  {
    TagsOfIndex(p.index, s.tags);
    hide Represents, Queued, Reserved, Timely, Solvent, Custody, Logged, Recorded, Supply;
    assert Owed(s.cfg, MAX_COUNT) == (s.cfg.price + s.cfg.bond) * 10;
  }

  // ---- Planning a settlement ----

  /** `Pool::pending`. */
  function CheckPending(p: Snapshot, pull: PullView): Option<Error> {
    if pull.pool != p.cfg.pool then Some(WrongPool)
    else if pull.settled then Some(NotPending)
    else if pull.index != p.nextSettle then Some(NotNextInQueue)
    else if pull.version > p.version then Some(InvalidAccount)
    else None
  }

  function PlanRefusal(p: Snapshot, pull: PullView, proof: Option<Output>): Option<Error> {
    if CheckPending(p, pull).Some? then CheckPending(p, pull)
    else if |p.index| != Space(p.version) then Some(MissingInventory)
    else if proof.None? then Some(InvalidProof)
    else None
  }

  /** The plan both clients compute. */
  ghost function ClientPlan(p: Snapshot, pull: PullView, proof: Option<Output>): Result<seq<Pick>>
    requires Accepted(p) && pull.count <= MAX_COUNT
  {
    if PlanRefusal(p, pull, proof).Some? then Err(PlanRefusal(p, pull, proof).value)
    else
      match DrawAll(p.cfg.weights, TagsOf(p.index, p.version), pull.version, proof.value, pull.count)
      case None => Err(InvalidAccount)
      case Some(plan) => Ok(plan.picks)
  }

  /** When a client plans, what it plans, and otherwise which error it gives, first check first. */
  ghost predicate PlansAsPromised(p: Snapshot, pull: PullView, proof: Option<Output>, r: Result<seq<Pick>>)
    requires Accepted(p) && pull.count <= MAX_COUNT
  {
    var head := pull.pool == p.cfg.pool && !pull.settled && pull.index == p.nextSettle;
    var pinned, complete := head && pull.version <= p.version, |p.index| == (p.version + 63) / 64 * 96;
    && (r == Err(WrongPool) <==> pull.pool != p.cfg.pool)
    && (r == Err(NotPending) <==> pull.pool == p.cfg.pool && pull.settled)
    && (r == Err(NotNextInQueue) <==> pull.pool == p.cfg.pool && !pull.settled && pull.index != p.nextSettle)
    && (r == Err(MissingInventory) <==> pinned && !complete)
    && (r == Err(InvalidProof) <==> pinned && complete && proof.None?)
    && (r.Err? ==> r.error in {WrongPool, NotPending, NotNextInQueue, MissingInventory, InvalidProof, InvalidAccount})
    && (r.Ok? ==> pinned && complete && proof.Some?)
    && (pinned && complete && proof.Some? ==>
          var tags := TagsOf(p.index, p.version);
          && (r.Ok? <==> pull.count <= LiveUpto(tags, pull.version))
          && (r.Ok? ==> DrawAll(p.cfg.weights, tags, pull.version, proof.value, pull.count).Some?
                        && r.value == DrawAll(p.cfg.weights, tags, pull.version, proof.value, pull.count).value.picks))
  }

  lemma PlanOutcome(p: Snapshot, pull: PullView, proof: Option<Output>)
    requires Accepted(p) && pull.count <= MAX_COUNT
    ensures PlansAsPromised(p, pull, proof, ClientPlan(p, pull, proof))
  {
    hide DrawAll, TagsOf, LiveUpto;
    if |p.index| == Space(p.version) {
      EmptyIndex(p);
      if proof.Some? {
        DrawAllSucceeds(p.cfg.weights, TagsOf(p.index, p.version), pull.version, proof.value, pull.count);
      }
    }
  }

  /** The candidate lists of a pinned prefix. */
  ghost predicate ListsCandidates(candidates: seq<seq<nat>>, tags: seq<u8>, tiers: nat, n: nat) {
    |candidates| == tiers && forall t :: 0 <= t < tiers ==> candidates[t] == Candidates(tags, t, n)
  }

  /** Both clients start by listing the available positions below the pinned version, tier by tier. */
  method ListCandidates(p: Snapshot, version: nat) returns (candidates: seq<seq<nat>>)
    requires Accepted(p) && |p.index| == Space(p.version) && version <= p.version
    ensures ListsCandidates(candidates, TagsOf(p.index, p.version), |p.cfg.weights|, version)
  {
    hide TagsOf, Upto;
    ghost var tags := TagsOf(p.index, p.version);
    EmptyIndex(p);
    hide Accepted;
    candidates := seq(|p.cfg.weights|, _ => []);
    for position := 0 to version
      invariant ListsCandidates(candidates, tags, |p.cfg.weights|, position)
    {
      PositionInSpace(position, p.version);
      var tag := Tag(p.index, position);
      assert tag == tags[position] <= |p.cfg.weights|;
      hide Tag;
      if tag > 0 {
        candidates := candidates[tag as int - 1 := candidates[tag as int - 1] + [position]];
      }
    }
  }

  lemma EmptyIndex(p: Snapshot)
    requires Accepted(p) && |p.index| == Space(p.version)
    ensures ValidTags(TagsOf(p.index, p.version), |p.cfg.weights|)
  {
    if p.index == [] {
      assert p.version == 0;
    }
  }

  /** Removing the drawn entry from its list keeps the lists those of the stock without the prize. */
  lemma RemoveCandidate(candidates: seq<seq<nat>>, tags: seq<u8>, tiers: nat, n: nat, tier: nat, rank: nat)
    requires ListsCandidates(candidates, tags, tiers, n) && tier < tiers && rank < |candidates[tier]|
    ensures var p := candidates[tier][rank];
            && p < |tags|
            && ListsCandidates(candidates[tier := candidates[tier][..rank] + candidates[tier][rank + 1..]],
                               tags[p := 0], tiers, n)
  {
    var p := candidates[tier][rank];
    CandidateRank(tags, tier, n, rank);
    forall t | 0 <= t < tiers
      ensures Candidates(tags[p := 0], t, n)
              == if t == tier then candidates[tier][..rank] + candidates[tier][rank + 1..] else candidates[t]
    {
      CandidatesRemove(tags, p, t, n);
    }
  }

  /** The candidate counts are the available counts, padded to the program's eight tiers. */
  lemma CountsAreAvailable(weights: seq<nat>, candidates: seq<seq<nat>>, counts: seq<nat>, tags: seq<u8>, n: nat,
                           m: nat)
    requires m <= |weights| == |candidates| <= MAX_TIERS == |counts|
    requires ListsCandidates(candidates, tags, |weights|, n)
    requires forall t :: 0 <= t < |candidates| ==> counts[t] == |candidates[t]|
    ensures Weight(weights, counts, m) == Weight(weights, Available(tags, MAX_TIERS, n), m)
    ensures forall roll: nat :: roll < Weight(weights, counts, m) ==>
              TierAt(weights, counts, m, roll) == TierAt(weights, Available(tags, MAX_TIERS, n), m, roll)
  {
    if m > 0 {
      CountsAreAvailable(weights, candidates, counts, tags, n, m - 1);
    }
  }

  /** One planned draw, in terms of the candidate lists. */
  lemma PlanStep(weights: seq<nat>, tags: seq<u8>, cutoff: nat, output: Output, i: nat, n: nat, before: Plan,
                 candidates: seq<seq<nat>>)
    requires |weights| <= MAX_TIERS && i < n <= MAX_COUNT
    requires DrawAll(weights, tags, cutoff, output, i) == Some(before)
    requires ListsCandidates(candidates, before.tags, |weights|, cutoff)
    ensures var counts := Available(before.tags, MAX_TIERS, cutoff);
            var total := Weight(weights, counts, |weights|);
            if total == 0 then DrawAll(weights, tags, cutoff, output, n).None?
            else
              var tier := TierAt(weights, counts, |weights|, output[i].roll % total);
              && |candidates[tier]| == counts[tier] > 0
              && var rank := output[i].rank % |candidates[tier]|;
                 var position := candidates[tier][rank];
                 && position < |before.tags|
                 && DrawAll(weights, tags, cutoff, output, i + 1)
                    == Some(Plan(before.picks + [Pick(tier, position)], before.tags[position := 0]))
                 && ListsCandidates(candidates[tier := candidates[tier][..rank] + candidates[tier][rank + 1..]],
                                    before.tags[position := 0], |weights|, cutoff)
  {
    hide Upto, Candidates, Weight, TierAt;
    var counts := Available(before.tags, MAX_TIERS, cutoff);
    var total := Weight(weights, counts, |weights|);
    if total == 0 {
      assert DrawAll(weights, tags, cutoff, output, i + 1).None?;
      DrawAllStops(weights, tags, cutoff, output, i + 1, n);
    } else {
      var tier := TierAt(weights, counts, |weights|, output[i].roll % total);
      RemoveCandidate(candidates, before.tags, |weights|, cutoff, tier, output[i].rank % |candidates[tier]|);
    }
  }

  /** `Pool::settle` of the Rust client: shares the program's weighted choice, removes by rank. */
  method PlanInRust(p: Snapshot, pull: PullView, proof: Option<Output>) returns (r: Result<seq<Pick>>)
    requires Accepted(p) && pull.count <= MAX_COUNT
    ensures r == ClientPlan(p, pull, proof)
    ensures PlansAsPromised(p, pull, proof, r)
  {
    hide DrawAll, TagsOf, Upto, Candidates, Weight, TierAt, PlansAsPromised;
    PlanOutcome(p, pull, proof);
    if PlanRefusal(p, pull, proof).Some? {
      return Err(PlanRefusal(p, pull, proof).value);
    }
    var candidates := ListCandidates(p, pull.version);
    ghost var tags := TagsOf(p.index, p.version);
    var weights := p.cfg.weights;
    hide PlanRefusal, Accepted;
    ghost var plan := Plan([], tags);
    var draws: seq<Pick> := [];
    NoDrawsYet(weights, tags, pull.version, proof.value);
    for i := 0 to pull.count
      invariant DrawAll(weights, tags, pull.version, proof.value, i) == Some(plan) && draws == plan.picks
      invariant ListsCandidates(candidates, plan.tags, |weights|, pull.version)
    {
      var hash := proof.value[i];
      var counts: seq<nat> := CandidateCounts(candidates);
      CountsAreAvailable(weights, candidates, counts, plan.tags, pull.version, |weights|);
      PlanStep(weights, tags, pull.version, proof.value, i, pull.count, plan, candidates);
      var drawn := DrawTier(weights, counts, hash.roll);
      if drawn.Err? {
        return Err(InvalidAccount);
      }
      var tier := drawn.value;
      var rank := hash.rank % counts[tier];
      var position := candidates[tier][rank];
      candidates := candidates[tier := candidates[tier][..rank] + candidates[tier][rank + 1..]];
      draws := draws + [Pick(tier, position)];
      plan := Plan(draws, plan.tags[position := 0]);
    }
    return Ok(draws);
  }

  function CandidateCounts(candidates: seq<seq<nat>>): (counts: seq<nat>)
    requires |candidates| <= MAX_TIERS
    ensures |counts| == MAX_TIERS && forall t :: 0 <= t < |candidates| ==> counts[t] == |candidates[t]|
  {
    seq(MAX_TIERS, t requires 0 <= t < MAX_TIERS => if t < |candidates| then |candidates[t]| else 0)
  }

  lemma {:induction false} DrawAllStops(weights: seq<nat>, tags: seq<u8>, cutoff: nat, hashes: seq<Hash>, m: nat,
                              n: nat)
    requires |weights| <= MAX_TIERS && m <= n <= |hashes| && DrawAll(weights, tags, cutoff, hashes, m).None?
    ensures DrawAll(weights, tags, cutoff, hashes, n).None?
    decreases n
  {
    if m < n {
      DrawAllStops(weights, tags, cutoff, hashes, m, n - 1);
    }
  }

  /** `Pool.settle` of the TypeScript client: the weighted choice written out on big integers. */
  method PlanInTypeScript(p: Snapshot, pull: PullView, proof: Option<Output>) returns (r: Result<seq<Pick>>)
    requires Accepted(p) && pull.count <= MAX_COUNT
    ensures r == ClientPlan(p, pull, proof)
    ensures PlansAsPromised(p, pull, proof, r)
  {
    hide DrawAll, TagsOf, Upto, Candidates, Weight, TierAt, PlansAsPromised;
    PlanOutcome(p, pull, proof);
    if PlanRefusal(p, pull, proof).Some? {
      return Err(PlanRefusal(p, pull, proof).value);
    }
    var candidates := ListCandidates(p, pull.version);
    ghost var tags := TagsOf(p.index, p.version);
    var weights := p.cfg.weights;
    hide PlanRefusal, Accepted;
    ghost var plan := Plan([], tags);
    var selected: seq<Pick> := [];
    NoDrawsYet(weights, tags, pull.version, proof.value);
    for i := 0 to pull.count
      invariant DrawAll(weights, tags, pull.version, proof.value, i) == Some(plan) && selected == plan.picks
      invariant ListsCandidates(candidates, plan.tags, |weights|, pull.version)
    {
      var hash := proof.value[i];
      ghost var counts := Available(plan.tags, MAX_TIERS, pull.version);
      PlanStep(weights, tags, pull.version, proof.value, i, pull.count, plan, candidates);
      var total := EligibleTotal(candidates, weights, counts);
      if total == 0 {
        return Err(InvalidAccount);
      }
      var tier := PickTier(candidates, weights, hash.roll % total, counts);
      var rank := hash.rank % |candidates[tier]|;
      var position := candidates[tier][rank];
      candidates := candidates[tier := candidates[tier][..rank] + candidates[tier][rank + 1..]];
      selected := selected + [Pick(tier, position)];
      plan := Plan(selected, plan.tags[position := 0]);
    }
    return Ok(selected);
  }

  /** The weights of the tiers with candidates left, summed. */
  method EligibleTotal(candidates: seq<seq<nat>>, weights: seq<nat>, ghost counts: seq<nat>) returns (total: nat)
    requires |candidates| == |weights| <= |counts|
    requires forall t :: 0 <= t < |weights| ==> counts[t] == |candidates[t]|
    ensures total == Weight(weights, counts, |weights|)
  {
    total := 0;
    for t := 0 to |weights|
      invariant total == Weight(weights, counts, t)
    {
      total := total + if |candidates[t]| > 0 then weights[t] else 0;
    }
  }

  /** The roll loop of the TypeScript client; it always breaks at a nonempty tier. */
  method PickTier(candidates: seq<seq<nat>>, weights: seq<nat>, drawn: nat, ghost counts: seq<nat>) returns (tier: nat)
    requires |candidates| == |weights| <= |counts|
    requires forall t :: 0 <= t < |weights| ==> counts[t] == |candidates[t]|
    requires drawn < Weight(weights, counts, |weights|)
    ensures tier == TierAt(weights, counts, |weights|, drawn)
  {
    var roll := drawn;
    tier := 0;
    while tier < |candidates|
      invariant tier <= |candidates| && drawn == Weight(weights, counts, tier) + roll
    {
      if |candidates[tier]| != 0 {
        if roll < weights[tier] {
          TierAtUnique(weights, counts, |weights|, drawn, tier);
          return;
        }
        roll := roll - weights[tier];
      }
      tier := tier + 1;
    }
  }

  // ---- The plan is the on-chain draw ----

  /** A client that fetched a reachable pool plans its head purchase for any verified output; the plan
      stays right, however stale the snapshot, until that purchase is resolved. After any run that has
      not resolved it, settling with the planned Items succeeds before the deadline, and settling with
      any other list of Items fails. */
  lemma PlansAreWhatTheChainDraws(p: Snapshot, s: State, ixs: seq<Instruction>, output: Output, refs: seq<ItemRef>)
    requires Inv(s) && SnapshotOf(p, s) && s.nextSettle < s.nextIndex
    requires Run(s, ixs).nextSettle == s.nextSettle
    ensures Accepted(p) && s.nextSettle in s.pulls && s.pulls[s.nextSettle].count <= MAX_COUNT
    ensures var pull, now := s.pulls[s.nextSettle], Run(s, ixs);
            var plan := ClientPlan(p, PullView(s.cfg.pool, false, pull.count, pull.version, pull.index), Some(output));
            && plan.Ok? && Shaped(now)
            && (ApplySettle(now, s.nextSettle, refs, Some(output)).Ok? <==>
                now.slot <= pull.deadline && refs == PlannedRefs(plan.value))
  {
    hide Inv, ApplySettle, Represents, Accepted, ClientPlan, HeadPlan, ViewOf;
    var now := Run(s, ixs);
    ReachablePoolsAreAccepted(p, s);
    HeadIsReserved(s);
    InvShaped(now);
    RunKeepsView(s, ixs, s.nextSettle);
    HeadPlanOfView(s, now, output);
    RunKeepsTerms(s, ixs, s.nextSettle);
    SettleSucceedsExactly(now, refs, Some(output));
    SnapshotPlan(p, s, output);
  }

  /** The client's plan from a fresh snapshot is the linear plan of the head. */
  lemma SnapshotPlan(p: Snapshot, s: State, output: Output)
    requires Inv(s) && SnapshotOf(p, s) && Accepted(p) && s.nextSettle < s.nextIndex
    requires s.nextSettle in s.pulls && s.pulls[s.nextSettle].count <= MAX_COUNT
    ensures var pull := s.pulls[s.nextSettle];
            ClientPlan(p, PullView(s.cfg.pool, false, pull.count, pull.version, pull.index), Some(output))
            == Ok(HeadPlan(s, output))
  {
    HeadIsReserved(s);
    TagsOfIndex(p.index, s.tags);
    hide Inv, Represents, Accepted;
    var picks := HeadPlan(s, output);
  }

  // ---- What a client reports ----

  /** `spendable_balance`: saturating, because execution rechecks the balance. */
  function SpendableBalance(p: Snapshot, vault: nat): Result<nat> {
    match RefundAmount(p.cfg, p.pendingDraws)
    case Err(_) => Err(InvalidAccount)
    case Ok(reserved) => Ok(if reserved <= vault then vault - reserved else 0)
  }

  function Min(a: nat, b: nat): nat {
    if a <= b then a else b
  }

  /** Draws whose penalty the surplus covers: each one's price arrives with its payment. */
  function Funded(free: nat, bond: nat): nat
    requires bond > 0
  {
    free / bond
  }

  /** `available_draws`. */
  function AvailableDraws(p: Snapshot, vault: nat): Result<nat>
    requires p.cfg.bond > 0
  {
    if p.status != 1 then Ok(0)
    else if Sum(p.remaining) < p.pendingDraws then Err(InvalidAccount)
    else
      match SpendableBalance(p, vault)
      case Err(e) => Err(e)
      case Ok(free) => Ok(Min(Min(Sum(p.remaining) - p.pendingDraws, Funded(free, p.cfg.bond)), MAX_COUNT))
  }

  lemma AffordableDraws(count: nat, bond: nat, free: nat)
    requires bond > 0
    ensures count <= Funded(free, bond) <==> count * bond <= free
  {
    DivMod(free, bond);
    var q := free / bond;
    if count <= q {
      Commute(count, bond);
      if count < q {
        MulStep(count, q, bond);
      }
    } else {
      MulStep(q, count, bond);
    }
  }

  lemma OwedSplits(cfg: Config, pending: nat, count: nat)
    ensures Owed(cfg, pending + count) == Owed(cfg, pending) + cfg.price * count + count * cfg.bond
  {
    var unit := cfg.price + cfg.bond;
    assert unit * (pending + count) == unit * pending + unit * count;
    assert unit * count == cfg.price * count + cfg.bond * count;
  }

  /** What the clients report for any accepted snapshot and vault balance: nothing unless active, an error
      when the header contradicts itself, and otherwise the largest number of at most ten draws that the
      stock and the surplus cover; a short vault covers none. */
  lemma AvailableDrawsOutcome(p: Snapshot, vault: nat, count: nat)
    requires p.cfg.bond > 0 && p.cfg.price + p.cfg.bond <= U64_MAX
    ensures var r, reserved := AvailableDraws(p, vault), (p.cfg.price + p.cfg.bond) * p.pendingDraws;
            && (p.status != 1 ==> r == Ok(0))
            && (r == Err(InvalidAccount) <==>
                p.status == 1 && (Sum(p.remaining) < p.pendingDraws || reserved > U64_MAX))
            && (r.Err? ==> r.error == InvalidAccount)
            && (r.Ok? && p.status == 1 ==>
                  (count <= r.value <==>
                    && count <= 10 && p.pendingDraws + count <= Sum(p.remaining)
                    && (count == 0 || reserved + count * p.cfg.bond <= vault)))
  {
    hide Sum, Owed, Funded;
    OwedIs(p.cfg, p.pendingDraws);
    if count > 0 {
      CountCosts(count, p.cfg.bond);
    }
    var free := if Owed(p.cfg, p.pendingDraws) <= vault then vault - Owed(p.cfg, p.pendingDraws) else 0;
    AffordableDraws(count, p.cfg.bond, free);
  }

  lemma OwedIs(cfg: Config, count: nat)
    ensures Owed(cfg, count) == (cfg.price + cfg.bond) * count
  {
  }

  lemma CountCosts(count: nat, bond: nat)
    requires count > 0 && bond > 0
    ensures count * bond > 0
  {
  }

  lemma SpendableBalanceOutcome(p: Snapshot, vault: nat)
    requires p.cfg.price + p.cfg.bond <= U64_MAX
    ensures var reserved := (p.cfg.price + p.cfg.bond) * p.pendingDraws;
            SpendableBalance(p, vault)
            == if reserved > U64_MAX then Err(InvalidAccount)
               else if vault < reserved then Ok(0)
               else Ok(vault - reserved)
  {
  }

  /** `available_draws` is exact: a reachable pool, in any status, accepts a purchase of 1 to 10 draws
      at its current version, with every other requirement met, if and only if the count is at most
      the reported number. */
  lemma AvailableDrawsIsExact(p: Snapshot, s: State, buyer: Key, source: Key, count: nat, address: PullAddress)
    requires Inv(s) && SnapshotOf(p, s) && p.cfg.bond > 0 && 1 <= count <= MAX_COUNT
    requires buyer != s.cfg.pool && !AddressInUse(s.pulls, address)
    requires s.slot + s.cfg.deadlineSlots <= U64_MAX && s.nextIndex < U64_MAX
    requires CanPayIn(s.cfg, s.wallets, source, s.cfg.price * count)
    ensures AvailableDraws(p, s.vault).Ok?
    ensures ApplyBuy(s, buyer, source, count, p.version, address).Ok? <==> count <= AvailableDraws(p, s.vault).value
  {
    hide Inv, SnapshotOf, ApplyBuy, AvailableDraws, CanPayIn, AddressInUse;
    if s.status == Active {
      ActivePoolsReportExactly(p, s, buyer, source, count, address);
    } else {
      ClosedPoolsReportNone(p, s, buyer, source, count, address);
    }
  }

  lemma ClosedPoolsReportNone(p: Snapshot, s: State, buyer: Key, source: Key, count: nat, address: PullAddress)
    requires SnapshotOf(p, s) && p.cfg.bond > 0 && s.status != Active
    ensures AvailableDraws(p, s.vault) == Ok(0) && ApplyBuy(s, buyer, source, count, p.version, address).Err?
  {
    hide Represents;
  }

  lemma ActivePoolsReportExactly(p: Snapshot, s: State, buyer: Key, source: Key, count: nat, address: PullAddress)
    requires Inv(s) && SnapshotOf(p, s) && s.status == Active && p.cfg.bond > 0 && 1 <= count <= MAX_COUNT
    requires buyer != s.cfg.pool && !AddressInUse(s.pulls, address)
    requires s.slot + s.cfg.deadlineSlots <= U64_MAX && s.nextIndex < U64_MAX
    requires CanPayIn(s.cfg, s.wallets, source, s.cfg.price * count)
    ensures AvailableDraws(p, s.vault).Ok?
    ensures ApplyBuy(s, buyer, source, count, p.version, address).Ok? <==> count <= AvailableDraws(p, s.vault).value
  {
    hide Inv, SnapshotOf, Owed, Sum, ApplyBuy, AvailableDraws, CanPayIn, AddressInUse, Funded;
    FundsFacts(s, count);
    var stock, free := ReportedDraws(p, s);
    PaymentFits(s, source, s.cfg.price * count);
    AffordableDraws(count, s.cfg.bond, free);
    OwedSplits(s.cfg, s.pendingDraws, count);
    BuyNeedsStockAndCollateral(s, buyer, source, count, address);
    Covers(count, stock, Funded(free, s.cfg.bond), count * s.cfg.bond, free, Owed(s.cfg, s.pendingDraws),
           s.cfg.price * count);
  }

  /** Each draw's own price arrives with its payment, so the surplus need only cover the penalties. */
  lemma Covers(count: nat, stock: nat, funded: nat, penalties: nat, free: nat, reserved: nat, payment: nat)
    requires count <= MAX_COUNT && (count <= funded <==> penalties <= free)
    ensures count <= Min(Min(stock, funded), MAX_COUNT)
            <==> count <= stock && reserved + payment + penalties <= reserved + free + payment
  {
  }

  lemma ReportedDraws(p: Snapshot, s: State) returns (stock: nat, free: nat)
    requires Inv(s) && SnapshotOf(p, s) && s.status == Active && p.cfg.bond > 0
    ensures s.cfg == p.cfg && p.version == |s.tags|
    ensures s.pendingDraws + stock == Sum(s.remaining)
    ensures Owed(s.cfg, s.pendingDraws) + free == s.vault
    ensures AvailableDraws(p, s.vault) == Ok(Min(Min(stock, Funded(free, p.cfg.bond)), MAX_COUNT))
  {
    hide Inv, Represents, Owed, Sum, Funded;
    FundsFacts(s, 1);
    PendingIsStocked(s);
    stock, free := Sum(s.remaining) - s.pendingDraws, s.vault - Owed(s.cfg, s.pendingDraws);
  }

  /** With every other requirement met, Buy succeeds exactly when stock and collateral suffice. */
  lemma BuyNeedsStockAndCollateral(s: State, buyer: Key, source: Key, count: nat, address: PullAddress)
    requires s.status == Active && 1 <= count <= MAX_COUNT && buyer != s.cfg.pool && !AddressInUse(s.pulls, address)
    requires s.vault + s.cfg.price * count <= U64_MAX && s.pendingDraws + count <= U64_MAX
    requires s.cfg.price + s.cfg.bond <= U64_MAX
    requires s.slot + s.cfg.deadlineSlots <= U64_MAX && s.nextIndex < U64_MAX
    requires CanPayIn(s.cfg, s.wallets, source, s.cfg.price * count)
    ensures ApplyBuy(s, buyer, source, count, |s.tags|, address).Ok? <==>
              && s.pendingDraws + count <= Sum(s.remaining)
              && Owed(s.cfg, s.pendingDraws + count) <= s.vault + s.cfg.price * count
  {
    hide Owed, Sum;
  }
}
