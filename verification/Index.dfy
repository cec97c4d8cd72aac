/** The availability index: 96-byte blocks of eight little-endian Fenwick counts and 64 tags,
    updated in place inside the pool account's data. */
module Index {
  import opened Bits
  import opened Results
  import opened Stock

  const BLOCK_LEN := 96
  const COUNTS_LEN := 32
  const TAGS_PER_BLOCK := 64

  /** Index bytes needed for a number of positions. */
  function Space(positions: nat): nat {
    (positions + TAGS_PER_BLOCK - 1) / TAGS_PER_BLOCK * BLOCK_LEN
  }

  lemma SpaceInBlocks(positions: nat)
    ensures Space(positions + 1) == (positions / TAGS_PER_BLOCK + 1) * BLOCK_LEN
    ensures positions % TAGS_PER_BLOCK == 0 ==> Space(positions) == positions / TAGS_PER_BLOCK * BLOCK_LEN
    ensures positions % TAGS_PER_BLOCK != 0 ==> Space(positions) == Space(positions + 1)
  {
  }

  /** One more position needs the same space or one block more. */
  lemma OneMoreSpace(positions: nat)
    ensures Space(positions) % BLOCK_LEN == 0 && positions <= Space(positions) / BLOCK_LEN * TAGS_PER_BLOCK
    ensures Space(positions) / BLOCK_LEN * BLOCK_LEN == Space(positions)
    ensures Space(positions + 1) != Space(positions) ==>
              && Space(positions + 1) == Space(positions) + BLOCK_LEN
              && Space(positions + 1) / BLOCK_LEN == Space(positions) / BLOCK_LEN + 1
  {
  }

  function CountAt(data: seq<u8>, node: nat, tier: nat): nat
    requires 1 <= node && node * BLOCK_LEN <= |data| && tier < MAX_TIERS
  {
    var start := (node - 1) * BLOCK_LEN + tier * 4;
    data[start] as int + 0x100 * data[start + 1] as int
    + 0x1_0000 * data[start + 2] as int + 0x100_0000 * data[start + 3] as int
  }

  /** The bytes after storing a little-endian `u32` count. */
  function WithCount(data: seq<u8>, node: nat, tier: nat, count: nat): (stored: seq<u8>)
    requires 1 <= node && node * BLOCK_LEN <= |data| && tier < MAX_TIERS && count <= U32_MAX
    ensures |stored| == |data|
  {
    var start := (node - 1) * BLOCK_LEN + tier * 4;
    data[start := count % 0x100]
        [start + 1 := count / 0x100 % 0x100]
        [start + 2 := count / 0x1_0000 % 0x100]
        [start + 3 := count / 0x100_0000]
  }

  function TagAt(data: seq<u8>, block: nat, offset: nat): u8
    requires (block + 1) * BLOCK_LEN <= |data| && offset < TAGS_PER_BLOCK
  {
    data[block * BLOCK_LEN + COUNTS_LEN + offset]
  }

  lemma LittleEndian(count: nat)
    requires count <= U32_MAX
    ensures count == count % 0x100 + 0x100 * (count / 0x100 % 0x100)
                     + 0x1_0000 * (count / 0x1_0000 % 0x100) + 0x100_0000 * (count / 0x100_0000)
  {
    assert count / 0x1_0000 == count / 0x100 / 0x100 && count / 0x100_0000 == count / 0x1_0000 / 0x100;
  }

  /** A stored count is read back, and no other count is disturbed. */
  lemma StoreCount(data: seq<u8>, node: nat, tier: nat, count: nat, n: nat, t: nat)
    requires 1 <= node && node * BLOCK_LEN <= |data| && tier < MAX_TIERS && count <= U32_MAX
    requires 1 <= n && n * BLOCK_LEN <= |data| && t < MAX_TIERS
    ensures CountAt(WithCount(data, node, tier, count), n, t)
            == if n == node && t == tier then count else CountAt(data, n, t)
  {
    if n == node && t == tier {
      LittleEndian(count);
    } else {
      var start, other := (node - 1) * BLOCK_LEN + tier * 4, (n - 1) * BLOCK_LEN + t * 4;
      assert other + 4 <= start || start + 4 <= other;
    }
  }

  lemma StoreCountEverywhere(data: seq<u8>, node: nat, tier: nat, count: nat)
    requires 1 <= node && node * BLOCK_LEN <= |data| && tier < MAX_TIERS && count <= U32_MAX
    ensures forall n, t :: 1 <= n && n * BLOCK_LEN <= |data| && 0 <= t < MAX_TIERS ==>
              CountAt(WithCount(data, node, tier, count), n, t)
              == if n == node && t == tier then count else CountAt(data, n, t)
  {
    forall n, t | 1 <= n && n * BLOCK_LEN <= |data| && 0 <= t < MAX_TIERS
      ensures CountAt(WithCount(data, node, tier, count), n, t)
              == if n == node && t == tier then count else CountAt(data, n, t)
    {
      StoreCount(data, node, tier, count, n, t);
    }
  }

  /** Counts and tags never overlap. */
  lemma StoreCountKeepsTags(data: seq<u8>, node: nat, tier: nat, count: nat, block: nat, offset: nat)
    requires 1 <= node && node * BLOCK_LEN <= |data| && tier < MAX_TIERS && count <= U32_MAX
    requires (block + 1) * BLOCK_LEN <= |data| && offset < TAGS_PER_BLOCK
    ensures TagAt(WithCount(data, node, tier, count), block, offset) == TagAt(data, block, offset)
  {
    var start, at := (node - 1) * BLOCK_LEN + tier * 4, block * BLOCK_LEN + COUNTS_LEN + offset;
    assert at < start || start + 4 <= at;
  }

  /** The bytes after storing a tag. */
  function WithTag(data: seq<u8>, block: nat, offset: nat, tag: u8): (stored: seq<u8>)
    requires (block + 1) * BLOCK_LEN <= |data| && offset < TAGS_PER_BLOCK
    ensures |stored| == |data|
  {
    data[block * BLOCK_LEN + COUNTS_LEN + offset := tag]
  }

  /** Storing a tag disturbs neither the counts nor any other tag. */
  lemma StoreTag(data: seq<u8>, block: nat, offset: nat, tag: u8)
    requires (block + 1) * BLOCK_LEN <= |data| && offset < TAGS_PER_BLOCK
    ensures forall n, t :: 1 <= n && n * BLOCK_LEN <= |data| && 0 <= t < MAX_TIERS ==>
              CountAt(WithTag(data, block, offset, tag), n, t) == CountAt(data, n, t)
    ensures forall b, o :: 0 <= b && (b + 1) * BLOCK_LEN <= |data| && 0 <= o < TAGS_PER_BLOCK ==>
              TagAt(WithTag(data, block, offset, tag), b, o)
              == if b == block && o == offset then tag else TagAt(data, b, o)
  {
  }

  /** What a Fenwick node must hold: the available prizes of the blocks it covers. */
  ghost function NodeCount(tags: seq<u8>, node: nat, tier: nat): (count: int)
    requires node > 0
  {
    Upto(tags, tier, 64 * node) - Upto(tags, tier, 64 * (node - LowBit(node)))
  }

  function TagOf(tags: seq<u8>, position: nat): u8 {
    if position < |tags| then tags[position] else 0
  }

  /** Every tag is where the linear inventory says, and tags past the last position are zero. */
  ghost predicate TagsMatch(data: seq<u8>, tags: seq<u8>, blocks: nat)
    requires |data| == blocks * BLOCK_LEN
  {
    forall b, o :: 0 <= b < blocks && 0 <= o < TAGS_PER_BLOCK ==> TagAt(data, b, o) == TagOf(tags, 64 * b + o)
  }

  ghost predicate NodesMatch(data: seq<u8>, tags: seq<u8>, blocks: nat)
    requires blocks * BLOCK_LEN <= |data|
  {
    forall node, tier :: 1 <= node <= blocks && 0 <= tier < MAX_TIERS ==>
      CountAt(data, node, tier) == NodeCount(tags, node, tier)
  }

  /** Part-way through an update of `tier`: the nodes in `moved` have changed by `delta`. */
  ghost predicate Moved(data: seq<u8>, tags: seq<u8>, blocks: nat, tier: nat, moved: set<nat>, delta: int)
    requires blocks * BLOCK_LEN <= |data|
  {
    forall n, t :: 1 <= n <= blocks && 0 <= t < MAX_TIERS ==>
      CountAt(data, n, t) == NodeCount(tags, n, t) + if t == tier && n in moved then delta else 0
  }

  /** `data` is the index of the linear inventory `tags`. */
  ghost predicate Represents(data: seq<u8>, tags: seq<u8>) {
    && |tags| <= U32_MAX
    && ValidTags(tags, MAX_TIERS)
    && |data| == Space(|tags|)
    && TagsMatch(data, tags, |data| / BLOCK_LEN)
    && NodesMatch(data, tags, |data| / BLOCK_LEN)
  }

  lemma UptoBound(tags: seq<u8>, tier: nat, n: nat)
    ensures Upto(tags, tier, n) <= |tags|
  {
    if |tags| < n {
      UptoPastTheEnd(tags, tier, n);
    }
  }

  lemma NodeCountBound(tags: seq<u8>, node: nat, tier: nat)
    requires node > 0
    ensures 0 <= NodeCount(tags, node, tier) <= |tags|
  {
    UptoMonotone(tags, tier, 64 * (node - LowBit(node)), 64 * node);
    UptoBound(tags, tier, 64 * node);
  }

  /** A deposit bumps exactly the nodes that cover its block. */
  lemma NodeCountAppend(tags: seq<u8>, tag: u8, node: nat, tier: nat)
    requires node > 0
    ensures NodeCount(tags + [tag], node, tier)
            == NodeCount(tags, node, tier) + if tag == tier + 1 && Covers(node, |tags| / 64) then 1 else 0
  {
    UptoAppend(tags, tag, tier, 64 * node);
    UptoAppend(tags, tag, tier, 64 * (node - LowBit(node)));
  }

  /** A removal lowers exactly the nodes that cover its block. */
  lemma NodeCountRemove(tags: seq<u8>, p: nat, node: nat, tier: nat)
    requires node > 0 && p < |tags| && tags[p] != 0
    ensures NodeCount(tags[p := 0], node, tier)
            == NodeCount(tags, node, tier) - if tags[p] == tier + 1 && Covers(node, p / 64) then 1 else 0
  {
    UptoRemove(tags, p, tier, 64 * node);
    UptoRemove(tags, p, tier, 64 * (node - LowBit(node)));
  }

  lemma NothingMoved(data: seq<u8>, tags: seq<u8>, blocks: nat, tier: nat)
    requires blocks * BLOCK_LEN <= |data| && NodesMatch(data, tags, blocks)
    ensures Moved(data, tags, blocks, tier, {}, 1) && Moved(data, tags, blocks, tier, {}, -1)
  {
  }

  lemma ReadNode(data: seq<u8>, tags: seq<u8>, blocks: nat, tier: nat, moved: set<nat>, delta: int, node: nat)
    requires blocks * BLOCK_LEN <= |data| && tier < MAX_TIERS && 1 <= node <= blocks && node !in moved
    requires Moved(data, tags, blocks, tier, moved, delta)
    ensures 0 <= CountAt(data, node, tier) == NodeCount(tags, node, tier) <= |tags|
  {
    NodeCountBound(tags, node, tier);
  }

  lemma ReadPrefixNode(data: seq<u8>, tags: seq<u8>, end: nat, node: nat, tier: nat)
    requires end * BLOCK_LEN <= |data| && NodesMatch(data, tags, end) && 1 <= node <= end && tier < MAX_TIERS
    ensures Upto(tags, tier, 64 * (node - LowBit(node))) + CountAt(data, node, tier) == Upto(tags, tier, 64 * node)
  {
  }

  lemma FewerNodesMatch(data: seq<u8>, tags: seq<u8>, blocks: nat, fewer: nat)
    requires fewer <= blocks && blocks * BLOCK_LEN <= |data| && NodesMatch(data, tags, blocks)
    ensures NodesMatch(data, tags, fewer)
  {
  }

  /** Storing a node's changed count adds the node to those that have moved. */
  lemma MoveNode(data: seq<u8>, tags: seq<u8>, blocks: nat, tier: nat, moved: set<nat>, delta: int, node: nat,
                 count: nat)
    requires blocks * BLOCK_LEN <= |data| && tier < MAX_TIERS && 1 <= node <= blocks && node !in moved
    requires Moved(data, tags, blocks, tier, moved, delta)
    requires count == CountAt(data, node, tier) + delta && count <= U32_MAX
    ensures Moved(WithCount(data, node, tier, count), tags, blocks, tier, moved + {node}, delta)
  {
    StoreCountEverywhere(data, node, tier, count);
  }

  /** An upward walk for a prize in `block` has reached `node`: the chain below it has moved. */
  ghost predicate Walking(data: seq<u8>, tags: seq<u8>, after: seq<u8>, blocks: nat, block: nat, tier: nat,
                          node: nat, delta: int) {
    && 1 <= node && Covers(node, block)
    && |data| == blocks * BLOCK_LEN
    && TagsMatch(data, after, blocks)
    && Moved(data, tags, blocks, tier, Walked(block, blocks, node), delta)
  }

  lemma StartWalk(data: seq<u8>, tags: seq<u8>, after: seq<u8>, blocks: nat, block: nat, tier: nat, delta: int)
    requires |data| == blocks * BLOCK_LEN && TagsMatch(data, after, blocks) && NodesMatch(data, tags, blocks)
    ensures Walking(data, tags, after, blocks, block, tier, block + 1, delta)
  {
    WalkEnds(block, blocks, block + 1);
  }

  lemma WalkNode(data: seq<u8>, tags: seq<u8>, after: seq<u8>, blocks: nat, block: nat, tier: nat, node: nat,
                 delta: int)
    requires Walking(data, tags, after, blocks, block, tier, node, delta) && node <= blocks && tier < MAX_TIERS
    requires 0 <= NodeCount(tags, node, tier) + delta <= U32_MAX && node < WORD
    ensures CountAt(data, node, tier) == NodeCount(tags, node, tier)
    ensures LowBit(node) == BitAnd(node, WrappingNeg(node))
    ensures Walking(WithCount(data, node, tier, NodeCount(tags, node, tier) + delta),
                    tags, after, blocks, block, tier, node + LowBit(node), delta)
  {
    hide TagsMatch, Moved, CountAt, NodeCount, WithCount, Walked, Chain, Climb, LowBit, BitAnd;
    var moved := Walked(block, blocks, node);
    var count := NodeCount(tags, node, tier) + delta;
    WalkStep(block, blocks, node);
    ReadNode(data, tags, blocks, tier, moved, delta, node);
    MoveNode(data, tags, blocks, tier, moved, delta, node, count);
    StoreCountKeepsAllTags(data, node, tier, count, after, blocks);
    WrappingNegIsolatesLowBit(node);
  }

  lemma EndWalk(data: seq<u8>, tags: seq<u8>, after: seq<u8>, blocks: nat, block: nat, tier: nat, node: nat, delta: int)
    requires Walking(data, tags, after, blocks, block, tier, node, delta) && blocks < node
    ensures TagsMatch(data, after, blocks) && Moved(data, tags, blocks, tier, Chain(block, blocks), delta)
  {
    WalkEnds(block, blocks, node);
  }

  /** A deposit has moved exactly the nodes of the upward walk from its block. */
  lemma AppendSettles(data: seq<u8>, tags: seq<u8>, blocks: nat, tier: nat)
    requires blocks * BLOCK_LEN <= |data| && tier < MAX_TIERS
    requires Moved(data, tags, blocks, tier, Chain(|tags| / 64, blocks), 1)
    ensures NodesMatch(data, tags + [tier + 1], blocks)
  {
    forall n, t | 1 <= n <= blocks && 0 <= t < MAX_TIERS
      ensures CountAt(data, n, t) == NodeCount(tags + [tier + 1], n, t)
    {
      NodeCountAppend(tags, tier + 1, n, t);
      ClimbVisitsCoveringNodes(|tags| / 64, blocks, n);
    }
  }

  /** A removal has moved exactly the nodes of the upward walk from the position's block. */
  lemma RemoveSettles(data: seq<u8>, tags: seq<u8>, blocks: nat, position: nat, tier: nat)
    requires blocks * BLOCK_LEN <= |data| && tier < MAX_TIERS
    requires position < |tags| && tags[position] == tier + 1
    requires Moved(data, tags, blocks, tier, Chain(position / 64, blocks), -1)
    ensures NodesMatch(data, tags[position := 0], blocks)
  {
    forall n, t | 1 <= n <= blocks && 0 <= t < MAX_TIERS
      ensures CountAt(data, n, t) == NodeCount(tags[position := 0], n, t)
    {
      NodeCountRemove(tags, position, n, t);
      ClimbVisitsCoveringNodes(position / 64, blocks, n);
    }
  }

  lemma StoreCountKeepsAllTags(data: seq<u8>, node: nat, tier: nat, count: nat, tags: seq<u8>, blocks: nat)
    requires 1 <= node <= blocks && blocks * BLOCK_LEN == |data| && tier < MAX_TIERS && count <= U32_MAX
    requires TagsMatch(data, tags, blocks)
    ensures TagsMatch(WithCount(data, node, tier, count), tags, blocks)
  {
    var stored := WithCount(data, node, tier, count);
    forall b, o | 0 <= b < blocks && 0 <= o < TAGS_PER_BLOCK
      ensures TagAt(stored, b, o) == TagOf(tags, 64 * b + o)
    {
      StoreCountKeepsTags(data, node, tier, count, b, o);
    }
  }

  /** Storing a tag takes the index of `tags` to the tags of `after`, counts untouched. */
  lemma StoreTagMatches(data: seq<u8>, block: nat, offset: nat, tag: u8, tags: seq<u8>, after: seq<u8>, blocks: nat)
    requires |data| == blocks * BLOCK_LEN && block < blocks && offset < TAGS_PER_BLOCK
    requires 64 * block + offset <= |tags| && TagsMatch(data, tags, blocks)
    requires after == if 64 * block + offset < |tags| then tags[64 * block + offset := tag] else tags + [tag]
    ensures TagsMatch(WithTag(data, block, offset, tag), after, blocks)
    ensures forall n, t :: 1 <= n <= blocks && 0 <= t < MAX_TIERS ==>
              CountAt(WithTag(data, block, offset, tag), n, t) == CountAt(data, n, t)
  {
    StoreTag(data, block, offset, tag);
  }

  /** A node the walk of an available prize reaches counts at least that prize. */
  lemma WalkedNodeCounts(data: seq<u8>, tags: seq<u8>, after: seq<u8>, blocks: nat, p: nat, tier: nat, node: nat)
    requires Walking(data, tags, after, blocks, p / 64, tier, node, -1)
    requires p < |tags| && tags[p] == tier + 1
    ensures 1 <= NodeCount(tags, node, tier) <= |tags|
  {
    NodeCountRemove(tags, p, node, tier);
    NodeCountBound(tags[p := 0], node, tier);
    NodeCountBound(tags, node, tier);
  }

  /** The new node's initial counts, from prefix sums at its two ends. */
  lemma OpenedCounts(tags: seq<u8>, block: nat, end: seq<nat>, start: seq<nat>)
    requires |tags| == 64 * block <= U32_MAX
    requires end == Available(tags, MAX_TIERS, 64 * block)
    requires start == Available(tags, MAX_TIERS, 64 * (block + 1 - LowBit(block + 1)))
    ensures forall t :: 0 <= t < MAX_TIERS ==>
              end[t] == start[t] + NodeCount(tags, block + 1, t) && start[t] <= end[t] <= start[t] + U32_MAX
  {
    forall t | 0 <= t < MAX_TIERS
      ensures end[t] == start[t] + NodeCount(tags, block + 1, t) && start[t] <= end[t] <= start[t] + U32_MAX
    {
      UptoPastTheEnd(tags, t, 64 * (block + 1));
      NodeCountBound(tags, block + 1, t);
    }
  }

  /** `node` has its counts below `tier`; the older nodes are in place. */
  ghost predicate Opened(data: seq<u8>, tags: seq<u8>, node: nat, tier: nat)
    requires 1 <= node && node * BLOCK_LEN <= |data| && tier <= MAX_TIERS
  {
    && NodesMatch(data, tags, node - 1)
    && forall t :: 0 <= t < tier ==> CountAt(data, node, t) == NodeCount(tags, node, t)
  }

  lemma OpenTier(data: seq<u8>, tags: seq<u8>, node: nat, tier: nat, count: nat)
    requires 1 <= node && |data| == node * BLOCK_LEN && tier < MAX_TIERS && count <= U32_MAX
    requires Opened(data, tags, node, tier) && TagsMatch(data, tags, node)
    requires count == NodeCount(tags, node, tier)
    ensures Opened(WithCount(data, node, tier, count), tags, node, tier + 1)
    ensures TagsMatch(WithCount(data, node, tier, count), tags, node)
  {
    StoreCountEverywhere(data, node, tier, count);
    StoreCountKeepsAllTags(data, node, tier, count, tags, node);
  }

  lemma OpenedNode(data: seq<u8>, tags: seq<u8>, node: nat)
    requires 1 <= node && node * BLOCK_LEN <= |data|
    ensures NodesMatch(data, tags, node - 1) ==> Opened(data, tags, node, 0)
    ensures Opened(data, tags, node, MAX_TIERS) ==> NodesMatch(data, tags, node)
  {
  }

  /** Zero-filled growth past the last position keeps every tag and every count. */
  lemma ZeroExtend(data: seq<u8>, longer: seq<u8>, tags: seq<u8>, blocks: nat)
    requires |data| == blocks * BLOCK_LEN && |tags| <= 64 * blocks
    requires longer == data + seq(BLOCK_LEN, _ => 0 as u8)
    requires TagsMatch(data, tags, blocks) && NodesMatch(data, tags, blocks)
    ensures TagsMatch(longer, tags, blocks + 1) && NodesMatch(longer, tags, blocks)
  {
    forall b, o | 0 <= b < blocks + 1 && 0 <= o < TAGS_PER_BLOCK
      ensures TagAt(longer, b, o) == TagOf(tags, 64 * b + o)
    {
      if b < blocks {
        assert TagAt(longer, b, o) == TagAt(data, b, o);
      }
    }
    forall n, t | 1 <= n <= blocks && 0 <= t < MAX_TIERS
      ensures CountAt(longer, n, t) == CountAt(data, n, t)
    {
    }
  }

  // ---- The descent ----

  /** The block that holds the prize of a rank, or the block count when there is none. */
  ghost predicate IsTarget(tags: seq<u8>, tier: nat, rank: nat, blocks: nat, target: nat) {
    && target <= blocks
    && Upto(tags, tier, 64 * target) <= rank
    && (target < blocks ==> rank < Upto(tags, tier, 64 * (target + 1)))
  }

  lemma FindTarget(tags: seq<u8>, tier: nat, rank: nat, blocks: nat) returns (target: nat)
    requires |tags| <= 64 * blocks
    ensures IsTarget(tags, tier, rank, blocks, target)
    ensures target < blocks <==> rank < Upto(tags, tier, |tags|)
    ensures target < blocks ==>
              var p := Candidates(tags, tier, |tags|)[rank];
              target == p / 64 && p < |tags| && tags[p] == tier + 1 && Upto(tags, tier, p) == rank
  {
    UptoPastTheEnd(tags, tier, 64 * blocks);
    target := blocks;
    if rank < Upto(tags, tier, |tags|) {
      CandidateRank(tags, tier, |tags|, rank);
      var p := Candidates(tags, tier, |tags|)[rank];
      UptoMonotone(tags, tier, 64 * (p / 64), p);
      UptoMonotone(tags, tier, p + 1, 64 * (p / 64 + 1));
      target := p / 64;
    }
  }

  /** The descent stands at `node` with `left` prizes to skip and levels below `step` to probe. */
  ghost predicate Descending(data: seq<u8>, tags: seq<u8>, blocks: nat, target: nat, tier: nat, rank: nat,
                             step: nat, node: nat, left: nat) {
    && (step == 0 ==> node == target)
    && (step > 0 ==> Pow2(step) && Aligned(node, 2 * step) && node <= target < node + 2 * step)
    && left + Upto(tags, tier, 64 * node) == rank
    && |data| == blocks * BLOCK_LEN && TagsMatch(data, tags, blocks)
    && Moved(data, tags, blocks, tier, Wider(target, blocks, step), -1)
  }

  lemma StartDescent(data: seq<u8>, tags: seq<u8>, blocks: nat, target: nat, tier: nat, rank: nat)
    requires |data| == blocks * BLOCK_LEN && TagsMatch(data, tags, blocks) && NodesMatch(data, tags, blocks)
    requires target <= blocks
    ensures Descending(data, tags, blocks, target, tier, rank, NextPowerOfTwo(blocks), 0, rank)
  {
    hide TagsMatch, CountAt, NodeCount, Upto, Wider, Chain, NextPowerOfTwo, Aligned;
    var step := NextPowerOfTwo(blocks);
    ZeroAligned(2 * step);
    WiderEnds(target, blocks, step);
    NothingMoved(data, tags, blocks, tier);
    hide Moved, NodesMatch, Pow2;
  }

  /** Comparing a probed node's count with the remaining rank tells on which side of its end the
      target lies. */
  lemma TargetSide(tags: seq<u8>, tier: nat, rank: nat, blocks: nat, target: nat, node: nat, step: nat)
    requires IsTarget(tags, tier, rank, blocks, target) && step > 0 && node + step <= blocks
    requires LowBit(node + step) == step && Upto(tags, tier, 64 * node) <= rank
    ensures NodeCount(tags, node + step, tier) <= rank - Upto(tags, tier, 64 * node) <==> node + step <= target
    ensures NodeCount(tags, node + step, tier) == Upto(tags, tier, 64 * (node + step)) - Upto(tags, tier, 64 * node)
  {
    if node + step <= target {
      UptoMonotone(tags, tier, 64 * (node + step), 64 * target);
    } else {
      UptoMonotone(tags, tier, 64 * (target + 1), 64 * (node + step));
    }
  }

  /** Within the block the rank runs out exactly at the chosen position. */
  lemma ScanStep(tags: seq<u8>, tier: nat, position: nat, chosen: nat)
    requires position <= chosen < |tags| && tags[chosen] == tier + 1
    ensures var left := Upto(tags, tier, chosen) - Upto(tags, tier, position);
            var matches := TagOf(tags, position) == tier + 1;
            && left >= 0
            && (matches && left == 0 <==> position == chosen)
            && (position < chosen ==>
                Upto(tags, tier, position + 1) == Upto(tags, tier, position) + if matches then 1 else 0)
  {
    UptoMonotone(tags, tier, position, chosen);
    if position < chosen {
      UptoMonotone(tags, tier, position + 1, chosen);
    }
  }

  /** The nodes of the target's upward walk that are wider than `step`. */
  ghost function Wider(target: nat, blocks: nat, step: nat): set<nat> {
    set n | n in Chain(target, blocks) && n > 0 && LowBit(n) > step
  }

  lemma WiderEnds(target: nat, blocks: nat, step: nat)
    requires blocks <= step
    ensures Wider(target, blocks, step) == {} && Wider(target, blocks, 0) == Chain(target, blocks)
  {
    forall n: nat
      ensures n !in Wider(target, blocks, step)
      ensures n in Chain(target, blocks) ==> n in Wider(target, blocks, 0)
    {
      ClimbVisitsCoveringNodes(target, blocks, n);
    }
  }

  /** Probing one level decides every node of that width: the probed node is on the target's
      walk exactly when it contains the target. */
  lemma ProbeLevel(target: nat, blocks: nat, node: nat, step: nat)
    requires Pow2(step) && Aligned(node, 2 * step) && node <= target < node + 2 * step
    ensures LowBit(node + step) == step && node + step !in Wider(target, blocks, step)
    ensures if target < node + step <= blocks
            then Wider(target, blocks, step / 2) == Wider(target, blocks, step) + {node + step}
            else Wider(target, blocks, step / 2) == Wider(target, blocks, step)
  {
    var next := node + step;
    ProbeSpan(node, step);
    forall n: nat
      ensures n in Wider(target, blocks, step / 2) <==>
              n in Wider(target, blocks, step) || (n == next && target < next <= blocks)
    {
      ClimbVisitsCoveringNodes(target, blocks, n);
      if n > 0 && step / 2 < LowBit(n) <= step {
        LowBitIsPow2(n);
        if step > 1 && LowBit(n) < step {
          Pow2Gap(LowBit(n), step / 2);
        }
        ProbeIsTheCoveringNode(node, step, target, n);
      }
    }
  }

  /** The bytes of an index: as long as its positions need, each tag at its place after the counts of its
      block, and each node's count a little-endian `u32` at the front of the node's block. */
  lemma Layout(data: seq<u8>, tags: seq<u8>)
    requires Represents(data, tags)
    ensures |data| == (|tags| + 63) / 64 * 96
    ensures forall p: nat :: p < |tags| ==>
              p / 64 * 96 + 32 + p % 64 < |data| && data[p / 64 * 96 + 32 + p % 64] == tags[p]
    ensures forall node, tier :: 1 <= node <= |data| / 96 && 0 <= tier < 8 ==>
              NodeBytes(data, (node - 1) * 96 + tier * 4) == NodeCount(tags, node, tier)
  {
    hide NodeCount;
    forall p: nat | p < |tags|
      ensures p / 64 * 96 + 32 + p % 64 < |data| && data[p / 64 * 96 + 32 + p % 64] == tags[p]
    {
      assert TagAt(data, p / 64, p % 64) == TagOf(tags, 64 * (p / 64) + p % 64);
    }
    forall node, tier | 1 <= node <= |data| / 96 && 0 <= tier < 8
      ensures NodeBytes(data, (node - 1) * 96 + tier * 4) == NodeCount(tags, node, tier)
    {
      assert CountAt(data, node, tier) == NodeCount(tags, node, tier);
    }
  }

  /** A little-endian `u32`, or 0 when the bytes run out. */
  function NodeBytes(data: seq<u8>, at: nat): nat {
    if at + 4 > |data| then 0
    else data[at] as int + 256 * data[at + 1] as int + 65536 * data[at + 2] as int + 16777216 * data[at + 3] as int
  }

  class Inventory {
    var data: array<u8>
    ghost var tags: seq<u8>

    ghost predicate Valid()
      reads this, data
    {
      Represents(data[..], tags)
    }

    constructor ()
      ensures Valid() && tags == [] && fresh(data)
    {
      data := new u8[0];
      tags := [];
    }

    function Blocks(): nat
      reads this
    {
      data.Length / BLOCK_LEN
    }

    function Count(node: nat, tier: nat): nat
      requires 1 <= node && node * BLOCK_LEN <= data.Length && tier < MAX_TIERS
      reads this, data
    {
      CountAt(data[..], node, tier)
    }

    method SetCount(node: nat, tier: nat, count: nat)
      requires 1 <= node && node * BLOCK_LEN <= data.Length && tier < MAX_TIERS && count <= U32_MAX
      modifies data
      ensures data[..] == WithCount(old(data[..]), node, tier, count)
    {
      var start := (node - 1) * BLOCK_LEN + tier * 4;
      data[start] := count % 0x100;
      data[start + 1] := count / 0x100 % 0x100;
      data[start + 2] := count / 0x1_0000 % 0x100;
      data[start + 3] := count / 0x100_0000;
    }

    method PrefixCounts(end: nat) returns (counts: seq<nat>)
      requires end * BLOCK_LEN <= data.Length && NodesMatch(data[..], tags, end)
      requires |tags| <= U32_MAX
      ensures counts == Available(tags, MAX_TIERS, 64 * end)
    {
      hide NodesMatch, CountAt, LowBit, BitAnd, Upto;
      var blocks: nat := end;
      counts := seq(MAX_TIERS, _ => 0);
      while blocks > 0
        invariant blocks <= end && |counts| == MAX_TIERS
        invariant forall t :: 0 <= t < MAX_TIERS ==>
                    counts[t] + Upto(tags, t, 64 * blocks) == Upto(tags, t, 64 * end)
      {
        var low := blocks - LowBit(blocks);
        for tier := 0 to MAX_TIERS
          invariant |counts| == MAX_TIERS
          invariant forall t :: 0 <= t < MAX_TIERS ==>
                      counts[t] + Upto(tags, t, 64 * if t < tier then low else blocks) == Upto(tags, t, 64 * end)
        {
          ReadPrefixNode(data[..], tags, end, blocks, tier);
          UptoBound(tags, tier, 64 * end);
          assert counts[tier] + Count(blocks, tier) <= U32_MAX; // the u32 sum cannot overflow
          counts := counts[tier := counts[tier] + Count(blocks, tier)];
        }
        AndPredClearsLowBit(blocks);
        blocks := BitAnd(blocks, blocks - 1);
      }
    }

    /** Available prizes of each tier below `cutoff`; slicing past the index is a panic. */
    method Counts(cutoff: nat) returns (r: Result<seq<nat>>)
      requires Valid()
      ensures r == if cutoff <= 64 * Blocks() then Ok(Available(tags, MAX_TIERS, cutoff)) else Err(Abort)
    {
      var blocks, tail := cutoff / TAGS_PER_BLOCK, cutoff % TAGS_PER_BLOCK;
      if blocks > Blocks() || (tail > 0 && blocks == Blocks()) {
        return Err(Abort);
      }
      var counts := PrefixCounts(blocks);
      for offset := 0 to tail
        invariant counts == Available(tags, MAX_TIERS, 64 * blocks + offset)
      {
        var position := 64 * blocks + offset;
        var tag := data[blocks * BLOCK_LEN + COUNTS_LEN + offset];
        assert tag == TagAt(data[..], blocks, offset) == TagOf(tags, position);
        if tag != 0 {
          counts := counts[tag as int - 1 := counts[tag as int - 1] + 1];
        }
      }
      return Ok(counts);
    }

    /** The reallocation before a deposit: zero-filled growth to the next position's space. */
    ghost predicate Grown()
      reads this, data
    {
      && |tags| < U32_MAX
      && ValidTags(tags, MAX_TIERS)
      && data.Length == Space(|tags| + 1)
      && TagsMatch(data[..], tags, data.Length / BLOCK_LEN)
      && NodesMatch(data[..], tags, Space(|tags|) / BLOCK_LEN)
    }

    method Grow(positions: nat)
      requires Valid() && |tags| < U32_MAX && positions == |tags| + 1
      modifies this
      ensures Grown() && tags == old(tags)
      ensures data == old(data) || fresh(data)
    {
      OneMoreSpace(|tags|);
      hide Space;
      var space := Space(positions);
      if space != data.Length {
        var bytes := data[..] + seq(BLOCK_LEN, _ => 0 as u8);
        ZeroExtend(data[..], bytes, tags, Blocks());
        hide TagsMatch, NodesMatch;
        data := new u8[space](i requires 0 <= i < |bytes| => bytes[i]);
        assert data[..] == bytes;
      }
    }

    /** Put back the bytes an instruction started from. */
    method Restore(bytes: seq<u8>, ghost before: seq<u8>)
      requires Represents(bytes, before)
      modifies this
      ensures Valid() && tags == before && fresh(data)
    {
      data := new u8[|bytes|](i requires 0 <= i < |bytes| => bytes[i]);
      assert data[..] == bytes;
      tags := before;
    }

    /** Write one tag byte. */
    method SetTag(block: nat, offset: nat, tag: u8, ghost after: seq<u8>, ghost tier: nat, ghost moved: set<nat>)
      requires data.Length == Blocks() * BLOCK_LEN && block < Blocks() && offset < TAGS_PER_BLOCK
      requires TagsMatch(data[..], tags, Blocks()) && Moved(data[..], tags, Blocks(), tier, moved, -1)
      requires 64 * block + offset <= |tags|
      requires after == if 64 * block + offset < |tags| then tags[64 * block + offset := tag] else tags + [tag]
      modifies data
      ensures TagsMatch(data[..], after, Blocks()) && Moved(data[..], tags, Blocks(), tier, moved, -1)
    {
      StoreTagMatches(data[..], block, offset, tag, tags, after, Blocks());
      data[block * BLOCK_LEN + COUNTS_LEN + offset] := tag;
    }

    /** `SetCount` as one step of an update of `tier`. */
    method SetNode(node: nat, tier: nat, count: nat, ghost after: seq<u8>, ghost moved: set<nat>, ghost delta: int)
      requires data.Length == Blocks() * BLOCK_LEN && tier < MAX_TIERS && count <= U32_MAX
      requires 1 <= node <= Blocks() && node !in moved
      requires Moved(data[..], tags, Blocks(), tier, moved, delta)
      requires TagsMatch(data[..], after, Blocks()) && count == Count(node, tier) + delta
      modifies data
      ensures Moved(data[..], tags, Blocks(), tier, moved + {node}, delta)
      ensures TagsMatch(data[..], after, Blocks())
    {
      MoveNode(data[..], tags, Blocks(), tier, moved, delta, node, count);
      StoreCountKeepsAllTags(data[..], node, tier, count, after, Blocks());
      SetCount(node, tier, count);
    }

    /** Change one node's count during an upward walk. The new count is a `u32`: a removal's
        `checked_sub` cannot fail, because the node counts the removed prize. */
    method StepWalk(node: nat, tier: nat, blocks: nat, ghost before: seq<u8>, ghost after: seq<u8>, ghost block: nat,
                    delta: int)
      requires 1 <= node <= blocks && data.Length == blocks * BLOCK_LEN && tier < MAX_TIERS && node < WORD
      requires Walking(data[..], before, after, blocks, block, tier, node, delta)
      requires 0 <= NodeCount(before, node, tier) + delta <= U32_MAX
      modifies data
      ensures Walking(data[..], before, after, blocks, block, tier, node + BitAnd(node, WrappingNeg(node)), delta)
      ensures BitAnd(node, WrappingNeg(node)) > 0
    {
      hide TagsMatch, NodesMatch, Walking, CountAt, NodeCount;
      WalkNode(data[..], before, after, blocks, block, tier, node, delta);
      var count: nat := Count(node, tier) + delta;
      SetCount(node, tier, count);
    }

    /** The upward walk of a deposit: add one to every node that covers the new position. */
    method Raise(block: nat, tier: nat, ghost after: seq<u8>)
      requires block == |tags| / TAGS_PER_BLOCK && tier < MAX_TIERS && |tags| < U32_MAX
      requires data.Length == Blocks() * BLOCK_LEN && Blocks() <= U32_MAX
      requires NodesMatch(data[..], tags, Blocks()) && TagsMatch(data[..], after, Blocks())
      requires after == tags + [tier + 1]
      modifies data
      ensures NodesMatch(data[..], after, Blocks()) && TagsMatch(data[..], after, Blocks())
    {
      var blocks := Blocks();
      ghost var before := tags;
      StartWalk(data[..], before, after, blocks, block, tier, 1);
      hide TagsMatch, NodesMatch, Walking, CountAt, NodeCount, LowBit, BitAnd;
      var node: nat := block + 1;
      while node <= blocks
        invariant 1 <= node && Walking(data[..], before, after, blocks, block, tier, node, 1)
        decreases blocks + 1 - node
      {
        NodeCountBound(before, node, tier);
        StepWalk(node, tier, blocks, before, after, block, 1);
        node := node + BitAnd(node, WrappingNeg(node));
      }
      EndWalk(data[..], before, after, blocks, block, tier, node, 1);
      AppendSettles(data[..], before, blocks, tier);
    }

    /** The upward walk of a removal: take one off every node that covers the position. */
    method Lower(block: nat, tier: nat, ghost position: nat, ghost after: seq<u8>)
      requires block == position / TAGS_PER_BLOCK && tier < MAX_TIERS && |tags| <= U32_MAX
      requires data.Length == Blocks() * BLOCK_LEN && Blocks() <= U32_MAX
      requires position < |tags| && tags[position] == tier + 1 && after == tags[position := 0]
      requires NodesMatch(data[..], tags, Blocks()) && TagsMatch(data[..], after, Blocks())
      modifies data
      ensures NodesMatch(data[..], after, Blocks()) && TagsMatch(data[..], after, Blocks())
    {
      var blocks := Blocks();
      ghost var before := tags;
      StartWalk(data[..], before, after, blocks, block, tier, -1);
      hide TagsMatch, NodesMatch, Walking, CountAt, NodeCount, LowBit, BitAnd;
      var node: nat := block + 1;
      while node <= blocks
        invariant 1 <= node && Walking(data[..], before, after, blocks, block, tier, node, -1)
        decreases blocks + 1 - node
      {
        WalkedNodeCounts(data[..], before, after, blocks, position, tier, node);
        StepWalk(node, tier, blocks, before, after, block, -1);
        node := node + BitAnd(node, WrappingNeg(node));
      }
      EndWalk(data[..], before, after, blocks, block, tier, node, -1);
      RemoveSettles(data[..], before, blocks, position, tier);
    }

    /** Make the next position available. The caller has grown the index. */
    method Append(position: nat, tier: nat)
      requires Grown() && position == |tags| && tier < MAX_TIERS
      modifies this`tags, data
      ensures Valid() && tags == old(tags) + [tier + 1]
    {
      var block, offset := position / TAGS_PER_BLOCK, position % TAGS_PER_BLOCK;
      SpaceInBlocks(position);
      if offset == 0 {
        OpenBlock(block);
      }
      ghost var stocked := tags + [(tier + 1) as u8];
      SetTag(block, offset, tier + 1, stocked, tier, {});
      Raise(block, tier, stocked);
      tags := stocked;
    }

    /** The node of a new block starts with the stock of the older blocks in its range, obtained from
        prefix sums at the two ends of that range. */
    method OpenBlock(block: nat)
      requires Grown() && |tags| == 64 * block
      modifies data
      ensures data.Length == (block + 1) * BLOCK_LEN
      ensures TagsMatch(data[..], tags, block + 1) && NodesMatch(data[..], tags, block + 1)
    {
      hide CountAt, NodesMatch, TagsMatch, LowBit, BitAnd, Upto;
      var node := block + 1;
      SpaceInBlocks(|tags|);
      var end := PrefixCounts(block);
      AndPredClearsLowBit(node);
      FewerNodesMatch(data[..], tags, block, BitAnd(node, node - 1));
      var start := PrefixCounts(BitAnd(node, node - 1));
      OpenedCounts(tags, block, end, start);
      FillNode(node, end, start);
    }

    method FillNode(node: nat, end: seq<nat>, start: seq<nat>)
      requires 1 <= node && data.Length == node * BLOCK_LEN
      requires TagsMatch(data[..], tags, node) && NodesMatch(data[..], tags, node - 1)
      requires |end| == |start| == MAX_TIERS
      requires forall t :: 0 <= t < MAX_TIERS ==>
                 end[t] == start[t] + NodeCount(tags, node, t) && start[t] <= end[t] <= start[t] + U32_MAX
      modifies data
      ensures TagsMatch(data[..], tags, node) && NodesMatch(data[..], tags, node)
    {
      OpenedNode(data[..], tags, node);
      hide CountAt, TagsMatch, NodesMatch, Opened, NodeCount;
      for tier := 0 to MAX_TIERS
        invariant TagsMatch(data[..], tags, node) && Opened(data[..], tags, node, tier)
      {
        OpenTier(data[..], tags, node, tier, end[tier] - start[tier]);
        SetCount(node, tier, end[tier] - start[tier]);
      }
      OpenedNode(data[..], tags, node);
    }

    /** Remove one known position. It succeeds exactly when the tag matches. */
    method Remove(position: nat, tier: nat) returns (r: Result<()>)
      requires Valid() && tier < MAX_TIERS
      modifies this`tags, data
      ensures Valid()
      ensures r == if position < |old(tags)| && old(tags)[position] == tier + 1 then Ok(()) else Err(InvalidItem)
      ensures tags == if r.Ok? then old(tags)[position := 0] else old(tags)
    {
      var block, offset := position / TAGS_PER_BLOCK, position % TAGS_PER_BLOCK;
      var at := block * BLOCK_LEN + COUNTS_LEN + offset;
      assert at < data.Length ==>
          block < Blocks() && data[at] == TagAt(data[..], block, offset) == TagOf(tags, position);
      if at >= data.Length || data[at] != tier + 1 {
        return Err(InvalidItem);
      }
      ghost var left := tags[position := 0];
      SetTag(block, offset, 0, left, tier, {});
      Lower(block, tier, position, left);
      tags := left;
      return Ok(());
    }

    /** The descent: skip whole subtrees that precede the rank, and lower every probed node that
        contains it. The nodes lowered are exactly the nodes an upward walk from the target block
        would visit, for any number of blocks. */
    method Descend(tier: nat, rank: nat, ghost target: nat) returns (node: nat, left: nat)
      requires Valid() && tier < MAX_TIERS && IsTarget(tags, tier, rank, Blocks(), target)
      modifies data
      ensures node == target && left + Upto(tags, tier, 64 * target) == rank
      ensures TagsMatch(data[..], tags, Blocks())
      ensures Moved(data[..], tags, Blocks(), tier, Chain(target, Blocks()), -1)
      ensures target == Blocks() ==> data[..] == old(data[..])
    {
      hide Wider, Chain, TagsMatch, NodesMatch, Moved, Pow2, Aligned, Upto, NextPowerOfTwo, CountAt, NodeCount, LowBit;
      var blocks := Blocks();
      var step: nat := NextPowerOfTwo(blocks);
      node, left := 0, rank;
      StartDescent(data[..], tags, blocks, target, tier, rank);
      WiderEnds(target, blocks, step);
      hide IsTarget, Represents;
      ghost var before, bytes := tags, data[..];
      while step != 0
        invariant Descending(data[..], before, blocks, target, tier, rank, step, node, left)
        invariant target == blocks ==> data[..] == bytes
        decreases step
      {
        node, left := Probe(tier, node, left, step, blocks, rank, target);
        step := step / 2;
      }
    }

    /** One level of the descent. */
    method Probe(tier: nat, at: nat, rank: nat, step: nat, blocks: nat, ghost total: nat, ghost target: nat)
      returns (node: nat, left: nat)
      requires blocks == Blocks() && tier < MAX_TIERS && |tags| <= U32_MAX && step > 0
      requires IsTarget(tags, tier, total, blocks, target)
      requires Descending(data[..], tags, blocks, target, tier, total, step, at, rank)
      modifies data
      ensures Descending(data[..], tags, blocks, target, tier, total, step / 2, node, left)
      ensures target == blocks ==> data[..] == old(data[..])
    {
      hide CountAt, TagsMatch, Moved, NodeCount, Wider;
      node, left := at, rank;
      var next := node + step;
      ProbeSpan(node, step);
      ProbeLevel(target, blocks, node, step);
      if next <= blocks {
        var count := Count(next, tier);
        ReadNode(data[..], tags, blocks, tier, Wider(target, blocks, step), -1, next);
        TargetSide(tags, tier, total, blocks, target, node, step);
        if count <= left {
          left := left - count;
          node := next;
        } else {
          // The node covers the target, so it is on the target's upward walk.
          SetNode(next, tier, count - 1, tags, Wider(target, blocks, step), -1);
        }
      }
    }

    /** The rank is now local to one block: find its offset among the block's tags. */
    method Scan(node: nat, tier: nat, rank: nat, ghost chosen: nat) returns (offset: nat)
      requires (node + 1) * BLOCK_LEN <= data.Length == Blocks() * BLOCK_LEN && TagsMatch(data[..], tags, Blocks())
      requires chosen < |tags| && tags[chosen] == tier + 1 && 64 * node <= chosen < 64 * (node + 1)
      requires Upto(tags, tier, chosen) == rank + Upto(tags, tier, 64 * node)
      ensures 64 * node + offset == chosen
    {
      hide Upto, TagOf;
      var left := rank;
      offset := 0;
      while offset < TAGS_PER_BLOCK
        invariant 64 * node + offset <= chosen
        invariant left + Upto(tags, tier, 64 * node + offset) == Upto(tags, tier, chosen)
      {
        var position := 64 * node + offset;
        var tag := data[node * BLOCK_LEN + COUNTS_LEN + offset];
        assert tag == TagAt(data[..], node, offset) == TagOf(tags, position);
        ScanStep(tags, tier, position, chosen);
        if tag == tier + 1 {
          if left == 0 {
            return;
          }
          left := left - 1;
        }
        offset := offset + 1;
      }
    }

    /** Clear the selected prize's tag in its block; its nodes are already lowered. */
    method TakeFrom(node: nat, tier: nat, rank: nat, ghost chosen: nat) returns (position: nat)
      requires data.Length == Blocks() * BLOCK_LEN == Space(|tags|) && tier < MAX_TIERS
      requires |tags| <= U32_MAX && ValidTags(tags, MAX_TIERS) && TagsMatch(data[..], tags, Blocks())
      requires chosen < |tags| && tags[chosen] == tier + 1 && chosen / 64 == node
      requires Upto(tags, tier, chosen) == rank + Upto(tags, tier, 64 * node)
      requires Moved(data[..], tags, Blocks(), tier, Chain(node, Blocks()), -1)
      modifies this`tags, data
      ensures Valid() && position == chosen && tags == old(tags)[chosen := 0]
    {
      var offset := Scan(node, tier, rank, chosen);
      position := node * TAGS_PER_BLOCK + offset;
      SetTag(node, offset, 0, tags[position := 0], tier, Chain(node, Blocks()));
      RemoveSettles(data[..], tags, Blocks(), position, tier);
      hide TagsMatch, Moved, NodesMatch, Chain, Upto;
      tags := tags[position := 0];
    }

    /** Takes the linear candidate of this rank off the index. Fails exactly when the rank is not below
        the tier's total, and then leaves every byte alone. */
    method Take(tier: nat, rank: nat) returns (r: Result<nat>)
      requires Valid() && tier < MAX_TIERS
      modifies this`tags, data
      ensures Valid()
      ensures r == if rank < Upto(old(tags), tier, |old(tags)|)
                   then Ok(Candidates(old(tags), tier, |old(tags)|)[rank]) else Err(InvalidItem)
      ensures r.Ok? ==> r.value < |old(tags)| && tags == old(tags)[r.value := 0]
      ensures r.Err? ==> tags == old(tags) && data[..] == old(data[..])
    {
      hide TagsMatch, NodesMatch, Moved, Chain, Upto, Candidates, IsTarget;
      ghost var target := FindTarget(tags, tier, rank, Blocks());
      var node, left := Descend(tier, rank, target);
      if node == Blocks() {
        return Err(InvalidItem);
      }
      var position := TakeFrom(node, tier, left, Candidates(tags, tier, |tags|)[rank]);
      return Ok(position);
    }
  }
}
