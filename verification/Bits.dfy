/** The machine arithmetic behind a Fenwick tree.

    `&` is defined bit by bit on naturals, so that the two expressions the program uses,
    `n & (n - 1)` and `n & n.wrapping_neg()`, can be related to the lowest set bit of `n`.
    `Covers(n, b)` says that the 1-based Fenwick node `n` counts the 0-based block `b`. */
module Bits {
  type u8 = x: int | 0 <= x < 256

  const U32_MAX := 0xFFFF_FFFF
  const U64_MAX := 0xFFFF_FFFF_FFFF_FFFF
  const WORD := 0x1_0000_0000_0000_0000 // one more than the largest usize of the target

  predicate Pow2(n: nat) {
    n == 1 || (n > 1 && n % 2 == 0 && Pow2(n / 2))
  }

  function BitAnd(a: nat, b: nat): nat {
    if a == 0 || b == 0 then 0
    else 2 * BitAnd(a / 2, b / 2) + if a % 2 == 1 && b % 2 == 1 then 1 else 0
  }

  function WrappingNeg(n: nat): nat
    requires n < WORD
  {
    if n == 0 then 0 else WORD - n
  }

  /** `usize::next_power_of_two`. */
  function NextPowerOfTwo(n: nat): (p: nat)
    ensures Pow2(p) && n <= p
    ensures p == 1 || p < 2 * n
  {
    if n <= 1 then 1 else 2 * NextPowerOfTwo((n + 1) / 2)
  }

  /** The largest power of two that divides `n`. */
  function LowBit(n: nat): (bit: nat)
    requires n > 0
    ensures 1 <= bit <= n
  {
    if n % 2 == 1 then 1 else 2 * LowBit(n / 2)
  }

  lemma {:induction false} LowBitIsPow2(n: nat)
    requires n > 0
    ensures Pow2(LowBit(n))
  {
    if n % 2 == 0 {
      LowBitIsPow2(n / 2);
    }
  }

  predicate Covers(node: nat, block: nat)
    requires node > 0
  {
    node - LowBit(node) <= block < node
  }

  // ---- The bit tricks ----

  lemma {:induction false} AndSelf(a: nat)
    ensures BitAnd(a, a) == a
  {
    if a > 0 {
      AndSelf(a / 2);
    }
  }

  lemma {:induction false} AndComplement(a: nat, w: nat)
    requires Pow2(w) && a < w
    ensures BitAnd(a, w - 1 - a) == 0
  {
    if a > 0 && w - 1 - a > 0 {
      assert (w - 1 - a) / 2 == w / 2 - 1 - a / 2;
      AndComplement(a / 2, w / 2);
    }
  }

  /** `n & (n - 1)` clears the lowest set bit. */
  lemma {:induction false} AndPredClearsLowBit(n: nat)
    requires n > 0
    ensures BitAnd(n, n - 1) == n - LowBit(n)
  {
    if n % 2 == 1 {
      AndSelf(n / 2);
    } else {
      AndPredClearsLowBit(n / 2);
    }
  }

  lemma {:induction false} AndNegIsolatesLowBit(n: nat, w: nat)
    requires Pow2(w) && 0 < n < w
    ensures BitAnd(n, w - n) == LowBit(n)
  {
    if n % 2 == 1 {
      assert (w - n) / 2 == w / 2 - 1 - n / 2;
      AndComplement(n / 2, w / 2);
    } else {
      assert (w - n) / 2 == w / 2 - n / 2;
      AndNegIsolatesLowBit(n / 2, w / 2);
    }
  }

  lemma {:induction false} Pow2Product(a: nat, b: nat)
    requires Pow2(a) && Pow2(b)
    ensures Pow2(a * b)
  {
    if a > 1 {
      Pow2Product(a / 2, b);
      assert a * b == 2 * (a / 2 * b);
    }
  }

  lemma WordIsPow2()
    ensures Pow2(WORD)
  {
    assert Pow2(4);
    Pow2Product(4, 4);
    Pow2Product(16, 16);
    Pow2Product(0x100, 0x100);
    Pow2Product(0x1_0000, 0x1_0000);
    Pow2Product(0x1_0000_0000, 0x1_0000_0000);
  }

  /** `n & n.wrapping_neg()` isolates the lowest set bit of a machine word. */
  lemma WrappingNegIsolatesLowBit(n: nat)
    requires 0 < n < WORD
    ensures BitAnd(n, WrappingNeg(n)) == LowBit(n)
  {
    WordIsPow2();
    AndNegIsolatesLowBit(n, WORD);
  }

  // ---- The upward walk ----

  /** Climbing at least doubles the span of a node. */
  lemma {:induction false} ClimbWidens(n: nat)
    requires n > 0
    ensures LowBit(n + LowBit(n)) >= 2 * LowBit(n)
  {
    if n % 2 == 0 {
      ClimbWidens(n / 2);
      assert (n + LowBit(n)) / 2 == n / 2 + LowBit(n / 2);
    }
  }

  /** No node strictly between `n` and its parent reaches back below `n`. */
  lemma {:induction false} ClimbSkips(n: nat, j: nat)
    requires 0 < n < j < n + LowBit(n)
    ensures j - LowBit(j) >= n
  {
    if j % 2 == 0 {
      ClimbSkips(n / 2, j / 2);
    }
  }

  /** The nodes `append` and `remove` visit from `node` in a tree of `blocks` nodes. */
  function Climb(node: nat, blocks: nat): set<nat>
    requires node > 0
    decreases if node > blocks then 0 else blocks - node + 1
  {
    if node > blocks then {} else {node} + Climb(node + LowBit(node), blocks)
  }

  lemma {:induction false} ClimbFrom(node: nat, block: nat, blocks: nat, n: nat)
    requires node > 0 && Covers(node, block)
    ensures n in Climb(node, blocks) <==> node <= n <= blocks && Covers(n, block)
    decreases if node > blocks then 0 else blocks - node + 1
  {
    if node <= blocks {
      var parent := node + LowBit(node);
      ClimbWidens(node);
      ClimbFrom(parent, block, blocks, n);
      if node < n < parent {
        ClimbSkips(node, n);
      }
    }
  }

  /** The nodes the upward walk from a block visits. */
  function Chain(block: nat, blocks: nat): set<nat> {
    Climb(block + 1, blocks)
  }

  /** The upward walk from a block's own node visits exactly the nodes that count the block. */
  lemma ClimbVisitsCoveringNodes(block: nat, blocks: nat, n: nat)
    ensures n in Chain(block, blocks) <==> 1 <= n <= blocks && Covers(n, block)
  {
    ClimbFrom(block + 1, block, blocks, n);
  }

  /** The part of a block's upward walk that lies below `node`. */
  ghost function Walked(block: nat, blocks: nat, node: nat): set<nat> {
    set n | n in Chain(block, blocks) && n < node
  }

  lemma WalkStep(block: nat, blocks: nat, node: nat)
    requires 1 <= node <= blocks && Covers(node, block)
    ensures node !in Walked(block, blocks, node) && node in Chain(block, blocks)
    ensures Covers(node + LowBit(node), block)
    ensures Walked(block, blocks, node + LowBit(node)) == Walked(block, blocks, node) + {node}
  {
    ClimbWidens(node);
    forall n: nat
      ensures n in Chain(block, blocks) && node <= n < node + LowBit(node) <==> n == node
    {
      ClimbVisitsCoveringNodes(block, blocks, n);
      if node < n < node + LowBit(node) {
        ClimbSkips(node, n);
      }
    }
  }

  lemma WalkEnds(block: nat, blocks: nat, node: nat)
    ensures Walked(block, blocks, block + 1) == {}
    ensures blocks < node ==> Walked(block, blocks, node) == Chain(block, blocks)
  {
    forall n: nat
      ensures n in Chain(block, blocks) ==> block < n <= blocks
    {
      ClimbVisitsCoveringNodes(block, blocks, n);
    }
  }

  // ---- The top-down descent ----

  /** `n` is a multiple of the power of two `s`, by halving. */
  predicate Aligned(n: nat, s: nat)
    requires Pow2(s)
  {
    s == 1 || (n % 2 == 0 && Aligned(n / 2, s / 2))
  }

  lemma {:induction false} ZeroAligned(s: nat)
    requires Pow2(s)
    ensures Aligned(0, s)
  {
    if s > 1 {
      ZeroAligned(s / 2);
    }
  }

  /** The node the descent probes at width `s` spans exactly `s` blocks, and moving past it
      keeps the descent aligned. */
  lemma {:induction false} ProbeSpan(node: nat, s: nat)
    requires Pow2(s) && Pow2(2 * s) && Aligned(node, 2 * s)
    ensures LowBit(node + s) == s
    ensures Aligned(node, s) && Aligned(node + s, s)
  {
    if s > 1 {
      ProbeSpan(node / 2, s / 2);
      assert (node + s) / 2 == node / 2 + s / 2;
    }
  }

  /** Among the nodes of span `s`, the probed one is the only one that can cover a block inside
      the descent's current window. */
  lemma {:induction false} ProbeIsTheCoveringNode(node: nat, s: nat, block: nat, n: nat)
    requires Pow2(s) && Pow2(2 * s) && Aligned(node, 2 * s)
    requires node <= block < node + 2 * s
    requires n > 0 && LowBit(n) == s
    ensures Covers(n, block) <==> n == node + s && block < node + s
  {
    if s > 1 {
      ProbeIsTheCoveringNode(node / 2, s / 2, block / 2, n / 2);
    }
  }

  /** A node that covers a block of the window is no wider than the window, or wide enough to
      have been probed before. Powers of two leave nothing in between. */
  lemma {:induction false} Pow2Gap(a: nat, s: nat)
    requires Pow2(a) && Pow2(s) && a < 2 * s
    ensures a <= s
  {
    if a > 1 && s > 1 {
      Pow2Gap(a / 2, s / 2);
    }
  }
}
