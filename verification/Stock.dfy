/** The linear inventory: one tag per position, scanned from the front.

    This is the simple thing the availability index speeds up. A tag is zero once the prize is
    gone and `tier + 1` while it is available; positions are never reused. */
module Stock {
  import opened Bits

  const MAX_TIERS := 8

  /** How many prizes of `tier` are available below position `n`. */
  function Upto(tags: seq<u8>, tier: nat, n: nat): (count: nat)
    ensures count <= n
  {
    if n == 0 then 0
    else Upto(tags, tier, n - 1) + if n <= |tags| && tags[n - 1] == tier + 1 then 1 else 0
  }

  /** The available positions of `tier` below `n`, in deposit order. */
  function Candidates(tags: seq<u8>, tier: nat, n: nat): (positions: seq<nat>)
    ensures |positions| == Upto(tags, tier, n)
  {
    if n == 0 then []
    else Candidates(tags, tier, n - 1) + if n <= |tags| && tags[n - 1] == tier + 1 then [n - 1] else []
  }

  /** How many prizes of any tier are available below position `n`. */
  function LiveUpto(tags: seq<u8>, n: nat): (count: nat)
    ensures count <= n
  {
    if n == 0 then 0
    else LiveUpto(tags, n - 1) + if n <= |tags| && tags[n - 1] != 0 then 1 else 0
  }

  ghost predicate ValidTags(tags: seq<u8>, tiers: nat) {
    forall p :: 0 <= p < |tags| ==> tags[p] <= tiers
  }

  lemma {:induction false} UptoAgree(tags: seq<u8>, other: seq<u8>, tier: nat, n: nat)
    requires |tags| == |other| || (n <= |tags| && n <= |other|)
    requires forall p :: 0 <= p < n && p < |tags| ==> tags[p] == other[p]
    ensures Upto(tags, tier, n) == Upto(other, tier, n)
    ensures Candidates(tags, tier, n) == Candidates(other, tier, n)
    ensures LiveUpto(tags, n) == LiveUpto(other, n)
  {
    if n > 0 {
      UptoAgree(tags, other, tier, n - 1);
    }
  }

  lemma {:induction false} UptoMonotone(tags: seq<u8>, tier: nat, m: nat, n: nat)
    requires m <= n
    ensures Upto(tags, tier, m) <= Upto(tags, tier, n) <= Upto(tags, tier, m) + (n - m)
    ensures Candidates(tags, tier, m) <= Candidates(tags, tier, n)
    ensures LiveUpto(tags, m) <= LiveUpto(tags, n)
    decreases n - m
  {
    if m < n {
      UptoMonotone(tags, tier, m, n - 1);
    }
  }

  lemma {:induction false} UptoPastTheEnd(tags: seq<u8>, tier: nat, n: nat)
    requires |tags| <= n
    ensures Upto(tags, tier, n) == Upto(tags, tier, |tags|)
    decreases n
  {
    if |tags| < n {
      UptoPastTheEnd(tags, tier, n - 1);
    }
  }

  /** A candidate's index in the list is its rank. */
  lemma {:induction false} CandidateRank(tags: seq<u8>, tier: nat, n: nat, rank: nat)
    requires rank < Upto(tags, tier, n)
    ensures var p := Candidates(tags, tier, n)[rank];
            p < n && p < |tags| && tags[p] == tier + 1 && Upto(tags, tier, p) == rank
  {
    if rank < Upto(tags, tier, n - 1) {
      CandidateRank(tags, tier, n - 1, rank);
    }
  }

  /** Rank and tag determine the position: the candidate list is the only selection rule. */
  lemma RankDeterminesPosition(tags: seq<u8>, tier: nat, n: nat, p: nat)
    requires p < n && p < |tags| && tags[p] == tier + 1
    ensures Upto(tags, tier, p) < Upto(tags, tier, n)
    ensures Candidates(tags, tier, n)[Upto(tags, tier, p)] == p
  {
    UptoMonotone(tags, tier, p + 1, n);
    assert Candidates(tags, tier, p + 1)[Upto(tags, tier, p)] == p;
  }

  // ---- What one deposit and one removal do to every prefix count ----

  lemma {:induction false} UptoAppend(tags: seq<u8>, tag: u8, tier: nat, n: nat)
    ensures Upto(tags + [tag], tier, n) == Upto(tags, tier, n) + if |tags| < n && tag == tier + 1 then 1 else 0
    ensures LiveUpto(tags + [tag], n) == LiveUpto(tags, n) + if |tags| < n && tag != 0 then 1 else 0
  {
    if n > 0 {
      UptoAppend(tags, tag, tier, n - 1);
    }
  }

  lemma {:induction false} UptoRemove(tags: seq<u8>, p: nat, tier: nat, n: nat)
    requires p < |tags| && tags[p] != 0
    ensures Upto(tags[p := 0], tier, n) == Upto(tags, tier, n) - if p < n && tags[p] == tier + 1 then 1 else 0
    ensures LiveUpto(tags[p := 0], n) == LiveUpto(tags, n) - if p < n then 1 else 0
  {
    if n > 0 {
      UptoRemove(tags, p, tier, n - 1);
      if n - 1 == p {
        UptoAgree(tags, tags[p := 0], tier, p);
      }
    }
  }

  lemma DropLast(list: seq<nat>, x: nat)
    ensures (list + [x])[..|list|] + (list + [x])[|list| + 1..] == list
  {
  }

  lemma DropInside(list: seq<nat>, rank: nat, x: nat)
    requires rank < |list|
    ensures (list + [x])[..rank] + (list + [x])[rank + 1..] == list[..rank] + list[rank + 1..] + [x]
  {
  }

  /** Removing a candidate removes exactly its entry from its tier's list. */
  lemma {:induction false} CandidatesRemove(tags: seq<u8>, p: nat, tier: nat, n: nat)
    requires p < n && p < |tags| && tags[p] != 0
    ensures tags[p] == tier + 1 ==> Upto(tags, tier, p) < Upto(tags, tier, n)
    ensures var list := Candidates(tags, tier, n);
            var rank := Upto(tags, tier, p);
            Candidates(tags[p := 0], tier, n)
            == if tags[p] == tier + 1 then list[..rank] + list[rank + 1..] else list
  {
    hide Candidates, Upto, LiveUpto;
    var shorter, rank := Candidates(tags, tier, n - 1), Upto(tags, tier, p);
    CandidatesStep(tags, tier, n);
    CandidatesStep(tags[p := 0], tier, n);
    if n - 1 == p {
      UptoAgree(tags, tags[p := 0], tier, p);
      DropLast(shorter, p);
    } else {
      CandidatesRemove(tags, p, tier, n - 1);
      if tags[p] == tier + 1 {
        DropInside(shorter, rank, n - 1);
      }
    }
  }

  lemma CandidatesStep(tags: seq<u8>, tier: nat, n: nat)
    requires n > 0
    ensures var matches := n <= |tags| && tags[n - 1] == tier + 1;
            && Candidates(tags, tier, n) == Candidates(tags, tier, n - 1) + (if matches then [n - 1] else [])
            && Upto(tags, tier, n) == Upto(tags, tier, n - 1) + if matches then 1 else 0
  {
  }

  // ---- Tiers partition the live stock ----

  function Sum(counts: seq<nat>): nat {
    if counts == [] then 0 else Sum(counts[..|counts| - 1]) + counts[|counts| - 1]
  }

  /** The available prizes of each tier below `n`. */
  function Available(tags: seq<u8>, tiers: nat, n: nat): (counts: seq<nat>)
    ensures |counts| == tiers
    ensures forall t :: 0 <= t < tiers ==> counts[t] == Upto(tags, t, n)
  {
    seq(tiers, t requires 0 <= t < tiers => Upto(tags, t, n))
  }

  lemma {:induction false} SumBump(counts: seq<nat>, more: seq<nat>, t: nat)
    requires |more| == |counts| && t < |counts|
    requires more == counts[t := counts[t] + 1]
    ensures Sum(more) == Sum(counts) + 1
  {
    var last := |counts| - 1;
    if t == last {
      assert more[..last] == counts[..last];
    } else {
      SumBump(counts[..last], more[..last], t);
    }
  }

  lemma {:induction false} SumZero(counts: seq<nat>)
    requires forall t :: 0 <= t < |counts| ==> counts[t] == 0
    ensures Sum(counts) == 0
  {
    if counts != [] {
      SumZero(counts[..|counts| - 1]);
    }
  }

  lemma {:induction false} TiersPartitionStock(tags: seq<u8>, tiers: nat, n: nat)
    requires ValidTags(tags, tiers)
    ensures Sum(Available(tags, tiers, n)) == LiveUpto(tags, n)
  {
    var counts := Available(tags, tiers, n);
    if n == 0 {
      SumZero(counts);
    } else {
      var fewer := Available(tags, tiers, n - 1);
      TiersPartitionStock(tags, tiers, n - 1);
      if n <= |tags| && tags[n - 1] != 0 {
        var t := tags[n - 1] as int - 1;
        assert counts == fewer[t := fewer[t] + 1];
        SumBump(fewer, counts, t);
      } else {
        assert counts == fewer;
      }
    }
  }

  lemma {:induction false} SumBound(counts: seq<nat>, t: nat)
    requires t < |counts|
    ensures counts[t] <= Sum(counts)
  {
    var last := |counts| - 1;
    if t < last {
      SumBound(counts[..last], t);
    }
  }
}
