/** Splitting instructions into transactions that fit a packet, greedily. */
module Batches {
  import opened Results

  const PACKET := 1232

  function Flatten<I>(groups: seq<seq<I>>): seq<I> {
    if groups == [] then [] else Flatten(groups[..|groups| - 1]) + groups[|groups| - 1]
  }

  function Last<T>(s: seq<T>): T
    requires s != []
  {
    s[|s| - 1]
  }

  function Front<T>(s: seq<T>): seq<T>
    requires s != []
  {
    s[..|s| - 1]
  }

  /** The size of a transaction does not shrink when instructions are added around it. */
  ghost predicate Grows<I(!new)>(size: seq<I> -> nat) {
    forall before: seq<I>, group: seq<I>, after: seq<I> :: size(group) <= size(before + group + after)
  }

  /** An in-order grouping that keeps the initial instructions together in front. */
  ghost predicate Grouping<I(!new)>(groups: seq<seq<I>>, initial: seq<I>, rest: seq<I>, size: seq<I> -> nat) {
    && groups != [] && initial <= groups[0]
    && Flatten(groups) == initial + rest
    && (forall i :: 0 <= i < |groups| ==> size(groups[i]) <= PACKET)
    && (forall i :: 0 < i < |groups| ==> groups[i] != [])
  }

  /** No grouping uses fewer groups, and none with as few leaves its last group shorter. */
  ghost predicate Tightest<I(!new)>(groups: seq<seq<I>>, initial: seq<I>, rest: seq<I>, size: seq<I> -> nat)
    requires groups != []
  {
    forall other :: Grouping(other, initial, rest, size) ==>
      |other| > |groups| || (|other| == |groups| && |Last(other)| >= |Last(groups)|)
  }

  lemma FlattenPush<I>(groups: seq<seq<I>>, group: seq<I>)
    ensures Flatten(groups + [group]) == Flatten(groups) + group
  {
    assert (groups + [group])[..|groups|] == groups;
  }

  lemma FlattenSplit<I>(groups: seq<seq<I>>)
    requires groups != []
    ensures Flatten(groups) == Flatten(Front(groups)) + Last(groups)
  {
  }

  /** Dropping the last instruction of a grouping leaves a grouping of the shorter list. */
  lemma GroupingWithoutLast<I(!new)>(groups: seq<seq<I>>, initial: seq<I>, rest: seq<I>, x: I, size: seq<I> -> nat)
    returns (shorter: seq<seq<I>>)
    requires Grows(size) && Grouping(groups, initial, rest + [x], size)
    ensures Grouping(shorter, initial, rest, size)
    ensures if |groups| > 1 && |Last(groups)| == 1
            then |groups| == |shorter| + 1
            else |groups| == |shorter| && Last(groups) == Last(shorter) + [x]
  {
    FlattenSplit(groups);
    var last := Last(groups);
    var whole := initial + (rest + [x]);
    assert whole == initial + rest + [x] && whole[..|whole| - 1] == initial + rest;
    if |groups| > 1 && |last| == 1 {
      shorter := Front(groups);
      assert Flatten(shorter) == whole[..|whole| - 1];
    } else {
      if |groups| == 1 {
        assert Front(groups) == [] && Flatten(groups) == last;
      }
      var trimmed := last[..|last| - 1];
      assert last == trimmed + [x];
      shorter := Front(groups) + [trimmed];
      FlattenPush(Front(groups), trimmed);
      assert Flatten(shorter) == initial + rest;
      assert size(trimmed) <= size([] + trimmed + [x]);
      assert [] + trimmed + [x] == last;
    }
  }

  /** Two suffixes of one list: the longer contains the shorter, so it is no smaller. */
  lemma LongerTail<I(!new)>(left: seq<I>, tail: seq<I>, other: seq<I>, longer: seq<I>, x: I, size: seq<I> -> nat)
    requires Grows(size) && left + tail == other + longer && |tail| <= |longer|
    ensures size(tail + [x]) <= size(longer + [x])
  {
    var extra := longer[..|longer| - |tail|];
    assert longer == extra + tail by {
      assert (other + longer)[|other| + |extra|..] == (left + tail)[|left|..];
    }
    assert size(tail + [x]) <= size(extra + (tail + [x]) + []);
    assert extra + (tail + [x]) + [] == longer + [x];
  }

  /** The new instruction fits the current group: the grouping stays tightest. */
  lemma PushStaysTightest<I(!new)>(groups: seq<seq<I>>, initial: seq<I>, rest: seq<I>, x: I, size: seq<I> -> nat)
    requires groups != [] && Grows(size) && Tightest(groups, initial, rest, size)
    ensures Tightest(Front(groups) + [Last(groups) + [x]], initial, rest + [x], size)
  {
    var pushed := Front(groups) + [Last(groups) + [x]];
    forall other | Grouping(other, initial, rest + [x], size)
      ensures |other| > |pushed| || (|other| == |pushed| && |Last(other)| >= |Last(pushed)|)
    {
      var shorter := GroupingWithoutLast(other, initial, rest, x, size);
    }
  }

  /** The new instruction does not fit: every grouping needs one more group. */
  lemma OpenStaysTightest<I(!new)>(groups: seq<seq<I>>, initial: seq<I>, rest: seq<I>, x: I, size: seq<I> -> nat)
    requires Grows(size) && Grouping(groups, initial, rest, size) && Tightest(groups, initial, rest, size)
    requires size(Last(groups) + [x]) > PACKET
    ensures Tightest(groups + [[x]], initial, rest + [x], size)
  {
    forall other | Grouping(other, initial, rest + [x], size)
      ensures |other| > |groups| + 1 || (|other| == |groups| + 1 && |Last(other)| >= 1)
    {
      var shorter := GroupingWithoutLast(other, initial, rest, x, size);
      if |other| == |groups| {
        FlattenSplit(groups);
        FlattenSplit(shorter);
        LongerTail(Flatten(Front(groups)), Last(groups), Flatten(Front(shorter)), Last(shorter), x, size);
      }
    }
  }

  ghost predicate Fits<I(!new)>(initial: seq<I>, instructions: seq<I>, size: seq<I> -> nat) {
    size(initial) <= PACKET && forall i :: 0 <= i < |instructions| ==> size([instructions[i]]) <= PACKET
  }

  lemma ExtendGrouping<I(!new)>(groups: seq<seq<I>>, initial: seq<I>, rest: seq<I>, x: I, size: seq<I> -> nat)
    requires Grouping(groups, initial, rest, size)
    ensures size(Last(groups) + [x]) <= PACKET ==>
              Grouping(Front(groups) + [Last(groups) + [x]], initial, rest + [x], size)
    ensures size([x]) <= PACKET ==> Grouping(groups + [[x]], initial, rest + [x], size)
  {
    FlattenSplit(groups);
    FlattenPush(Front(groups), Last(groups) + [x]);
    FlattenPush(groups, [x]);
    assert Flatten(groups) + [x] == initial + (rest + [x]);
    assert Flatten(Front(groups)) + (Last(groups) + [x]) == Flatten(groups) + [x];
  }

  /** Greedy batching: it fails exactly when the initial group or a single instruction does not fit;
      otherwise the groups are nonempty, fit, concatenate to the original order, and no in-order
      grouping that keeps the initial instructions together uses fewer of them. */
  method Batch<I(!new)>(initial: seq<I>, instructions: seq<I>, size: seq<I> -> nat) returns (r: Result<seq<seq<I>>>)
    requires Grows(size)
    ensures r.Ok? <==> Fits(initial, instructions, size)
    ensures r.Err? ==> r.error == TransactionTooLarge
    ensures r.Ok? ==>
              && Flatten(r.value) == initial + instructions
              && (forall i :: 0 <= i < |r.value| ==> r.value[i] != [] && size(r.value[i]) <= PACKET)
              && (r.value != [] ==> initial <= r.value[0])
              && (forall other :: Grouping(other, initial, instructions, size) ==> |r.value| <= |other|)
  {
    var transactions := [initial];
    if size(initial) > PACKET {
      return Err(TransactionTooLarge);
    }
    FlattenPush([], initial);
    assert [] + [initial] == [initial];
    InitialIsTightest(initial, size);
    hide Grouping, Tightest, Grows, Flatten;
    for i := 0 to |instructions|
      invariant transactions != [] && Grouping(transactions, initial, instructions[..i], size)
      invariant Tightest(transactions, initial, instructions[..i], size)
      invariant i > 0 ==> transactions[0] != []
      invariant forall j :: 0 <= j < i ==> size([instructions[j]]) <= PACKET
    {
      var x := instructions[i];
      assert instructions[..i + 1] == instructions[..i] + [x];
      ExtendGrouping(transactions, initial, instructions[..i], x, size);
      SingleFits(Last(transactions), x, size);
      var current := Last(transactions) + [x];
      if size(current) > PACKET {
        if size([x]) > PACKET {
          return Err(TransactionTooLarge);
        }
        assert Last(transactions) != [] by {
          assert [] + [x] == [x];
        }
        OpenStaysTightest(transactions, initial, instructions[..i], x, size);
        FirstNotEmpty(transactions, initial, instructions[..i], size);
        transactions := transactions + [[x]];
      } else {
        PushStaysTightest(transactions, initial, instructions[..i], x, size);
        transactions := Front(transactions) + [current];
      }
    }
    assert instructions[..|instructions|] == instructions;
    r := Ok(if transactions[0] == [] then transactions[1..] else transactions);
    Retained(transactions, initial, instructions, size);
  }

  lemma SingleFits<I(!new)>(group: seq<I>, x: I, size: seq<I> -> nat)
    requires Grows(size)
    ensures size([x]) <= size(group + [x])
  {
    assert group + [x] + [] == group + [x];
  }

  lemma InitialIsTightest<I(!new)>(initial: seq<I>, size: seq<I> -> nat)
    ensures Tightest([initial], initial, [], size)
  {
    forall other | Grouping(other, initial, [], size)
      ensures |other| > 1 || (|other| == 1 && |Last(other)| >= |initial|)
    {
    }
  }

  lemma FirstNotEmpty<I(!new)>(groups: seq<seq<I>>, initial: seq<I>, rest: seq<I>, size: seq<I> -> nat)
    requires Grouping(groups, initial, rest, size)
    ensures |groups| > 1 ==> Last(groups) != []
  {
  }

  /** Dropping an empty first group changes nothing but the empty grouping. */
  lemma Retained<I(!new)>(groups: seq<seq<I>>, initial: seq<I>, rest: seq<I>, size: seq<I> -> nat)
    requires Grouping(groups, initial, rest, size) && Tightest(groups, initial, rest, size)
    requires rest != [] ==> groups[0] != []
    ensures var kept := if groups[0] == [] then groups[1..] else groups;
            && Flatten(kept) == initial + rest
            && (forall i :: 0 <= i < |kept| ==> kept[i] != [] && size(kept[i]) <= PACKET)
            && (kept != [] ==> initial <= kept[0])
            && (forall other :: Grouping(other, initial, rest, size) ==> |kept| <= |other|)
  {
    if groups[0] == [] {
      assert initial == [] && rest == [] && Flatten(groups) == [];
      if |groups| > 1 {
        FlattenSplit(groups);
      }
    }
  }
}
