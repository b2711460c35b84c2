/** The FAQ accordion: a list of open question indices, each question's
    button opening or closing its own answer independently of the others. */
module Faq {
  import Seqs

  /** The number of questions the section lists. */
  const QuestionCount := 12

  /** `openItems` on first render. */
  const InitialOpen: seq<int> := []

  function Other(index: int): int -> bool {
    (item: int) => item != index
  }

  /** `toggleItem(index)`'s updater: an open index is removed, every copy
      of it; a closed one is appended. */
  function Toggle(prev: seq<int>, index: int): seq<int> {
    if index in prev then Seqs.Filter(Other(index), prev) else prev + [index]
  }

  /** An answer is shown exactly when its index is in the list. */
  predicate IsOpen(openItems: seq<int>, index: int) {
    index in openItems
  }

  /** Opening appends at the end and keeps the others in their order. */
  lemma ToggleClosed(prev: seq<int>, index: int)
    requires !IsOpen(prev, index)
    ensures Toggle(prev, index) == prev + [index]
  {
  }

  /** Closing removes every occurrence of the index and keeps the rest of
      the list in its order. */
  lemma ToggleOpen(prev: seq<int>, index: int)
    requires IsOpen(prev, index)
    ensures var r := Toggle(prev, index);
      && Seqs.IsSubsequence(r, prev)
      && (forall x :: x in r <==> x in prev && x != index)
  {
    Seqs.FilterIsSubsequence(Other(index), prev);
    Seqs.FilterMembers(Other(index), prev);
  }

  /** A toggle flips the clicked question and no other: several answers
      may be open at once. */
  lemma ToggleFlips(prev: seq<int>, index: int, j: int)
    ensures IsOpen(Toggle(prev, index), j) <==> if j == index then !IsOpen(prev, index) else IsOpen(prev, j)
  {
    Seqs.FilterMembers(Other(index), prev);
  }

  /** A list without repeats keeps none after a toggle. */
  lemma ToggleNoDuplicates(prev: seq<int>, index: int)
    requires Seqs.NoDuplicates(prev)
    ensures Seqs.NoDuplicates(Toggle(prev, index))
  {
    if index in prev {
      Seqs.FilterNoDuplicates(Other(index), prev);
    } else {
      var r := prev + [index];
      forall i, j | 0 <= i < j < |r| ensures r[i] != r[j] {
        if j == |prev| {
          assert r[i] == prev[i];
        }
      }
    }
  }

  /** Opening and closing the same question restores the list exactly. */
  lemma ToggleTwiceClosed(prev: seq<int>, index: int)
    requires !IsOpen(prev, index)
    ensures Toggle(Toggle(prev, index), index) == prev
  {
    var p := Other(index);
    assert index in prev + [index];
    Seqs.FilterAppend(p, prev, [index]);
    Seqs.FilterAll(p, prev);
    assert Seqs.Filter(p, [index]) == [];
  }

  /** Closing and reopening an open question restores which answers are
      shown; its index moves to the end of the list. */
  lemma ToggleTwiceOpen(prev: seq<int>, index: int)
    requires IsOpen(prev, index)
    ensures var r := Toggle(Toggle(prev, index), index);
      && r == Seqs.Filter(Other(index), prev) + [index]
      && (forall j :: IsOpen(r, j) <==> IsOpen(prev, j))
  {
    ToggleFlips(prev, index, index);
    forall j ensures IsOpen(Toggle(Toggle(prev, index), index), j) <==> IsOpen(prev, j) {
      ToggleFlips(prev, index, j);
      ToggleFlips(Toggle(prev, index), index, j);
    }
  }

  /** Only question buttons toggle, so only their indices are ever open. */
  lemma ToggleKeepsRange(prev: seq<int>, index: int)
    requires forall x :: x in prev ==> 0 <= x < QuestionCount
    requires 0 <= index < QuestionCount
    ensures forall x :: x in Toggle(prev, index) ==> 0 <= x < QuestionCount
  {
    Seqs.FilterMembers(Other(index), prev);
  }

  /** Opening the first and third questions and closing the first. */
  lemma ToggleExample()
    ensures Toggle(Toggle(Toggle(InitialOpen, 0), 2), 0) == [2]
  {
    assert Toggle(InitialOpen, 0) == [0];
    assert Toggle([0], 2) == [0, 2];
    assert Seqs.Filter(Other(0), [2]) == [2];
    Seqs.FilterCons(Other(0), 0, [2]);
    assert [0, 2] == [0] + [2];
  }
}
