/**
 * The FAQ list of app/home/faq-section.tsx: the indices of the open answers,
 * and `toggleItem`, which closes an open answer by filtering its index out
 * and opens a closed one by appending its index.
 */
module Faq {
  import opened Seqs

  /** `prev.includes(index) ? prev.filter(i => i !== index) : [...prev, index]` */
  function Toggle(openItems: seq<int>, index: int): (r: seq<int>)
    ensures index in openItems ==> index !in r
    ensures index !in openItems ==> index in r
    ensures forall x :: x != index ==> (x in r <==> x in openItems)
  {
    if index in openItems then Remove(openItems, index) else openItems + [index]
  }

  /** Closing removes the index and keeps every other open index, in order. */
  lemma ToggleOpen(openItems: seq<int>, index: int)
    requires index in openItems
    ensures IsSubseq(Toggle(openItems, index), openItems)
    ensures |Toggle(openItems, index)| < |openItems|
  {
  }

  /** Opening appends the index after the ones already open. */
  lemma ToggleClosed(openItems: seq<int>, index: int)
    requires index !in openItems
    ensures Toggle(openItems, index) == openItems + [index]
    ensures |Toggle(openItems, index)| == |openItems| + 1
  {
  }

  /** With the toggled index left aside, the list is unchanged: the other indices keep their order. */
  lemma ToggleKeepsOthers(openItems: seq<int>, index: int)
    ensures Remove(Toggle(openItems, index), index) == Remove(openItems, index)
  {
    if index in openItems {
      RemoveIdempotent(openItems, index);
    } else {
      RemoveConcat(openItems, [index], index);
      assert Remove([index], index) == [];
    }
  }

  /**
   * Toggling twice restores which answers are open, and restores the list
   * itself when the answer started closed.
   */
  lemma ToggleTwice(openItems: seq<int>, index: int)
    ensures forall x :: x in Toggle(Toggle(openItems, index), index) <==> x in openItems
    ensures index !in openItems ==> Toggle(Toggle(openItems, index), index) == openItems
  {
    if index !in openItems {
      RemoveAppended(openItems, index);
    }
  }

  /** A list without repeated indices keeps none. */
  lemma ToggleDistinct(openItems: seq<int>, index: int)
    requires Distinct(openItems)
    ensures Distinct(Toggle(openItems, index))
  {
    if index in openItems {
      RemoveDistinct(openItems, index);
    } else {
      var r := openItems + [index];
      forall i, j | 0 <= i < j < |r| ensures r[i] != r[j] {
        if j == |openItems| {
          assert r[i] == openItems[i];
        }
      }
    }
  }
}
