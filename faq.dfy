/**
 * The FAQ list: at most one answer is open at a time, and clicking a
 * question opens it or, when it is the open one, closes it.
 */
module Faq {
  import opened Types

  /**
   * The open item after a click on `index`: nothing when `index` was the
   * open item, `index` otherwise.
   */
  function Toggled(openIndex: Option<int>, index: int): (r: Option<int>)
    ensures r == None <==> openIndex == Some(index)
    ensures r != None ==> r == Some(index)
  {
    if openIndex == Some(index) then None else Some(index)
  }

  /** Item i shows its answer exactly when some item is open and it is that item. */
  predicate IsShown(openIndex: Option<int>, i: int): (shown: bool)
    ensures shown <==> openIndex.Some? && openIndex.value == i
  {
    openIndex == Some(i)
  }

  class Faq {
    var openIndex: Option<int>

    constructor ()
      ensures openIndex == None
    {
      openIndex := None;
    }

    method ToggleItem(index: int)
      modifies this
      ensures openIndex == Toggled(old(openIndex), index)
    {
      openIndex := Toggled(openIndex, index);
    }
  }

  /** At most one answer is shown. */
  lemma AtMostOneShown(openIndex: Option<int>, i: int, j: int)
    requires IsShown(openIndex, i) && IsShown(openIndex, j)
    ensures i == j
  {
  }

  /** Opening an item closes the one that was open. */
  lemma OpeningClosesOther(openIndex: Option<int>, i: int, j: int)
    requires IsShown(openIndex, j) && i != j
    ensures IsShown(Toggled(openIndex, i), i) && !IsShown(Toggled(openIndex, i), j)
  {
  }

  /**
   * Two clicks on the same item restore the previous state exactly when
   * nothing, or that very item, was open; when another item was open, it
   * ends up closed.
   */
  lemma ToggleTwice(openIndex: Option<int>, index: int)
    ensures Toggled(Toggled(openIndex, index), index) == openIndex <==> openIndex == None || openIndex == Some(index)
    ensures Toggled(Toggled(openIndex, index), index) == None || Toggled(Toggled(openIndex, index), index) == openIndex
  {
  }
}
