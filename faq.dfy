/** The FAQ accordion of src/sections/Steps.jsx: one state variable,
    `openFaqIndex`, that is -1 when every answer is folded and otherwise the
    index of the one answer shown. */
module Faq {

  /** `faqs.length`. */
  const FaqCount: int := 3

  /** No answer is open. */
  const NoneOpen: int := -1

  /** The value `toggleFaq(index)` stores: clicking the open question folds
      it, clicking any other one opens that one instead. */
  function Toggle(open: int, index: int): (r: int)
    ensures r == NoneOpen <==> open == index || index == NoneOpen
    ensures r != NoneOpen ==> r == index
  {
    if open == index then NoneOpen else index
  }

  /** Item `i` shows the minus icon and a 300px answer, rather than the plus
      icon and a 0px one, exactly when it is the open item. */
  predicate Expanded(open: int, i: int)
  {
    open == i
  }

  function MaxHeight(open: int, i: int): (h: int)
    ensures h == 300 <==> Expanded(open, i)
    ensures h == 0 <==> !Expanded(open, i)
  {
    if open == i then 300 else 0
  }

  datatype Icon = Minus | Plus

  function IconOf(open: int, i: int): (c: Icon)
    ensures c == Minus <==> Expanded(open, i)
  {
    if open == i then Minus else Plus
  }

  predicate InRange(open: int)
  {
    open == NoneOpen || 0 <= open < FaqCount
  }

  /** Clicking a question that exists keeps the state -1 or a real index. */
  lemma ToggleInRange(open: int, index: int)
    requires InRange(open) && 0 <= index < FaqCount
    ensures InRange(Toggle(open, index))
  {
  }

  /** At most one answer is expanded, and none when the state is -1. */
  lemma AtMostOneExpanded(open: int)
    requires InRange(open)
    ensures |set i | 0 <= i < FaqCount && Expanded(open, i)| == if open == NoneOpen then 0 else 1
  {
    var s := set i | 0 <= i < FaqCount && Expanded(open, i);
    if open == NoneOpen {
      assert s == {};
    } else {
      assert s == {open};
    }
  }

  /** Clicking the same question twice gives back the state before. */
  lemma ToggleTwice(open: int, index: int)
    requires 0 <= index < FaqCount && (open == NoneOpen || open == index)
    ensures Toggle(Toggle(open, index), index) == open
  {
  }

  class Accordion {
    var openFaqIndex: int

    ghost predicate Valid()
      reads this
    {
      InRange(openFaqIndex)
    }

    /** `useState(-1)`: nothing open at first. */
    constructor ()
      ensures Valid() && openFaqIndex == NoneOpen
    {
      openFaqIndex := NoneOpen;
    }

    /** A click on the heading of item `index`. */
    method ToggleFaq(index: int)
      requires Valid() && 0 <= index < FaqCount
      modifies this
      ensures Valid()
      ensures openFaqIndex == Toggle(old(openFaqIndex), index)
    {
      openFaqIndex := if openFaqIndex == index then NoneOpen else index;
    }
  }
}
