/** The drag-and-drop ordering question: the player reorders code blocks by
    dragging one block onto the position of another, then submits the order. */
module DragDrop {
  import opened Common

  /** `s.splice(start, deleteCount, ...items)`, the array it leaves behind;
      a start or count past the end is clamped as JavaScript does. */
  function Splice(s: seq<int>, start: nat, deleteCount: nat, items: seq<int>): (r: seq<int>)
    ensures var a := if start <= |s| then start else |s|;
      var d := if deleteCount <= |s| - a then deleteCount else |s| - a;
      |r| == |s| - d + |items| && r[..a] == s[..a] && r[a..a + |items|] == items
      && r[a + |items|..] == s[a + d..]
  {
    var a := if start <= |s| then start else |s|;
    var d := if deleteCount <= |s| - a then deleteCount else |s| - a;
    s[..a] + items + s[a + d..]
  }

  /** `s` without its element at `i`. */
  function RemoveAt(s: seq<int>, i: nat): seq<int>
    requires i < |s|
  {
    s[..i] + s[i + 1..]
  }

  /** What `handleDrop` does to the order: take the dragged element out and
      put it back in at the target position. */
  function MoveItem(order: seq<int>, from: nat, to: nat): (r: seq<int>)
    requires from < |order|
    ensures |r| == |order|
    ensures order[from] in r
  {
    var item := order[from];
    var removed := Splice(order, from, 1, []);
    var t := if to <= |removed| then to else |removed|;
    assert Splice(removed, to, 0, [item])[t] == item;
    Splice(removed, to, 0, [item])
  }

  /** A move keeps the length and the multiset of the order, so a
      permutation stays a permutation. */
  lemma MovePreservesElements(order: seq<int>, from: nat, to: nat)
    requires from < |order|
    ensures |MoveItem(order, from, to)| == |order|
    ensures multiset(MoveItem(order, from, to)) == multiset(order)
  {
    var removed := Splice(order, from, 1, []);
    RemovingTakesOneOut(order, from);
    InsertingAddsOne(removed, to, order[from]);
  }

  /** Deleting one element takes exactly that element out of the multiset. */
  lemma RemovingTakesOneOut(s: seq<int>, i: nat)
    requires i < |s|
    ensures |Splice(s, i, 1, [])| == |s| - 1
    ensures multiset(Splice(s, i, 1, [])) + multiset{s[i]} == multiset(s)
  {
    assert Splice(s, i, 1, []) == s[..i] + s[i + 1..];
    assert s == s[..i] + [s[i]] + s[i + 1..];
  }

  /** Inserting one element adds exactly that element to the multiset. */
  lemma InsertingAddsOne(s: seq<int>, t: nat, x: int)
    ensures |Splice(s, t, 0, [x])| == |s| + 1
    ensures multiset(Splice(s, t, 0, [x])) == multiset(s) + multiset{x}
  {
    var a := if t <= |s| then t else |s|;
    assert Splice(s, t, 0, [x]) == s[..a] + [x] + s[a..];
    assert s == s[..a] + s[a..];
  }

  /** After a move to an index in range, that index holds the dragged element. */
  lemma MovePlacesDragged(order: seq<int>, from: nat, to: nat)
    requires from < |order| && to < |order|
    ensures MoveItem(order, from, to)[to] == order[from]
  {
    var removed := Splice(order, from, 1, []);
    assert MoveItem(order, from, to) == removed[..to] + [order[from]] + removed[to..];
  }

  /** The other elements keep their relative order: taking the moved element
      out of the result gives the order with the dragged element taken out. */
  lemma MoveKeepsOthersInOrder(order: seq<int>, from: nat, to: nat)
    requires from < |order| && to < |order|
    ensures RemoveAt(MoveItem(order, from, to), to) == RemoveAt(order, from)
  {
    var removed := Splice(order, from, 1, []);
    var moved := MoveItem(order, from, to);
    assert moved == removed[..to] + [order[from]] + removed[to..];
    assert moved[..to] == removed[..to];
    assert moved[to + 1..] == removed[to..];
    assert removed == removed[..to] + removed[to..];
  }

  /** Dropping an element onto its own position changes nothing. */
  lemma MoveToSameIndexIsIdentity(order: seq<int>, i: nat)
    requires i < |order|
    ensures MoveItem(order, i, i) == order
  {
    var removed := Splice(order, i, 1, []);
    assert MoveItem(order, i, i) == removed[..i] + [order[i]] + removed[i..];
    assert removed[..i] == order[..i];
    assert removed[i..] == order[i + 1..];
    assert order == order[..i] + [order[i]] + order[i + 1..];
  }

  /** The component's state: the props it was last rendered with (the blocks
      and the answer key), the current order of block indices and the index
      being dragged.  The order is set once, when the component mounts: the
      game screen renders the component without a `key`, so when a drag-drop
      question follows another the same component takes the new props and
      keeps the order and the drag of the previous question. */
  class DragDropQuestion {
    var blocks: seq<string>
    var correctOrder: seq<int>
    var order: seq<int>
    var draggedIndex: Option<nat>

    /** What holds in every state the component reaches, whatever props it
        has since received: the order is a permutation of `0..|order|-1`, and
        a drag in progress points into it. */
    ghost predicate Valid()
      reads this
    {
      && multiset(order) == multiset(Range(|order|))
      && (draggedIndex.Some? ==> draggedIndex.value < |order|)
    }

    /** The mount: the block indices `0..n-1` in a random order (`swaps` is
        the random shuffle), nothing dragged. */
    constructor (blocks: seq<string>, correctOrder: seq<int>, swaps: seq<(nat, nat)>)
      ensures Valid()
      ensures this.blocks == blocks && this.correctOrder == correctOrder
      ensures order == Shuffle(Range(|blocks|), swaps) && draggedIndex == None
      ensures multiset(order) == multiset(Range(|blocks|))
    {
      this.blocks := blocks;
      this.correctOrder := correctOrder;
      order := Shuffle(Range(|blocks|), swaps);
      draggedIndex := None;
    }

    /** A re-render with the next question's props: the `useState` values are
        not initialised again, so the order and the drag stay as they were. */
    method ReceiveProps(blocks: seq<string>, correctOrder: seq<int>)
      requires Valid()
      modifies this
      ensures Valid()
      ensures this.blocks == blocks && this.correctOrder == correctOrder
      ensures order == old(order) && draggedIndex == old(draggedIndex)
    {
      this.blocks := blocks;
      this.correctOrder := correctOrder;
    }

    /** `handleDragStart`, called with the index of a rendered block; ignored
        while the question is disabled. */
    method HandleDragStart(index: nat, disabled: bool)
      requires Valid() && index < |order|
      modifies this
      ensures Valid()
      ensures order == old(order) && blocks == old(blocks) && correctOrder == old(correctOrder)
      ensures draggedIndex == if disabled then old(draggedIndex) else Some(index)
    {
      if disabled {
        return;
      }
      draggedIndex := Some(index);
    }

    /** `handleDrop`, called with the index of a rendered block: moves the
        dragged element there and ends the drag; does nothing while disabled
        or when no drag is in progress.  The order keeps its length. */
    method HandleDrop(targetIndex: nat, disabled: bool)
      requires Valid() && targetIndex < |order|
      modifies this
      ensures Valid()
      ensures |order| == |old(order)|
      ensures blocks == old(blocks) && correctOrder == old(correctOrder)
      ensures disabled || old(draggedIndex).None? ==>
        order == old(order) && draggedIndex == old(draggedIndex)
      ensures !disabled && old(draggedIndex).Some? ==>
        order == MoveItem(old(order), old(draggedIndex).value, targetIndex) && draggedIndex == None
    {
      if disabled || draggedIndex.None? {
        return;
      }
      var from := draggedIndex.value;
      var newOrder := order;
      var draggedItem := newOrder[from];
      newOrder := Splice(newOrder, from, 1, []);
      newOrder := Splice(newOrder, targetIndex, 0, [draggedItem]);
      MovePreservesElements(order, from, targetIndex);
      order := newOrder;
      draggedIndex := None;
    }

    /** `handleSubmit`: hands the current order to the parent as it is,
        whether or not it matches the answer key.  It is a permutation of the
        block indices of the question the component was mounted for, which
        need not be the current one. */
    method HandleSubmit() returns (submitted: seq<int>)
      requires Valid()
      ensures submitted == order
      ensures multiset(submitted) == multiset(Range(|submitted|))
    {
      submitted := order;
    }
  }

  /** Two drag-drop questions in a row, with three blocks and then four: the
      component keeps the three-element order of the first, so whatever the
      player drags on the second, the order handed on has three elements and
      never equals the four-element answer key. */
  method StaleOrderOnNextQuestion(swaps: seq<(nat, nat)>, drags: seq<(nat, nat)>)
    returns (submitted: seq<int>, correct: bool)
    ensures |submitted| == 3
    ensures !correct
  {
    var q := new DragDropQuestion(["a", "b", "c"], [0, 1, 2], swaps);
    q.ReceiveProps(["a", "b", "c", "d"], [0, 1, 2, 3]);
    var k := 0;
    while k < |drags|
      invariant 0 <= k <= |drags|
      invariant q.Valid() && |q.order| == 3 && q.correctOrder == [0, 1, 2, 3]
    {
      var (from, to) := drags[k];
      if from < |q.order| && to < |q.order| {
        q.HandleDragStart(from, false);
        q.HandleDrop(to, false);
      }
      k := k + 1;
    }
    submitted := q.HandleSubmit();
    correct := submitted == q.correctOrder;
  }
}
