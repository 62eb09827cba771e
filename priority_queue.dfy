/**
 * `PriorityQueue<T>` as a class whose one field is the tree of `PQNode`s,
 * held as a value of `PriorityQueueSpec.Tree`.  Every public operation walks
 * the tree as the source does and is proved against the queue order
 * `Contents()`: `Enqueue` inserts behind every value of equal or lower
 * priority, the `Min` operations act on the front, the `Max` operations on
 * the back, and a call on an empty queue ends in `NothingQueued`.
 */
module PriorityQueueSystem {
  import opened Wrappers
  import opened PriorityQueueSpec
  import PriorityQueueProperties

  class PriorityQueue<T> {
    /** `_head`: `Nil` while nothing is queued. */
    var head: Tree<T>

    /** Search-tree order and no empty node: what every public method keeps. */
    ghost predicate Valid()
      reads this
    {
      PriorityQueueSpec.Valid(head)
    }

    /** The queued entries in the order they will be dequeued by `DequeueMin`. */
    ghost function Contents(): seq<Entry<T>>
      reads this
    {
      Elements(head)
    }

    constructor ()
      ensures Valid() && Contents() == []
    {
      head := Nil;
    }

    /** `Count`: the number of queued values. */
    function Count(): (n: nat)
      reads this
      ensures n == |Contents()|
    {
      if head.Nil? then 0 else PriorityQueueSpec.Count(head)
    }

    /** `Enqueue`: find or create the node of the priority, then append to its bucket. */
    method Enqueue(value: T, priority: int)
      requires Valid()
      modifies this
      ensures Valid()
      ensures head == PriorityQueueSpec.Enqueue(old(head), value, priority)
      ensures Contents() == InsertEntry(old(Contents()), Entry(priority, value))
    {
      ghost var t0 := head;
      if head.Node? {
        head := GetNode(head, priority);
      } else {
        head := NewNode(priority);
      }
      head := EnqueueAt(head, priority, value);
      PriorityQueueProperties.EnqueueInsertsInOrder(t0, value, priority);
    }

    /**
     * `DequeueMin`: walk to the left-most node, take the front of its bucket
     * and unlink the node if that emptied it.
     */
    method DequeueMin() returns (r: Result<T, QueueError>)
      requires Valid()
      modifies this
      ensures Valid()
      ensures old(Contents()) == [] ==> r == Err(NothingQueued) && head == old(head)
      ensures old(Contents()) != [] ==> r == Ok(old(Contents())[0].value) && Contents() == old(Contents())[1..]
      ensures old(head).Node? ==> head == RemoveMin(old(head))
    {
      var t := head;
      PriorityQueueProperties.FilledNodeNonEmpty(t);
      if t.Nil? {
        return Err(NothingQueued);
      }
      var node := t;
      while node.lesser.Node?
        invariant node.Node? && Filled(node)
        invariant |Elements(node)| > 0 && Elements(node)[0] == Elements(t)[0]
        decreases node
      {
        PriorityQueueProperties.LeftmostHoldsFront(node);
        node := node.lesser;
      }
      PriorityQueueProperties.LeftmostHoldsFront(node);
      var taken := NodeDequeueMin(node);
      r := Ok(taken.value.0);
      PriorityQueueProperties.RemoveMinDropsFront(t);
      head := RemoveMin(t);
    }

    /**
     * `DequeueMax`: walk to the right-most node, take the back of its bucket
     * and unlink the node if that emptied it.
     */
    method DequeueMax() returns (r: Result<T, QueueError>)
      requires Valid()
      modifies this
      ensures Valid()
      ensures old(Contents()) == [] ==> r == Err(NothingQueued) && head == old(head)
      ensures old(Contents()) != [] ==>
                r == Ok(old(Contents())[|old(Contents())| - 1].value) && Contents() == old(Contents())[..|old(Contents())| - 1]
      ensures old(head).Node? ==> head == RemoveMax(old(head))
    {
      var t := head;
      PriorityQueueProperties.FilledNodeNonEmpty(t);
      if t.Nil? {
        return Err(NothingQueued);
      }
      var node := t;
      while node.greater.Node?
        invariant node.Node? && Filled(node)
        invariant |Elements(node)| > 0 && |Elements(t)| > 0
        invariant Elements(node)[|Elements(node)| - 1] == Elements(t)[|Elements(t)| - 1]
        decreases node
      {
        PriorityQueueProperties.RightmostHoldsBack(node);
        node := node.greater;
      }
      PriorityQueueProperties.RightmostHoldsBack(node);
      var taken := NodeDequeueMax(node);
      r := Ok(taken.value.0);
      PriorityQueueProperties.RemoveMaxDropsBack(t);
      head := RemoveMax(t);
    }

    /** `PeekMin`: the value `DequeueMin` would return, nothing removed. */
    method PeekMin() returns (r: Result<T, QueueError>)
      requires Valid()
      ensures Contents() == [] ==> r == Err(NothingQueued)
      ensures Contents() != [] ==> r == Ok(Contents()[0].value)
    {
      PriorityQueueProperties.FilledNodeNonEmpty(head);
      if head.Nil? {
        return Err(NothingQueued);
      }
      var node := head;
      while node.lesser.Node?
        invariant node.Node? && Filled(node)
        invariant |Elements(node)| > 0 && Elements(node)[0] == Elements(head)[0]
        decreases node
      {
        PriorityQueueProperties.LeftmostHoldsFront(node);
        node := node.lesser;
      }
      PriorityQueueProperties.LeftmostHoldsFront(node);
      r := NodePeekMin(node);
    }

    /** `PeekMax`: the value `DequeueMax` would return, nothing removed. */
    method PeekMax() returns (r: Result<T, QueueError>)
      requires Valid()
      ensures Contents() == [] ==> r == Err(NothingQueued)
      ensures Contents() != [] ==> r == Ok(Contents()[|Contents()| - 1].value)
    {
      PriorityQueueProperties.FilledNodeNonEmpty(head);
      if head.Nil? {
        return Err(NothingQueued);
      }
      var node := head;
      while node.greater.Node?
        invariant node.Node? && Filled(node)
        invariant |Elements(node)| > 0 && |Elements(head)| > 0
        invariant Elements(node)[|Elements(node)| - 1] == Elements(head)[|Elements(head)| - 1]
        decreases node
      {
        PriorityQueueProperties.RightmostHoldsBack(node);
        node := node.greater;
      }
      PriorityQueueProperties.RightmostHoldsBack(node);
      r := NodePeekMax(node);
    }

    /**
     * `ToString`: the values in queue order separated by ", ", as long as no
     * value prints as the empty string (see `EmptyLeadingValueLosesSeparator`).
     * `show` is the values' own `ToString`.
     */
    method ToString(show: T -> string) returns (s: string)
      requires Valid()
      ensures s == CompileQueueString(show, "", head)
      ensures PriorityQueueProperties.NoEmpty(PriorityQueueProperties.Texts(show, head))
              ==> s == Join(PriorityQueueProperties.Texts(show, head))
    {
      s := "";
      if head.Node? {
        s := CompileQueue(show, s, head);
      }
      if PriorityQueueProperties.NoEmpty(PriorityQueueProperties.Texts(show, head)) {
        PriorityQueueProperties.ToStringJoinsValues(show, head);
      }
    }
  }

  /** `CompileQueueString`: the lesser subtree, this node's text with the comma logic, the greater subtree. */
  method CompileQueue<T>(show: T -> string, acc: string, node: Tree<T>) returns (s: string)
    requires node.Node?
    ensures s == CompileQueueString(show, acc, node)
    decreases node
  {
    s := acc;
    if node.lesser.Node? {
      s := CompileQueue(show, s, node.lesser);
    }
    var text := NodeToString(show, node.bucket);
    if s == "" {
      s := text;
    } else {
      s := s + ", " + text;
    }
    if node.greater.Node? {
      s := CompileQueue(show, s, node.greater);
    }
  }

  /** `PQNode.ToString`: the bucket's values, front to back, with the comma logic. */
  method NodeToString<T>(show: T -> string, bucket: seq<T>) returns (s: string)
    ensures s == NodeString(show, bucket)
    ensures PriorityQueueProperties.NoEmpty(Shows(show, bucket)) ==> s == Join(Shows(show, bucket))
  {
    s := "";
    for i := 0 to |bucket|
      invariant FoldCsv("", Shows(show, bucket)) == FoldCsv(s, Shows(show, bucket[i..]))
    {
      assert bucket[i..][1..] == bucket[i + 1..];
      var text := show(bucket[i]);
      if s == "" {
        s := text;
      } else {
        s := s + ", " + text;
      }
    }
    assert bucket[|bucket|..] == [];
    if PriorityQueueProperties.NoEmpty(Shows(show, bucket)) {
      PriorityQueueProperties.FoldCsvIsJoin(Shows(show, bucket));
    }
  }
}
