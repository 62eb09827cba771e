/**
 * What the priority queue promises, stated about its abstraction (the
 * entries in queue order): enqueue is a stable insertion by priority,
 * the minimum end is the front of the lowest bucket and the maximum end the
 * back of the highest, removal keeps the tree ordered and free of empty
 * nodes, and the printed form is the values joined by ", ".
 */
module PriorityQueueProperties {
  import opened Wrappers
  import opened PriorityQueueSpec

  // ---------------------------------------------------------------- the abstraction

  /** Every entry of a tree carries one of its node priorities. */
  lemma {:induction false} ElementsPriorities<T>(t: Tree<T>)
    ensures forall i :: 0 <= i < |Elements(t)| ==> Elements(t)[i].priority in Priorities(t)
  {
    match t
    case Nil =>
    case Node(l, p, b, g) =>
      ElementsPriorities(l);
      ElementsPriorities(g);
      var el, eb, eg := Elements(l), BucketEntries(p, b), Elements(g);
      forall i | 0 <= i < |Elements(t)|
        ensures Elements(t)[i].priority in Priorities(t)
      {
        At3(el, eb, eg, i);
      }
  }

  /** The element at `i` of a three-part concatenation. */
  lemma At3<T>(a: seq<T>, b: seq<T>, c: seq<T>, i: nat)
    requires i < |a| + |b| + |c|
    ensures (a + b + c)[i] == if i < |a| then a[i] else if i < |a| + |b| then b[i - |a|] else c[i - |a| - |b|]
  {
  }

  /** In-order traversal of an ordered tree lists the entries by non-decreasing priority. */
  lemma {:induction false} OrderedElementsSorted<T>(t: Tree<T>)
    requires Ordered(t)
    ensures SortedByPriority(Elements(t))
  {
    match t
    case Nil =>
    case Node(l, p, b, g) =>
      OrderedElementsSorted(l);
      OrderedElementsSorted(g);
      ElementsPriorities(l);
      ElementsPriorities(g);
      var el, eb, eg := Elements(l), BucketEntries(p, b), Elements(g);
      var s := Elements(t);
      forall i, j | 0 <= i < j < |s|
        ensures s[i].priority <= s[j].priority
      {
        At3(el, eb, eg, i);
        At3(el, eb, eg, j);
      }
  }

  /** A tree with no empty bucket is empty exactly when it is `Nil`. */
  lemma FilledNodeNonEmpty<T>(t: Tree<T>)
    requires Filled(t)
    ensures Elements(t) == [] <==> t.Nil?
  {
    if t.Node? {
      assert |BucketEntries(t.priority, t.bucket)| > 0;
    }
  }

  // ---------------------------------------------------------------- the reference insertion

  lemma {:induction false} InsertAfterLower<T>(a: seq<Entry<T>>, b: seq<Entry<T>>, e: Entry<T>)
    requires forall i :: 0 <= i < |a| ==> a[i].priority <= e.priority
    ensures InsertEntry(a + b, e) == a + InsertEntry(b, e)
    decreases |a|
  {
    if a != [] {
      assert (a + b)[0] == a[0] && (a + b)[1..] == a[1..] + b;
      InsertAfterLower(a[1..], b, e);
    } else {
      assert a + b == b;
    }
  }

  lemma {:induction false} InsertBeforeHigher<T>(a: seq<Entry<T>>, b: seq<Entry<T>>, e: Entry<T>)
    requires forall i :: 0 <= i < |b| ==> b[i].priority > e.priority
    ensures InsertEntry(a + b, e) == InsertEntry(a, e) + b
    decreases |a|
  {
    if a == [] {
      assert a + b == b;
    } else if e.priority >= a[0].priority {
      assert (a + b)[0] == a[0] && (a + b)[1..] == a[1..] + b;
      InsertBeforeHigher(a[1..], b, e);
    }
  }

  /** The position a new entry takes: after every entry of at most its priority, at the first greater one. */
  function InsertionPoint<T>(s: seq<Entry<T>>, p: int): (k: nat)
    ensures k <= |s|
    ensures forall j :: 0 <= j < k ==> s[j].priority <= p
    ensures k < |s| ==> s[k].priority > p
  {
    if s == [] || p < s[0].priority then 0 else 1 + InsertionPoint(s[1..], p)
  }

  /** Cutting `s` at `k >= 1` is cutting its tail at `k - 1` with the head put back in front. */
  lemma ConsSlices<T>(s: seq<T>, k: nat, e: T)
    requires 1 <= k <= |s|
    ensures [s[0]] + (s[1..][..k - 1] + [e] + s[1..][k - 1..]) == s[..k] + [e] + s[k..]
  {
    assert s[..k] == [s[0]] + s[1..][..k - 1];
    assert s[k..] == s[1..][k - 1..];
  }

  lemma {:induction false} InsertEntryShape<T>(s: seq<Entry<T>>, e: Entry<T>)
    ensures InsertEntry(s, e) == s[..InsertionPoint(s, e.priority)] + [e] + s[InsertionPoint(s, e.priority)..]
    decreases |s|
  {
    if s != [] && e.priority >= s[0].priority {
      InsertEntryShape(s[1..], e);
      ConsSlices(s, InsertionPoint(s, e.priority), e);
    } else {
      assert s[..0] == [] && s[0..] == s;
    }
  }

  /**
   * On a sorted queue the new entry lands behind every entry of lower or
   * equal priority and in front of every greater one: FIFO within a
   * priority, and the order stays sorted.
   */
  lemma InsertEntryPlacement<T>(s: seq<Entry<T>>, e: Entry<T>)
    requires SortedByPriority(s)
    ensures var k := InsertionPoint(s, e.priority);
      && InsertEntry(s, e) == s[..k] + [e] + s[k..]
      && (forall j :: 0 <= j < k ==> s[j].priority <= e.priority)
      && (forall j :: k <= j < |s| ==> s[j].priority > e.priority)
      && SortedByPriority(InsertEntry(s, e))
  {
    InsertEntryShape(s, e);
    var k := InsertionPoint(s, e.priority);
    forall j | k <= j < |s|
      ensures s[j].priority > e.priority
    {
      assert s[k].priority <= s[j].priority;
    }
    SortedSplice(s, k, e);
  }

  /** Splicing an entry between the entries of at most its priority and the greater ones keeps the order sorted. */
  lemma SortedSplice<T>(s: seq<Entry<T>>, k: nat, e: Entry<T>)
    requires SortedByPriority(s) && k <= |s|
    requires forall j :: 0 <= j < k ==> s[j].priority <= e.priority
    requires forall j :: k <= j < |s| ==> s[j].priority > e.priority
    ensures SortedByPriority(s[..k] + [e] + s[k..])
  {
    var r := s[..k] + [e] + s[k..];
    forall i, j | 0 <= i < j < |r|
      ensures r[i].priority <= r[j].priority
    {
      var x := if i < k then s[i] else if i == k then e else s[i - 1];
      var y := if j < k then s[j] else if j == k then e else s[j - 1];
      assert r[i] == x && r[j] == y;
    }
  }

  // ---------------------------------------------------------------- enqueue

  lemma BucketEntriesSnoc<T>(p: int, b: seq<T>, v: T)
    ensures BucketEntries(p, b + [v]) == BucketEntries(p, b) + [Entry(p, v)]
  {
    assert BucketEntries(p, b + [v]) == BucketEntries(p, b) + [Entry(p, v)];
  }

  /** Every entry left of a node has a smaller priority, every entry right of it a greater one. */
  lemma OrderedSides<T>(t: Tree<T>)
    requires t.Node? && Ordered(t)
    ensures forall i :: 0 <= i < |Elements(t.lesser)| ==> Elements(t.lesser)[i].priority < t.priority
    ensures forall i :: 0 <= i < |Elements(t.greater)| ==> Elements(t.greater)[i].priority > t.priority
  {
    ElementsPriorities(t.lesser);
    ElementsPriorities(t.greater);
  }

  /** The value joins the back of its own node's bucket. */
  /** Inserting into the middle group of a sorted split: after the lower and equal groups, before the greater one. */
  lemma InsertBetween<T>(el: seq<Entry<T>>, eb: seq<Entry<T>>, eg: seq<Entry<T>>, e: Entry<T>)
    requires forall i :: 0 <= i < |el| ==> el[i].priority <= e.priority
    requires forall i :: 0 <= i < |eb| ==> eb[i].priority <= e.priority
    requires forall i :: 0 <= i < |eg| ==> eg[i].priority > e.priority
    ensures InsertEntry(el + eb + eg, e) == el + (eb + [e]) + eg
  {
    assert el + eb + eg == el + (eb + eg);
    InsertAfterLower(el, eb + eg, e);
    InsertAfterLower(eb, eg, e);
    assert InsertEntry(eg, e) == [e] + eg;
  }

  lemma EnqueueAtThisNode<T>(t: Tree<T>, v: T)
    requires t.Node? && Ordered(t)
    ensures Elements(NodeEnqueue(t, v)) == InsertEntry(Elements(t), Entry(t.priority, v))
  {
    var e := Entry(t.priority, v);
    var el, eb, eg := Elements(t.lesser), BucketEntries(t.priority, t.bucket), Elements(t.greater);
    OrderedSides(t);
    InsertBetween(el, eb, eg, e);
    BucketEntriesSnoc(t.priority, t.bucket, v);
  }

  /** `node.Enqueue(value)` on the node `GetNode` found is the reference insertion. */
  lemma {:induction false} EnqueueAtInserts<T>(t: Tree<T>, p: int, v: T)
    requires Ordered(t) && p in Priorities(t)
    ensures Elements(EnqueueAt(t, p, v)) == InsertEntry(Elements(t), Entry(p, v))
    decreases t
  {
    if p == t.priority {
      EnqueueAtThisNode(t, v);
    } else if p < t.priority {
      EnqueueAtInserts(t.lesser, p, v);
      EnqueueAtLesser(t, p, v);
    } else {
      EnqueueAtInserts(t.greater, p, v);
      EnqueueAtGreater(t, p, v);
    }
  }

  /** One step down to the left: an insertion into the lesser subtree lands before the node's own entries. */
  lemma EnqueueAtLesser<T>(t: Tree<T>, p: int, v: T)
    requires t.Node? && Ordered(t) && p < t.priority
    requires Elements(EnqueueAt(t.lesser, p, v)) == InsertEntry(Elements(t.lesser), Entry(p, v))
    ensures Elements(EnqueueAt(t, p, v)) == InsertEntry(Elements(t), Entry(p, v))
  {
    match t
    case Node(l, q, b, g) =>
      assert EnqueueAt(t, p, v) == Node(EnqueueAt(l, p, v), q, b, g);
      OrderedSides(t);
      InsertBeforeNode(Elements(l), BucketEntries(q, b), Elements(g), Entry(p, v));
  }

  /** One step down to the right: an insertion into the greater subtree lands after the node's own entries. */
  lemma EnqueueAtGreater<T>(t: Tree<T>, p: int, v: T)
    requires t.Node? && Ordered(t) && p > t.priority
    requires Elements(EnqueueAt(t.greater, p, v)) == InsertEntry(Elements(t.greater), Entry(p, v))
    ensures Elements(EnqueueAt(t, p, v)) == InsertEntry(Elements(t), Entry(p, v))
  {
    match t
    case Node(l, q, b, g) =>
      assert EnqueueAt(t, p, v) == Node(l, q, b, EnqueueAt(g, p, v));
      OrderedSides(t);
      InsertAfterNode(Elements(l), BucketEntries(q, b), Elements(g), Entry(p, v));
  }

  /** An entry of lower priority than a node's goes into the part before it. */
  lemma InsertBeforeNode<T>(el: seq<Entry<T>>, eb: seq<Entry<T>>, eg: seq<Entry<T>>, e: Entry<T>)
    requires forall i :: 0 <= i < |eb| ==> eb[i].priority > e.priority
    requires forall i :: 0 <= i < |eg| ==> eg[i].priority > e.priority
    ensures InsertEntry(el + eb + eg, e) == InsertEntry(el, e) + eb + eg
  {
    Associate(el, eb, eg);
    Associate(InsertEntry(el, e), eb, eg);
    forall i | 0 <= i < |eb + eg|
      ensures (eb + eg)[i].priority > e.priority
    {
      if i >= |eb| {
        assert (eb + eg)[i] == eg[i - |eb|];
      }
    }
    InsertBeforeHigher(el, eb + eg, e);
  }

  /** An entry of greater priority than a node's goes into the part after it. */
  lemma InsertAfterNode<T>(el: seq<Entry<T>>, eb: seq<Entry<T>>, eg: seq<Entry<T>>, e: Entry<T>)
    requires forall i :: 0 <= i < |el| ==> el[i].priority < e.priority
    requires forall i :: 0 <= i < |eb| ==> eb[i].priority < e.priority
    ensures InsertEntry(el + eb + eg, e) == el + eb + InsertEntry(eg, e)
  {
    forall i | 0 <= i < |el + eb|
      ensures (el + eb)[i].priority <= e.priority
    {
      if i >= |el| {
        assert (el + eb)[i] == eb[i - |el|];
      }
    }
    InsertAfterLower(el + eb, eg, e);
  }

  lemma Associate<E>(a: seq<E>, b: seq<E>, c: seq<E>)
    ensures a + b + c == a + (b + c)
  {
    var x, y := a + b + c, a + (b + c);
    forall i | 0 <= i < |x|
      ensures x[i] == y[i]
    {
      if i >= |a| + |b| {
        assert x[i] == c[i - |a| - |b|];
      } else if i >= |a| {
        assert x[i] == b[i - |a|];
      }
    }
  }

  /**
   * `PriorityQueue.Enqueue` inserts the value behind every queued value of
   * lower or equal priority, keeps the tree ordered, and leaves no empty node.
   */
  lemma EnqueueInsertsInOrder<T>(t: Tree<T>, v: T, p: int)
    requires Valid(t)
    ensures Elements(Enqueue(t, v, p)) == InsertEntry(Elements(t), Entry(p, v))
    ensures Valid(Enqueue(t, v, p))
  {
    var t1 := GetNode(t, p);
    EnqueueAtInserts(t1, p, v);
    EnqueueKeepsFilled(t, p, v);
  }

  lemma {:induction false} EnqueueKeepsFilled<T>(t: Tree<T>, p: int, v: T)
    requires Filled(t)
    ensures Filled(EnqueueAt(GetNode(t, p), p, v))
    decreases t
  {
    match t
    case Nil =>
    case Node(l, q, b, g) =>
      if p < q {
        EnqueueKeepsFilled(l, p, v);
      } else if p > q {
        EnqueueKeepsFilled(g, p, v);
      }
  }

  /** `GetNode` finds the one node with the priority, creating it if need be; no priority gets two nodes. */
  lemma GetNodeFindsUniqueNode<T>(t: Tree<T>, p: int)
    requires Ordered(t)
    ensures p in Priorities(GetNode(t, p)) && Ordered(GetNode(t, p))
    ensures NodesWith(GetNode(t, p), p) == 1
  {
    OrderedHasOneNodePerPriority(GetNode(t, p), p);
  }

  /** How many nodes carry priority `p`. */
  function NodesWith<T>(t: Tree<T>, p: int): nat {
    match t
    case Nil => 0
    case Node(l, q, _, g) => NodesWith(l, p) + (if q == p then 1 else 0) + NodesWith(g, p)
  }

  lemma {:induction false} NoNodeOutsidePriorities<T>(t: Tree<T>, p: int)
    requires p !in Priorities(t)
    ensures NodesWith(t, p) == 0
  {
    match t
    case Nil =>
    case Node(l, q, _, g) =>
      NoNodeOutsidePriorities(l, p);
      NoNodeOutsidePriorities(g, p);
  }

  lemma {:induction false} OrderedHasOneNodePerPriority<T>(t: Tree<T>, p: int)
    requires Ordered(t)
    ensures NodesWith(t, p) == (if p in Priorities(t) then 1 else 0)
  {
    match t
    case Nil =>
    case Node(l, q, _, g) =>
      if p == q {
        NoNodeOutsidePriorities(l, p);
        NoNodeOutsidePriorities(g, p);
      } else if p < q {
        OrderedHasOneNodePerPriority(l, p);
        NoNodeOutsidePriorities(g, p);
      } else {
        NoNodeOutsidePriorities(l, p);
        OrderedHasOneNodePerPriority(g, p);
      }
  }

  // ---------------------------------------------------------------- dequeue

  /** The left-most node holds the front entry; a node with a lesser child shares its front with that child. */
  lemma LeftmostHoldsFront<T>(t: Tree<T>)
    requires t.Node? && Filled(t)
    ensures t.lesser.Nil? ==> Elements(t)[0] == Entry(t.priority, t.bucket[0])
    ensures t.lesser.Node? ==> |Elements(t.lesser)| > 0 && Elements(t)[0] == Elements(t.lesser)[0]
  {
    FilledNodeNonEmpty(t.lesser);
  }

  /** The right-most node holds the back entry; a node with a greater child shares its back with that child. */
  lemma RightmostHoldsBack<T>(t: Tree<T>)
    requires t.Node? && Filled(t)
    ensures |Elements(t)| > 0
    ensures t.greater.Nil? ==> Elements(t)[|Elements(t)| - 1] == Entry(t.priority, t.bucket[|t.bucket| - 1])
    ensures t.greater.Node? ==> |Elements(t.greater)| > 0 && Elements(t)[|Elements(t)| - 1] == Elements(t.greater)[|Elements(t.greater)| - 1]
  {
    FilledNodeNonEmpty(t.greater);
  }

  lemma RemoveMinAtLeftmost<T>(t: Tree<T>)
    requires t.Node? && t.lesser.Nil? && Filled(t)
    ensures |Elements(t)| > 0 && Elements(RemoveMin(t)) == Elements(t)[1..]
  {
    match t
    case Node(l, q, b, g) =>
      var eb, eg := BucketEntries(q, b), Elements(g);
      assert Elements(t) == [] + eb + eg;
      DropFront(eb, [], eg);
      BucketEntriesTail(q, b);
      if |b| == 1 {
        assert eb[1..] + [] + eg == eg;
      } else {
        assert Elements(RemoveMin(t)) == [] + eb[1..] + eg;
      }
  }

  /** The entries of a bucket without its front value are the bucket's entries without the front one. */
  lemma BucketEntriesTail<T>(p: int, b: seq<T>)
    requires |b| > 0
    ensures BucketEntries(p, b[1..]) == BucketEntries(p, b)[1..]
  {
    assert BucketEntries(p, b) == [Entry(p, b[0])] + BucketEntries(p, b[1..]);
  }

  /** `DequeueMin` removes exactly the front entry. */
  lemma {:induction false} RemoveMinDropsFront<T>(t: Tree<T>)
    requires t.Node? && Filled(t)
    ensures |Elements(t)| > 0 && Elements(RemoveMin(t)) == Elements(t)[1..]
    decreases t
  {
    if t.lesser.Nil? {
      RemoveMinAtLeftmost(t);
    } else {
      RemoveMinDropsFront(t.lesser);
      RemoveMinInLesser(t);
    }
  }

  /** One step down to the left: the front of the lesser subtree is the front of the whole. */
  lemma RemoveMinInLesser<T>(t: Tree<T>)
    requires t.Node? && t.lesser.Node? && Filled(t)
    requires |Elements(t.lesser)| > 0 && Elements(RemoveMin(t.lesser)) == Elements(t.lesser)[1..]
    ensures |Elements(t)| > 0 && Elements(RemoveMin(t)) == Elements(t)[1..]
  {
    match t
    case Node(l, q, b, g) =>
      assert RemoveMin(t) == Node(RemoveMin(l), q, b, g);
      DropFront(Elements(l), BucketEntries(q, b), Elements(g));
  }

  /** Dropping the front of three joined pieces drops it from the first. */
  lemma DropFront<E>(a: seq<E>, b: seq<E>, c: seq<E>)
    requires |a| > 0
    ensures (a + b + c)[1..] == a[1..] + b + c
  {
    var x, y := (a + b + c)[1..], a[1..] + b + c;
    assert |x| == |y|;
    forall i | 0 <= i < |x|
      ensures x[i] == y[i]
    {
      if i < |a| - 1 {
        assert x[i] == a[i + 1];
      } else if i < |a| - 1 + |b| {
        assert x[i] == b[i - |a| + 1];
      } else {
        assert x[i] == c[i - |a| + 1 - |b|];
      }
    }
  }

  lemma RemoveMaxAtRightmost<T>(t: Tree<T>)
    requires t.Node? && t.greater.Nil? && Filled(t)
    ensures |Elements(t)| > 0 && Elements(RemoveMax(t)) == Elements(t)[..|Elements(t)| - 1]
  {
    var el, eb := Elements(t.lesser), BucketEntries(t.priority, t.bucket);
    assert Elements(t) == el + eb + [];
    assert BucketEntries(t.priority, t.bucket[..|t.bucket| - 1]) == eb[..|eb| - 1];
    assert (el + eb)[..|el + eb| - 1] == el + eb[..|eb| - 1];
  }

  /** `DequeueMax` removes exactly the back entry. */
  lemma {:induction false} RemoveMaxDropsBack<T>(t: Tree<T>)
    requires t.Node? && Filled(t)
    ensures |Elements(t)| > 0 && Elements(RemoveMax(t)) == Elements(t)[..|Elements(t)| - 1]
    decreases t
  {
    if t.greater.Nil? {
      RemoveMaxAtRightmost(t);
    } else {
      RemoveMaxDropsBack(t.greater);
      var front, eg := Elements(t.lesser) + BucketEntries(t.priority, t.bucket), Elements(t.greater);
      assert Elements(t) == front + eg;
      assert (front + eg)[..|front + eg| - 1] == front + eg[..|eg| - 1];
      assert Elements(RemoveMax(t)) == front + Elements(RemoveMax(t.greater));
    }
  }

  /** The front entry has the smallest priority in the queue and the back entry the largest. */
  lemma EndsHoldExtremePriorities<T>(t: Tree<T>)
    requires Valid(t) && t.Node?
    ensures var s := Elements(t);
      |s| > 0
      && (forall i :: 0 <= i < |s| ==> s[0].priority <= s[i].priority <= s[|s| - 1].priority)
  {
    FilledNodeNonEmpty(t);
    OrderedElementsSorted(t);
  }

  // ---------------------------------------------------------------- PQNode buckets

  /** `PQNode.DequeueMax` undoes `PQNode.Enqueue`. */
  lemma NodeDequeueMaxUndoesEnqueue<T>(n: Tree<T>, v: T)
    requires n.Node?
    ensures NodeDequeueMax(NodeEnqueue(n, v)) == Ok((v, n))
    ensures NodePeekMax(NodeEnqueue(n, v)) == Ok(v)
  {
    assert (n.bucket + [v])[..|n.bucket|] == n.bucket;
  }

  /** On a fresh node, `PQNode.DequeueMin` returns the first value enqueued; both ends throw on the empty bucket. */
  lemma NodeBucketIsFifo<T>(p: int, v: T, w: T)
    ensures var n := NewNode<T>(p);
      && NodeDequeueMin(n) == Err(NothingQueued) && NodeDequeueMax(n) == Err(NothingQueued)
      && NodePeekMin(n) == Err(NothingQueued) && NodePeekMax(n) == Err(NothingQueued)
      && QueueCount(n) == 0
      && NodeDequeueMin(NodeEnqueue(NodeEnqueue(n, v), w)) == Ok((v, NodeEnqueue(n, w)))
  {
    var n := NewNode<T>(p);
    assert NodeEnqueue(NodeEnqueue(n, v), w).bucket == [v, w];
    assert [v, w][1..] == [w];
  }

  // ---------------------------------------------------------------- ToString

  lemma {:induction false} FoldCsvAppend(acc: string, a: seq<string>, b: seq<string>)
    ensures FoldCsv(acc, a + b) == FoldCsv(FoldCsv(acc, a), b)
    decreases |a|
  {
    if a == [] {
      assert a + b == b;
    } else {
      assert (a + b)[0] == a[0] && (a + b)[1..] == a[1..] + b;
      FoldCsvAppend(AppendCsv(acc, a[0]), a[1..], b);
    }
  }

  /** Every piece after the first gets its separator once the text is non-empty. */
  function SepTail(parts: seq<string>): string
    decreases |parts|
  {
    if parts == [] then "" else ", " + parts[0] + SepTail(parts[1..])
  }

  lemma {:induction false} FoldFromNonEmpty(x: string, rest: seq<string>)
    requires x != ""
    ensures FoldCsv(x, rest) == x + SepTail(rest)
    decreases |rest|
  {
    if rest != [] {
      FoldFromNonEmpty(x + ", " + rest[0], rest[1..]);
    }
  }

  /** String concatenation regrouped, stated once so the folding proof needs no slicing. */
  lemma ConcatAssoc(a: string, b: string, c: string)
    ensures a + (b + c) == (a + b) + c
  {
  }

  /** Appending a folded group whose first piece is non-empty is the same as folding the pieces one by one. */
  lemma AppendFoldedGroup(acc: string, parts: seq<string>)
    requires parts != [] && parts[0] != ""
    ensures AppendCsv(acc, FoldCsv("", parts)) == FoldCsv(acc, parts)
  {
    var x, rest := parts[0], parts[1..];
    var tail := SepTail(rest);
    FoldFromNonEmpty(x, rest);
    FoldFromNonEmpty(AppendCsv(acc, x), rest);
    assert FoldCsv("", parts) == FoldCsv(x, rest) == x + tail;
    assert FoldCsv(acc, parts) == FoldCsv(AppendCsv(acc, x), rest) == AppendCsv(acc, x) + tail;
    if acc != "" {
      ConcatAssoc(acc + ", ", x, tail);
    }
  }

  /** With no empty piece, the comma logic is the plain ", " join. */
  lemma {:induction false} FoldCsvIsJoin(parts: seq<string>)
    requires forall i :: 0 <= i < |parts| ==> parts[i] != ""
    ensures FoldCsv("", parts) == Join(parts)
    decreases |parts|
  {
    if parts != [] {
      FoldFromNonEmpty(parts[0], parts[1..]);
      JoinIsSepTail(parts);
    }
  }

  lemma {:induction false} JoinIsSepTail(parts: seq<string>)
    requires parts != []
    ensures Join(parts) == parts[0] + SepTail(parts[1..])
    decreases |parts|
  {
    if |parts| > 1 {
      JoinIsSepTail(parts[1..]);
    }
  }

  /** The printed pieces of a tree's values, in queue order. */
  function Texts<T>(show: T -> string, t: Tree<T>): seq<string> {
    Shows(show, Values(Elements(t)))
  }

  lemma ShowsValuesAppend<T>(show: T -> string, a: seq<Entry<T>>, b: seq<Entry<T>>)
    ensures Shows(show, Values(a + b)) == Shows(show, Values(a)) + Shows(show, Values(b))
  {
    assert Shows(show, Values(a + b)) == Shows(show, Values(a)) + Shows(show, Values(b));
  }

  /** No piece is the empty string. */
  ghost predicate NoEmpty(parts: seq<string>) {
    forall i :: 0 <= i < |parts| ==> parts[i] != ""
  }

  lemma NoEmptyParts(a: seq<string>, b: seq<string>, c: seq<string>)
    requires NoEmpty(a + b + c)
    ensures NoEmpty(a) && NoEmpty(b) && NoEmpty(c)
  {
    assert forall i :: 0 <= i < |a| ==> a[i] == (a + b + c)[i];
    assert forall i :: 0 <= i < |b| ==> b[i] == (a + b + c)[|a| + i];
    assert forall i :: 0 <= i < |c| ==> c[i] == (a + b + c)[|a| + |b| + i];
  }

  /** A node's pieces: its lesser subtree's, its bucket's, its greater subtree's. */
  lemma TextsOfNode<T>(show: T -> string, t: Tree<T>)
    requires t.Node?
    ensures Texts(show, t) == Texts(show, t.lesser) + Shows(show, t.bucket) + Texts(show, t.greater)
  {
    var eb := BucketEntries(t.priority, t.bucket);
    ShowsValuesAppend(show, Elements(t.lesser) + eb, Elements(t.greater));
    ShowsValuesAppend(show, Elements(t.lesser), eb);
    assert Values(eb) == t.bucket;
  }

  /** The node step of the fold: the lesser text, then the bucket as one group, then the greater text. */
  lemma FoldNodeStep(acc: string, a1: string, sl: seq<string>, sb: seq<string>, sg: seq<string>)
    requires a1 == FoldCsv(acc, sl)
    requires sb != [] && sb[0] != ""
    ensures FoldCsv(AppendCsv(a1, FoldCsv("", sb)), sg) == FoldCsv(acc, sl + sb + sg)
  {
    AppendFoldedGroup(a1, sb);
    FoldCsvAppend(acc, sl, sb);
    FoldCsvAppend(acc, sl + sb, sg);
  }

  /** `CompileQueueString` folds the comma logic over every value in queue order, whenever no value prints as empty. */
  lemma {:induction false} CompileFoldsValues<T>(show: T -> string, acc: string, t: Tree<T>)
    requires Filled(t)
    requires NoEmpty(Texts(show, t))
    ensures CompileQueueString(show, acc, t) == FoldCsv(acc, Texts(show, t))
    decreases t
  {
    match t
    case Nil =>
    case Node(l, q, b, g) =>
      var sl, sb, sg := Texts(show, l), Shows(show, b), Texts(show, g);
      TextsOfNode(show, t);
      NoEmptyParts(sl, sb, sg);
      CompileFoldsValues(show, acc, l);
      var a1 := CompileQueueString(show, acc, l);
      FoldNodeStep(acc, a1, sl, sb, sg);
      CompileFoldsValues(show, AppendCsv(a1, NodeString(show, b)), g);
  }

  /**
   * `ToString` lists the values in queue order separated by ", ", provided
   * no value prints as the empty string.
   */
  lemma ToStringJoinsValues<T>(show: T -> string, t: Tree<T>)
    requires Filled(t)
    requires NoEmpty(Texts(show, t))
    ensures CompileQueueString(show, "", t) == Join(Texts(show, t))
  {
    CompileFoldsValues(show, "", t);
    FoldCsvIsJoin(Texts(show, t));
  }

  /** A leading value that prints as empty swallows the separator after it: the test is on the text so far, not the position. */
  lemma EmptyLeadingValueLosesSeparator()
    ensures var t := Node(Nil, 1, [""], Node(Nil, 2, ["a"], Nil));
      CompileQueueString((s: string) => s, "", t) == "a" != Join(Texts((s: string) => s, t))
  {
    var t := Node(Nil, 1, [""], Node(Nil, 2, ["a"], Nil));
    var show := (s: string) => s;
    assert Elements(t) == [Entry(1, ""), Entry(2, "a")];
    assert Texts(show, t) == ["", "a"];
    assert Join(["", "a"]) == ", a";
  }
}
