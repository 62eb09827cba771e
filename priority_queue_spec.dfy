/**
 * `PQNode<T>` as a value: an unbalanced binary search tree keyed by an
 * integer priority, each node holding a FIFO bucket of the values queued at
 * its priority.  The abstraction of a tree is the sequence of its entries
 * in queue order: ascending priority, arrival order within a priority.
 */
module PriorityQueueSpec {
  import opened Wrappers

  datatype Tree<T> = Nil | Node(lesser: Tree<T>, priority: int, bucket: seq<T>, greater: Tree<T>)

  /** One queued value with the priority it was queued at. */
  datatype Entry<T> = Entry(priority: int, value: T)

  /** The exception thrown by a dequeue or peek on an empty queue or bucket. */
  datatype QueueError = NothingQueued

  // ---------------------------------------------------------------- abstraction

  /** A bucket's values as entries of its priority. */
  function BucketEntries<T>(p: int, bucket: seq<T>): (r: seq<Entry<T>>)
    ensures |r| == |bucket|
    ensures forall i :: 0 <= i < |r| ==> r[i] == Entry(p, bucket[i])
  {
    if bucket == [] then [] else [Entry(p, bucket[0])] + BucketEntries(p, bucket[1..])
  }

  /** The queue order: the lesser subtree, the bucket front to back, the greater subtree. */
  function Elements<T>(t: Tree<T>): seq<Entry<T>> {
    match t
    case Nil => []
    case Node(l, p, b, g) => Elements(l) + BucketEntries(p, b) + Elements(g)
  }

  function Priorities<T>(t: Tree<T>): set<int> {
    match t
    case Nil => {}
    case Node(l, p, _, g) => Priorities(l) + {p} + Priorities(g)
  }

  /** The search-tree order: lesser priorities to the left, greater to the right. */
  ghost predicate Ordered<T>(t: Tree<T>) {
    match t
    case Nil => true
    case Node(l, p, _, g) =>
      Ordered(l) && Ordered(g)
      && (forall q :: q in Priorities(l) ==> q < p)
      && (forall q :: q in Priorities(g) ==> q > p)
  }

  /** No node has an empty bucket. */
  ghost predicate Filled<T>(t: Tree<T>) {
    match t
    case Nil => true
    case Node(l, _, b, g) => Filled(l) && b != [] && Filled(g)
  }

  /** The shape a `PriorityQueue` keeps between public calls. */
  ghost predicate Valid<T>(t: Tree<T>) {
    Ordered(t) && Filled(t)
  }

  /** Entries in non-decreasing priority. */
  ghost predicate SortedByPriority<T>(s: seq<Entry<T>>) {
    forall i, j :: 0 <= i < j < |s| ==> s[i].priority <= s[j].priority
  }

  /**
   * The reference for `Enqueue`: a new entry goes after every entry whose
   * priority is at most its own, before the first greater one.
   */
  function InsertEntry<T>(s: seq<Entry<T>>, e: Entry<T>): (r: seq<Entry<T>>)
    ensures |r| == |s| + 1
  {
    if s == [] || e.priority < s[0].priority then [e] + s else [s[0]] + InsertEntry(s[1..], e)
  }

  // ---------------------------------------------------------------- PQNode

  /** `new PQNode(priority)`: no children, an empty bucket. */
  function NewNode<T>(p: int): (n: Tree<T>)
    ensures n.Node? && n.priority == p && Elements(n) == [] && Priorities(n) == {p}
  {
    Node(Nil, p, [], Nil)
  }

  /** `PQNode.QueueCount`. */
  function QueueCount<T>(n: Tree<T>): nat
    requires n.Node?
  {
    |n.bucket|
  }

  /** `PQNode.Count`: this bucket's values plus both subtrees' counts. */
  function Count<T>(t: Tree<T>): (n: nat)
    ensures n == |Elements(t)|
  {
    match t
    case Nil => 0
    case Node(l, _, b, g) => |b| + Count(l) + Count(g)
  }

  /** `PQNode.Enqueue`: append to the back of the bucket. */
  function NodeEnqueue<T>(n: Tree<T>, value: T): (r: Tree<T>)
    requires n.Node?
    ensures r.Node? && r.priority == n.priority && r.lesser == n.lesser && r.greater == n.greater
    ensures |r.bucket| == |n.bucket| + 1 && r.bucket[..|n.bucket|] == n.bucket && r.bucket[|n.bucket|] == value
  {
    n.(bucket := n.bucket + [value])
  }

  /** `PQNode.DequeueMin`: remove the front of the bucket; throws on an empty bucket. */
  function NodeDequeueMin<T>(n: Tree<T>): Result<(T, Tree<T>), QueueError>
    requires n.Node?
  {
    if n.bucket == [] then Err(NothingQueued) else Ok((n.bucket[0], n.(bucket := n.bucket[1..])))
  }

  /** `PQNode.DequeueMax`: remove the back of the bucket; throws on an empty bucket. */
  function NodeDequeueMax<T>(n: Tree<T>): Result<(T, Tree<T>), QueueError>
    requires n.Node?
  {
    if n.bucket == [] then Err(NothingQueued)
    else Ok((n.bucket[|n.bucket| - 1], n.(bucket := n.bucket[..|n.bucket| - 1])))
  }

  /** `PQNode.PeekMin`: the front of the bucket. */
  function NodePeekMin<T>(n: Tree<T>): Result<T, QueueError>
    requires n.Node?
  {
    if n.bucket == [] then Err(NothingQueued) else Ok(n.bucket[0])
  }

  /** `PQNode.PeekMax`: the back of the bucket. */
  function NodePeekMax<T>(n: Tree<T>): Result<T, QueueError>
    requires n.Node?
  {
    if n.bucket == [] then Err(NothingQueued) else Ok(n.bucket[|n.bucket| - 1])
  }

  /**
   * `PQNode.GetNode` (and the `_head = new PQNode` case of
   * `PriorityQueue.Enqueue`): descend by comparing priorities and, where the
   * walk falls off the tree, hang a new empty leaf there.
   */
  function GetNode<T>(t: Tree<T>, p: int): (r: Tree<T>)
    ensures Priorities(r) == Priorities(t) + {p}
    ensures Elements(r) == Elements(t)
    ensures Ordered(t) ==> Ordered(r)
    ensures Ordered(t) && p in Priorities(t) ==> r == t
  {
    match t
    case Nil => NewNode(p)
    case Node(l, q, b, g) =>
      if p == q then t
      else if p < q then Node(GetNode(l, p), q, b, g)
      else Node(l, q, b, GetNode(g, p))
  }

  /** The node found by `GetNode` receives the value: `node.Enqueue(value)`. */
  function EnqueueAt<T>(t: Tree<T>, p: int, value: T): (r: Tree<T>)
    ensures Priorities(r) == Priorities(t)
    ensures Ordered(t) ==> Ordered(r)
  {
    match t
    case Nil => Nil
    case Node(l, q, b, g) =>
      if p == q then NodeEnqueue(t, value)
      else if p < q then Node(EnqueueAt(l, p, value), q, b, g)
      else Node(l, q, b, EnqueueAt(g, p, value))
  }

  /** `PriorityQueue.Enqueue`. */
  function Enqueue<T>(t: Tree<T>, value: T, p: int): Tree<T> {
    EnqueueAt(GetNode(t, p), p, value)
  }

  // ---------------------------------------------------------------- removal

  /**
   * The rewiring of `PriorityQueue.DequeueMin`: take the front of the
   * left-most bucket; if that empties it, the node is unlinked and its
   * greater child (it has no lesser one) takes its place.
   */
  function RemoveMin<T>(t: Tree<T>): (r: Tree<T>)
    requires t.Node? && Filled(t)
    ensures Priorities(r) <= Priorities(t)
    ensures Ordered(t) ==> Ordered(r)
    ensures Filled(r)
  {
    match t
    case Node(l, q, b, g) =>
      if l.Nil? then (if |b| == 1 then g else Node(l, q, b[1..], g))
      else Node(RemoveMin(l), q, b, g)
  }

  /** The rewiring of `PriorityQueue.DequeueMax`, mirrored: the lesser child replaces an emptied right-most node. */
  function RemoveMax<T>(t: Tree<T>): (r: Tree<T>)
    requires t.Node? && Filled(t)
    ensures Priorities(r) <= Priorities(t)
    ensures Ordered(t) ==> Ordered(r)
    ensures Filled(r)
  {
    match t
    case Node(l, q, b, g) =>
      if g.Nil? then (if |b| == 1 then l else Node(l, q, b[..|b| - 1], g))
      else Node(l, q, b, RemoveMax(g))
  }

  // ---------------------------------------------------------------- ToString

  /** One step of the comma logic: no separator while the accumulated text is still empty. */
  function AppendCsv(acc: string, s: string): string {
    if acc == "" then s else acc + ", " + s
  }

  /** The comma logic folded over several pieces, left to right. */
  function FoldCsv(acc: string, parts: seq<string>): string
    decreases |parts|
  {
    if parts == [] then acc else FoldCsv(AppendCsv(acc, parts[0]), parts[1..])
  }

  /** `PQNode.ToString`: the bucket's values folded with the comma logic. */
  function NodeString<T>(show: T -> string, bucket: seq<T>): string {
    FoldCsv("", Shows(show, bucket))
  }

  function Shows<T>(show: T -> string, values: seq<T>): (r: seq<string>)
    ensures |r| == |values|
    ensures forall i :: 0 <= i < |r| ==> r[i] == show(values[i])
  {
    if values == [] then [] else [show(values[0])] + Shows(show, values[1..])
  }

  /** `CompileQueueString`: in-order over the nodes, each node's text appended with the comma logic. */
  function CompileQueueString<T>(show: T -> string, acc: string, t: Tree<T>): string
    decreases t
  {
    match t
    case Nil => acc
    case Node(l, _, b, g) =>
      CompileQueueString(show, AppendCsv(CompileQueueString(show, acc, l), NodeString(show, b)), g)
  }

  /** The values of a sequence of entries, in order. */
  function Values<T>(s: seq<Entry<T>>): (r: seq<T>)
    ensures |r| == |s|
    ensures forall i :: 0 <= i < |r| ==> r[i] == s[i].value
  {
    if s == [] then [] else [s[0].value] + Values(s[1..])
  }

  /** The reference for `ToString`: the pieces separated by ", ". */
  function Join(parts: seq<string>): string
    decreases |parts|
  {
    if parts == [] then "" else if |parts| == 1 then parts[0] else parts[0] + ", " + Join(parts[1..])
  }
}
