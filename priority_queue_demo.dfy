/**
 * The demonstration program of the priority queue: nine animals queued at
 * assorted priorities, then removed from both ends, with the queue's text
 * and its ends checked against the orders the program expects to print.
 */
module PriorityQueueDemo {
  import opened Wrappers
  import opened PriorityQueueSpec
  import opened PriorityQueueProperties
  import opened PriorityQueueSystem

  // ---------------------------------------------------------------- the queue order, step by step

  /** A new entry lands between the entries of at most its priority and the first greater one. */
  lemma InsertsBetween(a: seq<Entry<string>>, b: seq<Entry<string>>, e: Entry<string>)
    requires forall i :: 0 <= i < |a| ==> a[i].priority <= e.priority
    requires b == [] || b[0].priority > e.priority
    ensures InsertEntry(a + b, e) == a + [e] + b
  {
    InsertAfterLower(a, b, e);
    assert InsertEntry(b, e) == [e] + b;
    assert a + ([e] + b) == a + [e] + b;
  }

  lemma DogCatPigInserted()
    ensures InsertEntry(InsertEntry(InsertEntry([], Entry(5, "dog")), Entry(1, "cat")), Entry(3, "pig"))
         == [Entry(1, "cat"), Entry(3, "pig"), Entry(5, "dog")]
  {
    InsertsBetween([], [], Entry(5, "dog"));
    InsertsBetween([], [Entry(5, "dog")], Entry(1, "cat"));
    InsertsBetween([Entry(1, "cat")], [Entry(5, "dog")], Entry(3, "pig"));
    assert [Entry(1, "cat")] + [Entry(5, "dog")] == [Entry(1, "cat"), Entry(5, "dog")];
  }

  lemma CowAndMooseInserted()
    ensures InsertEntry(InsertEntry([Entry(1, "cat"), Entry(3, "pig"), Entry(5, "dog")], Entry(7, "cow")), Entry(1, "moose"))
         == [Entry(1, "cat"), Entry(1, "moose"), Entry(3, "pig"), Entry(5, "dog"), Entry(7, "cow")]
  {
    var three := [Entry(1, "cat"), Entry(3, "pig"), Entry(5, "dog")];
    InsertsBetween(three, [], Entry(7, "cow"));
    assert three + [] == three;
    InsertsBetween([Entry(1, "cat")], [Entry(3, "pig"), Entry(5, "dog"), Entry(7, "cow")], Entry(1, "moose"));
    assert [Entry(1, "cat")] + [Entry(3, "pig"), Entry(5, "dog"), Entry(7, "cow")] == three + [Entry(7, "cow")];
  }

  lemma FirstFiveInserted()
    ensures InsertEntry(InsertEntry(InsertEntry(InsertEntry(InsertEntry([], Entry(5, "dog")), Entry(1, "cat")), Entry(3, "pig")), Entry(7, "cow")), Entry(1, "moose"))
         == [Entry(1, "cat"), Entry(1, "moose"), Entry(3, "pig"), Entry(5, "dog"), Entry(7, "cow")]
  {
    DogCatPigInserted();
    CowAndMooseInserted();
  }

  lemma GiraffeAndMonkeyInserted()
    ensures InsertEntry(InsertEntry([Entry(1, "cat"), Entry(1, "moose"), Entry(3, "pig"), Entry(5, "dog"), Entry(7, "cow")], Entry(12, "giraffe")), Entry(3, "monkey"))
         == [Entry(1, "cat"), Entry(1, "moose"), Entry(3, "pig"), Entry(3, "monkey"), Entry(5, "dog"), Entry(7, "cow"), Entry(12, "giraffe")]
  {
    var five := [Entry(1, "cat"), Entry(1, "moose"), Entry(3, "pig"), Entry(5, "dog"), Entry(7, "cow")];
    InsertsBetween(five, [], Entry(12, "giraffe"));
    assert five + [] == five;
    InsertsBetween([Entry(1, "cat"), Entry(1, "moose"), Entry(3, "pig")], [Entry(5, "dog"), Entry(7, "cow"), Entry(12, "giraffe")], Entry(3, "monkey"));
    assert [Entry(1, "cat"), Entry(1, "moose"), Entry(3, "pig")] + [Entry(5, "dog"), Entry(7, "cow"), Entry(12, "giraffe")]
        == five + [Entry(12, "giraffe")];
  }

  lemma TigerInserted()
    ensures InsertEntry([Entry(1, "cat"), Entry(1, "moose"), Entry(3, "pig"), Entry(3, "monkey"), Entry(5, "dog"), Entry(7, "cow"), Entry(12, "giraffe")], Entry(4, "tiger"))
         == [Entry(1, "cat"), Entry(1, "moose"), Entry(3, "pig"), Entry(3, "monkey"), Entry(4, "tiger"), Entry(5, "dog"), Entry(7, "cow"), Entry(12, "giraffe")]
  {
    var lower := [Entry(1, "cat"), Entry(1, "moose"), Entry(3, "pig"), Entry(3, "monkey")];
    var higher := [Entry(5, "dog"), Entry(7, "cow"), Entry(12, "giraffe")];
    InsertsBetween(lower, higher, Entry(4, "tiger"));
  }

  lemma DolphinInserted()
    ensures InsertEntry([Entry(1, "cat"), Entry(1, "moose"), Entry(3, "pig"), Entry(3, "monkey"), Entry(4, "tiger"), Entry(5, "dog"), Entry(7, "cow"), Entry(12, "giraffe")], Entry(6, "dolphin"))
         == AllAnimals()
  {
    var lower := [Entry(1, "cat"), Entry(1, "moose"), Entry(3, "pig"), Entry(3, "monkey"), Entry(4, "tiger"), Entry(5, "dog")];
    var higher := [Entry(7, "cow"), Entry(12, "giraffe")];
    InsertsBetween(lower, higher, Entry(6, "dolphin"));
  }

  /** The queue order the program expects after its nine enqueues. */
  function AllAnimals(): seq<Entry<string>> {
    [Entry(1, "cat"), Entry(1, "moose"), Entry(3, "pig"), Entry(3, "monkey"), Entry(4, "tiger"),
     Entry(5, "dog"), Entry(6, "dolphin"), Entry(7, "cow"), Entry(12, "giraffe")]
  }

  /** The tree the program builds. */
  function Animals(): Tree<string> {
    var t := Enqueue(Nil, "dog", 5);
    var t := Enqueue(t, "cat", 1);
    var t := Enqueue(t, "pig", 3);
    var t := Enqueue(t, "cow", 7);
    var t := Enqueue(t, "moose", 1);
    var t := Enqueue(t, "giraffe", 12);
    var t := Enqueue(t, "monkey", 3);
    var t := Enqueue(t, "tiger", 4);
    Enqueue(t, "dolphin", 6)
  }

  /** Ascending priority, first come first served within a priority. */
  lemma AnimalsInQueueOrder()
    ensures Valid(Animals()) && Elements(Animals()) == AllAnimals()
  {
    var t0: Tree<string> := Nil;
    EnqueueInsertsInOrder(t0, "dog", 5);
    var t1 := Enqueue(t0, "dog", 5);
    EnqueueInsertsInOrder(t1, "cat", 1);
    var t2 := Enqueue(t1, "cat", 1);
    EnqueueInsertsInOrder(t2, "pig", 3);
    var t3 := Enqueue(t2, "pig", 3);
    EnqueueInsertsInOrder(t3, "cow", 7);
    var t4 := Enqueue(t3, "cow", 7);
    EnqueueInsertsInOrder(t4, "moose", 1);
    var t5 := Enqueue(t4, "moose", 1);
    FirstFiveInserted();
    EnqueueInsertsInOrder(t5, "giraffe", 12);
    var t6 := Enqueue(t5, "giraffe", 12);
    EnqueueInsertsInOrder(t6, "monkey", 3);
    var t7 := Enqueue(t6, "monkey", 3);
    GiraffeAndMonkeyInserted();
    EnqueueInsertsInOrder(t7, "tiger", 4);
    var t8 := Enqueue(t7, "tiger", 4);
    TigerInserted();
    EnqueueInsertsInOrder(t8, "dolphin", 6);
    DolphinInserted();
  }

  // ---------------------------------------------------------------- the program

  /** A `string`'s own `ToString`. */
  function Itself(s: string): string { s }

  /** Strings print as themselves. */
  lemma PrintedAsThemselves(t: Tree<string>)
    ensures Texts(Itself, t) == Values(Elements(t))
  {
  }

  /** `ToString` on a queue of non-empty strings: the strings in queue order, joined with ", ". */
  method Show(q: PriorityQueue<string>, names: seq<string>) returns (s: string)
    requires q.Valid() && Values(q.Contents()) == names
    requires forall i :: 0 <= i < |names| ==> names[i] != ""
    ensures s == Join(names)
  {
    PrintedAsThemselves(q.head);
    s := q.ToString(Itself);
  }

  /** The nine enqueues. */
  method QueueAnimals() returns (q: PriorityQueue<string>)
    ensures fresh(q) && q.Valid() && q.Contents() == AllAnimals()
  {
    q := new PriorityQueue<string>();
    q.Enqueue("dog", 5);
    q.Enqueue("cat", 1);
    q.Enqueue("pig", 3);
    q.Enqueue("cow", 7);
    q.Enqueue("moose", 1);
    q.Enqueue("giraffe", 12);
    q.Enqueue("monkey", 3);
    q.Enqueue("tiger", 4);
    q.Enqueue("dolphin", 6);
    assert q.head == Animals();
    AnimalsInQueueOrder();
  }

  /** The text after the nine enqueues. */
  method ShowAllAnimals(q: PriorityQueue<string>) returns (text: string)
    requires q.Valid() && q.Contents() == AllAnimals()
    ensures text == Join(["cat", "moose", "pig", "monkey", "tiger", "dog", "dolphin", "cow", "giraffe"])
  {
    var names := ["cat", "moose", "pig", "monkey", "tiger", "dog", "dolphin", "cow", "giraffe"];
    AnimalNames(q.Contents(), names);
    text := Show(q, names);
  }

  lemma AnimalNames(s: seq<Entry<string>>, names: seq<string>)
    requires s == AllAnimals()
    requires names == ["cat", "moose", "pig", "monkey", "tiger", "dog", "dolphin", "cow", "giraffe"]
    ensures Values(s) == names
    ensures forall i :: 0 <= i < |names| ==> names[i] != ""
  {
  }

  /** Two from the front: the front is then the first value queued at the next priority. */
  method TakeTwoFromFront(q: PriorityQueue<string>) returns (front: Result<string, QueueError>)
    requires q.Valid() && q.Contents() == AllAnimals()
    modifies q
    ensures q.Valid() && q.Contents() == AllAnimals()[2..]
    ensures front == Ok("pig")
  {
    var _ := q.DequeueMin();
    var _ := q.DequeueMin();
    front := q.PeekMin();
  }

  /** Three from the back and one from the front, and the queue's text after them. */
  method TakeFourMore(q: PriorityQueue<string>)
    requires q.Valid() && q.Contents() == AllAnimals()[2..]
    modifies q
    ensures q.Valid() && q.Contents() == [Entry(3, "monkey"), Entry(4, "tiger"), Entry(5, "dog")]
  {
    ghost var s := q.Contents();
    assert |s| == 7;
    var _ := q.DequeueMax();
    assert q.Contents() == s[..6];
    var _ := q.DequeueMax();
    assert q.Contents() == s[..5];
    var _ := q.DequeueMin();
    assert q.Contents() == s[1..5];
    var _ := q.DequeueMax();
    assert q.Contents() == s[1..4];
    MiddleThree();
  }

  lemma MiddleThree()
    ensures AllAnimals()[2..][1..4] == [Entry(3, "monkey"), Entry(4, "tiger"), Entry(5, "dog")]
  {
  }

  /** The text after the front and back removals. */
  method ShowThree(q: PriorityQueue<string>) returns (text: string)
    requires q.Valid() && q.Contents() == [Entry(3, "monkey"), Entry(4, "tiger"), Entry(5, "dog")]
    ensures text == Join(["monkey", "tiger", "dog"])
  {
    text := Show(q, ["monkey", "tiger", "dog"]);
  }

  /** Two from the back: the last value queued at the lowest remaining priority is left. */
  method TakeTwoFromBack(q: PriorityQueue<string>) returns (back: Result<string, QueueError>, text: string)
    requires q.Valid() && q.Contents() == [Entry(3, "monkey"), Entry(4, "tiger"), Entry(5, "dog")]
    modifies q
    ensures q.Valid() && q.Contents() == [Entry(3, "monkey")]
    ensures back == Ok("monkey") && text == "monkey"
  {
    var _ := q.DequeueMax();
    var _ := q.DequeueMax();
    back := q.PeekMax();
    text := Show(q, ["monkey"]);
  }

  /** The last value, and the guarded second dequeue that `Count` skips. */
  method Empty(q: PriorityQueue<string>) returns (text: string)
    requires q.Valid() && q.Contents() == [Entry(3, "monkey")]
    modifies q
    ensures q.Contents() == [] && text == ""
  {
    var _ := q.DequeueMin();
    if q.Count() > 0 {
      // the program's second `DequeueMin` (Program.cs:72-75): never reached, the queue is empty
      assert false;
    }
    text := q.ToString(Itself);
  }

  /** The program's four printed checkpoints and its two peeks. */
  method Demonstrate() returns (initial: string, front: Result<string, QueueError>, middle: string,
                                back: Result<string, QueueError>, last: string, final: string)
    ensures initial == Join(["cat", "moose", "pig", "monkey", "tiger", "dog", "dolphin", "cow", "giraffe"])
    ensures front == Ok("pig") && middle == Join(["monkey", "tiger", "dog"])
    ensures back == Ok("monkey") && last == "monkey" && final == ""
  {
    var q := QueueAnimals();
    initial := ShowAllAnimals(q);
    front := TakeTwoFromFront(q);
    TakeFourMore(q);
    middle := ShowThree(q);
    back, last := TakeTwoFromBack(q);
    final := Empty(q);
  }
}
