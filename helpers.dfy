/**
 * `Helpers.UniqueID`: a static 32-bit counter, post-incremented on every read.
 * C# `int` arithmetic is unchecked, so the increment wraps from
 * 2147483647 to -2147483648.
 */
module Helpers {

  const IntMin: int := -0x8000_0000
  const IntMax: int := 0x7fff_ffff

  predicate IsInt32(x: int) { IntMin <= x <= IntMax }

  /** `x + 1` on a C# `int` in an unchecked context. */
  function Increment(x: int): (r: int)
    requires IsInt32(x)
    ensures IsInt32(r)
    ensures x < IntMax ==> r == x + 1
    ensures x == IntMax ==> r == IntMin
  {
    if x == IntMax then IntMin else x + 1
  }

  /** The values returned by `count` successive reads starting from counter value `start`. */
  function Reads(start: int, count: nat): (ids: seq<int>)
    requires IsInt32(start)
    ensures |ids| == count
    decreases count
  {
    if count == 0 then [] else [start] + Reads(Increment(start), count - 1)
  }

  /** Without wrap-around, successive reads are consecutive integers. */
  lemma {:induction false} ReadsAreConsecutive(start: int, count: nat)
    requires IsInt32(start)
    requires start + count <= IntMax + 1
    ensures forall i :: 0 <= i < count ==> Reads(start, count)[i] == start + i
    decreases count
  {
    if count > 0 {
      ReadsAreConsecutive(Increment(start), count - 1);
    }
  }

  /** Hence they are pairwise distinct until the counter wraps. */
  lemma ReadsAreDistinct(start: int, count: nat)
    requires IsInt32(start)
    requires start + count <= IntMax + 1
    ensures forall i, j :: 0 <= i < j < count ==> Reads(start, count)[i] != Reads(start, count)[j]
  {
    ReadsAreConsecutive(start, count);
  }

  /** The one piece of state: the static `_uniqueID` counter. */
  class UniqueIdCounter {
    var uniqueID: int

    /** The static initialiser: `_uniqueID = 0`. */
    constructor ()
      ensures uniqueID == 0
    {
      uniqueID := 0;
    }

    /** The `UniqueID` getter: returns the current counter, then adds one to it. */
    method UniqueID() returns (id: int)
      requires IsInt32(uniqueID)
      modifies this
      ensures id == old(uniqueID)
      ensures uniqueID == Increment(old(uniqueID))
    {
      id := uniqueID;
      uniqueID := Increment(uniqueID);
    }
  }

  /** A fresh counter answers 0, 1, 2 to its first three reads. */
  method FirstReads() returns (a: int, b: int, c: int)
    ensures [a, b, c] == Reads(0, 3) == [0, 1, 2]
  {
    var counter := new UniqueIdCounter();
    a := counter.UniqueID();
    b := counter.UniqueID();
    c := counter.UniqueID();
  }

  /** At the top of the range the next read wraps to the bottom. */
  lemma WrapsAtIntMax()
    ensures Reads(IntMax, 2) == [IntMax, IntMin]
  {
  }
}
