/** Implicit external-port allocation of `Webspace.AddPort` (both generations carry
    the same code). Given the external ports already in use by every webspace, a
    random draw `d` picks a candidate `Start + d` in a range shrunk by the number of
    used ports, and the candidate is then pushed up past every used port at or
    below it. The push only skips every used port when the used ports are visited
    in ascending order; the source visits them in Go map order. */
module PortAllocation {
  import opened Util

  /** `rand.Int31n` argument: `int32(end - start)` with
      `end = Ports.End - uint16(len(allPorts)) + 1`, all in `uint16` arithmetic. */
  function DrawBound(start: uint16, end: uint16, n: nat): (b: uint16)
    ensures n <= end - start && end - n + 1 - start < 65536 ==> b == end - n + 1 - start
  {
    U16(U16(end - U16(n) + 1) - start)
  }

  /** A draw the random source can produce: `rand.Int31n(b)` answers in `[0, b)`. */
  predicate ValidDraw(start: uint16, end: uint16, n: nat, draw: int) {
    0 <= draw && (DrawBound(start, end, n) > 0 ==> draw < DrawBound(start, end, n))
  }

  /** The push loop as a function: visit `used` in order, stop at the first port
      above the candidate, step over every other one (`external++` on a `uint16`). */
  function Skipped(candidate: uint16, used: seq<uint16>): uint16
    decreases |used|
  {
    if used == [] || candidate < used[0] then candidate
    else Skipped(U16(candidate + 1), used[1..])
  }

  /** The push loop itself. */
  method SkipUsed(candidate: uint16, used: seq<uint16>) returns (p: uint16)
    ensures p == Skipped(candidate, used)
  {
    p := candidate;
    var i := 0;
    while i < |used|
      invariant 0 <= i <= |used|
      invariant Skipped(candidate, used) == Skipped(p, used[i..])
    {
      if p < used[i] {
        break;
      }
      p := U16(p + 1);
      i := i + 1;
    }
  }

  /** Pushing a candidate through ascending used ports moves it up by at most one
      per used port and never lands on a used port. */
  lemma {:induction false} SkippedSorted(candidate: uint16, used: seq<uint16>)
    requires Sorted(used)
    requires candidate + |used| < 65536
    ensures candidate <= Skipped(candidate, used) <= candidate + |used|
    ensures Skipped(candidate, used) !in used
    decreases |used|
  {
    if used != [] && candidate >= used[0] {
      assert Sorted(used[1..]) by {
        forall i, j | 0 <= i < j < |used[1..]| ensures used[1..][i] <= used[1..][j] {
          assert used[1..][i] == used[i + 1] && used[1..][j] == used[j + 1];
        }
      }
      SkippedSorted(candidate + 1, used[1..]);
      assert used == [used[0]] + used[1..];
    }
  }

  datatype Allocation = Allocated(port: uint16) | DrawPanic

  /** The allocation as written: `allPorts` in the order the map iteration produced.
      A zero bound makes `rand.Int31n` panic. */
  function AllocateAsWritten(start: uint16, end: uint16, allPorts: seq<uint16>, draw: int): Allocation
    requires ValidDraw(start, end, |allPorts|, draw)
  {
    var bound := DrawBound(start, end, |allPorts|);
    if bound == 0 then DrawPanic
    else Allocated(Skipped(U16(start + draw), allPorts))
  }

  /** Go map iteration order is arbitrary: with the used ports met as 1002 then 1001,
      the draw 1 in the range 1000-1010 hands out 1001, which is already forwarded. */
  lemma AllocateAsWrittenReusesPort()
    ensures ValidDraw(1000, 1010, 2, 1)
    ensures AllocateAsWritten(1000, 1010, [1002, 1001], 1) == Allocated(1001)
    ensures 1001 in [1002, 1001]
  {
    assert Skipped(1001, [1002, 1001]) == 1001;
  }

  /** The allocation with the used ports sorted first, as the skip loop needs. */
  function Allocate(start: uint16, end: uint16, allPorts: seq<uint16>, draw: int): (a: Allocation)
    requires ValidDraw(start, end, |allPorts|, draw)
    ensures |allPorts| == end - start + 1 ==> a == DrawPanic
  {
    var bound := DrawBound(start, end, |allPorts|);
    if bound == 0 then DrawPanic
    else Allocated(Skipped(U16(start + draw), SortAscending(allPorts)))
  }

  /** The implicit branch of `AddPort`: draw a candidate, panic on an exhausted
      range, otherwise push the candidate past the used ports in the order the
      scan met them. */
  method DrawPort(start: uint16, end: uint16, allPorts: seq<uint16>, draw: int) returns (port: uint16, panicked: bool)
    requires ValidDraw(start, end, |allPorts|, draw)
    ensures panicked <==> AllocateAsWritten(start, end, allPorts, draw).DrawPanic?
    ensures !panicked ==> port == AllocateAsWritten(start, end, allPorts, draw).port
    ensures |allPorts| <= end - start && end - start + 1 - |allPorts| < 65536 ==>
      !panicked && start <= port <= end
    ensures |allPorts| <= end - start && end - start + 1 - |allPorts| < 65536 && Sorted(allPorts) ==>
      port !in allPorts
  {
    var bound := DrawBound(start, end, |allPorts|);
    if bound == 0 {
      return 0, true;
    }
    port := SkipUsed(U16(start + draw), allPorts);
    panicked := false;
    if |allPorts| <= end - start && end - start + 1 - |allPorts| < 65536 {
      AllocateAsWrittenInRange(start, end, allPorts, draw);
    }
  }

  /** However the used ports are ordered, each one pushes the candidate up by at
      most one. */
  lemma {:induction false} SkippedBounded(candidate: uint16, used: seq<uint16>)
    requires candidate + |used| < 65536
    ensures candidate <= Skipped(candidate, used) <= candidate + |used|
    decreases |used|
  {
    if used != [] && candidate >= used[0] {
      SkippedBounded(candidate + 1, used[1..]);
    }
  }

  /** While the range is not exhausted, the allocator as written stays inside
      `[start, end]` whatever order the used ports come in; it avoids every used
      port only when they come in ascending order. */
  lemma AllocateAsWrittenInRange(start: uint16, end: uint16, allPorts: seq<uint16>, draw: int)
    requires |allPorts| <= end - start
    requires end - start + 1 - |allPorts| < 65536
    requires ValidDraw(start, end, |allPorts|, draw)
    ensures AllocateAsWritten(start, end, allPorts, draw).Allocated?
    ensures start <= AllocateAsWritten(start, end, allPorts, draw).port <= end
    ensures Sorted(allPorts) ==> AllocateAsWritten(start, end, allPorts, draw).port !in allPorts
  {
    var n := |allPorts|;
    assert DrawBound(start, end, n) == end - n + 1 - start;
    var candidate := U16(start + draw);
    assert candidate == start + draw;
    SkippedBounded(candidate, allPorts);
    if Sorted(allPorts) {
      SkippedSorted(candidate, allPorts);
    }
  }

  /** When the scan happens to meet the used ports in ascending order, the
      allocator as written is the corrected one. */
  lemma AsWrittenSortedIsCorrected(start: uint16, end: uint16, allPorts: seq<uint16>, draw: int)
    requires ValidDraw(start, end, |allPorts|, draw)
    requires Sorted(allPorts)
    ensures AllocateAsWritten(start, end, allPorts, draw) == Allocate(start, end, allPorts, draw)
  {
    SortedUnique(SortAscending(allPorts), allPorts);
  }

  /** While the range is not exhausted, every valid draw yields a port inside
      `[start, end]` that no webspace forwards yet. */
  lemma {:induction false} AllocateSound(start: uint16, end: uint16, allPorts: seq<uint16>, draw: int)
    requires |allPorts| <= end - start
    requires end - start + 1 - |allPorts| < 65536
    requires ValidDraw(start, end, |allPorts|, draw)
    ensures Allocate(start, end, allPorts, draw).Allocated?
    ensures start <= Allocate(start, end, allPorts, draw).port <= end
    ensures Allocate(start, end, allPorts, draw).port !in allPorts
  {
    var n := |allPorts|;
    var bound := DrawBound(start, end, n);
    assert bound == end - n + 1 - start;
    var candidate := U16(start + draw);
    assert candidate == start + draw;
    var sorted := SortAscending(allPorts);
    assert |sorted| == |multiset(sorted)| == |multiset(allPorts)| == n;
    SkippedSorted(candidate, sorted);
    var p := Skipped(candidate, sorted);
    assert Allocate(start, end, allPorts, draw) == Allocated(p);
    assert p !in multiset(allPorts) by {
      assert multiset(sorted) == multiset(allPorts);
    }
  }
}
