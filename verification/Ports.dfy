/** The host-port allocator: the scan for free ports and the release by value, with what
    they guarantee about the list of allocated ports. */
module Ports {
  import opened Common

  // ---- specification ---------------------------------------------------------------

  /** The ports of [lo, hi] that are not taken, ascending. */
  function FreePorts(taken: seq<int>, lo: int, hi: int): seq<int>
    decreases hi - lo + 1
  {
    if lo > hi then []
    else (if lo in taken then [] else [lo]) + FreePorts(taken, lo + 1, hi)
  }

  /** count free ports of the range, or none if there are not that many. */
  function Allocate(taken: seq<int>, count: nat, lo: int, hi: int): Option<seq<int>> {
    var avail := FreePorts(taken, lo, hi);
    if |avail| < count then None else Some(avail[..count])
  }

  /** What remains of a list when every occurrence of the given ports goes. */
  function Without(held: seq<int>, ports: seq<int>): seq<int> {
    if held == [] then []
    else Without(held[..|held| - 1], ports)
         + if held[|held| - 1] in ports then [] else [held[|held| - 1]]
  }

  // ---- the loops -------------------------------------------------------------------

  /** The scan inside AllocatePorts: upwards from lo until count ports are found. */
  method ScanPorts(taken: seq<int>, count: nat, lo: int, hi: int) returns (found: Option<seq<int>>)
    ensures found == Allocate(taken, count, lo, hi)
  {
    var ports: seq<int> := [];
    var p := lo;
    ghost var rest := FreePorts(taken, lo, hi);
    while p <= hi && |ports| < count
      invariant rest == FreePorts(taken, p, hi) && ports + rest == FreePorts(taken, lo, hi)
      invariant |ports| <= count
      decreases hi - p
    {
      ghost var before := ports + rest;
      if p !in taken { ports := ports + [p]; }
      p := p + 1;
      rest := FreePorts(taken, p, hi);
      assert ports + rest == before;
    }
    if |ports| < count { return None; }
    assert ports == (ports + rest)[..count];
    found := Some(ports);
  }

  /** The loop of FreePorts: keep what is not being released. */
  method KeepOthers(held: seq<int>, ports: seq<int>) returns (remaining: seq<int>)
    ensures remaining == Without(held, ports)
  {
    remaining := [];
    for i := 0 to |held|
      invariant remaining == Without(held[..i], ports)
    {
      assert held[..i + 1][..i] == held[..i];
      if held[i] !in ports { remaining := remaining + [held[i]]; }
    }
    assert held[..|held|] == held;
  }

  // ---- what allocation guarantees ----------------------------------------------------

  ghost predicate Ascending(s: seq<int>) {
    forall i, j :: 0 <= i < j < |s| ==> s[i] < s[j]
  }

  lemma {:induction false} FreePortsMeaning(taken: seq<int>, lo: int, hi: int)
    ensures Ascending(FreePorts(taken, lo, hi))
    ensures forall p :: p in FreePorts(taken, lo, hi) <==> lo <= p <= hi && p !in taken
    decreases hi - lo + 1
  {
    if lo <= hi {
      FreePortsMeaning(taken, lo + 1, hi);
      var rest := FreePorts(taken, lo + 1, hi);
      assert forall j :: 0 <= j < |rest| ==> rest[j] in rest;
    }
  }

  /** The numbers lo..hi. */
  ghost function Range(lo: int, hi: int): (r: set<int>)
    ensures forall p :: p in r <==> lo <= p <= hi
    ensures lo <= hi + 1 ==> |r| == hi - lo + 1
    decreases hi - lo + 1
  {
    if lo > hi then {} else {lo} + Range(lo + 1, hi)
  }

  /** The free ports of a range, as a set. */
  ghost function FreeSet(taken: seq<int>, lo: int, hi: int): set<int> {
    set p | p in Range(lo, hi) && p !in taken
  }

  /** The distinct elements of a list. */
  ghost function Elements(s: seq<int>): (r: set<int>)
    ensures |r| <= |s| && forall p :: p in r <==> p in s
  {
    if s == [] then {}
    else
      assert s == s[..|s| - 1] + [s[|s| - 1]];
      Elements(s[..|s| - 1]) + {s[|s| - 1]}
  }

  lemma {:induction false} AscendingAreDistinct(s: seq<int>)
    requires Ascending(s)
    ensures |Elements(s)| == |s|
  {
    if s != [] {
      AscendingAreDistinct(s[..|s| - 1]);
      assert s[|s| - 1] !in s[..|s| - 1];
    }
  }

  /** In an ascending list what comes after the cut is larger than what comes before. */
  lemma CutSeparates(s: seq<int>, n: nat, p: int, q: int)
    requires Ascending(s) && n <= |s| && p in s[..n] && q in s && q !in s[..n]
    ensures p < q
  {
    var i :| 0 <= i < n && s[i] == p;
    assert q in s[n..] by { assert s == s[..n] + s[n..]; }
    var j :| 0 <= j < |s| - n && s[n..][j] == q;
    assert s[n + j] == q;
  }

  /** Allocation fails exactly when fewer than count ports are free; otherwise it hands out
      exactly count of them, ascending, and every free port it passes over is larger. */
  lemma AllocatesSmallestFree(taken: seq<int>, count: nat, lo: int, hi: int)
    ensures Allocate(taken, count, lo, hi).Some? <==> |FreeSet(taken, lo, hi)| >= count
    ensures Allocate(taken, count, lo, hi).Some? ==>
              var r := Allocate(taken, count, lo, hi).value;
              && |r| == count && Ascending(r)
              && (forall p :: p in r ==> p in FreeSet(taken, lo, hi))
              && (forall p, q :: p in r && q in FreeSet(taken, lo, hi) && q !in r ==> p < q)
  {
    var avail := FreePorts(taken, lo, hi);
    FreePortsMeaning(taken, lo, hi);
    AscendingAreDistinct(avail);
    assert Elements(avail) == FreeSet(taken, lo, hi);
    if |avail| >= count {
      forall p, q | p in avail[..count] && q in FreeSet(taken, lo, hi) && q !in avail[..count] ensures p < q {
        CutSeparates(avail, count, p, q);
      }
    }
  }

  /** The host search's subtraction test is enough for allocation to succeed, even when the
      list of allocated ports holds duplicates or ports outside the range. */
  lemma SubtractionTestSuffices(taken: seq<int>, count: nat, lo: int, hi: int)
    requires hi - lo + 1 - |taken| >= count
    ensures Allocate(taken, count, lo, hi).Some?
  {
    assert FreeSet(taken, lo, hi) == Range(lo, hi) - Elements(taken);
    SizeOfDifference(Range(lo, hi), Elements(taken));
    AllocatesSmallestFree(taken, count, lo, hi);
  }

  lemma SizeOfDifference(a: set<int>, b: set<int>)
    ensures |a - b| >= |a| - |b|
  {
    assert a + b == (a - b) + b;
    assert |a + b| == |a - b| + |b|;
    assert a + b == a + (b - a);
    assert |a + b| == |a| + |b - a|;
  }

  // ---- release -----------------------------------------------------------------------

  lemma {:induction false} WithoutMeaning(held: seq<int>, ports: seq<int>)
    ensures forall p :: p in Without(held, ports) <==> p in held && p !in ports
    ensures NoDup(held) ==> NoDup(Without(held, ports))
  {
    if held != [] {
      WithoutMeaning(held[..|held| - 1], ports);
      assert held == held[..|held| - 1] + [held[|held| - 1]];
    }
  }

  lemma {:induction false} WithoutConcat(a: seq<int>, b: seq<int>, ports: seq<int>)
    ensures Without(a + b, ports) == Without(a, ports) + Without(b, ports)
    decreases |b|
  {
    if b == [] {
      assert a + b == a;
    } else {
      WithoutConcat(a, b[..|b| - 1], ports);
      assert (a + b)[..|a + b| - 1] == a + b[..|b| - 1];
    }
  }

  lemma {:induction false} WithoutNone(a: seq<int>, ports: seq<int>)
    requires forall p :: p in a ==> p !in ports
    ensures Without(a, ports) == a
  {
    if a != [] {
      var init, last := a[..|a| - 1], a[|a| - 1];
      assert a == init + [last];
      WithoutNone(init, ports);
      assert last in a && last !in ports;
    }
  }

  lemma {:induction false} WithoutAll(a: seq<int>, ports: seq<int>)
    requires forall p :: p in a ==> p in ports
    ensures Without(a, ports) == []
  {
    if a != [] {
      var init, last := a[..|a| - 1], a[|a| - 1];
      assert a == init + [last];
      WithoutAll(init, ports);
      assert last in a && last in ports;
    }
  }

  /** Releasing what was just allocated gives back the original list, element for element. */
  lemma ReleaseUndoesAllocate(held: seq<int>, count: nat, lo: int, hi: int)
    requires Allocate(held, count, lo, hi).Some?
    ensures var r := Allocate(held, count, lo, hi).value; Without(held + r, r) == held
  {
    var r := Allocate(held, count, lo, hi).value;
    AllocatesSmallestFree(held, count, lo, hi);
    WithoutConcat(held, r, r);
    WithoutNone(held, r);
    WithoutAll(r, r);
  }

  /** A duplicate-free list stays so when freshly allocated ports are appended. */
  lemma AllocateKeepsNoDup(held: seq<int>, count: nat, lo: int, hi: int)
    requires NoDup(held) && Allocate(held, count, lo, hi).Some?
    ensures NoDup(held + Allocate(held, count, lo, hi).value)
  {
    AllocatesSmallestFree(held, count, lo, hi);
    var r := Allocate(held, count, lo, hi).value;
    assert forall j :: 0 <= j < |r| ==> r[j] in r;
    assert forall j :: 0 <= j < |held| ==> held[j] in held;
  }
}
