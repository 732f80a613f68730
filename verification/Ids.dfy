/** Player identifiers: their order, sorting, and which belong to guests. */
module Ids {

  type Id = string

  /** Byte-wise lexicographic order. */
  predicate Le(a: Id, b: Id) {
    a == "" || (b != "" && (a[0] < b[0] || (a[0] == b[0] && Le(a[1..], b[1..]))))
  }

  lemma {:induction false} LeTotal(a: Id, b: Id)
    ensures Le(a, b) || Le(b, a)
    decreases |a|
  {
    if a != "" && b != "" { LeTotal(a[1..], b[1..]); }
  }

  lemma {:induction false} LeAntisymmetric(a: Id, b: Id)
    requires Le(a, b) && Le(b, a)
    ensures a == b
    decreases |a|
  {
    if a != "" {
      LeAntisymmetric(a[1..], b[1..]);
      assert a == [a[0]] + a[1..] && b == [b[0]] + b[1..];
    }
  }

  lemma {:induction false} LeTransitive(a: Id, b: Id, c: Id)
    requires Le(a, b) && Le(b, c)
    ensures Le(a, c)
    decreases |a|
  {
    if a != "" && a[0] == b[0] == c[0] { LeTransitive(a[1..], b[1..], c[1..]); }
  }

  ghost predicate Sorted(s: seq<Id>) {
    forall i, j :: 0 <= i < j < |s| ==> Le(s[i], s[j])
  }

  function Insert(x: Id, s: seq<Id>): (r: seq<Id>)
    requires Sorted(s)
    ensures Sorted(r) && multiset(r) == multiset(s) + multiset{x}
  {
    if s == [] then [x]
    else if Le(x, s[0]) then
      assert forall j :: 0 <= j < |s| ==> Le(x, s[j]) by {
        forall j | 0 < j < |s| ensures Le(x, s[j]) { LeTransitive(x, s[0], s[j]); }
      }
      [x] + s
    else
      var r := Insert(x, s[1..]);
      assert forall y :: y in r ==> Le(s[0], y) by {
        LeTotal(x, s[0]);
        forall y | y in r ensures Le(s[0], y) {
          assert y in multiset(r);
          if y != x {
            assert y in s[1..];
          }
        }
      }
      assert s == [s[0]] + s[1..];
      [s[0]] + r
  }

  /** The ascending rearrangement of s. */
  function Sort(s: seq<Id>): (r: seq<Id>)
    ensures Sorted(r) && multiset(r) == multiset(s) && |r| == |s|
  {
    if s == [] then []
    else
      assert s == [s[0]] + s[1..];
      var r := Insert(s[0], Sort(s[1..]));
      assert |r| == |multiset(r)| == |multiset(s)| == |s|;
      r
  }

  lemma HeadIsLeast(s: seq<Id>, x: Id)
    requires Sorted(s) && x in s
    ensures Le(s[0], x)
  {
    var i :| 0 <= i < |s| && s[i] == x;
    if i == 0 { LeTotal(x, x); }
  }

  lemma SameHead(a: seq<Id>, b: seq<Id>)
    requires Sorted(a) && Sorted(b) && multiset(a) == multiset(b) && a != [] && b != []
    ensures a[0] == b[0]
  {
    assert a[0] in multiset(b) && b[0] in multiset(a);
    HeadIsLeast(a, b[0]);
    HeadIsLeast(b, a[0]);
    LeAntisymmetric(a[0], b[0]);
  }

  /** A list has only one ascending rearrangement. */
  lemma {:induction false} SortedUnique(a: seq<Id>, b: seq<Id>)
    requires Sorted(a) && Sorted(b) && multiset(a) == multiset(b)
    ensures a == b
    decreases |a|
  {
    assert |a| == |multiset(a)| && |b| == |multiset(b)|;
    if a != [] {
      SameHead(a, b);
      assert a == [a[0]] + a[1..] && b == [b[0]] + b[1..];
      assert multiset(a[1..]) == multiset(a) - multiset{a[0]};
      assert multiset(b[1..]) == multiset(b) - multiset{b[0]};
      SortedUnique(a[1..], b[1..]);
    }
  }

  predicate IsGuest(id: Id) {
    |id| > 2 && id[..2] == "g_"
  }

  /** A guest's identifier is "g_" and at least one more character. */
  lemma GuestsAreMarked(id: Id)
    ensures IsGuest(id) <==> exists name: string :: name != "" && id == "g_" + name
  {
    if IsGuest(id) { assert id == "g_" + id[2..]; }
  }

  /** The registered players of a list, in order. */
  function NonGuests(ids: seq<Id>): seq<Id> {
    if ids == [] then []
    else NonGuests(ids[..|ids| - 1]) + if IsGuest(ids[|ids| - 1]) then [] else [ids[|ids| - 1]]
  }

  lemma {:induction false} NonGuestsCount(ids: seq<Id>, p: Id)
    ensures multiset(NonGuests(ids))[p] == if IsGuest(p) then 0 else multiset(ids)[p]
    decreases |ids|
  {
    if ids != [] {
      NonGuestsCount(ids[..|ids| - 1], p);
      assert ids == ids[..|ids| - 1] + [ids[|ids| - 1]];
    }
  }
}
