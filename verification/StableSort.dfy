/** The in-place adjacent-swap insertion sort of the ACL compiler, over any element
    type and rank, and what "first hit after the sort" means before it. */
module StableSort {
  import opened Common

  /** Behind everything of at least its rank. */
  function Insert<T>(s: seq<T>, r: T, rank: T -> nat): seq<T> {
    if s == [] || rank(r) <= rank(s[|s| - 1]) then s + [r]
    else Insert(s[..|s| - 1], r, rank) + [s[|s| - 1]]
  }

  /** Higher ranks first; equals in input order. */
  function Sorted<T>(s: seq<T>, rank: T -> nat): seq<T> {
    if s == [] then [] else Insert(Sorted(s[..|s| - 1], rank), s[|s| - 1], rank)
  }

  // ---------- The loops ----------

  /** The outer loop, one element at a time. */
  method SortDesc<T>(a: array<T>, rank: T -> nat)
    modifies a
    ensures a[..] == Sorted(old(a[..]), rank)
  {
    ghost var input := a[..];
    var i := 0;
    while i < a.Length
      invariant i <= a.Length && a[..i] == Sorted(input[..i], rank)
      invariant forall k :: i <= k < a.Length ==> a[k] == input[k]
    {
      SiftDown(a, i, rank);
      SortedNext(input, i, rank);
      i := i + 1;
    }
    assert a[..i] == a[..] && input[..i] == input;
  }

  lemma SortedNext<T>(s: seq<T>, i: nat, rank: T -> nat)
    requires i < |s|
    ensures Sorted(s[..i + 1], rank) == Insert(Sorted(s[..i], rank), s[i], rank)
  {
    assert s[..i + 1][..i] == s[..i];
  }

  /** The inner loop: element i sinks to its place, swap by swap. */
  method SiftDown<T>(a: array<T>, i: nat, rank: T -> nat)
    requires i < a.Length
    modifies a
    ensures a[..i + 1] == Insert(old(a[..i]), old(a[i]), rank)
    ensures forall k :: i < k < a.Length ==> a[k] == old(a[k])
  {
    ghost var s, r := a[..i], a[i];
    var j := i;
    while j > 0 && rank(a[j]) > rank(a[j - 1])
      invariant 0 <= j <= i && a[j] == r
      invariant forall k :: 0 <= k < j ==> a[k] == s[k]
      invariant forall k :: j < k <= i ==> a[k] == s[k - 1]
      invariant forall k :: i < k < a.Length ==> a[k] == old(a[k])
      invariant forall k :: j <= k < i ==> rank(s[k]) < rank(r)
    {
      a[j], a[j - 1] := a[j - 1], a[j];
      j := j - 1;
    }
    InsertAt(s, r, j, rank);
    assert a[..i + 1] == s[..j] + [r] + s[j..];
  }

  lemma {:induction false} InsertAt<T>(s: seq<T>, r: T, j: nat, rank: T -> nat)
    requires j <= |s| && (j > 0 ==> rank(s[j - 1]) >= rank(r))
    requires forall k :: j <= k < |s| ==> rank(s[k]) < rank(r)
    ensures Insert(s, r, rank) == s[..j] + [r] + s[j..]
  {
    if j < |s| {
      var front, last := s[..|s| - 1], s[|s| - 1];
      InsertAt(front, r, j, rank);
      assert front[..j] == s[..j] && s[j..] == front[j..] + [last];
    } else {
      assert s[..j] == s && s[j..] == [];
    }
  }

  // ---------- Permutation, order, stability ----------

  ghost predicate Descending<T(!new)>(s: seq<T>, rank: T -> nat) {
    forall i, j :: 0 <= i < j < |s| ==> rank(s[i]) >= rank(s[j])
  }

  ghost predicate AtLeast<T>(s: seq<T>, n: nat, rank: T -> nat) { forall i :: 0 <= i < |s| ==> rank(s[i]) >= n }

  /** The elements of one rank, in order. */
  function OfRank<T>(s: seq<T>, n: nat, rank: T -> nat): seq<T> {
    if s == [] then []
    else
      var front, last := OfRank(s[..|s| - 1], n, rank), s[|s| - 1];
      if rank(last) == n then front + [last] else front
  }

  lemma OfRankSnoc<T>(s: seq<T>, r: T, n: nat, rank: T -> nat)
    ensures OfRank(s + [r], n, rank) == if rank(r) == n then OfRank(s, n, rank) + [r] else OfRank(s, n, rank)
  {
    assert (s + [r])[..|s|] == s;
  }

  lemma {:induction false} InsertIsPermutation<T>(s: seq<T>, r: T, rank: T -> nat)
    ensures multiset(Insert(s, r, rank)) == multiset(s) + multiset{r}
  {
    if s != [] && rank(r) > rank(s[|s| - 1]) {
      assert s == s[..|s| - 1] + [s[|s| - 1]];
      InsertIsPermutation(s[..|s| - 1], r, rank);
    }
  }

  lemma {:induction false} InsertIsStable<T>(s: seq<T>, r: T, n: nat, rank: T -> nat)
    ensures OfRank(Insert(s, r, rank), n, rank) == OfRank(s + [r], n, rank)
  {
    OfRankSnoc(s, r, n, rank);
    if s != [] && rank(r) > rank(s[|s| - 1]) {
      var front, last := s[..|s| - 1], s[|s| - 1];
      assert s == front + [last];
      InsertIsStable(front, r, n, rank);
      OfRankSnoc(front, r, n, rank);
      OfRankSnoc(front, last, n, rank);
      OfRankSnoc(Insert(front, r, rank), last, n, rank);
    }
  }

  lemma {:induction false} InsertAtLeast<T>(s: seq<T>, r: T, n: nat, rank: T -> nat)
    requires AtLeast(s, n, rank) && rank(r) >= n
    ensures AtLeast(Insert(s, r, rank), n, rank)
  {
    if s != [] && rank(r) > rank(s[|s| - 1]) {
      InsertAtLeast(s[..|s| - 1], r, n, rank);
    }
  }

  lemma DescendingSnoc<T(!new)>(s: seq<T>, r: T, rank: T -> nat)
    ensures Descending(s + [r], rank) <==> Descending(s, rank) && AtLeast(s, rank(r), rank)
  {
    var t := s + [r];
    assert forall i :: 0 <= i < |s| ==> t[i] == s[i];
    assert t[|s|] == r;
    if Descending(t, rank) {
      assert forall i :: 0 <= i < |s| ==> rank(t[i]) >= rank(t[|s|]);
      assert forall i, j :: 0 <= i < j < |s| ==> rank(t[i]) >= rank(t[j]);
    }
  }

  lemma {:induction false} InsertDescends<T(!new)>(s: seq<T>, r: T, rank: T -> nat)
    requires Descending(s, rank)
    ensures Descending(Insert(s, r, rank), rank)
  {
    if s == [] {
    } else if rank(r) > rank(s[|s| - 1]) {
      var front, last := s[..|s| - 1], s[|s| - 1];
      assert s == front + [last];
      DescendingSnoc(front, last, rank);
      InsertDescends(front, r, rank);
      InsertAtLeast(front, r, rank(last), rank);
      DescendingSnoc(Insert(front, r, rank), last, rank);
    } else {
      DescendingSnoc(s, r, rank);
    }
  }

  /** The sort is a permutation, orders by rank, and is stable. */
  lemma {:induction false} SortedIsStable<T(!new)>(s: seq<T>, n: nat, rank: T -> nat)
    ensures Descending(Sorted(s, rank), rank) && multiset(Sorted(s, rank)) == multiset(s)
    ensures OfRank(Sorted(s, rank), n, rank) == OfRank(s, n, rank)
  {
    if s != [] {
      var front, last := s[..|s| - 1], s[|s| - 1];
      assert s == front + [last];
      SortedIsStable(front, n, rank);
      InsertDescends(Sorted(front, rank), last, rank);
      InsertIsPermutation(Sorted(front, rank), last, rank);
      InsertIsStable(Sorted(front, rank), last, n, rank);
      OfRankSnoc(front, last, n, rank);
      OfRankSnoc(Sorted(front, rank), last, n, rank);
    }
  }

  // ---------- First hit ----------

  function FirstHit<T>(s: seq<T>, hit: T -> bool): Option<T> {
    if s == [] then None else if hit(s[0]) then Some(s[0]) else FirstHit(s[1..], hit)
  }

  /** Element k wins: it is a hit, no hit outranks it, and no earlier one equals it. */
  ghost predicate Wins<T(!new)>(s: seq<T>, k: nat, hit: T -> bool, rank: T -> nat) {
    && k < |s| && hit(s[k])
    && forall j :: 0 <= j < |s| && hit(s[j]) ==> rank(s[j]) < rank(s[k]) || (rank(s[j]) == rank(s[k]) && k <= j)
  }

  lemma OneWinner<T(!new)>(s: seq<T>, k: nat, m: nat, hit: T -> bool, rank: T -> nat)
    requires Wins(s, k, hit, rank) && Wins(s, m, hit, rank)
    ensures k == m
  {
    assert hit(s[k]) && hit(s[m]);
  }

  lemma {:induction false} FirstHitConcat<T>(a: seq<T>, b: seq<T>, hit: T -> bool)
    ensures FirstHit(a + b, hit) == if FirstHit(a, hit).Some? then FirstHit(a, hit) else FirstHit(b, hit)
    ensures FirstHit(a, hit).Some? ==> FirstHit(a, hit).value in a && hit(FirstHit(a, hit).value)
  {
    if a == [] {
      assert a + b == b;
    } else {
      assert (a + b)[1..] == a[1..] + b;
      FirstHitConcat(a[1..], b, hit);
    }
  }

  lemma FirstHitSnoc<T>(s: seq<T>, r: T, hit: T -> bool)
    ensures FirstHit(s + [r], hit) ==
            if FirstHit(s, hit).Some? then FirstHit(s, hit) else if hit(r) then Some(r) else None
    ensures FirstHit(s, hit).Some? ==> FirstHit(s, hit).value in s
  {
    FirstHitConcat(s, [r], hit);
    assert [r][1..] == [];
  }

  /** A newly inserted element takes over exactly when it is a hit that outranks
      the winner so far. */
  lemma {:induction false} InsertHit<T(!new)>(s: seq<T>, r: T, hit: T -> bool, rank: T -> nat)
    requires Descending(s, rank)
    ensures FirstHit(Insert(s, r, rank), hit) ==
            var best := FirstHit(s, hit);
            if hit(r) && (best.None? || rank(r) > rank(best.value)) then Some(r) else best
  {
    FirstHitSnoc(s, r, hit);
    if s != [] {
      var front, last := s[..|s| - 1], s[|s| - 1];
      assert s == front + [last];
      FirstHitSnoc(front, last, hit);
      if rank(r) > rank(last) {
        InsertHit(front, r, hit, rank);
        FirstHitSnoc(Insert(front, r, rank), last, hit);
      } else if FirstHit(s, hit).Some? {
        var k :| 0 <= k < |s| && s[k] == FirstHit(s, hit).value;
        assert rank(s[k]) >= rank(last);
      }
    }
  }

  lemma WinsSnoc<T(!new)>(s: seq<T>, r: T, k: nat, hit: T -> bool, rank: T -> nat)
    requires Wins(s, k, hit, rank)
    ensures if hit(r) && rank(r) > rank(s[k]) then Wins(s + [r], |s|, hit, rank) else Wins(s + [r], k, hit, rank)
  {
    var t := s + [r];
    assert forall j :: 0 <= j < |s| ==> t[j] == s[j];
  }

  /** First hit after the sort is the winner before it; there is none exactly when
      nothing hits. */
  lemma {:induction false} FirstHitIsWinner<T(!new)>(s: seq<T>, hit: T -> bool, rank: T -> nat)
    ensures FirstHit(Sorted(s, rank), hit).None? <==> forall j :: 0 <= j < |s| ==> !hit(s[j])
    ensures FirstHit(Sorted(s, rank), hit).Some? ==>
      exists k: nat :: Wins(s, k, hit, rank) && s[k] == FirstHit(Sorted(s, rank), hit).value
  {
    if s != [] {
      var front, last := s[..|s| - 1], s[|s| - 1];
      assert s == front + [last];
      FirstHitIsWinner(front, hit, rank);
      SortedIsStable(front, 0, rank);
      InsertHit(Sorted(front, rank), last, hit, rank);
      var best := FirstHit(Sorted(front, rank), hit);
      if best.Some? {
        var k: nat :| Wins(front, k, hit, rank) && front[k] == best.value;
        WinsSnoc(front, last, k, hit, rank);
        assert s[k] == front[k] && s[|front|] == last;
      } else if hit(last) {
        assert Wins(s, |front|, hit, rank);
      }
    }
  }
}
