/**
 * `ACTIVITY_RULES.sort((a, b) => b.priority - a.priority)`: the rule table is sorted in place,
 * once, by descending priority. `Array.prototype.sort` is stable, so rules of equal priority keep
 * their declaration order. The sort is modelled as an insertion sort by adjacent swaps; a ghost
 * permutation records where every sorted rule was declared.
 */
module Sorting {
  import opened Rules

  function Identity(n: nat): (r: seq<nat>)
    ensures |r| == n && forall k :: 0 <= k < n ==> r[k] == k
  {
    seq(n, k requires 0 <= k < n => k)
  }

  /** `sorted` is `decl` in descending priority, ties in declaration order: `sorted[k]` is the rule
      declared at `perm[k]`, every declared rule appears, priorities never rise, and equal
      priorities keep their declaration order. */
  ghost predicate StableSortOf(sorted: seq<Rule>, decl: seq<Rule>, perm: seq<nat>) {
    && |sorted| == |decl| == |perm|
    && (forall k :: 0 <= k < |perm| ==> perm[k] < |decl| && sorted[k] == decl[perm[k]])
    && (forall j :: 0 <= j < |decl| ==> j in perm)
    && (forall p, q :: 0 <= p < q < |sorted| ==> sorted[p].priority >= sorted[q].priority)
    && (forall p, q :: 0 <= p < q < |sorted| && sorted[p].priority == sorted[q].priority ==> perm[p] < perm[q])
  }

  /** A sequence with the same elements as 0..n-1 holds every one of them. */
  lemma HoldsAllIndices(perm: seq<nat>, n: nat)
    requires multiset(perm) == multiset(Identity(n))
    ensures forall j :: 0 <= j < n ==> j in perm
  {
    forall j | 0 <= j < n ensures j in perm {
      assert Identity(n)[j] == j;
      assert j in multiset(Identity(n));
    }
  }

  /** `s[k]` is the rule declared at `perm[k]`, and `perm` holds the indices of `decl` once each. */
  ghost predicate Tracks(s: seq<Rule>, decl: seq<Rule>, perm: seq<nat>) {
    && |s| == |decl| == |perm|
    && (forall k :: 0 <= k < |perm| ==> perm[k] < |decl| && s[k] == decl[perm[k]])
    && multiset(perm) == multiset(Identity(|decl|))
  }

  /** The outer loop's invariant: the first `i` rules are stably sorted and came from the first
      `i` declarations; the rest are untouched. */
  ghost predicate SortedUpTo(s: seq<Rule>, decl: seq<Rule>, perm: seq<nat>, i: nat) {
    && Tracks(s, decl, perm)
    && i <= |s|
    && (forall k :: i <= k < |s| ==> perm[k] == k)
    && (forall k :: 0 <= k < i ==> perm[k] < i)
    && (forall p, q :: 0 <= p < q < i ==> s[p].priority >= s[q].priority)
    && (forall p, q :: 0 <= p < q < i && s[p].priority == s[q].priority ==> perm[p] < perm[q])
  }

  /** The inner loop's invariant: rule `i` of the declarations, now at `j`, is being moved
      left past the rules of lower priority; around it, the first `i + 1` places are sorted. */
  ghost predicate InsertingAt(s: seq<Rule>, decl: seq<Rule>, perm: seq<nat>, i: nat, j: nat) {
    && Tracks(s, decl, perm)
    && j <= i < |s|
    && (forall k :: i < k < |s| ==> perm[k] == k)
    && perm[j] == i
    && (forall k :: 0 <= k <= i && k != j ==> perm[k] < i)
    && (forall p, q :: 0 <= p < q <= i && p != j && q != j ==> s[p].priority >= s[q].priority)
    && (forall q :: j < q <= i ==> s[q].priority < s[j].priority)
    && (forall p, q :: 0 <= p < q <= i && p != j && q != j && s[p].priority == s[q].priority ==>
          perm[p] < perm[q])
  }

  function Swap<T>(s: seq<T>, j: nat): seq<T>
    requires 0 < j < |s|
  {
    s[j - 1 := s[j]][j := s[j - 1]]
  }

  lemma StartInserting(s: seq<Rule>, decl: seq<Rule>, perm: seq<nat>, i: nat)
    requires SortedUpTo(s, decl, perm, i) && i < |s|
    ensures InsertingAt(s, decl, perm, i, i)
  {
  }

  lemma SwapStep(s: seq<Rule>, decl: seq<Rule>, perm: seq<nat>, i: nat, j: nat)
    requires InsertingAt(s, decl, perm, i, j) && 0 < j && s[j - 1].priority < s[j].priority
    ensures InsertingAt(Swap(s, j), decl, Swap(perm, j), i, j - 1)
  {
    SwapKeepsElements(perm, j);
  }

  lemma SwapKeepsElements<T>(s: seq<T>, j: nat)
    requires 0 < j < |s|
    ensures multiset(Swap(s, j)) == multiset(s)
  {
    assert s == s[..j - 1] + [s[j - 1], s[j]] + s[j + 1..];
    assert Swap(s, j) == s[..j - 1] + [s[j], s[j - 1]] + s[j + 1..];
  }

  lemma FinishInserting(s: seq<Rule>, decl: seq<Rule>, perm: seq<nat>, i: nat, j: nat)
    requires InsertingAt(s, decl, perm, i, j) && (j == 0 || s[j - 1].priority >= s[j].priority)
    ensures SortedUpTo(s, decl, perm, i + 1)
  {
  }

  lemma SortedIsStableSort(s: seq<Rule>, decl: seq<Rule>, perm: seq<nat>)
    requires SortedUpTo(s, decl, perm, |s|)
    ensures StableSortOf(s, decl, perm)
  {
    HoldsAllIndices(perm, |decl|);
  }

  /** Sorts `a` in place by descending priority, stably. */
  method SortByPriority(a: array<Rule>) returns (ghost perm: seq<nat>)
    modifies a
    ensures StableSortOf(a[..], old(a[..]), perm)
  {
    ghost var decl := a[..];
    perm := Identity(a.Length);
    var i := 0;
    while i < a.Length
      invariant 0 <= i <= a.Length
      invariant SortedUpTo(a[..], decl, perm, i)
    {
      perm := Insert(a, decl, perm, i);
      i := i + 1;
    }
    SortedIsStableSort(a[..], decl, perm);
  }

  /** One pass of the insertion sort: rule `i` moves left past the rules of lower priority. */
  method Insert(a: array<Rule>, ghost decl: seq<Rule>, ghost perm: seq<nat>, i: nat) returns (ghost perm': seq<nat>)
    requires i < a.Length && SortedUpTo(a[..], decl, perm, i)
    modifies a
    ensures SortedUpTo(a[..], decl, perm', i + 1)
  {
    StartInserting(a[..], decl, perm, i);
    perm' := perm;
    var j := i;
    while 0 < j && a[j - 1].priority < a[j].priority
      invariant 0 <= j <= i
      invariant InsertingAt(a[..], decl, perm', i, j)
    {
      ghost var before := a[..];
      SwapStep(before, decl, perm', i, j);
      a[j - 1], a[j] := a[j], a[j - 1];
      assert a[..] == Swap(before, j);
      perm' := Swap(perm', j);
      j := j - 1;
    }
    FinishInserting(a[..], decl, perm', i, j);
  }
}
