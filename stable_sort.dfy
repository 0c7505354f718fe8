/**
 * A stable sort of agent records under a caller-supplied comparator, the model of
 * `Array.prototype.sort(compareFn)` (stable since ECMAScript 2019). `SortSeq`, an
 * insertion sort on sequences, is the specification; `SortInPlace` carries it out on
 * an array. For any comparator that is a total preorder the lemmas prove that the
 * result is a permutation of the input, is ordered, keeps tied records in their
 * original order, and is left unchanged by sorting again; and that when no two
 * records tie, sorting under the negated comparator gives the reverse.
 */
module StableSort {
  import opened AgentTypes

  /** A comparator: negative, zero or positive as the first record goes before, with or after the second. */
  type Comparator = (Agent, Agent) -> int

  /** Swapping the arguments of `cmp` negates its result. */
  ghost predicate FlipsAt(cmp: Comparator, a: Agent, b: Agent) {
    cmp(a, b) == -cmp(b, a)
  }

  /** `cmp` is transitive on `a`, `b`, `c`. */
  ghost predicate ChainsAt(cmp: Comparator, a: Agent, b: Agent, c: Agent) {
    cmp(a, b) <= 0 && cmp(b, c) <= 0 ==> cmp(a, c) <= 0
  }

  /**
   * What `sort` needs of its comparator: antisymmetric and transitive. The two
   * quantifiers are stated through `FlipsAt` and `ChainsAt` so that proofs use
   * them only where `Flip` and `Chain` are called.
   */
  ghost predicate TotalPreorder(cmp: Comparator) {
    && (forall a, b :: FlipsAt(cmp, a, b))
    && (forall a, b, c :: ChainsAt(cmp, a, b, c))
  }

  lemma Flip(cmp: Comparator, a: Agent, b: Agent)
    requires TotalPreorder(cmp)
    ensures cmp(a, b) == -cmp(b, a)
  {
    assert FlipsAt(cmp, a, b);
  }

  lemma Chain(cmp: Comparator, a: Agent, b: Agent, c: Agent)
    requires TotalPreorder(cmp)
    requires cmp(a, b) <= 0 && cmp(b, c) <= 0
    ensures cmp(a, c) <= 0
  {
    assert ChainsAt(cmp, a, b, c);
  }

  /** `cmp1` is `cmp2` with its sign reversed. */
  ghost predicate Negation(cmp1: Comparator, cmp2: Comparator) {
    forall a, b :: cmp1(a, b) == -cmp2(a, b)
  }

  /** Every earlier record compares at most equal to every later one. */
  predicate Sorted(s: seq<Agent>, cmp: Comparator) {
    forall i, j :: 0 <= i < j < |s| ==> cmp(s[i], s[j]) <= 0
  }

  /** Every prefix of a sorted sequence is sorted. */
  lemma SortedPrefix(s: seq<Agent>, cmp: Comparator, k: nat)
    requires k <= |s|
    requires Sorted(s, cmp)
    ensures Sorted(s[..k], cmp)
  {
    forall i, j | 0 <= i < j < k
      ensures cmp(s[..k][i], s[..k][j]) <= 0
    {
      assert s[..k][i] == s[i] && s[..k][j] == s[j];
    }
  }

  /** Inserts `x` into `s` after every element that does not compare greater than it. */
  function Insert(s: seq<Agent>, x: Agent, cmp: Comparator): seq<Agent> {
    if s == [] then [x]
    else if cmp(s[|s| - 1], x) > 0 then Insert(s[..|s| - 1], x, cmp) + [s[|s| - 1]]
    else s + [x]
  }

  /** The stable sort of `s`: insertion sort, taking the elements from the left. */
  function SortSeq(s: seq<Agent>, cmp: Comparator): seq<Agent> {
    if s == [] then [] else Insert(SortSeq(s[..|s| - 1], cmp), s[|s| - 1], cmp)
  }

  // ---------------------------------------------------------------------------
  // Permutation

  lemma {:induction false} InsertPermutation(s: seq<Agent>, x: Agent, cmp: Comparator)
    ensures multiset(Insert(s, x, cmp)) == multiset(s) + multiset{x}
  {
    if s != [] && cmp(s[|s| - 1], x) > 0 {
      InsertPermutation(s[..|s| - 1], x, cmp);
      assert s == s[..|s| - 1] + [s[|s| - 1]];
    }
  }

  /** Sorting neither drops nor adds a record. */
  lemma {:induction false} SortPermutation(s: seq<Agent>, cmp: Comparator)
    ensures multiset(SortSeq(s, cmp)) == multiset(s)
    ensures |SortSeq(s, cmp)| == |s|
  {
    if s != [] {
      SortPermutation(s[..|s| - 1], cmp);
      InsertPermutation(SortSeq(s[..|s| - 1], cmp), s[|s| - 1], cmp);
      assert s == s[..|s| - 1] + [s[|s| - 1]];
    }
    assert |multiset(SortSeq(s, cmp))| == |SortSeq(s, cmp)|;
  }

  // ---------------------------------------------------------------------------
  // Order

  /** Inserting `x` below `last` into elements that are all at most `last` keeps them all at most `last`. */
  lemma InsertBelowLast(front: seq<Agent>, last: Agent, x: Agent, cmp: Comparator)
    requires TotalPreorder(cmp)
    requires forall i :: 0 <= i < |front| ==> cmp(front[i], last) <= 0
    requires cmp(last, x) > 0
    ensures forall i :: 0 <= i < |Insert(front, x, cmp)| ==> cmp(Insert(front, x, cmp)[i], last) <= 0
  {
    var t := Insert(front, x, cmp);
    InsertPermutation(front, x, cmp);
    Flip(cmp, last, x);
    forall i | 0 <= i < |t|
      ensures cmp(t[i], last) <= 0
    {
      var y := t[i];
      assert y in multiset(t);
      if y != x {
        assert y in multiset(front);
        var k :| 0 <= k < |front| && front[k] == y;
      }
    }
  }

  /** Appending an element that is at least every element keeps a sequence sorted. */
  lemma SortedSnoc(t: seq<Agent>, z: Agent, cmp: Comparator)
    requires Sorted(t, cmp)
    requires forall i :: 0 <= i < |t| ==> cmp(t[i], z) <= 0
    ensures Sorted(t + [z], cmp)
  {
    forall i, j | 0 <= i < j < |t| + 1
      ensures cmp((t + [z])[i], (t + [z])[j]) <= 0
    {
      if j < |t| {
        assert (t + [z])[i] == t[i] && (t + [z])[j] == t[j];
      }
    }
  }

  lemma {:induction false} InsertSorted(s: seq<Agent>, x: Agent, cmp: Comparator)
    requires TotalPreorder(cmp)
    requires Sorted(s, cmp)
    ensures Sorted(Insert(s, x, cmp), cmp)
  {
    if s != [] {
      var n := |s|;
      var last := s[n - 1];
      if cmp(last, x) > 0 {
        var front := s[..n - 1];
        InsertSorted(front, x, cmp);
        assert forall i :: 0 <= i < |front| ==> front[i] == s[i];
        InsertBelowLast(front, last, x, cmp);
        SortedSnoc(Insert(front, x, cmp), last, cmp);
      } else {
        forall i | 0 <= i < n
          ensures cmp(s[i], x) <= 0
        {
          if i < n - 1 {
            Chain(cmp, s[i], last, x);
          }
        }
        SortedSnoc(s, x, cmp);
      }
    }
  }

  /** The sort's output is in comparator order. */
  lemma {:induction false} SortSorted(s: seq<Agent>, cmp: Comparator)
    requires TotalPreorder(cmp)
    ensures Sorted(SortSeq(s, cmp), cmp)
  {
    if s != [] {
      SortSorted(s[..|s| - 1], cmp);
      InsertSorted(SortSeq(s[..|s| - 1], cmp), s[|s| - 1], cmp);
    }
  }

  // ---------------------------------------------------------------------------
  // Stability

  /** The records of `s` that tie with `y`, in their order in `s`. */
  function Ties(s: seq<Agent>, cmp: Comparator, y: Agent): seq<Agent> {
    if s == [] then []
    else Ties(s[..|s| - 1], cmp, y) + TieOf(s[|s| - 1], cmp, y)
  }

  /** `[z]` when `z` ties with `y`, else nothing. */
  function TieOf(z: Agent, cmp: Comparator, y: Agent): seq<Agent> {
    if cmp(z, y) == 0 then [z] else []
  }

  lemma TiesSnoc(t: seq<Agent>, z: Agent, cmp: Comparator, y: Agent)
    ensures Ties(t + [z], cmp, y) == Ties(t, cmp, y) + TieOf(z, cmp, y)
  {
    assert (t + [z])[..|t|] == t;
  }

  /** A record greater than `x` and `x` itself cannot both tie with the same `y`. */
  lemma TiesExclusive(last: Agent, x: Agent, cmp: Comparator, y: Agent)
    requires TotalPreorder(cmp)
    requires cmp(last, x) > 0
    ensures TieOf(x, cmp, y) == [] || TieOf(last, cmp, y) == []
  {
    if cmp(x, y) == 0 && cmp(last, y) == 0 {
      Flip(cmp, x, y);
      Chain(cmp, last, y, x);
    }
  }

  lemma {:induction false} InsertTies(s: seq<Agent>, x: Agent, cmp: Comparator, y: Agent)
    requires TotalPreorder(cmp)
    ensures Ties(Insert(s, x, cmp), cmp, y) == Ties(s, cmp, y) + TieOf(x, cmp, y)
  {
    if s == [] {
      TiesSnoc([], x, cmp, y);
    } else {
      var n := |s|;
      var last := s[n - 1];
      var front := s[..n - 1];
      if cmp(last, x) > 0 {
        var t := Insert(front, x, cmp);
        InsertTies(front, x, cmp, y);
        TiesSnoc(t, last, cmp, y);
        TiesExclusive(last, x, cmp, y);
        var tx, tl := TieOf(x, cmp, y), TieOf(last, cmp, y);
        assert tx + tl == tl + tx;
        calc {
          Ties(Insert(s, x, cmp), cmp, y);
          Ties(t + [last], cmp, y);
          Ties(front, cmp, y) + tx + tl;
          Ties(front, cmp, y) + tl + tx;
          Ties(s, cmp, y) + tx;
        }
      } else {
        TiesSnoc(s, x, cmp, y);
      }
    }
  }

  /** Sorting is stable: the records that tie with any `y` keep their relative order. */
  lemma {:induction false} SortStable(s: seq<Agent>, cmp: Comparator, y: Agent)
    requires TotalPreorder(cmp)
    ensures Ties(SortSeq(s, cmp), cmp, y) == Ties(s, cmp, y)
  {
    if s != [] {
      SortStable(s[..|s| - 1], cmp, y);
      InsertTies(SortSeq(s[..|s| - 1], cmp), s[|s| - 1], cmp, y);
    }
  }

  // ---------------------------------------------------------------------------
  // Idempotence

  /** An already ordered sequence is left as it is. */
  lemma {:induction false} SortOfSorted(s: seq<Agent>, cmp: Comparator)
    requires Sorted(s, cmp)
    ensures SortSeq(s, cmp) == s
  {
    if s != [] {
      var front := s[..|s| - 1];
      SortOfSorted(front, cmp);
      assert front + [s[|s| - 1]] == s;
    }
  }

  /** Sorting twice with the same comparator gives the same sequence as sorting once. */
  lemma SortIdempotent(s: seq<Agent>, cmp: Comparator)
    requires TotalPreorder(cmp)
    ensures SortSeq(SortSeq(s, cmp), cmp) == SortSeq(s, cmp)
  {
    SortSorted(s, cmp);
    SortOfSorted(SortSeq(s, cmp), cmp);
  }

  // ---------------------------------------------------------------------------
  // Reversal under the negated comparator

  function Reverse(s: seq<Agent>): (r: seq<Agent>)
    ensures |r| == |s|
    ensures forall i :: 0 <= i < |s| ==> r[i] == s[|s| - 1 - i]
  {
    if s == [] then [] else [s[|s| - 1]] + Reverse(s[..|s| - 1])
  }

  lemma {:induction false} ReversePermutation(s: seq<Agent>)
    ensures multiset(Reverse(s)) == multiset(s)
  {
    if s != [] {
      ReversePermutation(s[..|s| - 1]);
      assert s == s[..|s| - 1] + [s[|s| - 1]];
    }
  }

  /** No two different records among `s` tie under `cmp`. */
  ghost predicate NoTies(s: seq<Agent>, cmp: Comparator) {
    forall a, b :: a in multiset(s) && b in multiset(s) && a != b ==> cmp(a, b) != 0
  }

  /** No ties follows from every two different elements at two positions comparing non-zero. */
  lemma NoTiesFromPositions(s: seq<Agent>, cmp: Comparator)
    requires forall i, j :: 0 <= i < |s| && 0 <= j < |s| && s[i] != s[j] ==> cmp(s[i], s[j]) != 0
    ensures NoTies(s, cmp)
  {
    forall a, b | a in multiset(s) && b in multiset(s) && a != b
      ensures cmp(a, b) != 0
    {
      var i :| 0 <= i < |s| && s[i] == a;
      var j :| 0 <= j < |s| && s[j] == b;
    }
  }

  /** In a sorted sequence the first element is at most every element. */
  lemma FirstIsLeast(u: seq<Agent>, z: Agent, cmp: Comparator)
    requires TotalPreorder(cmp)
    requires Sorted(u, cmp)
    requires z in multiset(u)
    ensures cmp(u[0], z) <= 0
  {
    var k :| 0 <= k < |u| && u[k] == z;
    if k == 0 {
      Flip(cmp, z, z);
    }
  }

  lemma {:induction false} SameHeads(u: seq<Agent>, v: seq<Agent>, cmp: Comparator)
    requires TotalPreorder(cmp)
    requires multiset(u) == multiset(v)
    requires NoTies(u, cmp)
    requires Sorted(u, cmp) && Sorted(v, cmp)
    requires u != [] && v != []
    ensures u[0] == v[0]
  {
    assert u[0] in multiset(u) && v[0] in multiset(v);
    FirstIsLeast(u, v[0], cmp);
    FirstIsLeast(v, u[0], cmp);
    Flip(cmp, u[0], v[0]);
  }

  lemma SameTails(u: seq<Agent>, v: seq<Agent>, cmp: Comparator)
    requires multiset(u) == multiset(v)
    requires NoTies(u, cmp)
    requires u != [] && v != [] && u[0] == v[0]
    ensures multiset(u[1..]) == multiset(v[1..])
    ensures NoTies(u[1..], cmp)
  {
    assert u == [u[0]] + u[1..];
    assert v == [v[0]] + v[1..];
    assert multiset(u) == multiset{u[0]} + multiset(u[1..]);
    assert multiset(v) == multiset{v[0]} + multiset(v[1..]);
    forall z
      ensures multiset(u[1..])[z] == multiset(v[1..])[z]
    {
      assert multiset(u)[z] == multiset{u[0]}[z] + multiset(u[1..])[z];
      assert multiset(v)[z] == multiset{v[0]}[z] + multiset(v[1..])[z];
    }
    forall x, y | x in multiset(u[1..]) && y in multiset(u[1..]) && x != y
      ensures cmp(x, y) != 0
    {
      assert x in multiset(u) && y in multiset(u);
    }
  }

  lemma SortedTail(u: seq<Agent>, cmp: Comparator)
    requires Sorted(u, cmp) && u != []
    ensures Sorted(u[1..], cmp)
  {
    forall i, j | 0 <= i < j < |u| - 1
      ensures cmp(u[1..][i], u[1..][j]) <= 0
    {
      assert u[1..][i] == u[i + 1] && u[1..][j] == u[j + 1];
    }
  }

  /** Two ordered sequences holding the same records, none of them tying, are equal. */
  lemma {:induction false} SortedUnique(u: seq<Agent>, v: seq<Agent>, cmp: Comparator)
    requires TotalPreorder(cmp)
    requires multiset(u) == multiset(v)
    requires NoTies(u, cmp)
    requires Sorted(u, cmp) && Sorted(v, cmp)
    ensures u == v
    decreases |u|
  {
    assert |u| == |multiset(u)| == |multiset(v)| == |v|;
    if u != [] {
      SameHeads(u, v, cmp);
      SameTails(u, v, cmp);
      SortedTail(u, cmp);
      SortedTail(v, cmp);
      SortedUnique(u[1..], v[1..], cmp);
      assert u == [u[0]] + u[1..] == [v[0]] + v[1..] == v;
    }
  }

  /** Reversing a sequence sorted under a comparator sorts it under the negated comparator. */
  lemma ReverseSorted(d: seq<Agent>, up: Comparator, down: Comparator)
    requires TotalPreorder(up)
    requires Negation(down, up)
    requires Sorted(d, down)
    ensures Sorted(Reverse(d), up)
  {
    var r := Reverse(d);
    forall i, j | 0 <= i < j < |r|
      ensures up(r[i], r[j]) <= 0
    {
      assert down(d[|d| - 1 - j], d[|d| - 1 - i]) <= 0;
      assert down(r[j], r[i]) <= 0;
      assert down(r[j], r[i]) == -up(r[j], r[i]);
      Flip(up, r[i], r[j]);
    }
  }

  /**
   * When no two records tie, sorting under the negated comparator gives exactly the
   * reverse: toggling the sort order reverses the list.
   */
  lemma SortNegatedReverses(s: seq<Agent>, up: Comparator, down: Comparator)
    requires TotalPreorder(up) && TotalPreorder(down)
    requires Negation(down, up)
    requires NoTies(s, up)
    ensures SortSeq(s, up) == Reverse(SortSeq(s, down))
  {
    SortPermutation(s, up);
    SortPermutation(s, down);
    ReversePermutation(SortSeq(s, down));
    SortSorted(s, up);
    SortSorted(s, down);
    ReverseSorted(SortSeq(s, down), up, down);
    SortedUnique(SortSeq(s, up), Reverse(SortSeq(s, down)), up);
  }

  // ---------------------------------------------------------------------------
  // The sort, in place

  /**
   * Inserting `x` into a sorted run places it after the elements up to `j` and before
   * the elements from `j` on, when those all compare greater than `x` and the one
   * before `j` does not.
   */
  lemma {:induction false} InsertSplit(s: seq<Agent>, j: nat, x: Agent, cmp: Comparator)
    requires j <= |s|
    requires j == 0 || cmp(s[j - 1], x) <= 0
    requires forall k :: j <= k < |s| ==> cmp(s[k], x) > 0
    ensures Insert(s, x, cmp) == s[..j] + [x] + s[j..]
    decreases |s|
  {
    if |s| == j {
      assert s[..j] == s && s[j..] == [];
    } else {
      var front, last := s[..|s| - 1], s[|s| - 1];
      assert cmp(last, x) > 0;
      InsertSplit(front, j, x, cmp);
      assert front[..j] == s[..j];
      assert front[j..] + [last] == s[j..];
    }
  }

  lemma SortSeqStep(s: seq<Agent>, i: nat, cmp: Comparator)
    requires i < |s|
    ensures SortSeq(s[..i + 1], cmp) == Insert(SortSeq(s[..i], cmp), s[i], cmp)
  {
    assert s[..i + 1][..i] == s[..i];
  }

  /** The array contents after the shifting loop: `done` with `x` placed at `j`. */
  lemma PlacedAt(now: seq<Agent>, done: seq<Agent>, j: nat, x: Agent)
    requires j <= |done| < |now|
    requires forall k :: 0 <= k < j ==> now[k] == done[k]
    requires now[j] == x
    requires forall k :: j < k <= |done| ==> now[k] == done[k - 1]
    ensures now[..|done| + 1] == done[..j] + [x] + done[j..]
  {
  }

  /**
   * The shifting loop of one insertion round: moves every element of the sorted
   * `done == a[..i]` that compares greater than `x` one place right, from the back,
   * and returns the gap `j` left for `x`.
   */
  method OpenGap(a: array<Agent>, i: nat, x: Agent, cmp: Comparator, ghost done: seq<Agent>) returns (j: nat)
    requires i < a.Length && done == a[..i]
    modifies a
    ensures j <= i
    ensures forall k :: 0 <= k < j ==> a[k] == done[k]
    ensures forall k :: j < k <= i ==> a[k] == done[k - 1]
    ensures forall k :: i < k < a.Length ==> a[k] == old(a[k])
    ensures j == 0 || cmp(done[j - 1], x) <= 0
    ensures forall k :: j <= k < i ==> cmp(done[k], x) > 0
  {
    j := i;
    while j > 0 && cmp(a[j - 1], x) > 0
      invariant 0 <= j <= i
      invariant forall k :: 0 <= k < j ==> a[k] == done[k]
      invariant forall k :: j < k <= i ==> a[k] == done[k - 1]
      invariant forall k :: i < k < a.Length ==> a[k] == old(a[k])
      invariant forall k :: j <= k < i ==> cmp(done[k], x) > 0
    {
      a[j] := a[j - 1];
      j := j - 1;
    }
  }

  /** One round of insertion sort: moves `a[i]` left past every greater element of the sorted `a[..i]`. */
  method InsertInto(a: array<Agent>, i: nat, cmp: Comparator)
    requires i < a.Length
    modifies a
    ensures a[..i + 1] == Insert(old(a[..i]), old(a[i]), cmp)
    ensures forall k :: i < k < a.Length ==> a[k] == old(a[k])
  {
    ghost var done := a[..i];
    var x := a[i];
    var j := OpenGap(a, i, x, cmp, done);
    a[j] := x;
    InsertSplit(done, j, x, cmp);
    PlacedAt(a[..], done, j, x);
  }

  /** `a.sort(cmp)`: a stable insertion sort of the array, in place. */
  method SortInPlace(a: array<Agent>, cmp: Comparator)
    modifies a
    ensures a[..] == SortSeq(old(a[..]), cmp)
  {
    ghost var s := a[..];
    var i := 0;
    while i < a.Length
      invariant 0 <= i <= a.Length
      invariant a[..i] == SortSeq(s[..i], cmp)
      invariant a[i..] == s[i..]
    {
      InsertInto(a, i, cmp);
      assert a[i + 1..] == s[i + 1..];
      SortSeqStep(s, i, cmp);
      i := i + 1;
    }
    assert a[..i] == a[..] && s[..i] == s;
  }
}
