/**
 * The comparator the leaderboard passes to `result.sort(...)`
 * (frontend-next/app/leaderboard/LeaderboardPage.tsx): one key chosen by the sort
 * field, compared numerically or by name, and negated for descending order. The
 * lemmas show that it is a total preorder, so every property `StableSort` proves
 * for such comparators applies to it.
 */
module AgentOrder {
  import opened AgentTypes
  import opened StableSort

  // ---------------------------------------------------------------------------
  // Name collation

  /**
   * Character-by-character comparison of two names, standing in for `localeCompare`:
   * negative when `a` comes first, zero when equal, positive when `b` comes first.
   */
  function NameCompare(a: string, b: string): (c: int)
    ensures -1 <= c <= 1
    ensures c == 0 <==> a == b
  {
    if a == [] then (if b == [] then 0 else -1)
    else if b == [] then 1
    else if a[0] < b[0] then -1
    else if a[0] > b[0] then 1
    else
      var c := NameCompare(a[1..], b[1..]);
      assert c == 0 ==> a == [a[0]] + a[1..] == [b[0]] + b[1..] == b;
      c
  }

  lemma {:induction false} NameCompareFlip(a: string, b: string)
    ensures NameCompare(a, b) == -NameCompare(b, a)
  {
    if a != [] && b != [] && a[0] == b[0] {
      NameCompareFlip(a[1..], b[1..]);
    }
  }

  lemma {:induction false} NameCompareTrans(a: string, b: string, c: string)
    requires NameCompare(a, b) <= 0 && NameCompare(b, c) <= 0
    ensures NameCompare(a, c) <= 0
  {
    if a != [] && b != [] && c != [] && a[0] == b[0] == c[0] {
      NameCompareTrans(a[1..], b[1..], c[1..]);
    }
  }

  // ---------------------------------------------------------------------------
  // The comparator

  /** The `switch (sortField)` part of the comparator: ascending comparison on one key. */
  function FieldCompare(field: SortField, a: Agent, b: Agent): int {
    match field
    case Reputation => a.reputation - b.reputation
    case JobsCompleted => a.jobsCompleted - b.jobsCompleted
    case TotalEarnings => a.totalEarnings - b.totalEarnings
    case Name => NameCompare(a.name, b.name)
  }

  /** The comparator passed to `sort`: the field comparison, negated for descending order. */
  function Compare(field: SortField, order: SortOrder, a: Agent, b: Agent): int {
    var c := FieldCompare(field, a, b);
    if order == Asc then c else -c
  }

  /** `Compare` for one field and order, as the function value handed to the sort. */
  function SortComparator(field: SortField, order: SortOrder): (Agent, Agent) -> int {
    (a, b) => Compare(field, order, a, b)
  }

  lemma CompareFlip(field: SortField, order: SortOrder, a: Agent, b: Agent)
    ensures Compare(field, order, a, b) == -Compare(field, order, b, a)
  {
    if field == Name {
      NameCompareFlip(a.name, b.name);
    }
  }

  lemma CompareTrans(field: SortField, order: SortOrder, a: Agent, b: Agent, c: Agent)
    requires Compare(field, order, a, b) <= 0 && Compare(field, order, b, c) <= 0
    ensures Compare(field, order, a, c) <= 0
  {
    if field == Name {
      if order == Asc {
        NameCompareTrans(a.name, b.name, c.name);
      } else {
        NameCompareFlip(a.name, b.name);
        NameCompareFlip(b.name, c.name);
        NameCompareFlip(a.name, c.name);
        NameCompareTrans(c.name, b.name, a.name);
      }
    }
  }

  /** Every field and order gives a total preorder, which is what a sort comparator must be. */
  lemma ComparatorIsPreorder(field: SortField, order: SortOrder)
    ensures TotalPreorder(SortComparator(field, order))
  {
    var cmp := SortComparator(field, order);
    forall a, b
      ensures cmp(a, b) == -cmp(b, a)
    {
      CompareFlip(field, order, a, b);
    }
    forall a, b, c | cmp(a, b) <= 0 && cmp(b, c) <= 0
      ensures cmp(a, c) <= 0
    {
      CompareTrans(field, order, a, b, c);
    }
  }

  /** The descending comparator is the ascending one negated. */
  lemma DescNegatesAsc(field: SortField)
    ensures Negation(SortComparator(field, Desc), SortComparator(field, Asc))
  {
  }

  /** Two records tie under a field's comparator exactly when that field's key (or name) is equal. */
  lemma TieIsEqualKey(field: SortField, order: SortOrder, a: Agent, b: Agent)
    ensures SortComparator(field, order)(a, b) == 0 <==>
      match field
      case Reputation => a.reputation == b.reputation
      case JobsCompleted => a.jobsCompleted == b.jobsCompleted
      case TotalEarnings => a.totalEarnings == b.totalEarnings
      case Name => a.name == b.name
  {
  }

  // ---------------------------------------------------------------------------
  // What the order means for the numeric keys

  /** The numeric key of a non-name field. */
  function Key(field: SortField, a: Agent): int
    requires field != Name
  {
    match field
    case Reputation => a.reputation
    case JobsCompleted => a.jobsCompleted
    case TotalEarnings => a.totalEarnings
  }

  /** For a numeric key, descending order is non-increasing and ascending order non-decreasing. */
  lemma SortedByKey(s: seq<Agent>, field: SortField, order: SortOrder)
    requires field != Name
    requires Sorted(s, SortComparator(field, order))
    ensures order == Desc ==> forall i, j :: 0 <= i < j < |s| ==> Key(field, s[i]) >= Key(field, s[j])
    ensures order == Asc ==> forall i, j :: 0 <= i < j < |s| ==> Key(field, s[i]) <= Key(field, s[j])
  {
    forall i, j | 0 <= i < j < |s|
      ensures Compare(field, order, s[i], s[j]) <= 0
    {
      assert SortComparator(field, order)(s[i], s[j]) <= 0;
    }
  }
}
