/**
 * What the leaderboard page shows for the static records of `MockData`: the
 * initial view, the reputation slider at 90, and the ascending toggle.
 */
module MockScenarios {
  import opened AgentTypes
  import opened JsSemantics
  import opened StableSort
  import opened AgentOrder
  import opened LeaderboardPage
  import opened MockData

  /** The static records are already in the page's initial order, reputation descending. */
  lemma MockSortedByReputation(agents: seq<Agent>)
    requires agents == MockAgents
    ensures Sorted(agents, SortComparator(Reputation, Desc))
  {
    MockListedBestFirst();
    forall i, j | 0 <= i < j < |agents|
      ensures SortComparator(Reputation, Desc)(agents[i], agents[j]) <= 0
    {
    }
  }

  /**
   * The initial view: all eight records in their listed order, on one page,
   * with the first three on the podium.
   */
  lemma InitialView(agents: seq<Agent>)
    requires agents == MockAgents
    ensures FilteredAgents(agents, "", 0, Reputation, Desc) == agents
    ensures TotalPages(|agents|) == 1
    ensures PageOf(agents, 1) == agents
    ensures PageOf(agents, 2) == []
    ensures TopThree(agents) == agents[..3]
  {
    MockSortedByReputation(agents);
    SortOfSorted(agents, SortComparator(Reputation, Desc));
  }

  /**
   * When the list is in reputation order and exactly its first `k` records reach
   * the slider's floor, the slider leaves those `k` records, and the podium shows
   * the first three of them.
   */
  lemma FloorKeepsLeaders(agents: seq<Agent>, minReputation: int, k: nat)
    requires k <= |agents|
    requires Sorted(agents, SortComparator(Reputation, Desc))
    requires forall i :: 0 <= i < k ==> MeetsFloor(agents[i], minReputation)
    requires forall i :: k <= i < |agents| ==> !MeetsFloor(agents[i], minReputation)
    requires minReputation > 0
    ensures FilteredAgents(agents, "", minReputation, Reputation, Desc) == agents[..k]
    ensures TopThree(FilteredAgents(agents, "", minReputation, Reputation, Desc)) == agents[..Min(3, k)]
  {
    var cmp := SortComparator(Reputation, Desc);
    FilterPrefix(agents, FloorTest(minReputation), k);
    assert FloorStep(SearchStep(agents, ""), minReputation) == agents[..k];
    SortedPrefix(agents, cmp, k);
    SortOfSorted(agents[..k], cmp);
  }

  /**
   * The slider at 90 keeps the records with reputation at least 9000: the three
   * legendary ones, which then fill the podium.
   */
  lemma SliderAtNinety(agents: seq<Agent>)
    requires agents == MockAgents
    ensures FilteredAgents(agents, "", 90, Reputation, Desc) == agents[..3]
    ensures TopThree(FilteredAgents(agents, "", 90, Reputation, Desc)) == agents[..3]
  {
    MockSortedByReputation(agents);
    FloorKeepsLeaders(agents, 90, 3);
  }

  /** A click on the active reputation header lists the records in reverse. */
  lemma AscendingReversesMock(agents: seq<Agent>)
    requires agents == MockAgents
    ensures FilteredAgents(agents, "", 0, Reputation, Asc) == Reverse(agents)
  {
    var asc := SortComparator(Reputation, Asc);
    MockListedBestFirst();
    forall i, j | 0 <= i < |agents| && 0 <= j < |agents| && agents[i] != agents[j]
      ensures asc(agents[i], agents[j]) != 0
    {
    }
    NoTiesFromPositions(agents, asc);
    ToggleOrderReverses(agents, "", 0, Reputation);
    InitialView(agents);
  }
}
