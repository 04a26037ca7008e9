/** The agent statistics panel of the dashboard
    (app/components/dashboard/AgentDetailsPage.tsx): the same multi-select
    as the stand-alone page, over agents with numeric ids, without the
    report toggle and the back button. */
module DashboardAgentDetails {
  import opened Text
  import opened AgentSelection

  /** `agent_id: number`, modelled as an integer. */
  datatype Agent = Agent(agentId: int, agentName: string, totalCalls: int,
                         avgAgentRating: real, avgSentimentRating: real, totalAnomalies: int)

  /** `agent.agent_id.toString()`: the id in decimal. */
  function Key(a: Agent): (k: string)
    ensures |k| >= 1 && (k[0] == '-' <==> a.agentId < 0)
  {
    IntToString(a.agentId)
  }

  /** Agents with distinct numeric ids have distinct keys, so the selection
      tells them apart. */
  lemma DistinctIdsDistinctKeys(agents: seq<Agent>)
    requires forall i, j :: 0 <= i < j < |agents| ==> agents[i].agentId != agents[j].agentId
    ensures Distinct(AllIds(agents, Key))
  {
    var ids := AllIds(agents, Key);
    forall i, j | 0 <= i < j < |ids| ensures ids[i] != ids[j] {
      IntToStringInjective(agents[i].agentId, agents[j].agentId);
    }
  }

  class AgentDetailsPage {
    const initialAgents: seq<Agent>
    var selectAll: bool
    var isDropdownOpen: bool
    var selectedAgents: seq<string>

    /** The "all selected" flag is only ever set when the selection is as
        long as the agent list. */
    ghost predicate Valid()
      reads this
    {
      selectAll ==> |selectedAgents| == |initialAgents|
    }

    /** The selection is a duplicate-free list of ids of listed agents, as
        long as every toggled id comes from the agent list or the
        selection itself (the two places the page offers toggles). */
    ghost predicate SelectionOfAgents()
      reads this
    {
      Distinct(selectedAgents) && forall x :: x in selectedAgents ==> x in AllIds(initialAgents, Key)
    }

    /** Initial state: every agent selected, flag set, dropdown closed. */
    constructor (initialAgents: seq<Agent>)
      ensures Valid()
      ensures this.initialAgents == initialAgents
      ensures selectedAgents == AllIds(initialAgents, Key)
      ensures selectAll && !isDropdownOpen
      ensures Distinct(AllIds(initialAgents, Key)) ==> SelectionOfAgents()
    {
      this.initialAgents := initialAgents;
      selectAll := true;
      isDropdownOpen := false;
      selectedAgents := AllIds(initialAgents, Key);
    }

    /** `toggleAgent`: the id is removed if selected and appended if not;
        the flag becomes the length test and the dropdown closes. */
    method ToggleAgent(agentId: string)
      requires Valid()
      modifies this`selectedAgents, this`selectAll, this`isDropdownOpen
      ensures Valid()
      ensures selectedAgents == Toggle(old(selectedAgents), agentId)
      ensures selectAll == (|selectedAgents| == |initialAgents|)
      ensures !isDropdownOpen
      ensures (old(SelectionOfAgents()) && (agentId in AllIds(initialAgents, Key) || agentId in old(selectedAgents)))
              ==> SelectionOfAgents()
      ensures (SelectionOfAgents() && Distinct(AllIds(initialAgents, Key)))
              ==> (selectAll <==> forall i :: 0 <= i < |initialAgents| ==> Key(initialAgents[i]) in selectedAgents)
    {
      var prev := selectedAgents;
      var next := Toggle(prev, agentId);
      if Distinct(prev) {
        ToggleKeepsDistinct(prev, agentId);
      }
      forall x | x in next ensures x in prev || x == agentId {
        assert multiset(next)[x] > 0;
      }
      selectAll := |next| == |initialAgents|;
      selectedAgents := next;
      isDropdownOpen := false;
      if SelectionOfAgents() && Distinct(AllIds(initialAgents, Key)) {
        SelectAllFlagExact(AllIds(initialAgents, Key), selectedAgents);
      }
    }

    /** `clearAll`: nothing selected, flag cleared, dropdown closed. */
    method ClearAll()
      requires Valid()
      modifies this`selectedAgents, this`selectAll, this`isDropdownOpen
      ensures Valid() && SelectionOfAgents()
      ensures selectedAgents == [] && !selectAll && !isDropdownOpen
      ensures SelectedAgentsData() == []
    {
      selectedAgents := [];
      selectAll := false;
      isDropdownOpen := false;
      KeepSelectedExtremes(initialAgents, Key);
      assert (set x | x in selectedAgents) == {};
    }

    /** `selectAllAgents`: every agent selected again, in list order. */
    method SelectAllAgents()
      requires Valid()
      modifies this`selectedAgents, this`selectAll, this`isDropdownOpen
      ensures Valid()
      ensures selectedAgents == AllIds(initialAgents, Key)
      ensures selectAll && !isDropdownOpen
      ensures SelectedAgentsData() == initialAgents
    {
      var ids := AllIds(initialAgents, Key);
      KeepSelectedExtremes(initialAgents, Key);
      ghost var data := KeepSelected(initialAgents, Key, set x | x in ids);
      selectedAgents := ids;
      selectAll := true;
      isDropdownOpen := false;
      assert SelectedAgentsData() == data;
    }

    /** The select-all button: clears when everything is selected, selects
        everything otherwise. */
    method OnSelectAllButton()
      requires Valid()
      modifies this`selectedAgents, this`selectAll, this`isDropdownOpen
      ensures Valid() && !isDropdownOpen
      ensures old(selectAll) ==> selectedAgents == [] && !selectAll
      ensures !old(selectAll) ==> selectedAgents == AllIds(initialAgents, Key) && selectAll
    {
      if selectAll {
        ClearAll();
      } else {
        SelectAllAgents();
      }
    }

    /** The dropdown button flips the dropdown. */
    method ToggleDropdown()
      requires Valid()
      modifies this`isDropdownOpen
      ensures Valid()
      ensures isDropdownOpen == !old(isDropdownOpen)
    {
      isDropdownOpen := !isDropdownOpen;
    }

    /** `selectedAgentsData`: the listed agents whose id is selected, in
        list order, each as often as it is listed. */
    function SelectedAgentsData(): (r: seq<Agent>)
      reads this
      ensures forall a :: multiset(r)[a] == if Key(a) in selectedAgents then multiset(initialAgents)[a] else 0
      ensures Subsequence(r, initialAgents)
    {
      var ids := set x | x in selectedAgents;
      KeepSelectedKeepsOrder(initialAgents, Key, ids);
      KeepSelected(initialAgents, Key, ids)
    }
  }
}
