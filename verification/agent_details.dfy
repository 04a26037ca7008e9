/** The agent statistics page (app/agent-details/AgentDetailsPage.tsx): a
    multi-select of agents, all selected at first, and a report over the
    selected ones. Agent ids are numbers or strings; the selection holds
    their `toString()` forms. */
module AgentDetails {
  import opened Text
  import opened AgentSelection

  /** `agent_id: string | number`; JavaScript numbers are modelled as
      integers. */
  datatype AgentId = NumberId(n: int) | TextId(s: string)

  datatype Agent = Agent(agentId: AgentId, agentName: string, totalCalls: int,
                         avgAgentRating: real, avgSentimentRating: real, totalAnomalies: int)

  /** `agent.agent_id.toString()`: a number in decimal, a string as it is. */
  function Key(a: Agent): (k: string)
    ensures a.agentId.TextId? ==> k == a.agentId.s
    ensures a.agentId.NumberId? ==> |k| >= 1 && (k[0] == '-' <==> a.agentId.n < 0)
  {
    match a.agentId
    case NumberId(n) => IntToString(n)
    case TextId(s) => s
  }

  /** Two numeric ids have the same key exactly when they are equal. */
  lemma NumericKeysDistinguish(a: Agent, b: Agent)
    requires a.agentId.NumberId? && b.agentId.NumberId?
    ensures Key(a) == Key(b) <==> a.agentId == b.agentId
  {
    IntToStringInjective(a.agentId.n, b.agentId.n);
  }

  class AgentDetailsPage {
    const initialAgents: seq<Agent>
    var selectAll: bool
    var isDropdownOpen: bool
    var selectedAgents: seq<string>
    var showReport: bool

    /** The "all selected" flag is only ever set when the selection is as
        long as the agent list. */
    ghost predicate Valid()
      reads this
    {
      selectAll ==> |selectedAgents| == |initialAgents|
    }

    /** The selection is a duplicate-free list of ids of listed agents, as
        long as every toggled id comes from the agent list or the
        selection itself (the two places the page offers toggles). */
    ghost predicate SelectionOfAgents()
      reads this
    {
      Distinct(selectedAgents) && forall x :: x in selectedAgents ==> x in AllIds(initialAgents, Key)
    }

    /** Initial state: every agent selected, flag set, dropdown closed,
        report hidden. */
    constructor (initialAgents: seq<Agent>)
      ensures Valid()
      ensures this.initialAgents == initialAgents
      ensures selectedAgents == AllIds(initialAgents, Key)
      ensures selectAll && !isDropdownOpen && !showReport
      ensures Distinct(AllIds(initialAgents, Key)) ==> SelectionOfAgents()
    {
      this.initialAgents := initialAgents;
      selectAll := true;
      isDropdownOpen := false;
      selectedAgents := AllIds(initialAgents, Key);
      showReport := false;
    }

    /** `toggleAgent`: the id is removed if selected and appended if not;
        the flag becomes the length test and the dropdown closes. */
    method ToggleAgent(agentId: string)
      requires Valid()
      modifies this`selectedAgents, this`selectAll, this`isDropdownOpen
      ensures Valid()
      ensures selectedAgents == Toggle(old(selectedAgents), agentId)
      ensures selectAll == (|selectedAgents| == |initialAgents|)
      ensures !isDropdownOpen
      ensures (old(SelectionOfAgents()) && (agentId in AllIds(initialAgents, Key) || agentId in old(selectedAgents)))
              ==> SelectionOfAgents()
      ensures (SelectionOfAgents() && Distinct(AllIds(initialAgents, Key)))
              ==> (selectAll <==> forall i :: 0 <= i < |initialAgents| ==> Key(initialAgents[i]) in selectedAgents)
    {
      var prev := selectedAgents;
      var next := Toggle(prev, agentId);
      if Distinct(prev) {
        ToggleKeepsDistinct(prev, agentId);
      }
      forall x | x in next ensures x in prev || x == agentId {
        assert multiset(next)[x] > 0;
      }
      selectAll := |next| == |initialAgents|;
      selectedAgents := next;
      isDropdownOpen := false;
      if SelectionOfAgents() && Distinct(AllIds(initialAgents, Key)) {
        SelectAllFlagExact(AllIds(initialAgents, Key), selectedAgents);
      }
    }

    /** `clearAll`: nothing selected, flag cleared, dropdown closed. */
    method ClearAll()
      requires Valid()
      modifies this`selectedAgents, this`selectAll, this`isDropdownOpen
      ensures Valid() && SelectionOfAgents()
      ensures selectedAgents == [] && !selectAll && !isDropdownOpen
      ensures SelectedAgentsData() == []
    {
      selectedAgents := [];
      selectAll := false;
      isDropdownOpen := false;
      KeepSelectedExtremes(initialAgents, Key);
      assert (set x | x in selectedAgents) == {};
    }

    /** `selectAllAgents`: every agent selected again, in list order. */
    method SelectAllAgents()
      requires Valid()
      modifies this`selectedAgents, this`selectAll, this`isDropdownOpen
      ensures Valid()
      ensures selectedAgents == AllIds(initialAgents, Key)
      ensures selectAll && !isDropdownOpen
      ensures SelectedAgentsData() == initialAgents
    {
      var ids := AllIds(initialAgents, Key);
      KeepSelectedExtremes(initialAgents, Key);
      ghost var data := KeepSelected(initialAgents, Key, set x | x in ids);
      selectedAgents := ids;
      selectAll := true;
      isDropdownOpen := false;
      assert SelectedAgentsData() == data;
    }

    /** The select-all button: clears when everything is selected, selects
        everything otherwise. */
    method OnSelectAllButton()
      requires Valid()
      modifies this`selectedAgents, this`selectAll, this`isDropdownOpen
      ensures Valid() && !isDropdownOpen
      ensures old(selectAll) ==> selectedAgents == [] && !selectAll
      ensures !old(selectAll) ==> selectedAgents == AllIds(initialAgents, Key) && selectAll
    {
      if selectAll {
        ClearAll();
      } else {
        SelectAllAgents();
      }
    }

    /** The dropdown button flips the dropdown. */
    method ToggleDropdown()
      requires Valid()
      modifies this`isDropdownOpen
      ensures Valid()
      ensures isDropdownOpen == !old(isDropdownOpen)
    {
      isDropdownOpen := !isDropdownOpen;
    }

    /** The report button flips between the selector and the report. */
    method ToggleReport()
      requires Valid()
      modifies this`showReport
      ensures Valid()
      ensures showReport == !old(showReport)
    {
      showReport := !showReport;
    }

    /** `handleBack`: report hidden, selection emptied, flag cleared; the
        dropdown is left as it was. */
    method HandleBack()
      requires Valid()
      modifies this`showReport, this`selectedAgents, this`selectAll
      ensures Valid() && SelectionOfAgents()
      ensures !showReport && selectedAgents == [] && !selectAll
    {
      showReport := false;
      selectedAgents := [];
      selectAll := false;
    }

    /** `selectedAgentsData`: the listed agents whose id is selected, in
        list order, each as often as it is listed. */
    function SelectedAgentsData(): (r: seq<Agent>)
      reads this
      ensures forall a :: multiset(r)[a] == if Key(a) in selectedAgents then multiset(initialAgents)[a] else 0
      ensures Subsequence(r, initialAgents)
    {
      var ids := set x | x in selectedAgents;
      KeepSelectedKeepsOrder(initialAgents, Key, ids);
      KeepSelected(initialAgents, Key, ids)
    }
  }
}
