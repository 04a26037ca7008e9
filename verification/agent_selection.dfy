/** The agent multi-select shared by both agent-details pages
    (app/agent-details/AgentDetailsPage.tsx and
    app/components/dashboard/AgentDetailsPage.tsx): a list of selected agent
    ids (as strings), a toggle that removes or appends an id, and the
    order-preserving filter of the agent list by the selection. */
module AgentSelection {

  predicate Distinct<T(==)>(s: seq<T>)
  {
    forall i, j :: 0 <= i < j < |s| ==> s[i] != s[j]
  }

  /** `r` is `s` with some elements left out, the rest in the same order. */
  predicate Subsequence<T(==)>(r: seq<T>, s: seq<T>)
    decreases |s|
  {
    if r == [] then true
    else if s == [] then false
    else if r[0] == s[0] then Subsequence(r[1..], s[1..])
    else Subsequence(r, s[1..])
  }

  lemma {:induction false} SubsequenceCons<T>(x: T, r: seq<T>, s: seq<T>)
    requires Subsequence(r, s)
    ensures Subsequence([x] + r, [x] + s)
    ensures Subsequence(r, [x] + s)
    decreases |s|
  {
    assert ([x] + s)[1..] == s;
    assert ([x] + r)[1..] == r;
    if r != [] && r[0] == x {
      // Subsequence(r, [x] + s) unfolds to Subsequence(r[1..], s), which
      // follows from Subsequence(r, s) by dropping r's head.
      SubsequenceTail(r, s);
    }
  }

  lemma {:induction false} SubsequenceTail<T>(r: seq<T>, s: seq<T>)
    requires r != [] && Subsequence(r, s)
    ensures Subsequence(r[1..], s)
    decreases |s|, 0
  {
    if r[0] == s[0] {
      if r[1..] != [] {
        SubsequenceWeaken(r[1..], s[1..], s[0]);
      }
    } else {
      SubsequenceTail(r, s[1..]);
      if r[1..] != [] {
        SubsequenceWeaken(r[1..], s[1..], s[0]);
      }
    }
  }

  /** A subsequence of `s` is a subsequence of `[x] + s`. */
  lemma {:induction false} SubsequenceWeaken<T>(r: seq<T>, s: seq<T>, x: T)
    requires Subsequence(r, s)
    ensures Subsequence(r, [x] + s)
    decreases |s|, 1
  {
    assert ([x] + s)[1..] == s;
    if r != [] && r[0] == x {
      SubsequenceTail(r, s);
    }
  }

  /** `prev.filter((id) => id !== x)`: every occurrence of `x` removed, every
      other id kept as many times as before. */
  function RemoveAll(s: seq<string>, x: string): (r: seq<string>)
    ensures x !in r
    ensures forall y :: y != x ==> multiset(r)[y] == multiset(s)[y]
    decreases |s|
  {
    if s == [] then []
    else
      assert s == [s[0]] + s[1..];
      (if s[0] == x then [] else [s[0]]) + RemoveAll(s[1..], x)
  }

  /** The removal keeps the others in their order. */
  lemma {:induction false} RemoveAllKeepsOrder(s: seq<string>, x: string)
    ensures Subsequence(RemoveAll(s, x), s)
    decreases |s|
  {
    if s != [] {
      var rest := RemoveAll(s[1..], x);
      RemoveAllKeepsOrder(s[1..], x);
      assert s == [s[0]] + s[1..];
      SubsequenceCons(s[0], rest, s[1..]);
      if s[0] == x {
        assert RemoveAll(s, x) == rest;
      } else {
        assert RemoveAll(s, x) == [s[0]] + rest;
      }
    }
  }

  /** Removing an id appended to a list that lacks it gives the list back. */
  lemma {:induction false} RemoveAllAppended(s: seq<string>, x: string)
    requires x !in s
    ensures RemoveAll(s + [x], x) == s
    decreases |s|
  {
    if s == [] {
      assert [x][1..] == [];
    } else {
      assert (s + [x])[1..] == s[1..] + [x];
      RemoveAllAppended(s[1..], x);
      assert s == [s[0]] + s[1..];
    }
  }

  /** The toggle's new selection: a selected id is removed everywhere, an
      unselected one is appended. The id is selected afterwards exactly
      when it was not before; no other id changes. */
  function Toggle(sel: seq<string>, id: string): (r: seq<string>)
    ensures id in r <==> id !in sel
    ensures forall y :: y != id ==> multiset(r)[y] == multiset(sel)[y]
    ensures id !in sel ==> r == sel + [id]
  {
    if id in sel then RemoveAll(sel, id) else sel + [id]
  }

  /** Toggling an unselected id twice restores the selection. */
  lemma ToggleTwice(sel: seq<string>, id: string)
    requires id !in sel
    ensures Toggle(Toggle(sel, id), id) == sel
  {
    RemoveAllAppended(sel, id);
  }

  /** A toggle keeps the selection free of duplicates. */
  lemma ToggleKeepsDistinct(sel: seq<string>, id: string)
    requires Distinct(sel)
    ensures Distinct(Toggle(sel, id))
  {
    var r := Toggle(sel, id);
    forall y ensures multiset(r)[y] <= 1 {
      DistinctCount(sel, y);
      if y == id && id !in sel {
        assert r == sel + [id];
        assert multiset(r)[y] == multiset(sel)[y] + 1;
      }
    }
    OnceEachIsDistinct(r);
  }

  /** A list in which nothing occurs twice has no duplicates. */
  lemma OnceEachIsDistinct<T>(s: seq<T>)
    requires forall y :: multiset(s)[y] <= 1
    ensures Distinct(s)
  {
    forall i, j | 0 <= i < j < |s| ensures s[i] != s[j] {
      if s[i] == s[j] {
        TwiceCounted(s, i, j);
      }
    }
  }

  /** An element at two positions occurs at least twice. */
  lemma TwiceCounted<T>(s: seq<T>, i: nat, j: nat)
    requires i < j < |s| && s[i] == s[j]
    ensures multiset(s)[s[i]] >= 2
  {
    assert s == s[..i] + [s[i]] + s[i + 1..j] + [s[j]] + s[j + 1..];
  }

  /** In a list without duplicates an element occurs at most once. */
  lemma {:induction false} DistinctCount<T>(s: seq<T>, y: T)
    requires Distinct(s)
    ensures multiset(s)[y] <= 1
    decreases |s|
  {
    if s != [] {
      assert s == [s[0]] + s[1..];
      DistinctCount(s[1..], y);
      if s[0] == y {
        assert y !in s[1..];
      }
    }
  }

  /** The id of every agent, in agent order
      (`initialAgents.map((a) => a.agent_id.toString())`). */
  function AllIds<A>(agents: seq<A>, key: A -> string): (ids: seq<string>)
    ensures |ids| == |agents|
    ensures forall i :: 0 <= i < |agents| ==> ids[i] == key(agents[i])
  {
    seq(|agents|, i requires 0 <= i < |agents| => key(agents[i]))
  }

  /** `initialAgents.filter((agent) => ids.has(key(agent)))`: the agents
      whose id is selected, each as often as in the list. */
  function KeepSelected<A(==,!new)>(agents: seq<A>, key: A -> string, ids: set<string>): (r: seq<A>)
    ensures forall i :: 0 <= i < |r| ==> key(r[i]) in ids
    ensures forall a :: multiset(r)[a] == if key(a) in ids then multiset(agents)[a] else 0
    decreases |agents|
  {
    if agents == [] then []
    else
      assert agents == [agents[0]] + agents[1..];
      (if key(agents[0]) in ids then [agents[0]] else []) + KeepSelected(agents[1..], key, ids)
  }

  /** The filter keeps the agents in their original order. */
  lemma {:induction false} KeepSelectedKeepsOrder<A(!new)>(agents: seq<A>, key: A -> string, ids: set<string>)
    ensures Subsequence(KeepSelected(agents, key, ids), agents)
    decreases |agents|
  {
    if agents != [] {
      var rest := KeepSelected(agents[1..], key, ids);
      KeepSelectedKeepsOrder(agents[1..], key, ids);
      assert agents == [agents[0]] + agents[1..];
      SubsequenceCons(agents[0], rest, agents[1..]);
      if key(agents[0]) in ids {
        assert KeepSelected(agents, key, ids) == [agents[0]] + rest;
      } else {
        assert KeepSelected(agents, key, ids) == rest;
      }
    }
  }

  /** With every id selected the filter gives back the whole list; with
      none, nothing. */
  lemma {:induction false} KeepSelectedExtremes<A(!new)>(agents: seq<A>, key: A -> string)
    ensures KeepSelected(agents, key, set x | x in AllIds(agents, key)) == agents
    ensures KeepSelected(agents, key, {}) == []
    decreases |agents|
  {
    if agents != [] {
      var all := set x | x in AllIds(agents, key);
      var rest := set x | x in AllIds(agents[1..], key);
      KeepSelectedAll(agents, key, all);
      assert KeepSelected(agents, key, {}) == KeepSelected(agents[1..], key, {});
      KeepSelectedExtremes(agents[1..], key);
    }
  }

  lemma {:induction false} KeepSelectedAll<A(!new)>(agents: seq<A>, key: A -> string, ids: set<string>)
    requires forall i :: 0 <= i < |agents| ==> key(agents[i]) in ids
    ensures KeepSelected(agents, key, ids) == agents
    decreases |agents|
  {
    if agents != [] {
      KeepSelectedAll(agents[1..], key, ids);
      assert agents == [agents[0]] + agents[1..];
    }
  }

  /** Without duplicates, a list has as many distinct elements as entries. */
  lemma {:induction false} DistinctCardinality(s: seq<string>)
    requires Distinct(s)
    ensures |set x | x in s| == |s|
    decreases |s|
  {
    if s != [] {
      DistinctCardinality(s[1..]);
      var tail := set x | x in s[1..];
      assert (set x | x in s) == {s[0]} + tail;
      assert s[0] !in tail;
    }
  }

  /** The "all selected" flag is the length test `selection.length ===
      agents.length`. When agent ids are distinct and the selection is a
      duplicate-free set of agent ids, the test holds exactly when every
      agent is selected. */
  lemma SelectAllFlagExact(allIds: seq<string>, sel: seq<string>)
    requires Distinct(allIds) && Distinct(sel)
    requires forall x :: x in sel ==> x in allIds
    ensures |sel| == |allIds| <==> forall x :: x in allIds ==> x in sel
  {
    var a := set x | x in allIds;
    var b := set x | x in sel;
    DistinctCardinality(allIds);
    DistinctCardinality(sel);
    assert b <= a;
    assert |a| == |b| + |a - b| by {
      assert a == b + (a - b);
      assert b * (a - b) == {};
    }
    if |sel| == |allIds| {
      assert a - b == {};
      forall x | x in allIds ensures x in sel {
        assert x in a;
        assert x !in a - b;
      }
    }
    if forall x :: x in allIds ==> x in sel {
      assert a - b == {};
    }
  }
}
