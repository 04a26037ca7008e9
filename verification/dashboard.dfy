/** The audio-insights dashboard (app/components/Dashboard.tsx): whether an
    analysis result is ready to display, the ordered list of closeable,
    draggable sections built from it, the drag-end reorder, the close button,
    and the simulated progress bar shown while the analysis request is
    pending. */
module Dashboard {
  import opened Results
  import opened AgentSelection

  // ---------------------------------------------------------------------------
  // The analysis result
  // ---------------------------------------------------------------------------

  /** A JSON field as JavaScript sees it: missing, explicitly null, or a value.
      The dashboard's guards tell `undefined` from `null` (`!== undefined`)
      and otherwise use truthiness, so all three are kept apart. */
  datatype Js<+T> = Undefined | Null | Val(v: T)

  /** One sample of the sentiment-over-time chart. */
  datatype SentimentChunk = SentimentChunk(timestamp: string, score: real)

  /** The analysis result (`graphData`); every field is optional. */
  datatype GraphData = GraphData(
    customerName: Js<string>,
    agentName: Js<string>,
    sentimentScore: Js<real>,
    callSummary: Js<string>,
    speakerInsights: Js<map<string, string>>,
    agentRating: Js<real>,
    sentimentChunks: Js<seq<SentimentChunk>>,
    actionItems: Js<seq<string>>,
    emailSent: Js<seq<string>>)

  /** A result with no field set at all. */
  const EmptyResult := GraphData(Undefined, Undefined, Undefined, Undefined, Undefined,
                                 Undefined, Undefined, Undefined, Undefined)

  /** Truthiness of a string field: a non-empty string. */
  predicate TruthyString(j: Js<string>) { j.Val? && j.v != "" }

  /** Truthiness of a number field: a number other than 0. */
  predicate TruthyNumber(j: Js<real>) { j.Val? && j.v != 0.0 }

  /** Truthiness of an object or array field: present, even when empty. */
  predicate TruthyObject<T>(j: Js<T>) { j.Val? }

  /** `field !== undefined`: null counts as defined. */
  predicate Defined<T>(j: Js<T>) { !j.Undefined? }

  /** `sentiment_chunks?.length > 0`. */
  predicate HasChunks(g: GraphData)
  {
    g.sentimentChunks.Val? && |g.sentimentChunks.v| > 0
  }

  // ---------------------------------------------------------------------------
  // Readiness
  // ---------------------------------------------------------------------------

  /** The data-ready check: not loading, a result is present, and it has
      sentiment samples, a summary, a customer name or any sentiment score. */
  predicate IsDataReady(loading: bool, graphData: Option<GraphData>)
  {
    && !loading
    && graphData.Some?
    && (|| HasChunks(graphData.value)
        || TruthyString(graphData.value.callSummary)
        || TruthyString(graphData.value.customerName)
        || Defined(graphData.value.sentimentScore))
  }

  /** A result with nothing in it is never ready, nor is any result while
      loading or no result at all. */
  lemma NotReadyWithoutContent(loading: bool, graphData: Option<GraphData>)
    ensures !IsDataReady(loading, Some(EmptyResult))
    ensures loading ==> !IsDataReady(loading, graphData)
    ensures graphData.None? ==> !IsDataReady(loading, graphData)
  {
  }

  /** Once loading is over, sentiment samples alone make a result ready, and
      so does a sentiment score of 0 (a defined but falsy value). */
  lemma ReadySufficient(g: GraphData)
    ensures HasChunks(g) ==> IsDataReady(false, Some(g))
    ensures g.sentimentScore == Val(0.0) ==> IsDataReady(false, Some(g))
    ensures g.sentimentScore == Null ==> IsDataReady(false, Some(g))
  {
  }

  // ---------------------------------------------------------------------------
  // Sections
  // ---------------------------------------------------------------------------

  /** A dashboard section; the React element it renders is not modelled. */
  datatype Section = Section(id: string, visible: bool)

  /** The kinds of section the builder can add, in the order it adds them. */
  datatype SectionKind =
    | CallInfo | CallSummary | SpeakerInsights | SentimentChart | SentimentScoreChart | ActionItems

  /** The fixed id of each kind of section. */
  function IdOf(k: SectionKind): string
  {
    match k
    case CallInfo => "call-info"
    case CallSummary => "call-summary"
    case SpeakerInsights => "speaker-insights"
    case SentimentChart => "sentiment-chart"
    case SentimentScoreChart => "sentiment-score-chart"
    case ActionItems => "action-items"
  }

  /** Position of a kind in the builder's fixed order. */
  function Rank(k: SectionKind): nat
  {
    match k
    case CallInfo => 0
    case CallSummary => 1
    case SpeakerInsights => 2
    case SentimentChart => 3
    case SentimentScoreChart => 4
    case ActionItems => 5
  }

  /** The condition under which the builder adds a kind of section. */
  predicate Guard(g: GraphData, k: SectionKind)
  {
    match k
    case CallInfo => true
    case CallSummary => TruthyString(g.callSummary)
    case SpeakerInsights => TruthyObject(g.speakerInsights) || TruthyNumber(g.agentRating)
    case SentimentChart => HasChunks(g)
    case SentimentScoreChart => Defined(g.sentimentScore)
    case ActionItems => TruthyObject(g.actionItems) || TruthyObject(g.emailSent)
  }

  /** Different kinds have different ids. */
  lemma IdOfInjective(k1: SectionKind, k2: SectionKind)
    ensures IdOf(k1) == IdOf(k2) <==> k1 == k2
  {
    if k1 != k2 {
      var a, b := IdOf(k1), IdOf(k2);
      assert a != b by {
        match k1
        case CallInfo => assert a[5] == 'i';
        case CallSummary => assert a[5] == 's';
        case SpeakerInsights => assert a[0] == 's' && a[1] == 'p';
        case SentimentChart => assert a[0] == 's' && |a| == 15;
        case SentimentScoreChart => assert a[0] == 's' && |a| == 21;
        case ActionItems => assert a[0] == 'a';
      }
    }
  }

  function Ids(s: seq<Section>): (ids: seq<string>)
    ensures |ids| == |s|
    ensures forall k :: 0 <= k < |s| ==> ids[k] == s[k].id
    decreases |s|
  {
    if s == [] then [] else [s[0].id] + Ids(s[1..])
  }

  predicate DistinctIds(s: seq<Section>)
  {
    forall a, b :: 0 <= a < b < |s| ==> s[a].id != s[b].id
  }

  /** `if (guard) newSections.push(...)`. */
  function PushIf(ks: seq<SectionKind>, guard: bool, k: SectionKind): seq<SectionKind>
  {
    if guard then ks + [k] else ks
  }

  /** The kinds of section the builder adds for a result, step by step as
      the effect pushes them. */
  function BuiltKinds(g: GraphData): (ks: seq<SectionKind>)
    ensures |ks| >= 1 && ks[0] == CallInfo
  {
    var k0 := [CallInfo];
    var k1 := PushIf(k0, Guard(g, CallSummary), CallSummary);
    var k2 := PushIf(k1, Guard(g, SpeakerInsights), SpeakerInsights);
    var k3 := PushIf(k2, Guard(g, SentimentChart), SentimentChart);
    var k4 := PushIf(k3, Guard(g, SentimentScoreChart), SentimentScoreChart);
    PushIf(k4, Guard(g, ActionItems), ActionItems)
  }

  /** Every kind, in the builder's order. */
  const AllKinds: seq<SectionKind> :=
    [CallInfo, CallSummary, SpeakerInsights, SentimentChart, SentimentScoreChart, ActionItems]

  /** The kinds of `ks` whose guard holds, in the order of `ks`. */
  function Shown(g: GraphData, ks: seq<SectionKind>): (r: seq<SectionKind>)
    ensures |r| <= |ks|
    decreases |ks|
  {
    if ks == [] then []
    else PushIf(Shown(g, ks[..|ks| - 1]), Guard(g, ks[|ks| - 1]), ks[|ks| - 1])
  }

  /** Filtering keeps exactly the elements whose guard holds. */
  lemma {:induction false} ShownMembers(g: GraphData, ks: seq<SectionKind>)
    ensures forall k :: k in Shown(g, ks) <==> k in ks && Guard(g, k)
    decreases |ks|
  {
    if ks != [] {
      var init, last := ks[..|ks| - 1], ks[|ks| - 1];
      ShownMembers(g, init);
      assert ks == init + [last];
    }
  }

  /** Filtering keeps exactly the elements whose guard holds, and keeps
      ranks increasing when they were. */
  lemma {:induction false} ShownSpec(g: GraphData, ks: seq<SectionKind>)
    requires forall a, b :: 0 <= a < b < |ks| ==> Rank(ks[a]) < Rank(ks[b])
    ensures forall k :: k in Shown(g, ks) <==> k in ks && Guard(g, k)
    ensures forall a, b :: 0 <= a < b < |Shown(g, ks)| ==> Rank(Shown(g, ks)[a]) < Rank(Shown(g, ks)[b])
    decreases |ks|
  {
    ShownMembers(g, ks);
    if ks != [] {
      var init, last := ks[..|ks| - 1], ks[|ks| - 1];
      ShownSpec(g, init);
      var t := Shown(g, init);
      forall i | 0 <= i < |t| ensures Rank(t[i]) < Rank(last) {
        assert t[i] in init;
        var j :| 0 <= j < |init| && init[j] == t[i];
        assert ks[j] == t[i];
      }
      assert Shown(g, ks) == PushIf(t, Guard(g, last), last);
    }
  }

  /** The builder's chain of pushes is the fixed order filtered by the
      guards. */
  lemma BuiltKindsFilter(g: GraphData)
    ensures BuiltKinds(g) == Shown(g, AllKinds)
  {
    assert AllKinds[..1][..0] == [];
    var p1 := Shown(g, AllKinds[..1]);
    assert p1 == [CallInfo];
    assert AllKinds[..2][..1] == AllKinds[..1];
    var p2 := Shown(g, AllKinds[..2]);
    assert p2 == PushIf(p1, Guard(g, CallSummary), CallSummary);
    assert AllKinds[..3][..2] == AllKinds[..2];
    var p3 := Shown(g, AllKinds[..3]);
    assert p3 == PushIf(p2, Guard(g, SpeakerInsights), SpeakerInsights);
    assert AllKinds[..4][..3] == AllKinds[..3];
    var p4 := Shown(g, AllKinds[..4]);
    assert p4 == PushIf(p3, Guard(g, SentimentChart), SentimentChart);
    assert AllKinds[..5][..4] == AllKinds[..4];
    var p5 := Shown(g, AllKinds[..5]);
    assert p5 == PushIf(p4, Guard(g, SentimentScoreChart), SentimentScoreChart);
    assert AllKinds[..5] == AllKinds[..|AllKinds| - 1];
    assert Shown(g, AllKinds) == PushIf(p5, Guard(g, ActionItems), ActionItems);
  }

  /** The built kinds are exactly those whose guard holds, in increasing
      rank. */
  lemma BuiltKindsSpec(g: GraphData)
    ensures forall k :: k in BuiltKinds(g) <==> Guard(g, k)
    ensures forall a, b :: 0 <= a < b < |BuiltKinds(g)| ==> Rank(BuiltKinds(g)[a]) < Rank(BuiltKinds(g)[b])
  {
    BuiltKindsFilter(g);
    assert forall a, b :: 0 <= a < b < |AllKinds| ==> Rank(AllKinds[a]) < Rank(AllKinds[b]) by {
      forall a, b | 0 <= a < b < |AllKinds| ensures Rank(AllKinds[a]) < Rank(AllKinds[b]) {
        assert forall i :: 0 <= i < |AllKinds| ==> Rank(AllKinds[i]) == i;
      }
    }
    ShownSpec(g, AllKinds);
    forall k ensures k in AllKinds { assert AllKinds[Rank(k)] == k; }
  }

  /** The section list built for a result (the section-initialising effect's
      `newSections`): one visible section per built kind, with that kind's
      id, in the builder's order. */
  function BuildSections(g: GraphData): (r: seq<Section>)
    ensures |r| == |BuiltKinds(g)|
    ensures forall i :: 0 <= i < |r| ==> r[i] == Section(IdOf(BuiltKinds(g)[i]), true)
  {
    var ks := BuiltKinds(g);
    seq(|ks|, i requires 0 <= i < |ks| => Section(IdOf(ks[i]), true))
  }

  /** What a freshly built list looks like: "call-info" first, every section
      visible, ids distinct, and the id of a kind present exactly when the
      kind's guard holds, in the fixed order. */
  lemma BuildSectionsShape(g: GraphData)
    ensures |BuildSections(g)| >= 1 && BuildSections(g)[0] == Section("call-info", true)
    ensures forall i :: 0 <= i < |BuildSections(g)| ==> BuildSections(g)[i].visible
    ensures DistinctIds(BuildSections(g))
    ensures forall k :: IdOf(k) in Ids(BuildSections(g)) <==> Guard(g, k)
    ensures forall k1, k2 :: Guard(g, k1) && Guard(g, k2) && Rank(k1) < Rank(k2) ==>
              exists a, b :: 0 <= a < b < |BuildSections(g)|
                             && BuildSections(g)[a].id == IdOf(k1) && BuildSections(g)[b].id == IdOf(k2)
  {
    BuildSectionsDistinct(g);
    BuildSectionsMembership(g);
    BuildSectionsOrder(g);
  }

  lemma BuildSectionsDistinct(g: GraphData)
    ensures DistinctIds(BuildSections(g))
  {
    var r, ks := BuildSections(g), BuiltKinds(g);
    forall a, b | 0 <= a < b < |r| ensures r[a].id != r[b].id {
      BuiltKindsSpec(g);
      IdOfInjective(ks[a], ks[b]);
    }
  }

  lemma BuildSectionsMembership(g: GraphData)
    ensures forall k :: IdOf(k) in Ids(BuildSections(g)) <==> Guard(g, k)
  {
    var r, ks := BuildSections(g), BuiltKinds(g);
    BuiltKindsSpec(g);
    forall k ensures IdOf(k) in Ids(r) <==> Guard(g, k) {
      if IdOf(k) in Ids(r) {
        var i :| 0 <= i < |r| && Ids(r)[i] == IdOf(k);
        IdOfInjective(ks[i], k);
      }
      if Guard(g, k) {
        var i :| 0 <= i < |ks| && ks[i] == k;
        assert Ids(r)[i] == IdOf(k);
      }
    }
  }

  lemma BuildSectionsOrder(g: GraphData)
    ensures forall k1, k2 :: Guard(g, k1) && Guard(g, k2) && Rank(k1) < Rank(k2) ==>
              exists a, b :: 0 <= a < b < |BuildSections(g)|
                             && BuildSections(g)[a].id == IdOf(k1) && BuildSections(g)[b].id == IdOf(k2)
  {
    var r, ks := BuildSections(g), BuiltKinds(g);
    BuiltKindsSpec(g);
    forall k1, k2 | Guard(g, k1) && Guard(g, k2) && Rank(k1) < Rank(k2)
      ensures exists a, b :: 0 <= a < b < |r| && r[a].id == IdOf(k1) && r[b].id == IdOf(k2)
    {
      var a :| 0 <= a < |ks| && ks[a] == k1;
      var b :| 0 <= b < |ks| && ks[b] == k2;
      assert r[a].id == IdOf(k1) && r[b].id == IdOf(k2);
    }
  }

  /** Sections that are still shown, in list order (what is rendered). */
  function VisibleIds(s: seq<Section>): (ids: seq<string>)
    ensures |ids| <= |s|
    ensures forall x :: x in ids <==> exists k :: 0 <= k < |s| && s[k].visible && s[k].id == x
    ensures Subsequence(ids, Ids(s))
    decreases |s|
  {
    if s == [] then []
    else
      var rest := VisibleIds(s[1..]);
      assert Ids(s) == [s[0].id] + Ids(s[1..]);
      assert forall k :: 1 <= k < |s| ==> s[k] == s[1..][k - 1];
      SubsequenceCons(s[0].id, rest, Ids(s[1..]));
      if s[0].visible then [s[0].id] + rest else rest
  }

  /** A freshly built list has the same ids as it shows. */
  lemma {:induction false} AllVisibleShowsAll(s: seq<Section>)
    requires forall k :: 0 <= k < |s| ==> s[k].visible
    ensures VisibleIds(s) == Ids(s)
    decreases |s|
  {
    if s != [] {
      AllVisibleShowsAll(s[1..]);
      assert Ids(s) == [s[0].id] + Ids(s[1..]);
    }
  }

  /** A result with a sentiment score and a summary and nothing else shows,
      in order, the call information, the summary and the score chart. */
  lemma ScoreAndSummaryLayout(score: real, summary: string)
    requires summary != ""
    ensures Ids(BuildSections(EmptyResult.(sentimentScore := Val(score), callSummary := Val(summary))))
            == ["call-info", "call-summary", "sentiment-score-chart"]
  {
  }

  // ---------------------------------------------------------------------------
  // Drag-end reorder and close
  // ---------------------------------------------------------------------------

  /** `findIndex(section => section.id === id)`: the first position holding
      the id, or -1. */
  function FindIndex(s: seq<Section>, id: string): (k: int)
    ensures -1 <= k < |s|
    ensures k == -1 <==> id !in Ids(s)
    ensures k >= 0 ==> s[k].id == id && forall j :: 0 <= j < k ==> s[j].id != id
    decreases |s|
  {
    if s == [] then -1
    else if s[0].id == id then 0
    else
      var k := FindIndex(s[1..], id);
      InIds(s, id);
      InIds(s[1..], id);
      assert forall j :: 1 <= j < |s| ==> s[j] == s[1..][j - 1];
      if k == -1 then -1 else k + 1
  }

  /** An id is among a list's ids exactly when some section carries it. */
  lemma InIds(s: seq<Section>, id: string)
    ensures id in Ids(s) <==> exists j :: 0 <= j < |s| && s[j].id == id
  {
    if id in Ids(s) {
      var j :| 0 <= j < |Ids(s)| && Ids(s)[j] == id;
      assert s[j].id == id;
    }
  }

  /** `s` without its element at position `k`. */
  function RemoveAt<T>(s: seq<T>, k: nat): seq<T>
    requires k < |s|
  {
    s[..k] + s[k + 1..]
  }

  /** The array move of the drag handler: take the element out at `from`
      and insert it at `to` in what remains. The moved element ends at
      position `to`, the list is a permutation of the old one, and the other
      elements keep their relative order. */
  function Move<T>(s: seq<T>, from: nat, to: nat): (r: seq<T>)
    requires from < |s| && to < |s|
    ensures |r| == |s| && r[to] == s[from]
    ensures multiset(r) == multiset(s)
    ensures RemoveAt(r, to) == RemoveAt(s, from)
  {
    var rest := s[..from] + s[from + 1..];
    assert s == s[..from] + [s[from]] + s[from + 1..];
    var r := rest[..to] + [s[from]] + rest[to..];
    assert rest == rest[..to] + rest[to..];
    assert r[..to] == rest[..to] && r[to + 1..] == rest[to..];
    assert RemoveAt(r, to) == rest == RemoveAt(s, from);
    assert multiset(r) == multiset(rest[..to]) + multiset{s[from]} + multiset(rest[to..]);
    assert multiset(rest) == multiset(rest[..to]) + multiset(rest[to..]);
    assert multiset(rest) == multiset(s[..from]) + multiset(s[from + 1..]);
    assert multiset(s) == multiset(s[..from]) + multiset{s[from]} + multiset(s[from + 1..]);
    assert multiset(r) == multiset(rest) + multiset{s[from]};
    assert multiset(s) == multiset(rest) + multiset{s[from]};
    r
  }

  /** Where every element of a moved list comes from: outside the span
      between the two positions nothing moves; inside it, everything shifts
      one place towards the position the moved element left. */
  lemma MoveAt<T>(s: seq<T>, from: nat, to: nat, k: nat)
    requires from < |s| && to < |s| && k < |s|
    ensures k < from && k < to ==> Move(s, from, to)[k] == s[k]
    ensures k > from && k > to ==> Move(s, from, to)[k] == s[k]
    ensures from < to && from <= k < to ==> Move(s, from, to)[k] == s[k + 1]
    ensures to < from && to < k <= from ==> Move(s, from, to)[k] == s[k - 1]
  {
    var rest := RemoveAt(s, from);
    var r := Move(s, from, to);
    assert r[..to] == rest[..to] && r[to + 1..] == rest[to..];
    if k < to {
      assert r[k] == r[..to][k] == rest[k];
    } else if k > to {
      assert r[k] == r[to + 1..][k - to - 1] == rest[k - 1];
    }
    if k < to || k > to {
      var j := if k < to then k else k - 1;
      assert rest[j] == if j < from then s[j] else s[j + 1];
    }
  }

  /** Dropping a section on a later one puts it just after that section, not
      before it: the move takes the target's index, so the target moves up. */
  lemma MoveDownLandsAfterTarget<T>(s: seq<T>, from: nat, to: nat)
    requires from < to < |s|
    ensures Move(s, from, to)[to - 1] == s[to] && Move(s, from, to)[to] == s[from]
  {
    MoveAt(s, from, to, to - 1);
  }

  /** Moving an element onto its own position changes nothing. */
  lemma MoveInPlace<T>(s: seq<T>, k: nat)
    requires k < |s|
    ensures Move(s, k, k) == s
  {
    assert s == s[..k] + [s[k]] + s[k + 1..];
  }

  /** The drag-end state update: the list itself when there is no drop
      target, the target is the dragged section or either id is not in the
      list; otherwise the dragged section moved to the target's index. */
  function Reordered(s: seq<Section>, activeId: string, overId: Option<string>): (r: seq<Section>)
    ensures |r| == |s| && multiset(r) == multiset(s)
    ensures (|| overId.None? || activeId == overId.value
             || activeId !in Ids(s) || overId.value !in Ids(s)) ==> r == s
    ensures (&& overId.Some? && activeId != overId.value
             && activeId in Ids(s) && overId.value in Ids(s)) ==>
              r == Move(s, FindIndex(s, activeId), FindIndex(s, overId.value))
  {
    if overId.None? || activeId == overId.value then s
    else
      var oldIndex := FindIndex(s, activeId);
      var newIndex := FindIndex(s, overId.value);
      if oldIndex == -1 || newIndex == -1 then s
      else Move(s, oldIndex, newIndex)
  }

  /** A permutation keeps every id and keeps ids distinct. */
  /** A drag keeps the section ids, each still once. */
  lemma ReorderedKeepsIds(s: seq<Section>, activeId: string, overId: Option<string>)
    requires DistinctIds(s)
    ensures DistinctIds(Reordered(s, activeId, overId))
    ensures forall id :: id in Ids(Reordered(s, activeId, overId)) <==> id in Ids(s)
  {
    PermutationKeepsIds(s, Reordered(s, activeId, overId));
  }

  lemma PermutationKeepsIds(s: seq<Section>, r: seq<Section>)
    requires multiset(r) == multiset(s)
    requires DistinctIds(s)
    ensures DistinctIds(r)
    ensures forall id :: id in Ids(r) <==> id in Ids(s)
  {
    forall id ensures id in Ids(r) <==> id in Ids(s) {
      if id in Ids(r) {
        var k :| 0 <= k < |r| && r[k].id == id;
        assert r[k] in multiset(s);
      }
      if id in Ids(s) {
        var k :| 0 <= k < |s| && s[k].id == id;
        assert s[k] in multiset(r);
      }
    }
    forall a, b | 0 <= a < b < |r| ensures r[a].id != r[b].id {
      PermutationDistinctAt(s, r, a, b);
    }
  }

  lemma PermutationDistinctAt(s: seq<Section>, r: seq<Section>, a: nat, b: nat)
    requires multiset(r) == multiset(s)
    requires DistinctIds(s)
    requires a < b < |r|
    ensures r[a].id != r[b].id
  {
    if r[a].id == r[b].id {
      assert r[a] in multiset(s) && r[b] in multiset(s);
      var i :| 0 <= i < |s| && s[i] == r[a];
      var j :| 0 <= j < |s| && s[j] == r[b];
      if i == j {
        assert multiset(r)[r[a]] >= 2 by {
          assert r == r[..a] + [r[a]] + r[a + 1..b] + [r[b]] + r[b + 1..];
        }
        SingleOccurrence(s, i);
      }
    }
  }

  /** With distinct ids, a section occurs exactly once in the list. */
  lemma {:induction false} SingleOccurrence(s: seq<Section>, i: nat)
    requires DistinctIds(s) && i < |s|
    ensures multiset(s)[s[i]] == 1
  {
    var x := s[i];
    assert s == s[..i] + [x] + s[i + 1..];
    assert x !in s[..i] by {
      forall j | 0 <= j < i ensures s[..i][j] != x { assert s[j].id != s[i].id; }
    }
    assert x !in s[i + 1..] by {
      forall j | i < j < |s| ensures s[j] != x { assert s[j].id != s[i].id; }
    }
    assert multiset(s) == multiset(s[..i]) + multiset{x} + multiset(s[i + 1..]);
  }

  /** The close handler's update: the section with the id is hidden, every
      section keeps its place and id, and no other flag changes. */
  function Closed(s: seq<Section>, id: string): (r: seq<Section>)
    ensures |r| == |s|
    ensures forall k :: 0 <= k < |s| ==> r[k].id == s[k].id
    ensures forall k :: 0 <= k < |s| ==> r[k].visible == (s[k].visible && s[k].id != id)
  {
    seq(|s|, k requires 0 <= k < |s| => if s[k].id == id then s[k].(visible := false) else s[k])
  }

  /** Closing the same section twice is closing it once. */
  lemma CloseIdempotent(s: seq<Section>, id: string)
    ensures Closed(Closed(s, id), id) == Closed(s, id)
  {
  }

  /** After a close, the shown sections are the ones shown before, in the
      same order, minus the closed one. */
  lemma {:induction false} CloseHidesOnlyThat(s: seq<Section>, id: string)
    ensures VisibleIds(Closed(s, id)) == RemoveAll(VisibleIds(s), id)
    decreases |s|
  {
    if s != [] {
      var c := Closed(s, id);
      assert c[1..] == Closed(s[1..], id);
      CloseHidesOnlyThat(s[1..], id);
    }
  }

  // ---------------------------------------------------------------------------
  // Progress
  // ---------------------------------------------------------------------------

  /** Progress gained per tick of the 100 ms interval. */
  const Step: real := 80.0 / 60.0

  /** One tick: `Math.min(prev + 80 / 60, 90)`. */
  function Tick(p: real): (r: real)
    ensures r <= 90.0
    ensures r == p + Step || r == 90.0
    ensures r <= p + Step
    ensures p <= 90.0 ==> p <= r
  {
    if p + Step < 90.0 then p + Step else 90.0
  }

  /** `n` ticks in a row. */
  function Ticks(p: real, n: nat): (r: real)
    ensures p <= 90.0 ==> p <= r <= 90.0
    ensures n > 0 ==> r <= 90.0
    decreases n
  {
    if n == 0 then p else Tick(Ticks(p, n - 1))
  }

  function Min(a: real, b: real): real { if a <= b then a else b }

  /** From the start value 10, `n` ticks give 10 + n * 80/60 capped at 90:
      progress never decreases, never passes 90 and stays there once reached
      (after 60 ticks). */
  lemma {:induction false} TicksFromStart(n: nat)
    ensures Ticks(10.0, n) == Min(10.0 + (n as real) * Step, 90.0)
    ensures 10.0 <= Ticks(10.0, n) <= 90.0
    ensures n >= 60 ==> Ticks(10.0, n) == 90.0
    decreases n
  {
    if n > 0 {
      TicksFromStart(n - 1);
    }
  }

  // ---------------------------------------------------------------------------
  // Dashboard state
  // ---------------------------------------------------------------------------

  /** The dashboard's own state. `loading` mirrors the flag the dashboard
      reads from its context; `timerActive` says whether the progress
      interval is scheduled. */
  class DashboardView {
    var loading: bool
    var isDataReady: bool
    var sections: seq<Section>
    var progress: real
    var timerActive: bool

    /** Section ids stay distinct; the progress bar runs (between 10 and 90)
        exactly while loading, and is 0 otherwise. */
    ghost predicate Valid()
      reads this
    {
      && DistinctIds(sections)
      && timerActive == loading
      && (loading ==> 10.0 <= progress <= 90.0)
      && (!loading ==> progress == 0.0)
    }

    /** First render: no sections, not ready, and the progress effect has run
        once for the initial loading flag. */
    constructor (loading: bool)
      ensures Valid()
      ensures this.loading == loading && !isDataReady && sections == []
      ensures progress == if loading then 10.0 else 0.0
    {
      this.loading := loading;
      isDataReady := false;
      sections := [];
      timerActive := loading;
      progress := if loading then 10.0 else 0.0;
    }

    /** A new value of the loading flag and the progress effect that depends
        on it: the effect runs only when the flag changes, and then starting
        to load sets 10 and starts the interval, while stopping clears the
        interval and sets 0. Setting the flag it already has changes
        nothing. */
    method SetLoading(loading: bool)
      requires Valid()
      modifies this`loading, this`progress, this`timerActive
      ensures Valid()
      ensures this.loading == loading && timerActive == loading
      ensures loading == old(this.loading) ==> progress == old(progress) && timerActive == old(timerActive)
      ensures loading != old(this.loading) ==> progress == if loading then 10.0 else 0.0
    {
      if loading == this.loading {
        return;
      }
      this.loading := loading;
      if loading {
        progress := 10.0;
        timerActive := true;
      } else {
        progress := 0.0;
        timerActive := false;
      }
    }

    /** One firing of the interval; nothing happens once it is cleared. */
    method OnTimer()
      requires Valid()
      modifies this`progress
      ensures Valid()
      ensures progress == if timerActive then Tick(old(progress)) else old(progress)
      ensures old(progress) <= progress
    {
      if timerActive {
        progress := Tick(progress);
      }
    }

    /** The data-ready effect. */
    method UpdateReadiness(graphData: Option<GraphData>)
      requires Valid()
      modifies this`isDataReady
      ensures Valid()
      ensures isDataReady == IsDataReady(loading, graphData)
    {
      isDataReady := IsDataReady(loading, graphData);
    }

    /** The section-initialising effect: when the data is ready and a result
        is present the list is rebuilt from scratch, otherwise it is left as
        it was. */
    method InitializeSections(graphData: Option<GraphData>)
      requires Valid()
      modifies this`sections
      ensures Valid()
      ensures isDataReady && graphData.Some? ==> sections == BuildSections(graphData.value)
      ensures !isDataReady || graphData.None? ==> sections == old(sections)
    {
      if !isDataReady || graphData.None? {
        return;
      }
      BuildSectionsShape(graphData.value);
      sections := BuildSections(graphData.value);
    }

    /** The drag-end handler. */
    method OnDragEnd(activeId: string, overId: Option<string>)
      requires Valid()
      modifies this`sections
      ensures Valid()
      ensures sections == Reordered(old(sections), activeId, overId)
      ensures forall id :: id in Ids(sections) <==> id in Ids(old(sections))
    {
      ReorderedKeepsIds(sections, activeId, overId);
      if overId.None? || activeId == overId.value {
        return;
      }
      var oldIndex := FindIndex(sections, activeId);
      var newIndex := FindIndex(sections, overId.value);
      if oldIndex == -1 || newIndex == -1 {
        return;
      }
      var newSections := sections;
      var movedSection := newSections[oldIndex];
      newSections := newSections[..oldIndex] + newSections[oldIndex + 1..];
      newSections := newSections[..newIndex] + [movedSection] + newSections[newIndex..];
      assert newSections == Move(sections, oldIndex, newIndex);
      sections := newSections;
    }

    /** The close-button handler. */
    method HandleCloseSection(sectionId: string)
      requires Valid()
      modifies this`sections
      ensures Valid()
      ensures sections == Closed(old(sections), sectionId)
    {
      var prev := sections;
      sections := seq(|prev|, k requires 0 <= k < |prev| =>
                        if prev[k].id == sectionId then prev[k].(visible := false) else prev[k]);
      assert sections == Closed(prev, sectionId);
    }
  }
}
