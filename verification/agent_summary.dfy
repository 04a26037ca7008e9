/** The agent summary page (app/agent-summary/page.tsx): two datetime
    inputs, a fetch of agent statistics for the interval once both are
    filled in, and `formatForApi`, the conversion of a `datetime-local`
    input value that is meant to give the `YYYY-MM-DD HH:MM:SS` form the
    statistics service takes (and, for values without seconds, does not). */
module AgentSummary {
  import opened Results
  import opened Text

  // ---------------------------------------------------------------------------
  // formatForApi
  // ---------------------------------------------------------------------------

  /** Where `c` first occurs in `s` (`|s|` when it does not). */
  function FirstIndexOf(s: string, c: char): (i: nat)
    ensures i <= |s|
    ensures forall j :: 0 <= j < i ==> s[j] != c
    ensures i < |s| ==> s[i] == c
    decreases |s|
  {
    if |s| == 0 || s[0] == c then 0
    else 1 + FirstIndexOf(s[1..], c)
  }

  /** `s.replace(c, d)` with a string pattern: only the first occurrence of
      `c` becomes `d`; every other character stays. */
  function ReplaceFirst(s: string, c: char, d: char): (r: string)
    ensures |r| == |s|
    ensures forall k :: 0 <= k < |s| ==> r[k] == if k == FirstIndexOf(s, c) then d else s[k]
  {
    var i := FirstIndexOf(s, c);
    if i == |s| then s else s[..i] + [d] + s[i + 1..]
  }

  /** Every occurrence of `c` after the first survives the replacement. */
  lemma ReplaceFirstCount(s: string, c: char, d: char)
    requires c != d
    ensures multiset(ReplaceFirst(s, c, d))[c] == if c in s then multiset(s)[c] - 1 else 0
  {
    var i := FirstIndexOf(s, c);
    if i < |s| {
      assert s == s[..i] + [c] + s[i + 1..];
      assert ReplaceFirst(s, c, d) == s[..i] + [d] + s[i + 1..];
    } else {
      assert s[..i] == s;
    }
  }

  /** The regular expression `/:\d{2}$/`: a colon and two ASCII digits at
      the very end. */
  predicate EndsWithColonTwoDigits(s: string)
  {
    |s| >= 3 && s[|s| - 3] == ':' && IsDigit(s[|s| - 2]) && IsDigit(s[|s| - 1])
  }

  /** `formatForApi`: empty input gives empty output; otherwise the first
      'T' becomes a space and ":00" is appended unless the text already ends
      in a colon and two digits. */
  function FormatForApi(v: string): (r: string)
    ensures v == "" <==> r == ""
    ensures v != "" ==> EndsWithColonTwoDigits(r)
    ensures ReplaceFirst(v, 'T', ' ') <= r
    ensures v != "" ==> (|r| == |v| <==> EndsWithColonTwoDigits(ReplaceFirst(v, 'T', ' ')))
    ensures (v != "" && EndsWithColonTwoDigits(ReplaceFirst(v, 'T', ' '))) ==> r == ReplaceFirst(v, 'T', ' ')
    ensures (v != "" && !EndsWithColonTwoDigits(ReplaceFirst(v, 'T', ' '))) ==> r == ReplaceFirst(v, 'T', ' ') + ":00"
  {
    if v == "" then ""
    else
      var normalized := ReplaceFirst(v, 'T', ' ');
      if EndsWithColonTwoDigits(normalized) then normalized else normalized + ":00"
  }

  /** A text without 'T' is left alone by the replacement. */
  lemma NoTUnchanged(r: string)
    requires multiset(r)['T'] == 0
    ensures ReplaceFirst(r, 'T', ' ') == r
  {
    assert 'T' !in r;
  }

  /** Formatting a formatted value changes nothing when the input had at
      most one 'T' (a second 'T' would be replaced by the second pass). */
  lemma FormatForApiIdempotent(v: string)
    requires multiset(v)['T'] <= 1
    ensures FormatForApi(FormatForApi(v)) == FormatForApi(v)
  {
    if v != "" {
      var n := ReplaceFirst(v, 'T', ' ');
      ReplaceFirstCount(v, 'T', ' ');
      var r := FormatForApi(v);
      assert multiset(r)['T'] == 0 by {
        if !EndsWithColonTwoDigits(n) {
          assert r == n + ":00";
          assert multiset(":00")['T'] == 0;
        }
      }
      NoTUnchanged(r);
    }
  }

  predicate DigitAt(s: string, i: nat)
  {
    i < |s| && IsDigit(s[i])
  }

  /** `dddd-dd-dd?dd:dd` followed, when `withSeconds`, by `:dd`, with `sep`
      at position 10. */
  predicate DateTimeShape(s: string, sep: char, withSeconds: bool)
  {
    |s| == (if withSeconds then 19 else 16)
    && DigitAt(s, 0) && DigitAt(s, 1) && DigitAt(s, 2) && DigitAt(s, 3) && s[4] == '-'
    && DigitAt(s, 5) && DigitAt(s, 6) && s[7] == '-' && DigitAt(s, 8) && DigitAt(s, 9)
    && s[10] == sep && DigitAt(s, 11) && DigitAt(s, 12) && s[13] == ':' && DigitAt(s, 14) && DigitAt(s, 15)
    && (withSeconds ==> s[16] == ':' && DigitAt(s, 17) && DigitAt(s, 18))
  }

  /** What an `<input type="datetime-local">` holds: `YYYY-MM-DDTHH:MM`,
      with `:SS` when seconds were entered. */
  predicate IsDateTimeLocal(v: string)
    ensures IsDateTimeLocal(v) ==> |v| == 16 || |v| == 19
  {
    DateTimeShape(v, 'T', false) || DateTimeShape(v, 'T', true)
  }

  /** The form the statistics service takes: `YYYY-MM-DD HH:MM:SS`. */
  predicate IsApiDateTime(r: string)
  {
    DateTimeShape(r, ' ', true)
  }

  /** The 'T' of a datetime-local value is its first one, at position 10. */
  lemma DateTimeLocalFirstT(v: string)
    requires IsDateTimeLocal(v)
    ensures FirstIndexOf(v, 'T') == 10
    ensures ReplaceFirst(v, 'T', ' ') == v[..10] + " " + v[11..]
  {
    var i := FirstIndexOf(v, 'T');
    assert 'T' !in v[..10] by {
      forall k | 0 <= k < 10 ensures v[..10][k] != 'T' {
        assert v[..10][k] == v[k];
      }
    }
  }

  /** On every datetime-local value, with or without seconds, `formatForApi`
      only replaces the 'T' by a space: the text already ends in a colon and
      two digits, so nothing is appended. */
  lemma FormatForApiDateTimeLocal(v: string)
    requires IsDateTimeLocal(v)
    ensures FormatForApi(v) == v[..10] + " " + v[11..]
  {
    DateTimeLocalFirstT(v);
    var n := ReplaceFirst(v, 'T', ' ');
    var m := |v|;
    assert n[m - 3] == v[m - 3] && n[m - 2] == v[m - 2] && n[m - 1] == v[m - 1];
    assert EndsWithColonTwoDigits(n);
  }

  /** A value without seconds, as a datetime-local input gives it, comes out
      of `formatForApi` still without seconds, so not in the service's
      `YYYY-MM-DD HH:MM:SS` form. */
  lemma FormatForApiDropsSeconds(v: string)
    requires DateTimeShape(v, 'T', false)
    ensures FormatForApi(v) == v[..10] + " " + v[11..]
    ensures |FormatForApi(v)| == 16
    ensures !IsApiDateTime(FormatForApi(v))
  {
    FormatForApiDateTimeLocal(v);
  }

  /** Seconds are present when the text ends in two colon-and-two-digit
      fields (hours:minutes alone already end in one). */
  predicate HasSeconds(s: string)
  {
    |s| >= 6 && s[|s| - 6] == ':' && IsDigit(s[|s| - 5]) && IsDigit(s[|s| - 4]) && EndsWithColonTwoDigits(s)
  }

  /** The conversion the comment of `formatForApi` describes ("ensure
      seconds present"): the first 'T' becomes a space and ":00" is appended
      unless the time already carries seconds. */
  function FormatWithSeconds(v: string): (r: string)
    ensures v == "" <==> r == ""
    ensures ReplaceFirst(v, 'T', ' ') <= r
    ensures v != "" ==> (|r| == |v| <==> HasSeconds(ReplaceFirst(v, 'T', ' ')))
    ensures v != "" ==> r[|v|..] == if HasSeconds(ReplaceFirst(v, 'T', ' ')) then "" else ":00"
  {
    if v == "" then ""
    else
      var normalized := ReplaceFirst(v, 'T', ' ');
      if HasSeconds(normalized) then normalized else normalized + ":00"
  }

  /** The intended conversion turns every datetime-local value into the
      service's form, keeping the date and time fields and adding ":00"
      seconds when there were none; applied again it changes nothing. */
  lemma FormatWithSecondsShape(v: string)
    requires IsDateTimeLocal(v)
    ensures IsApiDateTime(FormatWithSeconds(v))
    ensures |v| == 19 ==> FormatWithSeconds(v) == v[..10] + " " + v[11..]
    ensures |v| == 16 ==> FormatWithSeconds(v) == v[..10] + " " + v[11..] + ":00"
    ensures FormatWithSeconds(FormatWithSeconds(v)) == FormatWithSeconds(v)
  {
    DateTimeLocalFirstT(v);
    var n := ReplaceFirst(v, 'T', ' ');
    if |v| == 16 {
      assert n[10] == ' ';
      assert !HasSeconds(n);
    } else {
      assert n[13] == v[13] && n[14] == v[14] && n[15] == v[15] && n[16] == v[16] && n[17] == v[17] && n[18] == v[18];
      assert HasSeconds(n);
    }
    ApiDateTimeFixed(FormatWithSeconds(v));
  }

  /** A value already in the service's form is left as it is. */
  lemma ApiDateTimeFixed(r: string)
    requires IsApiDateTime(r)
    ensures FormatWithSeconds(r) == r
  {
    assert multiset(r)['T'] == 0 by {
      assert forall k :: 0 <= k < |r| ==> r[k] != 'T';
    }
    NoTUnchanged(r);
    assert HasSeconds(r);
  }

  // ---------------------------------------------------------------------------
  // the page
  // ---------------------------------------------------------------------------

  datatype SummaryAgent = SummaryAgent(agentId: int, agentName: string, totalCalls: int,
                                       avgAgentRating: real, avgSentimentRating: real,
                                       avgDurationSeconds: real, totalAnomalies: int,
                                       detectedAudiofiles: seq<string>)

  /** The decoded body of an ok response: an array of agents, or anything
      else. */
  datatype Payload = AgentList(agents: seq<SummaryAgent>) | NotAList

  /** The interval sent to the statistics service, before URL encoding. */
  datatype StatsQuery = StatsQuery(startDatetime: string, endDatetime: string)

  /** `Boolean(start && end)`. */
  predicate CanFetch(start: string, end: string)
  {
    start != "" && end != ""
  }

  /** A datetime-local value goes out with its 'T' made a space and nothing
      appended; other values are not constrained. */
  predicate SentAsTyped(v: string, sent: string)
  {
    IsDateTimeLocal(v) ==> sent == v[..10] + " " + v[11..]
  }

  class AgentSummaryPage {
    var start: string
    var end: string
    var agents: seq<SummaryAgent>
    var loading: bool
    var showFilters: bool

    constructor ()
      ensures start == "" && end == "" && agents == [] && !loading && showFilters
      ensures !CanFetch(start, end)
    {
      start := "";
      end := "";
      agents := [];
      loading := false;
      showFilters := true;
    }

    method SetStart(value: string)
      modifies this`start
      ensures start == value
    {
      start := value;
    }

    method SetEnd(value: string)
      modifies this`end
      ensures end == value
    {
      end := value;
    }

    /** "Change Filters" shows the inputs again. */
    method ChangeFilters()
      modifies this`showFilters
      ensures showFilters
    {
      showFilters := true;
    }

    /** First half of `fetchAgents`: nothing happens unless both inputs are
        filled in; otherwise loading starts and the interval is sent through
        `formatForApi`. A datetime-local input reaches the service with its
        'T' replaced by a space and nothing appended. */
    method BeginFetch() returns (q: Option<StatsQuery>)
      modifies this`loading
      ensures q.None? <==> !CanFetch(start, end)
      ensures q.None? ==> loading == old(loading)
      ensures q.Some? ==> loading && q.value == StatsQuery(FormatForApi(start), FormatForApi(end))
      ensures q.Some? ==> SentAsTyped(start, q.value.startDatetime) && SentAsTyped(end, q.value.endDatetime)
    {
      if !CanFetch(start, end) {
        return None;
      }
      loading := true;
      q := Some(StatsQuery(FormatForApi(start), FormatForApi(end)));
      if IsDateTimeLocal(start) {
        FormatForApiDateTimeLocal(start);
      }
      if IsDateTimeLocal(end) {
        FormatForApiDateTimeLocal(end);
      }
    }

    /** Second half of `fetchAgents`: an ok array body becomes the agent
        list, any other ok body an empty one, and either way the filters
        are hidden (the `list.length >= 0` guard always holds); a failed
        status or an exception empties the list and leaves the filters as
        they were. Loading stops in every case. */
    method CompleteFetch(outcome: Outcome<Payload>)
      modifies this`agents, this`loading, this`showFilters
      ensures !loading
      ensures outcome.Ok? && outcome.data.AgentList? ==> agents == outcome.data.agents && !showFilters
      ensures outcome.Ok? && outcome.data.NotAList? ==> agents == [] && !showFilters
      ensures !outcome.Ok? ==> agents == [] && showFilters == old(showFilters)
    {
      match outcome {
        case Ok(data) =>
          var list := if data.AgentList? then data.agents else [];
          agents := list;
          if |list| >= 0 {
            showFilters := false;
          }
        case NotOk(_) =>
          agents := [];
        case Threw(_) =>
          agents := [];
      }
      loading := false;
    }

    /** `fetchAgents`, with the service as a parameter; the auto-fetch
        effect calls it whenever both inputs are filled in. */
    method FetchAgents(service: StatsQuery -> Outcome<Payload>)
      modifies this`agents, this`loading, this`showFilters
      ensures !CanFetch(start, end) ==> agents == old(agents) && loading == old(loading) && showFilters == old(showFilters)
      ensures CanFetch(start, end) ==> !loading
      ensures CanFetch(start, end) ==>
                var outcome := service(StatsQuery(FormatForApi(start), FormatForApi(end)));
                (outcome.Ok? ==> !showFilters && agents == if outcome.data.AgentList? then outcome.data.agents else [])
                && (!outcome.Ok? ==> agents == [] && showFilters == old(showFilters))
    {
      var q := BeginFetch();
      if q.Some? {
        var outcome := service(q.value);
        assert outcome == service(StatsQuery(FormatForApi(start), FormatForApi(end)));
        CompleteFetch(outcome);
      }
    }
  }
}
