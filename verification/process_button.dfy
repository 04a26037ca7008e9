/** The "Generate Report" button (app/components/dashboard/ProcessButton.tsx):
    it sends the selected audio files for processing, brackets the request
    with the dashboard's loading flag, hands a successful result to the
    dashboard as its graph data, and labels itself with the file count. */
module ProcessButton {
  import opened Results
  import opened Text
  import Dashboard

  /** `!selectedAudio || selectedAudio.length === 0`, negated: the button
      exists only for a non-empty selection. */
  predicate ShouldRender(selectedAudio: Option<seq<string>>)
  {
    selectedAudio.Some? && |selectedAudio.value| > 0
  }

  const ModelOption: string := "AzureOpenAI"

  /** The body posted to the processing endpoint. */
  datatype ProcessRequest = ProcessRequest(filenames: seq<string>, modelOption: string)

  const GeneratingPrefix: string := "Generating... ("
  const ReportPrefix: string := "Generate Report ("

  /** The label: "Generating..." while loading, "Generate Report" otherwise,
      then the file count in parentheses, with "file" in the plural exactly
      when there is more than one: "(1 file)", "(3 files)". */
  function ButtonText(loading: bool, fileCount: nat): (r: string)
    ensures (if loading then GeneratingPrefix else ReportPrefix) <= r
    ensures |r| >= 2 && r[|r| - 1] == ')'
    ensures r[|r| - 2] == 's' <==> fileCount > 1
    ensures var tail := if fileCount > 1 then " files)" else " file)";
            && |r| == |if loading then GeneratingPrefix else ReportPrefix| + |NatToString(fileCount)| + |tail|
            && r[|r| - |tail|..] == tail
  {
    (if loading then GeneratingPrefix else ReportPrefix) + NatToString(fileCount)
    + " file" + (if fileCount > 1 then "s" else "") + ")"
  }

  /** The count shown in the label reads back as the number of files. */
  lemma ButtonTextCount(loading: bool, fileCount: nat)
    ensures var p := if loading then GeneratingPrefix else ReportPrefix;
            var k := |NatToString(fileCount)|;
            |p| + k <= |ButtonText(loading, fileCount)|
            && (forall i :: |p| <= i < |p| + k ==> IsDigit(ButtonText(loading, fileCount)[i]))
            && ParseNat(ButtonText(loading, fileCount)[|p|..|p| + k]) == fileCount
  {
    var p := if loading then GeneratingPrefix else ReportPrefix;
    var digits := NatToString(fileCount);
    var r := ButtonText(loading, fileCount);
    assert r == p + digits + (" file" + (if fileCount > 1 then "s" else "") + ")");
    assert r[|p|..|p| + |digits|] == digits;
    ParseNatToString(fileCount);
  }

  /** The dashboard state the button drives: its loading flag and its graph
      data. */
  class ProcessControl {
    var loading: bool
    var graphData: Option<Dashboard.GraphData>

    constructor (loading: bool, graphData: Option<Dashboard.GraphData>)
      ensures this.loading == loading && this.graphData == graphData
    {
      this.loading := loading;
      this.graphData := graphData;
    }

    /** First half of `handleProcess`: with no selection, or an empty one,
        nothing happens; otherwise loading starts and the request carries
        the selection and the model option. */
    method BeginProcess(selectedAudio: Option<seq<string>>) returns (request: Option<ProcessRequest>)
      modifies this`loading
      ensures request.None? <==> !ShouldRender(selectedAudio)
      ensures request.None? ==> loading == old(loading)
      ensures request.Some? ==> loading && request.value == ProcessRequest(selectedAudio.value, ModelOption)
    {
      if !ShouldRender(selectedAudio) {
        return None;
      }
      loading := true;
      request := Some(ProcessRequest(selectedAudio.value, ModelOption));
    }

    /** Second half of `handleProcess`: a successful response becomes the
        graph data; a failed one (an error status makes the client throw)
        leaves it untouched. Loading stops either way. */
    method CompleteProcess(outcome: Outcome<Dashboard.GraphData>)
      modifies this`loading, this`graphData
      ensures !loading
      ensures outcome.Ok? ==> graphData == Some(outcome.data)
      ensures !outcome.Ok? ==> graphData == old(graphData)
    {
      if outcome.Ok? {
        graphData := Some(outcome.data);
      }
      loading := false;
    }

    /** `handleProcess`, with the processing service as a parameter. */
    method HandleProcess(selectedAudio: Option<seq<string>>, service: ProcessRequest -> Outcome<Dashboard.GraphData>)
      modifies this`loading, this`graphData
      ensures !ShouldRender(selectedAudio) ==> loading == old(loading) && graphData == old(graphData)
      ensures ShouldRender(selectedAudio) ==> !loading
      ensures ShouldRender(selectedAudio) ==>
                var outcome := service(ProcessRequest(selectedAudio.value, ModelOption));
                graphData == if outcome.Ok? then Some(outcome.data) else old(graphData)
    {
      var request := BeginProcess(selectedAudio);
      if request.Some? {
        CompleteProcess(service(request.value));
      }
    }
  }
}
