# Call-summary dashboard: a verified model of its core logic

This project is a Dafny model of the client-side logic of the call-summary
web application, a Next.js dashboard for analysing recorded calls. It
covers these parts:

- **The analysis dashboard** (`app/components/Dashboard.tsx`):
  - when an analysis result counts as ready to show;
  - which closeable, draggable sections are built from it, and in which order;
  - the drag-end reorder and the close button;
  - the simulated progress bar;
  - how the signed-in user's name and e-mail address are read from the
    `access_token` cookie.
- **The two agent-statistics selectors** (`app/agent-details/AgentDetailsPage.tsx`
  and `app/components/dashboard/AgentDetailsPage.tsx`): a multi-select over agents,
  with toggle, clear, select-all and the filtered report list.
- **The agent summary page** (`app/agent-summary/page.tsx`): conversion of
  datetime-local values for the statistics service, and the fetch state machine.
- **The route guard** (`middleware.ts`): redirects to login when there is no token.
- **The "Generate Report" button** (`app/components/dashboard/ProcessButton.tsx`).
- **The audio upload form** (`app/components/dashboard/UploadFiles.tsx`).

Modules, one per source file:

- `Dashboard` and `DashboardIdentity`: `Dashboard.tsx`.
- `AgentDetails` and `DashboardAgentDetails`: the two selector pages. Both
  share `AgentSelection`, which specifies the toggle and the filter once.
- `AgentSummary`, `Middleware`, `ProcessButton` and `UploadFiles`: the other
  source files.
- `Text`: the JavaScript string operations the components rely on (`split`,
  `trim`, integer `toString`).
- `Results`: `Option` and the abstract outcome of a remote call.

Modelling choices:

- **Component state is a class.** React state that a component updates is a
  class whose fields are that state. Each handler or effect is a method with
  a `modifies` clause. Each method states the whole new state and, where
  the component has one, the invariant it keeps (`Valid()`).
- **Pure logic is functions.** Guards, builders, filters and formatters are
  functions, with lemmas about them.
- **Remote calls are parameters.** A remote call is a function parameter that
  returns an `Outcome`:
  - `Ok(data)` for a response whose status is ok;
  - `NotOk(detail)` for an error status;
  - `Threw(message)` for an exception.

  Where a handler awaits such a call, it is split in two: the part before the
  call (`Begin…`) and the part after it (`Complete…`). The handler itself
  (`FetchAgents`, `HandleProcess`, `UploadFile`) runs both parts.
- **JSON fields keep JavaScript's distinctions.** A field of the analysis
  result is `Undefined`, `Null` or `Val(v)`. This keeps the code's `!==
  undefined` test, under which `null` counts as defined, separate from
  truthiness, under which an empty array is truthy and `""` and `0` are
  falsy.

The drag-end handler takes the dragged section out and re-inserts it at the
drop target's old index, which is an array move. So a section dragged
downwards lands *after* its target, not before it
(`Dashboard.MoveDownLandsAfterTarget`).

## Model

| member | source | states |
|---|---|---|
| `Dashboard.IsDataReady` | app/components/Dashboard.tsx:101-106 | ready means not loading, a result present, and sentiment samples, a truthy summary, a truthy customer name or a defined sentiment score |
| `Dashboard.NotReadyWithoutContent` | app/components/Dashboard.tsx:100-110 | a result with no field set is never ready, and nothing is ready while loading or without a result |
| `Dashboard.ReadySufficient` | app/components/Dashboard.tsx:101-106 | after loading, sentiment samples alone make a result ready, and so does a sentiment score of 0 or `null` (the test is `!== undefined`, not truthiness) |
| `Dashboard.Guard` | app/components/Dashboard.tsx:145-208 | the condition under which the builder pushes each section kind; call information always |
| `Dashboard.BuiltKinds` | app/components/Dashboard.tsx:125-144 | the builder always starts with the call-information section |
| `Dashboard.BuiltKindsFilter` | app/components/Dashboard.tsx:145-226 | the builder's chain of guarded pushes equals the fixed section order filtered by the guards |
| `Dashboard.BuiltKindsSpec` | app/components/Dashboard.tsx:145-226 | a kind of section is built exactly when its guard holds, and built kinds appear in strictly increasing position of the fixed order |
| `Dashboard.IdOfInjective` | app/components/Dashboard.tsx:125-226 | the six section ids are pairwise different |
| `Dashboard.BuildSections` | app/components/Dashboard.tsx:125-227 | the built list has one visible section per built kind, carrying that kind's id, in the builder's order |
| `Dashboard.BuildSectionsShape` | app/components/Dashboard.tsx:125-227 | a freshly built list starts with a visible "call-info", has only visible sections and distinct ids, contains a kind's id exactly when its guard holds, and orders any two present ids by the fixed order |
| `Dashboard.VisibleIds` | app/components/Dashboard.tsx:54 | a section renders only while visible: an id is rendered exactly when some visible section carries it, and the rendered ids keep the list's order (a subsequence of all ids) |
| `Dashboard.AllVisibleShowsAll` | app/components/Dashboard.tsx:54 | when every section is visible, the rendered ids are all ids, in list order |
| `Dashboard.ScoreAndSummaryLayout` | app/components/Dashboard.tsx:145-206 | a result with only a score and a non-empty summary shows "call-info", "call-summary", "sentiment-score-chart" in that order |
| `Dashboard.FindIndex` | app/components/Dashboard.tsx:317-318 | `findIndex` by id gives -1 exactly when the id is absent, and otherwise the first position holding it |
| `Dashboard.Move` | app/components/Dashboard.tsx:322-324 | the splice-out/splice-in move keeps the length and the multiset of sections, puts the moved section at the target index, and keeps all others in their relative order |
| `Dashboard.MoveAt` | app/components/Dashboard.tsx:322-324 | where every element of the moved list comes from: unchanged outside the span between source and target, shifted by one inside it |
| `Dashboard.MoveDownLandsAfterTarget` | app/components/Dashboard.tsx:323-324 | dragging a section down onto a later one puts it just after that section |
| `Dashboard.MoveInPlace` | app/components/Dashboard.tsx:322-324 | moving a section onto its own index changes nothing |
| `Dashboard.Reordered` | app/components/Dashboard.tsx:313-326 | the drag-end update leaves the list unchanged without a target, when dragged onto itself, or when either id is missing; otherwise it is the move from the dragged index to the target index; always a permutation |
| `Dashboard.ReorderedKeepsIds` | app/components/Dashboard.tsx:313-326 | a drag-end update keeps exactly the same section ids, each still once |
| `Dashboard.PermutationKeepsIds` | app/components/Dashboard.tsx:316-326 | a reorder keeps the same set of ids and keeps them distinct |
| `Dashboard.Closed` | app/components/Dashboard.tsx:333-339 | closing keeps every section in place with its id and hides exactly the sections with the given id |
| `Dashboard.CloseIdempotent` | app/components/Dashboard.tsx:333-339 | closing the same section twice is closing it once |
| `Dashboard.CloseHidesOnlyThat` | app/components/Dashboard.tsx:333-339 | after a close, the rendered ids are those rendered before, in the same order, with every occurrence of the closed id removed (`AgentSelection.RemoveAll`) |
| `Dashboard.Tick` | app/components/Dashboard.tsx:299 | one interval tick gives the smaller of the value plus 80/60 and 90: it is one of the two and exceeds neither, so it never lowers a value up to 90 |
| `Dashboard.Ticks` | app/components/Dashboard.tsx:296-300 | repeated ticks from a value up to 90 never lower it and never pass 90 |
| `Dashboard.TicksFromStart` | app/components/Dashboard.tsx:296-300 | from 10, n ticks give min(10 + n*80/60, 90): progress stays in [10, 90] and reaches 90 after 60 ticks |
| `Dashboard.DashboardView.constructor` | app/components/Dashboard.tsx:296-303 | first render: no sections, not ready, progress 10 when loading and 0 otherwise |
| `Dashboard.DashboardView.SetLoading` | app/components/Dashboard.tsx:293-308 | the flag takes the new value; the effect runs only on a change, which sets progress to 10 and starts the interval, or clears it and sets 0; an unchanged flag leaves progress and the interval as they were; the invariant (progress in [10, 90] exactly while loading) is kept |
| `Dashboard.DashboardView.OnTimer` | app/components/Dashboard.tsx:298-300 | a firing of a running interval applies one tick, and progress never decreases |
| `Dashboard.DashboardView.UpdateReadiness` | app/components/Dashboard.tsx:100-110 | the readiness flag becomes the readiness predicate of the current loading flag and result |
| `Dashboard.DashboardView.InitializeSections` | app/components/Dashboard.tsx:117-229 | when ready with a result the list is rebuilt from it, otherwise left as it was; ids stay distinct |
| `Dashboard.DashboardView.OnDragEnd` | app/components/Dashboard.tsx:311-330 | the sections become the drag-end update of the old list; ids stay the same set and distinct |
| `Dashboard.DashboardView.HandleCloseSection` | app/components/Dashboard.tsx:333-339 | the sections become the closed list |
| `DashboardIdentity.Cookies` | app/components/Dashboard.tsx:234 | the cookie list is the trimmed pieces of the header split at ';' |
| `DashboardIdentity.FindPrefixed` | app/components/Dashboard.tsx:235 | `find` gives the first cookie starting with the prefix, or none exactly when no cookie does |
| `DashboardIdentity.Before` | app/components/Dashboard.tsx:235 | the text before the first separator is a prefix of the input without a separator, followed by a separator or the end |
| `DashboardIdentity.TokenPiece` | app/components/Dashboard.tsx:235 | splitting an "access_token=" cookie at '=' gives at least two pieces, the second being the value up to the next '=' |
| `DashboardIdentity.TokenOf` | app/components/Dashboard.tsx:234-235 | the token read from the cookie header, never containing '=' |
| `DashboardIdentity.TokenSpec` | app/components/Dashboard.tsx:234-235 | the token is the value of the first trimmed cookie starting with "access_token=", cut at the next '='; there is none exactly when no such cookie exists |
| `DashboardIdentity.PickEmail` | app/components/Dashboard.tsx:251-252 | an e-mail is taken exactly when one of the three claims is truthy, and it is never empty |
| `DashboardIdentity.EmailPrecedence` | app/components/Dashboard.tsx:251-252 | the e-mail claims are tried in the order `email`, `Email`, `user_email`, skipping falsy ones |
| `DashboardIdentity.ResolveIdentity` | app/components/Dashboard.tsx:232-258 | without a truthy token, or when decoding fails, loading stops and nothing is set; after a successful decode the e-mail is the chosen claim (email, then Email, then user_email), the name is the `name` claim when truthy and none otherwise, and loading stays on |
| `Text.Split` | app/components/Dashboard.tsx:234 | `split` always gives at least one piece and no piece contains the separator |
| `Text.JoinSplit` | app/components/Dashboard.tsx:234 | joining the pieces of a split with the separator gives the input back |
| `Text.SecondPieceAfterPrefix` | app/components/Dashboard.tsx:235 | the second piece of a text whose prefix ends in the only separator is the text up to the next separator |
| `Text.Trim` | app/components/Dashboard.tsx:234 | `trim` cuts only whitespace, from both ends, and leaves a text that neither starts nor ends with whitespace |
| `Text.TrimIdempotent` | app/components/Dashboard.tsx:234 | trimming twice is trimming once |
| `Text.NatToString` | app/agent-details/AgentDetailsPage.tsx:27 | a non-negative integer prints as decimal digits with no leading zero |
| `Text.ParseNatToString` | app/agent-details/AgentDetailsPage.tsx:27 | reading back the printed digits gives the number |
| `Text.IntToString` | app/agent-details/AgentDetailsPage.tsx:27 | an integer prints with a leading '-' exactly when it is negative |
| `Text.IntToStringInjective` | app/agent-details/AgentDetailsPage.tsx:27 | two integers render as the same text exactly when they are equal, so string ids tell numeric ids apart |
| `AgentSelection.RemoveAll` | app/agent-details/AgentDetailsPage.tsx:34 | the filter removes every occurrence of the id and keeps every other id as often as before |
| `AgentSelection.RemoveAllKeepsOrder` | app/agent-details/AgentDetailsPage.tsx:34 | the filter keeps the remaining ids in their order |
| `AgentSelection.RemoveAllAppended` | app/agent-details/AgentDetailsPage.tsx:34 | removing an id appended to a list lacking it gives the list back |
| `AgentSelection.Toggle` | app/agent-details/AgentDetailsPage.tsx:33-34 | after a toggle the id is selected exactly when it was not before; no other id changes; an unselected id is appended at the end |
| `AgentSelection.ToggleTwice` | app/agent-details/AgentDetailsPage.tsx:33-34 | toggling an unselected id twice restores the selection |
| `AgentSelection.ToggleKeepsDistinct` | app/agent-details/AgentDetailsPage.tsx:33-34 | a toggle keeps the selection free of duplicates |
| `AgentSelection.AllIds` | app/agent-details/AgentDetailsPage.tsx:27 | the initial selection is every agent's id, in agent order |
| `AgentSelection.KeepSelected` | app/agent-details/AgentDetailsPage.tsx:53-59 | the report list holds only agents whose id is selected, each as often as in the agent list, and every such agent |
| `AgentSelection.KeepSelectedKeepsOrder` | app/agent-details/AgentDetailsPage.tsx:56 | the report list keeps the agent list's order |
| `AgentSelection.KeepSelectedExtremes` | app/agent-details/AgentDetailsPage.tsx:53-59 | with every id selected the report list is the whole agent list; with none it is empty |
| `AgentSelection.SelectAllFlagExact` | app/agent-details/AgentDetailsPage.tsx:35 | with distinct agent ids and a duplicate-free selection of agent ids, the length test is true exactly when every agent is selected |
| `AgentDetails.Key` | app/agent-details/AgentDetailsPage.tsx:27 | a string id is its own key; a numeric id prints with '-' exactly when negative |
| `AgentDetails.NumericKeysDistinguish` | app/agent-details/AgentDetailsPage.tsx:27 | two numeric ids have the same key exactly when they are equal |
| `AgentDetails.AgentDetailsPage.constructor` | app/agent-details/AgentDetailsPage.tsx:23-29 | every agent is selected, the flag is set, the dropdown closed and the report hidden |
| `AgentDetails.AgentDetailsPage.ToggleAgent` | app/agent-details/AgentDetailsPage.tsx:31-39 | the selection is toggled and the flag becomes the length test; the dropdown closes; a toggle of a listed or selected id keeps the selection a duplicate-free set of agent ids, and then the flag means that every agent is selected |
| `AgentDetails.AgentDetailsPage.ClearAll` | app/agent-details/AgentDetailsPage.tsx:41-45 | nothing is selected, the flag is cleared, the dropdown closes and the report list is empty |
| `AgentDetails.AgentDetailsPage.SelectAllAgents` | app/agent-details/AgentDetailsPage.tsx:47-51 | every agent is selected in list order, the flag is set and the report list is the whole agent list |
| `AgentDetails.AgentDetailsPage.OnSelectAllButton` | app/agent-details/AgentDetailsPage.tsx:140 | the select-all button clears when the flag is set and selects everything otherwise |
| `AgentDetails.AgentDetailsPage.ToggleDropdown` | app/agent-details/AgentDetailsPage.tsx:107 | the dropdown button flips the dropdown |
| `AgentDetails.AgentDetailsPage.ToggleReport` | app/agent-details/AgentDetailsPage.tsx:203 | the report button flips the report view |
| `AgentDetails.AgentDetailsPage.HandleBack` | app/agent-details/AgentDetailsPage.tsx:61-65 | back hides the report, empties the selection and clears the flag, leaving the dropdown as it was |
| `AgentDetails.AgentDetailsPage.SelectedAgentsData` | app/agent-details/AgentDetailsPage.tsx:53-59 | the report list holds exactly the listed agents whose key is selected, as often as listed, in list order |
| `DashboardAgentDetails.Key` | app/components/dashboard/AgentDetailsPage.tsx:24 | an agent's key is its numeric id in decimal, with '-' exactly when negative |
| `DashboardAgentDetails.DistinctIdsDistinctKeys` | app/components/dashboard/AgentDetailsPage.tsx:24 | agents with distinct numeric ids have distinct keys |
| `DashboardAgentDetails.AgentDetailsPage.constructor` | app/components/dashboard/AgentDetailsPage.tsx:20-25 | every agent is selected, the flag is set and the dropdown closed |
| `DashboardAgentDetails.AgentDetailsPage.ToggleAgent` | app/components/dashboard/AgentDetailsPage.tsx:27-35 | as on the stand-alone page: toggle, length-test flag, dropdown closed, selection kept a duplicate-free set of agent ids, flag meaning all selected |
| `DashboardAgentDetails.AgentDetailsPage.ClearAll` | app/components/dashboard/AgentDetailsPage.tsx:37-41 | nothing selected, flag cleared, dropdown closed, empty report list |
| `DashboardAgentDetails.AgentDetailsPage.SelectAllAgents` | app/components/dashboard/AgentDetailsPage.tsx:43-47 | every agent selected, flag set, the report list is the whole agent list |
| `DashboardAgentDetails.AgentDetailsPage.OnSelectAllButton` | app/components/dashboard/AgentDetailsPage.tsx:141 | the select-all button clears when the flag is set and selects everything otherwise |
| `DashboardAgentDetails.AgentDetailsPage.ToggleDropdown` | app/components/dashboard/AgentDetailsPage.tsx:108 | the dropdown button flips the dropdown |
| `DashboardAgentDetails.AgentDetailsPage.SelectedAgentsData` | app/components/dashboard/AgentDetailsPage.tsx:49-55 | the report list holds exactly the listed agents whose key is selected, as often as listed, in list order |
| `AgentSummary.FirstIndexOf` | app/agent-summary/page.tsx:18 | the position found holds the character and nothing before it does; it is the length when the character is absent |
| `AgentSummary.ReplaceFirst` | app/agent-summary/page.tsx:18 | `replace` with a string pattern changes only the first occurrence and keeps the length |
| `AgentSummary.ReplaceFirstCount` | app/agent-summary/page.tsx:18 | every 'T' after the first survives the replacement |
| `AgentSummary.EndsWithColonTwoDigits` | app/agent-summary/page.tsx:20 | the text ends in ':' followed by two ASCII digits, the test `/:\d{2}$/` makes |
| `AgentSummary.FormatForApi` | app/agent-summary/page.tsx:15-21 | empty in, empty out; otherwise the output is the input with its first 'T' made a space, followed by ":00" exactly when that text does not already end in ':' and two digits, so it always ends that way |
| `AgentSummary.FormatForApiIdempotent` | app/agent-summary/page.tsx:15-21 | on inputs with at most one 'T', formatting twice equals formatting once |
| `AgentSummary.DateTimeLocalFirstT` | app/agent-summary/page.tsx:18 | in a datetime-local value the first 'T' is the date/time separator |
| `AgentSummary.FormatForApiDateTimeLocal` | app/agent-summary/page.tsx:16-20 | on every datetime-local value, with or without seconds, the function only turns the 'T' into a space and appends nothing |
| `AgentSummary.FormatForApiDropsSeconds` | app/agent-summary/page.tsx:16-20 | a datetime-local value without seconds leaves the function 16 characters long, without seconds, not in the service's form |
| `AgentSummary.FormatWithSeconds` | app/agent-summary/page.tsx:15-21 | the corrected conversion: empty in, empty out; 'T' replaced as before; ":00" appended exactly when the time had no seconds |
| `AgentSummary.FormatWithSecondsShape` | app/agent-summary/page.tsx:16-20 | every datetime-local value becomes `YYYY-MM-DD HH:MM:SS` with its fields kept and ":00" added when seconds were missing; applying it again changes nothing |
| `AgentSummary.ApiDateTimeFixed` | app/agent-summary/page.tsx:19-20 | a value already in the service's form is left unchanged |
| `AgentSummary.CanFetch` | app/agent-summary/page.tsx:30 | a fetch is possible exactly when both inputs are non-empty |
| `AgentSummary.AgentSummaryPage.constructor` | app/agent-summary/page.tsx:24-28 | empty inputs, no agents, not loading, filters shown, so no fetch is possible |
| `AgentSummary.AgentSummaryPage.SetStart` | app/agent-summary/page.tsx:74 | the start input takes the typed value |
| `AgentSummary.AgentSummaryPage.SetEnd` | app/agent-summary/page.tsx:83 | the end input takes the typed value |
| `AgentSummary.AgentSummaryPage.ChangeFilters` | app/agent-summary/page.tsx:101 | "Change Filters" shows the inputs again |
| `AgentSummary.AgentSummaryPage.BeginFetch` | app/agent-summary/page.tsx:32-38 | no request and no change unless both inputs are filled in; otherwise loading starts and both inputs are sent through `formatForApi`, so a datetime-local input goes out with its 'T' made a space and nothing appended (`SentAsTyped`) |
| `AgentSummary.AgentSummaryPage.CompleteFetch` | app/agent-summary/page.tsx:39-54 | an ok array body becomes the agent list and any other ok body an empty one, hiding the filters in both cases; an error status or exception empties the list and keeps the filters; loading stops always |
| `AgentSummary.AgentSummaryPage.FetchAgents` | app/agent-summary/page.tsx:32-62 | nothing changes unless both inputs are filled in; otherwise the outcome of the service for the interval converted by `formatForApi` decides the agent list and the filters, and loading ends false |
| `Middleware.IsPublicPath` | middleware.ts:9 | a path is public when it starts with one of the public paths |
| `Middleware.PublicPathPrefixes` | middleware.ts:4-9 | a path is public exactly when it starts with "/auth/callback/" or "/auth/access-denied" |
| `Middleware.CallbackWithoutSlashNotPublic` | middleware.ts:4-9 | "/auth/callback" without the trailing slash is not public |
| `Middleware.CallbackPagesArePublic` | middleware.ts:4-13 | every path under the callback prefix the login service returns to is public |
| `Middleware.Middleware` | middleware.ts:6-22 | a request that reaches the handler is redirected exactly when its path is not public and it has no truthy token; with a token it always passes; the redirect goes to the login service with the encoded callback URL as `redirect_uri` |
| `Middleware.NoRedirectLoop` | middleware.ts:9-21 | a request to the callback page passes through, token or not |
| `Middleware.StartsLikeFavicon` | middleware.ts:25 | the text starts with `favicon`, then any one character, then `ico`, as the matcher's unescaped `favicon.ico` reads |
| `Middleware.Matched` | middleware.ts:25 | the handler runs for a path starting with '/' whose rest does not start with `_next/static`, `_next/image`, `favicon` plus any character plus `ico`, or `api/` |
| `Middleware.Route` | middleware.ts:24-26 | with the route matcher in front of the handler, a request is redirected exactly when the matcher selects its path, the path is not public and there is no truthy token; excluded paths always pass |
| `Middleware.ApiRoutesPass` | middleware.ts:25 | requests under `/api/` never reach the handler, so they pass with or without a token |
| `Middleware.FaviconPatternWide` | middleware.ts:25 | the matcher's unescaped '.' in `favicon.ico` also excludes paths such as `/faviconXico` |
| `ProcessButton.ShouldRender` | app/components/dashboard/ProcessButton.tsx:55 | the button renders only for a present, non-empty selection |
| `ProcessButton.ButtonText` | app/components/dashboard/ProcessButton.tsx:57-60 | the label starts "Generating... (" while loading and "Generate Report (" otherwise, ends with " files)" when there is more than one file and " file)" otherwise, and between the two holds exactly as many characters as the count's decimal digits |
| `ProcessButton.ButtonTextCount` | app/components/dashboard/ProcessButton.tsx:57-60 | the digits after the prefix read back as the file count |
| `ProcessButton.ProcessControl.constructor` | app/components/dashboard/ProcessButton.tsx:13-19 | the button starts from the dashboard's loading flag and graph data |
| `ProcessButton.ProcessControl.BeginProcess` | app/components/dashboard/ProcessButton.tsx:20-29 | with no or an empty selection nothing happens; otherwise loading starts and the request carries the selection and "AzureOpenAI" |
| `ProcessButton.ProcessControl.CompleteProcess` | app/components/dashboard/ProcessButton.tsx:47-52 | success sets the graph data to the response; failure leaves it; loading stops either way |
| `ProcessButton.ProcessControl.HandleProcess` | app/components/dashboard/ProcessButton.tsx:20-53 | nothing changes for an empty selection; otherwise loading ends false and the graph data is the service's answer on success and unchanged on failure |
| `UploadFiles.IsAudio` | app/components/dashboard/UploadFiles.tsx:28 | a file counts as audio when its type starts with "audio/" |
| `UploadFiles.UploadError` | app/components/dashboard/UploadFiles.tsx:76-84 | no error on success; the non-empty `detail` or "Upload failed" on an error status; "Network error: " followed by the message or "Unknown error occurred" on an exception; never an empty text |
| `UploadFiles.AudioUpload.constructor` | app/components/dashboard/UploadFiles.tsx:19-22 | no file, not uploading, no response, no error |
| `UploadFiles.AudioUpload.HandleFileChange` | app/components/dashboard/UploadFiles.tsx:24-37 | no pick changes nothing; an audio file is taken and clears error and response; any other file sets the select error and clears the file |
| `UploadFiles.AudioUpload.HandleDrop` | app/components/dashboard/UploadFiles.tsx:39-49 | an audio drop is taken and clears error and response; a missing or non-audio drop sets the drop error and keeps the current file |
| `UploadFiles.AudioUpload.BeginUpload` | app/components/dashboard/UploadFiles.tsx:55-60 | without a file nothing happens; otherwise uploading starts with error and response cleared, and the file is sent |
| `UploadFiles.AudioUpload.CompleteUpload` | app/components/dashboard/UploadFiles.tsx:74-87 | success shows the response; other outcomes set the outcome's error text; uploading stops on every path |
| `UploadFiles.AudioUpload.UploadFile` | app/components/dashboard/UploadFiles.tsx:55-88 | without a file nothing changes; otherwise uploading ends false with exactly one of response and error set by the outcome, and the success-panel invariant holds |
| `UploadFiles.AudioUpload.ResetUpload` | app/components/dashboard/UploadFiles.tsx:90-94 | file, response and error are cleared and `uploading` is untouched |
| `UploadFiles.AudioUpload.DismissError` | app/components/dashboard/UploadFiles.tsx:239 | "Try Again" clears the error |

## Left out

- HTTP transport (fetch, axios, `fetchWithAuth`, JSON decoding, URLs, headers)
  is not modelled. Each remote call is a function parameter returning an
  `Outcome`; the statistics query is modelled before URL encoding.
- The dashboard's role lookup effect (the `useaccess` request and the loading
  flag it clears) is not modelled, because it is transport code.
  `DashboardIdentity.ResolveIdentity` leaves `loading` true in the case where
  that effect takes over.
- The JWT decoder and `encodeURIComponent` are uninterpreted function
  parameters. A decoder that throws is modelled like one that returns
  nothing, since both stop loading.
- The drag-and-drop library's collision detection, sensors and transforms are
  not modelled; the drag-end handler receives the two ids directly.
- The interval timer's scheduling and React's effect ordering and batching are
  not modelled. Each effect or handler is one method call.
- Reset during an upload is not modelled: "Cancel" stays enabled while an
  upload is in flight. `UploadFiles.AudioUpload.CompleteUpload` states its
  result for any state, but the success-panel invariant is only claimed for
  `UploadFile` run as a whole.
- JavaScript numbers are modelled as mathematical integers (agent ids) and
  reals (progress and ratings). Floating-point rounding of `80 / 60` and
  number formatting of non-integers are not modelled.
- The upload percentage reported by the processing request is not modelled,
  because it is floating-point display code. The same goes for
  `formatFileSize` in the upload form.
- Each section's React element (`component`) is not modelled. A section is its
  id and visibility.
- Rendering-only code is not modelled: labels, class names, the dropdown's
  per-agent highlighting, and the agent tables and charts.
- A non-string `detail` in an error body is not modelled; the outcome carries
  an optional string.
- Dashboard.DashboardView.InitializeSections: the `selectedAudio` and role
  values are not inputs of the model. The effect also depends on them, so a
  change of either re-runs it, which is another `InitializeSections` call:
  when the data is ready it rebuilds the list and so resets any reorder or
  close.

## Findings

| source | as written | input that shows it | evidently intended | confidence | as-written member | corrected member |
|---|---|---|---|---|---|---|
| app/agent-summary/page.tsx:20 | ":00" is appended only when the text does not already end in a colon and two digits; hours and minutes already end that way | "2025-09-26T15:45" gives "2025-09-26 15:45", without seconds | the comment's "ensure seconds present": "2025-09-26 15:45:00" | high; not executed | `AgentSummary.FormatForApiDropsSeconds` | `AgentSummary.FormatWithSecondsShape` |

`AgentSummary.FormatForApi` models the function as written, and the page's
fetch (`AgentSummary.AgentSummaryPage.BeginFetch`) uses it, as the page does:
a datetime-local value without seconds is sent as `YYYY-MM-DD HH:MM`.
`AgentSummary.FormatWithSeconds` is the corrected conversion, proved to give
every datetime-local value in the service's `YYYY-MM-DD HH:MM:SS` form.
