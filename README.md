# altalune core, modelled in Dafny

altalune fetches the tickets of a Jira epic and shows them as a dependency
graph with progress statistics. The web front end keeps a list of saved
epics in the browser. This project models the parts of the program that
compute things and proves properties about them:

- `model.dfy` (module `Model`) covers the ticket record of
  `internal/model/epic.go`. It models the custom-field map captured while
  decoding the `fields` object, and the typed accessors over that map:
  string, number and option object. It also models the tolerant timestamp
  decoder `JiraTime.UnmarshalJSON`, which trims quotes, tries six layouts
  in order, and never fails.
- `graph.dfy` (module `Graph`) covers `BuildGraph` and `getStoryPoints` of
  `internal/jira/graph.go`. `BuildGraph` makes one node per ticket key,
  where the last ticket with a key wins. It adds a placeholder node for an
  epic that is not among the tickets. It then adds one "epic link" edge
  per ticket other than the epic, and an outward and an inward edge for
  each issue link whose side has a key, in ticket order and link order.
- `stats.go`'s counters become `stats.dfy` (module `Stats`):
  - the done/in-progress/to-do tallies and their percentages;
  - the histograms by status name and by issue type;
  - the deduplicated assignee list;
  - the preferred-size choice of avatar URL.
- `util.dfy` (module `CliUtils`) covers `MaskToken` and the
  case-insensitive `Contains` of `pkg/cliutls/util.go`.
- `epics_store.dfy` (module `EpicsStore`) is the Pinia store of
  `frontend/src/stores/epics.js`: a class whose `epics` field the add,
  update, remove and clear actions reassign.
- `wrappers.dfy` holds `Option`. `None` stands for a Go nil or a
  JavaScript `undefined` or `-1`.

The source's loops are modelled in two ways.

- Methods with loop invariants. These are `BuildGraph` (with its helpers
  `AppendTicketEdges` and `AppendLinkEdges`), the loops of `stats.go`,
  `Contains`, and the two decoders `Fields.UnmarshalJSON` and
  `JiraTime.UnmarshalJSON`.
- Recursive functions. These model the first-match searches: the loop of
  `getStoryPoints` (`PointsFrom`), JavaScript's `findIndex`/`find`
  (`FindIndex`), and the decoders' and `getAvatarURL`'s scans of a fixed
  list (`FirstParsingLayout`, `FirstPreferredSize`).

The methods over the ticket list are proved equal to specification
functions written as left folds: `NodeMap`, `Edges`, `Tally`,
`Histogram`, `StatusCountsOf` and `LatestUsers`. Lemmas then say what
those functions mean in terms of the inputs: key sets, counts, the first
or last ticket with a value, edge order and edge count.

The other methods are proved against predicates or relations:
- `Contains` against `ContainsAny`;
- `Fields.UnmarshalJSON` against a set comprehension over the field map;
- `JiraTime.UnmarshalJSON` against `FirstParsingLayout`.

Where Go iterates over a map, the choice depends on iteration order. The
fallback of `getAvatarURL` and the order of the assignee list are such
cases. Those results are proved to satisfy a relation (`IsAvatarChoice`,
distinct ids drawn from the map), not to equal one function.

A few behaviours of the code are worth knowing:
- A timestamp that parses under no layout leaves the previous value in
  place. The decoder does not set it to the zero time.
- A ticket whose `fields` object was never decoded has a nil custom-field
  map. Every accessor treats that like a missing key.
- Only the epic-link edges are guaranteed to join two nodes. A link to a
  key that is neither a fetched ticket nor the epic yields an edge whose
  far end is not a node (`Graph.OutwardEdgeLeavesGraph`,
  `Graph.InwardEdgeLeavesGraph`). A link to an unfetched epic does land on
  a node: the epic's placeholder.
- `ExtractAssignees` skips a ticket whose assignee has an empty account id.
- `getAvatarURL` falls back to another size only if that URL is non-empty.
  It returns "" only when every URL is empty.
- The "epic link" edge count is the number of tickets whose key differs
  from the epic key. With unique keys this is the ticket count, minus one
  when the epic is among the tickets.

## Model

| member | source | states |
|---|---|---|
| Model.UnmarshalFields | internal/model/epic.go:246-276 | after decoding, the custom-field map is non-nil. It holds exactly the keys that start with "customfield_" and are longer than that prefix, each with its decoded value. The fixed fields are unchanged. |
| Model.GetCustomField | internal/model/epic.go:279-285 | reports presence exactly when the map is non-nil and has the key, and then returns the stored value. Otherwise it returns (nil, false). |
| Model.GetCustomFieldAsString | internal/model/epic.go:288-295 | returns the stored string when the field is present and is a string, and "" in every other case. |
| Model.GetCustomFieldAsFloat | internal/model/epic.go:298-305 | returns the stored number when the field is present and is a number, and 0 in every other case. |
| Model.GetCustomFieldAsOption | internal/model/epic.go:308-325 | returns an option exactly when the field is present and is an object. The option's self, value and id are the object's string entries; a missing or non-string entry gives "". |
| Model.TrimQuotesSlice | internal/model/epic.go:208 | strings.Trim with `"` keeps one contiguous slice of the input. |
| Model.TrimQuotesDropsOnlyQuotes | internal/model/epic.go:208 | every character removed before or after that slice is a quote. |
| Model.TrimQuotesEnds | internal/model/epic.go:208 | the trimmed string neither starts nor ends with a quote. |
| Model.FirstParsingLayout | internal/model/epic.go:211-225 | names the first layout under which the text parses. It returns None exactly when no layout parses it. |
| Model.FirstParsingLayoutAt | internal/model/epic.go:220-225 | a layout that parses, with none parsing before it, is the one FirstParsingLayout names. |
| Model.JiraTime.UnmarshalJSON | internal/model/epic.go:202-228 | never returns an error. `null` leaves the time unchanged. Otherwise the quotes are trimmed and the first layout that parses sets the time. When none parses, the time is unchanged. |
| Model.JiraTime.constructor | internal/model/epic.go:197-200 | a timestamp holding the given instant. |
| Graph.PointsFromFirstPositive | internal/jira/graph.go:169-175 | the probe returns the first probed value greater than zero and is never negative. It returns 0 exactly when no field holds a positive number. |
| Graph.StoryPointsFirstPositive | internal/jira/graph.go:160-176 | the same statement for customfield_10016, 10002, 10004 and 10008, probed in that order. |
| Graph.ShownAssignee | internal/jira/graph.go:40-45 | copies the display name. The account id is copied only when the name is non-empty, so an empty name comes with an empty id. |
| Graph.BuildGraph | internal/jira/graph.go:33-151 | the nodes are `Nodes(issues, epicKey)` and the edges are `Edges(issues, epicKey)`. The lemmas below characterise both. |
| Graph.AppendTicketEdges | internal/jira/graph.go:72-138 | appends one ticket's edges: its epic link unless it is the epic, then its link edges. |
| Graph.AppendLinkEdges | internal/jira/graph.go:95-138 | appends, link by link, the outward edge and then the inward edge. Each is added only when that side has a key. |
| Graph.NodeMapKeys | internal/jira/graph.go:38-56 | the node map has exactly one key per distinct ticket key. |
| Graph.NodeKeys | internal/jira/graph.go:38-69 | the graph's node keys are the ticket keys plus the epic key. |
| Graph.NodeLastWriteWins | internal/jira/graph.go:47-55 | for a key that several tickets share, the node is built from the last of them. |
| Graph.EpicNodeKept | internal/jira/graph.go:59-69 | an epic missing from the tickets gets the placeholder node (label "Epic", status "Epic", classification "epic", 0 points, no assignee). An epic among the tickets keeps the node of its last ticket. |
| Graph.NodeMapAssigneeConsistent | internal/jira/graph.go:40-55 | no node has an assignee id without an assignee name. |
| Graph.EdgeOrder | internal/jira/graph.go:72-139 | ticket i's edges come after those of every earlier ticket and before those of every later one. |
| Graph.LinkEdgeOrder | internal/jira/graph.go:95-138 | within a ticket, link j contributes its edges after those of earlier links and before those of later ones. |
| Graph.EpicEdgeAt | internal/jira/graph.go:72-92 | a non-epic ticket's first edge runs from the epic to that ticket. It is labelled "epic link" / "Epic" / "epic" and carries the ticket's points and assignee. Both of its endpoints are node keys. |
| Graph.LinkEdgeCount | internal/jira/graph.go:95-138 | a ticket has one link edge per outward link with a key plus one per inward link with a key. |
| Graph.EdgeCount | internal/jira/graph.go:72-139 | the edge count is the number of non-epic tickets plus the link sides with keys. |
| Graph.LinkEdgesTouchOwner | internal/jira/graph.go:106-136 | every link edge leaves or enters its owning ticket, and its other end has a non-empty key. |
| Graph.EdgesAssigneeConsistent | internal/jira/graph.go:75-137 | no edge has an assignee id without an assignee name. |
| Graph.LinkEdgesAssigneeConsistent | internal/jira/graph.go:99-136 | the same rule for the link edges of one ticket. |
| Graph.GraphAssigneeConsistent | internal/jira/graph.go:40-137 | the assignee rule holds for every node and every edge of the graph. |
| Graph.LinkEdgesAt | internal/jira/graph.go:95-138 | the edges of link j of ticket i occupy the edge list from `LinkEdgeOffset(ts, epicKey, i, j)` on. That offset counts the earlier tickets' edges, the ticket's own epic link and its earlier links' edges. |
| Graph.OutwardEdgeAt | internal/jira/graph.go:97-116 | an outward link with a key puts the edge from the ticket to the linked key at that offset. |
| Graph.InwardEdgeAt | internal/jira/graph.go:118-137 | an inward link with a key puts the edge from the linked key to the ticket right after the link's outward edge, or at the offset when there is none. |
| Graph.NotANode | internal/jira/graph.go:38-69 | a key that is neither a ticket key nor the epic key has no node. |
| Graph.OutwardEdgeLeavesGraph | internal/jira/graph.go:97-116 | for any outward link from ticket i to a key that is neither a fetched ticket nor the epic, the edge at its offset runs from ticket i to that key, and that key is not a node. |
| Graph.InwardEdgeLeavesGraph | internal/jira/graph.go:118-137 | for any inward link to ticket i from a key that is neither a fetched ticket nor the epic, the edge at its offset runs from that key to ticket i, and that key is not a node. |
| Stats.CalculateStats | internal/jira/stats.go:30-55 | total is the ticket count, and to-do, in-progress and done are the "new", "indeterminate" and "done" tallies, which sum to at most total. Percentage is done/total×100, or 0 for no tickets. ProgressPer is the corrected share described under Findings. |
| Stats.ClassTalliesBounded | internal/jira/stats.go:33-45 | the three classification tallies together never exceed the ticket count. |
| Stats.PercentageRange | internal/jira/stats.go:47-49 | the percentage lies in [0, 100]. It is 0 exactly when nothing is done, and 100 exactly when every ticket of a non-empty list is done. |
| Stats.ProgressPerRange | internal/jira/stats.go:51-52 | the corrected in-progress share lies in [0, 100] and is 0 exactly when nothing is in progress. |
| Stats.ProgressPerAsWrittenNaN | internal/jira/stats.go:51-52 | as written, a list whose tickets are all done gives 0/0, that is NaN. |
| Stats.ProgressPerAsWrittenEmpty | internal/jira/stats.go:51-52 | the empty list gives NaN as written and 0 once corrected. |
| Stats.ProgressPerAgrees | internal/jira/stats.go:51-52 | wherever some ticket is not done, the written division and the corrected function agree. |
| Stats.TallyPositive | internal/jira/stats.go:33-45 | a value's tally is positive exactly when some ticket has that value. |
| Stats.HistogramMeaning | internal/jira/stats.go:77-86 | the histogram has one key per value that occurs, and each entry is that value's ticket count. |
| Stats.HistogramTotal | internal/jira/stats.go:77-86 | the histogram's counts add up to the ticket count. |
| Stats.StatusCountsOfHistogram | internal/jira/stats.go:57-75 | without the classifications, the status map is the histogram of status names. |
| Stats.StatusCountsOfFirst | internal/jira/stats.go:62-72 | each status name is classified by the first ticket that has that name. |
| Stats.CalculateStatusCounts | internal/jira/stats.go:57-75 | one entry per distinct status name. Its count is the number of tickets with that name, and its classification comes from the first such ticket. The counts add up to the ticket count. |
| Stats.CalculateTypeCounts | internal/jira/stats.go:77-86 | one entry per distinct issue type, holding the number of tickets of that type. The counts add up to the ticket count. |
| Stats.FirstPreferredSize | internal/jira/stats.go:115-121 | names the first of 48x48, 32x32, 24x24 and 16x16 whose URL is present and non-empty. It returns None exactly when there is none. |
| Stats.GetAvatarURL | internal/jira/stats.go:113-131 | returns the preferred size's URL when there is one. Otherwise it returns some non-empty URL from the map, and "" only when there is none. |
| Stats.AvatarChoiceEmpty | internal/jira/stats.go:113-131 | the chosen URL is "" exactly when every URL in the map is empty, and a non-empty choice is one of the map's URLs. |
| Stats.AvatarChoicePreferred | internal/jira/stats.go:115-121 | when a preferred size has a URL, the choice is fully determined: it is the first such size's URL. |
| Stats.LatestUsersMeaning | internal/jira/stats.go:91-101 | the assignee map has exactly one key per non-empty account id. Each holds the user of the last ticket with that id. |
| Stats.ExtractAssignees | internal/jira/stats.go:88-110 | one assignee per distinct non-empty account id, with no id twice. Each is described by the last ticket with that id, including its avatar choice. |
| Stats.ListAssignees | internal/jira/stats.go:104-107 | the map's values, each exactly once, with distinct ids, in some order. |
| CliUtils.Repeat | pkg/cliutls/util.go:41 | n copies of the character. |
| CliUtils.MaskToken | pkg/cliutls/util.go:38-45 | a token longer than 4 keeps its first 4 characters and its length, and every later character is '*'. A shorter token becomes "****". |
| CliUtils.MaskHidesSuffix | pkg/cliutls/util.go:38-45 | tokens of equal length that share their first 4 characters have the same mask, so nothing after the 4th can be recovered. |
| CliUtils.ToLower | pkg/cliutls/util.go:48-50 | lower-cases each character and keeps the length. |
| CliUtils.ToLowerIdempotent | pkg/cliutls/util.go:48-50 | lower-casing twice is the same as lower-casing once. |
| CliUtils.Contains | pkg/cliutls/util.go:47-56 | true exactly when some lower-cased substring occurs in the lower-cased string. |
| CliUtils.ContainsNothing | pkg/cliutls/util.go:47-56 | with no substrings the answer is false. |
| CliUtils.ContainsEmptySubstring | pkg/cliutls/util.go:47-56 | an empty substring matches every string. |
| CliUtils.ContainsIgnoresCase | pkg/cliutls/util.go:47-56 | lower-casing the string first does not change the answer. |
| CliUtils.ContainsMonotone | pkg/cliutls/util.go:47-56 | a match stays a match when more substrings are given, before or after. |
| EpicsStore.FindIndex | frontend/src/stores/epics.js:22 | the first position whose record has the property with that value. None (-1) exactly when no record does. |
| EpicsStore.NewRecord | frontend/src/stores/epics.js:11-17 | the new record has exactly id, title, description, epicCode and createdAt, with the given id and code. |
| EpicsStore.Merge | frontend/src/stores/epics.js:24-28 | spreading `update` and then `updatedAt` over the record. The keys are the union, the update's properties win, and updatedAt is the new stamp. |
| EpicsStore.Store.constructor | frontend/src/stores/epics.js:7 | the store starts with the stored records. |
| EpicsStore.Store.AddEpic | frontend/src/stores/epics.js:10-19 | the new record is appended after the existing ones. |
| EpicsStore.Store.UpdateEpic | frontend/src/stores/epics.js:21-30 | the first record with the id is replaced by its merge with the update. Without such a record, nothing changes. |
| EpicsStore.Store.RemoveEpic | frontend/src/stores/epics.js:32-37 | the first record with the id is spliced out. Without such a record, nothing changes. |
| EpicsStore.Store.GetEpicById | frontend/src/stores/epics.js:39-41 | returns the first record with the id, or undefined exactly when none has it. |
| EpicsStore.Store.GetEpicByCode | frontend/src/stores/epics.js:43-45 | returns the first record with the epic code, or undefined exactly when none has it. |
| EpicsStore.Store.ClearAllEpics | frontend/src/stores/epics.js:47-49 | afterwards the list is empty. |
| EpicsStore.Store.EpicCount | frontend/src/stores/epics.js:52 | the number of records. |
| EpicsStore.FindAfterAppend | frontend/src/stores/epics.js:10-19 | appending a record keeps every earlier first match. The new record is found only when nothing before it matched. |
| EpicsStore.AddThenFind | frontend/src/stores/epics.js:10-19 | after adding a record with a fresh id, the lookup by id finds it at the end, and the count grows by one. |
| EpicsStore.UpdateKeepsPosition | frontend/src/stores/epics.js:21-30 | an update that keeps the id leaves the record findable at the same position and the length unchanged. |
| EpicsStore.RemoveTakesFirst | frontend/src/stores/epics.js:32-37 | removal takes out exactly the found record and keeps the rest in order. When ids are unique, the id is no longer found. |

## Left out

- HTTP serving, the Jira client and its paging loop, the CLI and the configuration are not part of this model. They are I/O.
- LoadEnvFiles (pkg/cliutls/util.go:12-36) is not modelled. It only reads files and the process environment.
- Model.UnmarshalFields: the byte-level JSON decoding (internal/model/epic.go:251-263) and its error returns are not modelled. The method receives the object already decoded twice: as the fixed struct and as a map.
- Model.UnmarshalFields: it returns the updated `Fields` value instead of updating the receiver in place. Nothing else holds a reference to the receiver during decoding.
- Model.IsCustomFieldKey: key length and the prefix are counted in characters, while Go counts UTF-8 bytes. The prefix "customfield_" is ASCII, so both tests give the same answer on every valid UTF-8 key, which is all encoding/json produces.
- Model.JiraTime.UnmarshalJSON: Go's time.Parse is a parameter, `parse(layout, text)`, and the instant it yields is opaque.
- JiraTime.MarshalJSON (internal/model/epic.go:231-236) is not modelled. It only formats the instant with time.Format, which is left abstract.
- Ticket and Fields keep only the attributes the graph and statistics code reads. The other Jira attributes are passed through untouched and are left out.
- Graph.BuildGraph: the node list is built by iterating over the node map (internal/jira/graph.go:142-145), so its order is unspecified. The model keeps the node map itself.
- Stats.ExtractAssignees: the order of the result comes from Go map iteration and is left open. Only membership and distinctness are stated.
- Stats.CalculateStatusCounts: Go stores references to the entries in the map and increments counts through them. Nothing else refers to those entries, so a map of values behaves the same.
- Stats.CalculateStats: float64 arithmetic is modelled by exact reals, so rounding of the percentages is not modelled.
- Model.GetCustomFieldAsFloat: JSON numbers are exact reals here, not float64.
- CliUtils.ToLower: only ASCII letters are lower-cased. Go's strings.ToLower also folds non-ASCII letters.
- CliUtils.Contains: inherits the ASCII-only lower-casing of CliUtils.ToLower.
- CliUtils.MaskToken: the length is counted in characters, while Go's `len` and slicing count bytes. They differ for a token with non-ASCII characters.
- EpicsStore.Store: records are maps from property name to string. Non-string property values and spreading `undefined` are not modelled.
- EpicsStore.Store.GetEpicById: records have value semantics here. In JavaScript `getEpicById` and `getEpicByCode` return the stored object itself, so a caller that mutates the result changes the store. That aliasing is not modelled.
- EpicsStore.Store.GetEpicByCode: the same value semantics; the stored object it returns in JavaScript is not shared with the caller here.
- EpicsStore.Store: persistence of the list in localStorage and Vue reactivity are not modelled.
- EpicsStore.Store.AddEpic: `Date.now().toString()` and `new Date().toISOString()` are parameters.
- EpicsStore.Store.UpdateEpic: the update timestamp is a parameter.

## Findings

| source | as written | input that shows it | evidently intended | confidence | as-written member | corrected member |
|---|---|---|---|---|---|---|
| internal/jira/stats.go:51-52 | `ProgressPer` divides the in-progress count by `Total - Done` without a guard | an empty ticket list, or a list whose tickets are all "done": 0/0 in float64 is NaN, which encoding/json refuses to encode, so the whole statistics response fails | 0 when no ticket remains open, as `Percentage` does for an empty list | not executed | Stats.ProgressPerAsWrittenNaN | Stats.ProgressPerRange |
