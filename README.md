# dollop, modelled in Dafny

dollop is a terminal viewer for structured logs. It reads lines from standard
input. A line without a `{` is kept as text. The JSON from a line's first `{`
on is decoded into a record. A record is classified by ordered, first-match
template rules from the configuration: its group, title, status, level,
timestamp, message and tags. The line is then appended to a group in a keyed
group cache. After each line the cache is snapshot and ordered by recency. The
display shows the groups, the lines of the selected group, and the detail of
one line. It moves between these panes with the keyboard, enabling or
disabling bindings from the cursor position.

This project models that core and proves its properties:

| file | module | models |
|---|---|---|
| `wrappers.dfy` | `Wrappers` | Option and Result |
| `strings.dfy` | `Strings` | `strings.Index`, byte-wise `strings.Compare`/`sort.Strings` order, `Join`, `Repeat`, `%d` |
| `values.dfy` | `Values` | the dynamically typed values `json.Unmarshal` produces |
| `templating.dfy` | `Templating` | `BuildTemplateText`, `BuildTemplate`, `ApplyTemplate`, `truncateLeft`, `truncateRight` |
| `config.dfy` | `Configuration` | the specifications, `Validate`, `PrepareTemplates`, `Get` with its defaults |
| `classify.dfy` | `Classify` | `getGroupAndTitle`, `getStatus`, `getTimestamp`, `getLevel`, the message fallback, `getTags` |
| `command.dfy` | `Command` | `processLog`, the group cache `itemsCache` with its reserved groups, `logGroup`, `scanLogs` and its sort |
| `update.dfy` | `Navigation` | `Update`'s key, scan and disconnection branches, `handleKeys`, the focus changes, `setKeysForIndex`, `generateLogItems` |
| `view.dfy` | `View` | `getMessageColor`, `trimString`, `renderMetadata` |

Pure Go code is modelled as functions and lemmas. Code that changes state is
modelled imperatively:

- `itemsCache` is the map field of the class `GroupIndex`.
- `logGroup` is the class `LogGroup`. The display writes `selectedLine` through the same reference the cache holds, and ingestion appends to `lines` in place.
- The viewer's `Model` is a class. Each list widget is a value, `ListWidget` (items and cursor), and so is the key map, `KeyMap`, as in Go.
- Loops stay loops: `getTags`, the tag, group and status loops of `PrepareTemplates`, `generateLogItems`, and the key collection and entry loops of `renderMetadata`.

Every state-changing method is proved against a function on values:

- `ProcessLog` against `Ingest` and `ApplyIngestion`.
- `GetTags` against `FirstByName(Candidates(...))`.
- `RenderMetadata` against `Render`.
- `PrepareTemplates` against `ConfigCompiled` and `FirstFailure`.
- The viewer's navigation works on a value, `Screen`: both list widgets, the focus, the detail shown and the bindings.
  - `HandleKeys` and `KeyPress` are proved against `KeyStep`.
  - `MoveCursor` is proved against `CursorStep`.
  - `ReceiveScan` and the scan branch of `Receive` are proved against `ScanStep`.
  - The focus changes are proved against `ToGroups`, `ToLogs` and `ToLogItem`.
  - The refreshes are proved against `Mirror` and `KeysRefreshed`.
  - A move in the line list also stores its cursor in the selected group. The methods state that write, and that no other group changes.

The properties are proved about those functions.

The code outside the model is passed in as parameters:

- `Templating.Engine` stands for Go's `text/template` parsing and execution.
- `Command.Decoders` stands for `json.Unmarshal` and `time.Parse` with RFC 3339.
- `View.Printer` stands for `%f`, `%v` and the two lipgloss styles.
- The current instant is the parameter `now`.
- The configuration file's unmarshalling is the parameter `unmarshal` of `Get`.
- Time is an opaque integer, of which only the order matters.
- A Go string is a `seq<char>`, one `char` per byte.

## Model

| member | source | states |
|---|---|---|
| Strings.IndexOf | internal/tui/command.go:87 | the result is -1 exactly when `sub` never occurs, otherwise the first offset where it occurs |
| Strings.LessTransitive | internal/tui/command.go:45-53 | the byte order of `strings.Compare` is transitive |
| Strings.LessTotal | internal/tui/command.go:45-53 | two different strings are ordered one way or the other |
| Strings.LessAsymmetric | internal/tui/command.go:45-53 | the byte order is asymmetric |
| Strings.SortStrings | internal/tui/view.go:148 | `sort.Strings` on distinct keys: strictly ascending, same length, same members |
| Strings.SortedUnique | internal/tui/view.go:148 | two strictly ascending lists with the same members are equal, so the sorted key order is unique |
| Templating.BuildTemplateText | internal/templating/template.go:10-18 | compiles the text verbatim exactly when it parses; a parse error becomes the fatal `Cannot build template for "…": …` failure, never a template |
| Templating.BuildTemplate | internal/templating/template.go:20-26 | a source holding `{{` is compiled as it is; any other source `s` is compiled as `{{ .s }}` |
| Templating.TemplateSourceIdempotent | internal/templating/template.go:20-26 | the wrapped text always holds `{{`, so wrapping happens at most once |
| Templating.Normalise | internal/templating/template.go:32-36 | an output containing `<no value>` becomes "", any other is unchanged, and the result never contains the placeholder |
| Templating.ApplyTemplate | internal/templating/template.go:28-39 | the execution error is passed through unchanged; the output is the executed output unless it contains `<no value>`, in which case it is "" |
| Templating.TruncateRight | internal/templating/funcs.go:51-57 | an input of at most `limit` bytes is unchanged; a longer one becomes its first `limit` bytes then `...`, of length `limit + 3` |
| Templating.TruncateLeft | internal/templating/funcs.go:43-49 | an input of at most `limit` bytes is unchanged; a longer one becomes `...` then its last `limit` bytes, of length `limit + 3` |
| Configuration.ValidateTag | internal/config/config.go:168-174 | a tag is valid exactly when its key is non-empty |
| Configuration.ValidateTagsFrom | internal/config/config.go:151-155 | reports the first tag with an empty key, by 0-based index, and passes exactly when there is none |
| Configuration.ValidateGroup | internal/config/config.go:138-158 | titleField, valueField and name are checked in that order, then the tags; passes exactly when the group is complete |
| Configuration.ValidateStatus | internal/config/config.go:160-166 | a status is valid exactly when its display is non-empty |
| Configuration.ValidateGroupsFrom | internal/config/config.go:123-127 | reports the first failing group with its 1-based entry number and its own error; passes exactly when all groups are complete |
| Configuration.ValidateStatusesFrom | internal/config/config.go:129-133 | reports the first empty display with its 1-based entry number; passes exactly when there is none |
| Configuration.Validate | internal/config/config.go:110-136 | the three field checks in order, then groups, then statuses; passes exactly when every check passes (global tags are not checked) |
| Configuration.DefaultsAreComplete | internal/config/config.go:87-95 | the defaults (`level`/`msg`/`time`, the `Request` and `Category` groups) pass validation |
| Configuration.PrepareTag | internal/config/config.go:79-84 | the name is compiled raw; the value is compiled field-wrapped only when its source is non-empty; the first parse failure is reported |
| Configuration.PrepareTags | internal/config/config.go:58-60 | every tag is compiled, in order; fails exactly with the first unparsable text |
| Configuration.PrepareGroup | internal/config/config.go:62-72 | value, title, then tags are compiled; a nil tag list becomes an empty one |
| Configuration.PrepareGroups | internal/config/config.go:62-72 | every group is compiled, in order; fails exactly with the first unparsable text |
| Configuration.PrepareStatuses | internal/config/config.go:74-76 | every status display is compiled field-wrapped, in order |
| Configuration.PrepareTemplates | internal/config/config.go:49-77 | fails exactly with the first unparsable text in build order; otherwise every template is compiled from its own source, nil tag lists become empty, and the result is ready for classification |
| Configuration.CompiledIsPrepared | internal/config/config.go:49-77 | a compiled configuration has every template the classifier executes |
| Configuration.Get | internal/config/config.go:86-108 | defaults, then unmarshal, then validate, then prepare: an unmarshal error gives `Error parsing config…`, a validation error `Config error: …`, an unparsable template the `Cannot build template for "…"` failure; success exactly when all three stages pass, and then the configuration is complete and compiled |
| Classify.FindGroup | internal/tui/command.go:164-171 | the first group rule from `from` on whose value and title both succeed non-empty, with those outputs; None exactly when no rule does |
| Classify.GetGroupAndTitle | internal/tui/command.go:163-174 | the earliest matching rule wins, with its rendered value and title; None exactly when no rule matches |
| Classify.FirstMatchWins | internal/tui/command.go:164-171 | when two rules match, the chosen rule is not later than the earlier one |
| Classify.FindStatus | internal/tui/command.go:177-183 | the first status rule that shows, with no earlier one showing |
| Classify.GetStatus | internal/tui/command.go:176-186 | "" exactly when no status rule shows; otherwise the output of the first that does |
| Classify.GetTimestamp | internal/tui/command.go:188-199 | the parsed instant when the rule succeeds non-empty and parses, `now` otherwise |
| Classify.GetLevel | internal/tui/command.go:201-208 | "unknown" when the level rule errors; otherwise its normalised output |
| Classify.GetMessage | internal/tui/command.go:137-140 | the message rule's output, or `Field <messageField> not found in data: <err>` when it errors |
| Classify.GetTags | internal/tui/command.go:210-237 | the loop's result equals the specification `FirstByName(Candidates(...))` |
| Classify.TryTag | internal/tui/command.go:214-233 | one iteration adds a tag exactly when the spec's candidate exists and its name is not yet taken |
| Classify.TagKept | internal/tui/command.go:224-233 | an iteration that adds a tag advances the specification by that tag and reserves its name |
| Classify.TagSkipped | internal/tui/command.go:215-222 | an iteration that adds nothing leaves the rest of the specification unchanged |
| Classify.FirstByNameSpec | internal/tui/command.go:212-233 | kept tags come from the candidates, avoid taken names, have distinct names, and include every first occurrence of a name |
| Classify.TagNamesDistinct | internal/tui/command.go:220-222 | no two tags of a line share a name |
| Classify.CandidatesAppend | internal/tui/command.go:155 | the candidates of the global specs followed by the group's are those of each list, in that order |
| Classify.SkippedSpecReservesNothing | internal/tui/command.go:215-218 | a skipped spec contributes nothing: the result is as if it were absent |
| Classify.GlobalTagsWin | internal/tui/command.go:155 | a kept tag whose name some global spec produces comes from a global spec |
| Classify.EarlierNameWins | internal/tui/command.go:220-222 | a kept tag whose name occurs in a prefix comes from that prefix |
| Command.Decode | internal/tui/command.go:87-111 | a line is plain text exactly when it has no `{`; otherwise the JSON from its first `{` on is decoded |
| Command.FirstBraceIndex | internal/tui/command.go:87-89 | `strings.Index(line, "{")` is -1 exactly when there is no `{`, otherwise the first `{` |
| Command.TagSpecsFor | internal/tui/command.go:152-156 | the global tag specs, followed by the matched group's when there is one |
| Command.Ingest | internal/tui/command.go:99-111 | a line is skipped exactly when its decode error is reported as end of input |
| Command.IngestStructured | internal/tui/command.go:113-158 | a record always creates or updates a group |
| Command.PlainTextLine | internal/tui/command.go:87-97 | a line without `{` is appended verbatim, without data, to the reserved `not-json` group |
| Command.MalformedLine | internal/tui/command.go:99-111 | a decode error appends `Error loading '<line>': <err>` with the partial data to the reserved `errors` group, or nothing for an end-of-input error |
| Command.StructuredLine | internal/tui/command.go:113-158 | a record goes to the first matching group, or to `nogroup`/`No Group`/`Ungrouped`, with its level, timestamp, message, data and tags |
| Command.ApplyIngestion | internal/tui/command.go:127-158 | exactly one group receives the line; no other group changes; an existing group keeps its title, description and value; a record's group takes the line's timestamp |
| Command.IngestApplicable | internal/tui/command.go:61-72 | with the reserved groups present, every line targets an existing group or creates one |
| Command.HistoryOnlyGrows | internal/tui/command.go:76-161 | over any sequence of lines, groups are never removed or renamed and their lines only grow |
| Command.LogGroup.constructor | internal/tui/command.go:129-133 | a new group has its title, description and value, and no lines |
| Command.BeforeAsymmetric | internal/tui/command.go:45-53 | the snapshot order is asymmetric |
| Command.BeforeTransitive | internal/tui/command.go:45-53 | the snapshot order is transitive |
| Command.Insert | internal/tui/command.go:45-53 | inserting into an ordered snapshot keeps it ordered and adds exactly that group |
| Command.SortByRecency | internal/tui/command.go:45-53 | the result has the same groups, each once, newest first, and equal instants by title descending |
| Command.GroupIndex.constructor | internal/tui/command.go:61-72 | the cache starts with the reserved `errors` (Parse Failures) and `not-json` (Text) groups |
| Command.GroupIndex.ProcessLog | internal/tui/command.go:76-161 | a read error changes nothing and is reported; any line changes the cache exactly as `ApplyIngestion(Ingest(...))` and reports the record's status |
| Command.GroupIndex.IngestRecord | internal/tui/command.go:113-158 | a record's line is filed as `IngestStructured` says, and its status is returned |
| Command.GroupIndex.BuildEntry | internal/tui/command.go:113-156 | the group key, title, description and line built match `IngestStructured` |
| Command.GroupIndex.FileLine | internal/tui/command.go:127-158 | creates the group only for an unseen key, then stamps it and appends the line |
| Command.GroupIndex.AppendLine | internal/tui/command.go:90-94 | appends to one existing group; no other group changes |
| Command.GroupIndex.StampAndAppend | internal/tui/command.go:142-158 | stamps one existing group and appends; no other group changes |
| Command.GroupIndex.Snapshot | internal/tui/command.go:39-53 | every group of the cache, each once, ordered by recency |
| Command.GroupIndex.ScanLogs | internal/tui/command.go:30-59 | reports disconnection exactly on a read error, which leaves the cache unchanged; otherwise the line is ingested and the ordered snapshot and status are reported |
| Command.ProcessLogErrAsWritten | internal/tui/command.go:76-111 | the error the source returns: the read error, any decode error, or the message rule's error |
| Command.MalformedLineDisconnectsAsWritten | internal/tui/command.go:99-111 | as written, a malformed line is recorded and then disconnects the viewer |
| Command.FailingMessageDisconnectsAsWritten | internal/tui/command.go:137-140 | as written, a failing message rule is recorded and then disconnects the viewer |
| Command.MalformedLineExample | internal/tui/command.go:99-111 | the line `{oops` disconnects the viewer as written |
| Navigation.NextPane | internal/tui/update.go:173-194 | Select goes from groups to the line list, and from the line list to a line's detail when there is one; Escape goes back one step; other keys keep the pane |
| Navigation.EscapeUndoesSelect | internal/tui/update.go:173-194 | Escape undoes a Select that moved the focus |
| Navigation.EscapeLeadsToGroups | internal/tui/update.go:186-194 | at most two Escapes lead back to the groups |
| Navigation.CanMoveForward | internal/tui/update.go:206-223 | down and next-page are disabled only at the last index, and the first-index branch wins for a one-item list |
| Navigation.FirstWithTitle | internal/tui/update.go:77-82 | the first group with the title, None exactly when no group has it |
| Navigation.Reselected | internal/tui/update.go:72-83 | after a refresh the group titled like the old selection is selected; otherwise the cursor stays |
| Navigation.ListWidget.Selected | internal/tui/update.go:257-269 | the item under the cursor, None exactly when the cursor is outside the items |
| Navigation.KeyStepPane | internal/tui/update.go:114-204 | every key moves between the panes as `NextPane` says, a disabled binding acting as no key; a detail opened by Select shows the line under the cursor |
| Navigation.KeyStepConsistent | internal/tui/update.go:173-194 | every key keeps a detail only in the line list, Select enabled exactly when no detail is shown, and Escape enabled exactly away from the groups |
| Navigation.KeyStepIdle | internal/tui/update.go:114-204 | a disabled binding, Quit, an unbound key, Escape in the groups, Select on a detail, and any key before the first scan change nothing |
| Navigation.KeyStepMirrors | internal/tui/update.go:146-194 | a cursor move in the groups refills the line list from the new selection; Select, Escape and the idle keys keep it mirrored |
| Navigation.KeyStepKeysFollow | internal/tui/update.go:146-171 | after a cursor key the four cursor bindings follow the list that moved; a move in the line list keeps its lines |
| Navigation.SelectEscapeRoundTrip | internal/tui/update.go:173-194 | Escape after Select from the groups restores the whole navigation state |
| Navigation.DetailEscapeRoundTrip | internal/tui/update.go:173-194 | Escape after Select on a line restores the whole navigation state |
| Navigation.GoToLeavesStaleLines | internal/tui/update.go:126-144 | GoToStart in the groups leaves the previous group's lines shown and Up enabled at index 0 |
| Navigation.GoToStartNotRemembered | internal/tui/update.go:129-133 | GoToStart in the line list moves its cursor without storing it in the selected group |
| Navigation.ScanStepRefreshes | internal/tui/update.go:71-101 | after a scan the viewer is focused and consistent, the lines mirror the selection, the bindings follow the focused list (or are kept while a detail is shown), and the detail stays open |
| Navigation.ScanStepKeepsSelection | internal/tui/update.go:72-83 | when the snapshot holds a group titled like the old selection, the first such group is selected |
| Navigation.Model.constructor | internal/tui/model.go:30-52 | a new viewer is unfocused, with empty lists and every binding enabled |
| Navigation.Model.GenerateLogItems | internal/tui/update.go:257-269 | the loop computes `Mirror`: a copy of the selected group's lines and its stored cursor, or nothing and 0 |
| Navigation.Model.RefreshLines | internal/tui/update.go:85-87 | the line list becomes `Mirror` of the group list, and nothing else changes |
| Navigation.Model.SetKeysForIndex | internal/tui/update.go:206-223 | index 0 disables up and previous-page; the last index disables down and next-page; otherwise all four are enabled; nothing else changes |
| Navigation.Model.FocusOnGroups | internal/tui/update.go:225-233 | the new state is `ToGroups` of the old: the groups take the focus, Escape is disabled, and the cursor keys follow the group cursor |
| Navigation.Model.FocusOnLogs | internal/tui/update.go:235-245 | the new state is `ToLogs` of the old: the line list takes the focus, the detail closes, Escape and Select are enabled, and the cursor keys follow the line cursor |
| Navigation.Model.FocusOnLogItem | internal/tui/update.go:247-255 | the new state is `ToLogItem` of the old: the detail shows the line and Select is disabled |
| Navigation.Model.HandleKeys | internal/tui/update.go:114-204 | the new navigation state is `KeyStep` of the old; only a line-list move writes a group, storing its cursor; it stays consistent, follows `NextPane`, and keeps the lines mirrored except after GoTo or a line-list move with no group selected |
| Navigation.Model.MoveCursor | internal/tui/update.go:146-171 | the new navigation state is `CursorStep` of the old; the line cursor is stored in the selected group, and no group changes otherwise |
| Navigation.Model.ReceiveScan | internal/tui/update.go:71-101 | the new navigation state is `ScanStep` of the old; the status line takes the scan's status, or "Logs receiving" while empty |
| Navigation.Model.RefreshKeys | internal/tui/update.go:89-95 | the new state is `KeysRefreshed` of the old: the focused list sets the cursor keys; an unfocused viewer focuses the groups |
| Navigation.Model.Reselect | internal/tui/update.go:72-83 | the group list takes the snapshot and the cursor `Reselected` gives; nothing else changes |
| Navigation.Model.Receive | internal/tui/update.go:67-109 | a disconnection sets the flag and status, leaves the navigation unchanged and stops scanning for good; a scan applies `ScanStep` and the status rule |
| Navigation.Model.KeyPress | internal/tui/update.go:64-65 | a key press applies `KeyStep` as `HandleKeys` does, quits exactly on Quit and schedules a scan unless disconnected |
| View.GetMessageColor | internal/tui/view.go:71-83 | a level over four bytes with a known prefix takes that colour, then an exact match, then the default colour |
| View.ColourFromFirstFour | internal/tui/view.go:63-83 | a level under four bytes gets the default colour; any other gets its four-byte prefix's colour |
| View.CommonLevels | internal/tui/view.go:63-69 | `error`, `fatal`, `warning` and `info` get their colours; `debug` and `ERROR` get the default colour |
| View.TrimString | internal/tui/view.go:105-110 | a prefix of `s` of length `min(len(s), n)` |
| View.TrimIdempotent | internal/tui/view.go:105-110 | trimming twice is trimming once |
| View.Each | internal/tui/view.go:126-140 | each element formatted, in order |
| View.SortedListing | internal/tui/view.go:143-148 | any listing of a map's keys without repeats sorts to the same list |
| View.KeyOrderIrrelevant | internal/tui/view.go:142-167 | a map's rendering does not depend on the order its keys are listed in |
| View.EntriesEndWithNewline | internal/tui/view.go:160-165 | every non-empty map rendering ends with a newline |
| View.EntriesAppend | internal/tui/view.go:160-165 | the entries of a joined listing are the entries of each part, in order |
| View.EntryIndent | internal/tui/view.go:152-162 | in any listing, each key's entry stands between those of the keys before and after it and starts with eight spaces per nesting level |
| View.NestedMapStartsOnNewLine | internal/tui/view.go:155-158 | a map starts with a newline exactly when it is nested |
| View.FormatEach | internal/tui/view.go:126-140 | the formatting loops compute `Each` |
| View.CollectKeys | internal/tui/view.go:143-146 | every key of the map, each once |
| View.RenderMetadata | internal/tui/view.go:112-180 | computes `Render`: strings as-is, lists joined with `, `, maps by sorted keys, other types by their type name |
| View.RenderMap | internal/tui/view.go:142-167 | the map branch computes `Render` of the map |
| View.RenderEntries | internal/tui/view.go:160-165 | the entry loop computes `Entries` |

## Left out

- Reading standard input (`bufio.Reader`) is replaced by a `ReadResult` per call. A final line without a newline comes back as a read error, as in Go, and is lost.
- The `tea.Cmd` scheduling and `scanMutex` are concurrency. One scan is one sequential call, and `Receive`/`KeyPress` return whether another scan is scheduled.
- Go's `text/template` engine is foreign code: parsing and execution are the two functions of `Templating.Engine`. The `missingkey=invalid` option is their business, and so are the `templateFuncs` other than the two truncations.
- `formatSeconds`, `div`, `mul`, `add`, `sub` and `titleCase` are floating point or library code.
- `renderMetadata`'s `%f` and `%v` are the functions of `View.Printer`, and so are the two lipgloss styles. `detailContent`'s word wrapping is not modelled.
- `time.Now()` is the parameter `now`, and `time.Parse(time.RFC3339, …)` is `Decoders.time`. Time zones and sub-second precision are not modelled.
- `errors.Is(err, io.EOF)` on the decode error is a flag `isEOF` that the decoder reports.
- Window-size, mouse and other messages of `Update` are not modelled. Neither are the list and viewport widgets' paging, scrolling and clamping, the detail viewport, `View`, widget titles and delegates, and `SetStatus`'s help width.
- `SetItems` and `Select` keep the list cursor as given. The widget's clamping is not modelled, so a cursor may point outside the items. `ListWidget.Selected` then returns None, as `SelectedItem` returns nil.
- `sort.Slice` is not stable. `SortByRecency` is an insertion sort, and its contract states only what every correct sort guarantees. Groups that compare equal (same instant, same title) may come out in either order.
- `internal/tui/log_line.go` (`String`, `Render`) and `internal/tui/keys.go` (the binding table) are rendering and plumbing. A key press is a `Key` value naming its binding.
- `cmd/root.go` and `internal/tui/item.go` are not part of this model.
- Navigation.Model.HandleKeys: the list widget's own cursor arithmetic for up, down and paging is the parameter `moved`, the position the focused widget moves to.
- GoToStart and GoToEnd are kept as the source writes them, so no invariant tying the line list to the selected group is promised after them. In the groups they move the cursor without refilling the line list or refreshing the bindings (`GoToLeavesStaleLines`). In the line list they do not store the cursor in the group, so the next scan moves it back (`GoToStartNotRemembered`). Every other key keeps the line list mirrored (`KeyStepMirrors`).
- Navigation.Model.MoveCursor: the cursor arithmetic is the parameter `moved`, as in `HandleKeys`, and scrolling the detail viewport does nothing.
- Templating.TruncateRight: requires a non-negative limit, because Go's slice expression panics on a negative one.
- Templating.TruncateLeft: requires a non-negative limit, because Go's slice expression panics on a negative one.
- View.TrimString: requires a non-negative length, because Go's slice expression panics on a negative one.
- Command.GroupIndex.ProcessLog: returns an error only for a failed read. This is the evidently intended behaviour; the error the source returns is `ProcessLogErrAsWritten` (see Findings).

## Findings

| source | as written | input that shows it | evidently intended | confidence | as-written member | corrected member |
|---|---|---|---|---|---|---|
| internal/tui/command.go:99-111 | `processLog` names its results, so the `err` that `json.Unmarshal` assigns is returned by the bare `return`; `scanLogs` then answers `disconnectedMsg` and no further scan is scheduled | the input line `{oops` followed by a newline | the line is recorded under Parse Failures and ingestion goes on; only a failed read disconnects | high, not executed | Command.MalformedLineDisconnectsAsWritten | Command.GroupIndex.ScanLogs |
| internal/tui/command.go:137-160 | `message, err :=` reuses the named result `err`, so a message rule that fails is returned by the final bare `return` and disconnects the viewer too | messageField `msg.text` and the line `{"msg":"hi"}`, whose message rule cannot take a field of a string | the diagnostic message is recorded and ingestion goes on | medium, not executed | Command.FailingMessageDisconnectsAsWritten | Command.GroupIndex.ScanLogs |
