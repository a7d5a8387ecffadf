# A verified model of the MCP adapter's hard parts

This project models the parts of the adapter that carry algorithms or protocols, and proves what each of them
promises over every input or every run:

- **Diffs** (`LineDiff`, `ContextHunks`, `Patching`): the line diff that previews config writes. The table is the
  longest-common-subsequence recurrence, the script is minimal, the hunks are disjoint and cover every change, and
  applied where their headers say they turn the old lines into the new ones and back.
- **Config layers** (`ServerMerge`, `CredentialReplay`, `DisabledOverride`, `StackLoad`): the per-field merge of server
  entries and exactly which values survive it over any number of layers, credentials that stay bound to the url they
  were set for, the replay that names the file of each dropped credential, the override that disables or enables one
  server, and what a load gives for one name.
- **Host-managed calls** (`HostManaged`, `HostManagedEvents`): approval, dispatch, linked reads, re-listing, retirement
  and close as one state machine. Every run writes a log of what an outside observer sees; the promises are about that
  log, and about the events of the run that each of its entries follows from.
- **Shared token command** (`BearerResolver`) and **pausable deadlines** (`PromptDeadline`): two small concurrent
  machines, whose answers, counts and clocks are tied to the events of the run alone.
- **Executor client** (`ExecutorCatalog`, `ExecutorCalls`): the paged catalog fetch against any server, and the pause,
  account and retry flow against any server and any user.
- **Deferred tool names** (`DeferredNames`): the allocation of names, and exactly when list order decides none of them.

Code that changes objects step by step is a class or a method with loops here too, and each of its methods is proved
equal to a function on values; runs and interleavings are then sequences of those functions. Asynchronous code is cut
at its awaits: a step is what runs between two of them, and any enabled step may come next.

## Promises that do not always hold

Each has its input here, and the exact condition under which the code does meet it.

- Disabling a server through the project override takes away, instead of disabling it, a user-global server that gets
  its token from a provider: the override names the server in a project file, and a load strips provider auth from
  every server that project config names (`config.ts:708-718`). `DisabledOverride.DisabledProviderServerIsGone` is such
  a config. `DisabledOverride.OverrideReaches` and `DisabledOverride.OverrideTouchesNothingElse` give the exact
  conditions, from what the stack holds before the write.
- A write to a project override file that a load refuses, because its settings are invalid, is accepted and reported as
  a change, and changes nothing that a load gives (`config.ts:1321-1331`). `DisabledOverride.RefusedFileIsWritten` is
  such a file, and `DisabledOverride.UnreadWriteChangesNothing` covers every write that no load reads.
- Enabling a server through the project override does not reach a server that only a discovered host config disables,
  because the writer looks only at config sources and imports. `DisabledOverride.HostDisabledStays` is such a config,
  and `DisabledOverride.OverrideReaches` covers it too.
- A host-managed call can be reported as not run although its request was sent: when its host throws a not-sent
  `HostManagedMcpError` of another call before this call's result is validated, the report goes by that error
  (`host-managed.ts:493-495`). `HostCallRuns.BorrowedReportIsWrong` is such a run, and
  `HostCallRuns.NotRunReportsExactly` says for every ending when a call that is out is reported as not run.
- The comment at `deferred-tool-surface.ts:84-85` says that list order never decides which tool a name calls. For every
  hash function there are three tools of one server for which it does: two that share a plain name, and a third whose
  plain name is the hashed name of the first (`DeferredNames.OrderCanDecide`). It also does when two tools have one key,
  as two Executor paths with one canonical path have (`DeferredNames.RepeatedKeyOrderDecides`).
  `DeferredNames.OrderDecidesNoNameExactly` gives the exact condition for any list.

## Model

| member | source | states |
|---|---|---|
| Lines.JoinSplit | config.ts:1793-1797 | splitting a text at its newlines loses nothing |
| Lines.LinesEndAtNewlines | config.ts:1793-1797 | no line holds a newline, and a text has one line more than newlines |
| Lines.SplitIsOnlyCut | config.ts:1793-1797 | the lines of a text are the only newline-free strings that join to it |
| Lines.DiffLinesExactly | config.ts:1791-1797 | the lines compared are the only newline-free strings that join to the text, or under a context to the text without one final newline, the empty text having none there |
| Lines.SameDiffLines | config.ts:1791-1795 | two texts with the same lines to compare are equal, or one is the other with one final newline, and only with a context |
| Lines.FinalNewlineSameLines | config.ts:1791-1795 | conversely, a final newline added to an unterminated text changes no line |
| EditScripts.FillTable | config.ts:1800-1811 | the backward loops leave the longest-common-subsequence recurrence in every cell |
| EditScripts.WalkStep | config.ts:1817-1831 | one step of the walk emits the script's next row and moves on, so the walk ends |
| EditScripts.BuildEditScript | config.ts:1800-1832 | table and walk together emit exactly the edit script |
| EditScripts.ScriptRewrites | config.ts:1813-1832 | dropping the added rows gives the old lines, dropping the removed rows the new lines, and the kept rows are as many as the recurrence counts |
| EditScripts.LcsBounds | config.ts:1807-1809 | no common subsequence is longer than the recurrence counts |
| EditScripts.KeptIsCommon | config.ts:1813-1832 | the kept rows of any script are a common subsequence, and its kept and changed rows add up to both texts |
| EditScripts.ScriptIsMinimal | config.ts:1800-1832 | the kept lines are a longest common subsequence, and no script between the texts has fewer additions plus removals |
| Hunks.TakeRun | config.ts:1848-1849 | a run of changed rows is collected up to the next kept row |
| Hunks.OrderRun | config.ts:1850-1852 | a run's removals and then its additions are appended, each in their order |
| Hunks.OrderRows | config.ts:1840-1853 | the reordering loop computes the removals-first rows |
| Hunks.ReorderingKeepsTexts | config.ts:1840-1853 | the reordering changes neither of the two texts |
| Hunks.RemovalsComeFirst | config.ts:1840-1853 | after it no removal directly follows an addition |
| Hunks.SpansOrdered | config.ts:1860-1863 | hunks are non-empty, in order, disjoint and at least one row apart |
| Hunks.SpansCover | config.ts:1860-1863 | a row is in a hunk exactly when a changed row lies within the context, so every changed row is in one |
| Hunks.FindChanged | config.ts:1854 | the indices of the changed rows, ascending and complete |
| Hunks.GroupEnd | config.ts:1862 | the inner loop stops at the first gap wider than twice the context |
| Hunks.GroupIsRun | config.ts:1861-1863 | the clamped window around such a group is a maximal run of rows near a change |
| Hunks.CountLines | config.ts:1864-1867 | the running line counters stand at the hunk's first row in both texts |
| Hunks.NextHunk | config.ts:1860-1872 | one turn of the loop cuts the next hunk, with its header, and leaves the counters right |
| Hunks.ContextHunks | config.ts:1841-1875 | the whole loop gives one hunk for each maximal run of rows near a change, headers counted from the rows before it |
| Patching.HeaderPosition | config.ts:1869-1871 | a header's start and count name exactly the hunk's lines of the old text, also when the count is zero |
| Patching.PatchGivesAfter | config.ts:1854-1874 | every hunk applied at the position its header states turns the old lines into exactly the new ones |
| Patching.PatchGivesBefore | config.ts:1854-1874 | read with `-` and `+` exchanged, the same hunks turn the new lines back into exactly the old ones |
| UnifiedDiffs.BuildUnifiedDiff | config.ts:1788-1838 | no changes exactly for equal texts, the full script without a context, the hunks with one, and the newline note exactly when the lines agree |
| UnifiedDiffs.DiffPatches | config.ts:1788-1874 | the hunks of any two texts and any context patch the old lines into the new ones and back |
| UnifiedDiffs.NoHunksSameLines | config.ts:1834-1836 | two different texts give no hunk exactly when their lines agree, and then they differ by one final newline |
| UnifiedDiffs.ListingShowsChange | config.ts:1834-1836 | without a context two different texts always show a changed row |
| ServerEntries.ClearInherited | config.ts:1101-1138 | the deletions leave exactly what the layer inherits |
| ServerEntries.ClearsOtherTransports | config.ts:1102-1126 | a layer that chooses a command, url or socket clears exactly the fields that configure the other two |
| ServerEntries.MergeDefinition | config.ts:1089-1140 | one definition merged over the entry below it |
| ServerEntries.MergeServerMaps | config.ts:1084-1142 | every entry of the next map merged into the entry of its name, all others as they were |
| UrlBinding.LastSupplierWins | config.ts:1084-1142 | over any number of layers a field has its last supplied value, and exactly when no later layer removes it |
| UrlBinding.SurvivesExactly | config.ts:1084-1142 | over any number of layers a field is left exactly when no layer after its last supplier chose another transport, set another url under a credential, or set a new env over a literal one; and it then has that supplier's value |
| UrlBinding.SwitchDropsOthers | config.ts:1102-1126 | a value from before a layer that chose another transport than the one it configures is gone, whatever came between |
| UrlBinding.MarksFollowValues | agent-plugin-provenance.ts:27-36 | a value counts as a plugin's literal one exactly when it is left and its last supplier marked it |
| UrlBinding.MergesByName | config.ts:1084-1142 | merging whole maps merges each server's own definitions, whatever the other servers are |
| UrlBinding.StepKeepsUrl | config.ts:1127-1134 | an inherited credential comes with an unchanged url |
| UrlBinding.CredentialsStayBound | config.ts:1065-1141 | a credential left in a merged entry with a url was last supplied at a layer after which the url never changed |
| UrlBinding.TransportsStaySingle | config.ts:1102-1126 | layers that each set at most one transport merge to an entry with at most one |
| CredentialReplay.GroupByFile | config.ts:334-342 | the notices of one server tell exactly its dropped fields with a recorded file, each with that file |
| CredentialReplay.RecordName | config.ts:333-344 | the record forgets the dropped fields and then takes the later map's files |
| CredentialReplay.Merge | config.ts:323-347 | one replayed merge gives the merged servers, their record and all notices |
| CredentialReplay.MergeTracks | config.ts:323-347 | merging keeps the invariant that every defined credential field is recorded with the file that really supplied it last |
| CredentialReplay.ToldIsDropped | config.ts:335-342 | the fields reported are exactly the fields the merge drops for a different url, each with its real file |
| CredentialReplay.EveryDropIsReal | config.ts:335-380 | a field is reported over a whole load exactly when one of its merges dropped a credential: there before it, from the file named, absent after it, for a different url, set by the file named |
| CredentialReplay.OriginIsLastFile | config.ts:366-380 | a property comes from the last file that has it: the file itself for its own, else the one that its import names |
| CredentialReplay.UrlsAreNamed | config.ts:368-380 | the file named for a new url is the one that url really comes from |
| CredentialReplay.ReplaySource | config.ts:358-380 | one config file: its own entries over its imports, then over the files before it, keeping the tracking |
| CredentialReplay.GetDroppedCredentialNotices | config.ts:321-382 | over any list of files the record names the real origin of every credential, and the notices tell exactly what was dropped |
| DisabledOverride.MergeLowerSources | config.ts:2031-2036 | the writer's loop merges every source but the override file |
| DisabledOverride.ImportServers | config.ts:1153-1169 | the loop over the imports keeps the entry a name got first |
| DisabledOverride.FirstImportWins | config.ts:1161-1167 | a name's imported entry is whole and from the first import that has it |
| DisabledOverride.WriteProjectServerDisabledOverride | config.ts:2005-2055 | each refusal in its order, from a file that cannot be read on, and otherwise the file written and whether it changed |
| DisabledOverride.LoadMcpConfigWithSources | config.ts:622-718 | the loop over all sources and the final strip give the reload, and the names left to project config |
| DisabledOverride.StripProjectProviderAuth | config.ts:708-718 | exactly the servers that project config names and whose merged auth is an object are taken out |
| DisabledOverride.DisabledOfMerged | config.ts:633-671 | what the merged files give as a server's disabled state: the last source that sets it |
| DisabledOverride.DisabledOfLowerConfig | config.ts:2031-2043 | what the writer takes as the lower sources' disabled state |
| DisabledOverride.WrittenEntry | config.ts:2024-2054 | the write changes only that server's `disabled`, to true, to false, or to nothing |
| DisabledOverride.OverrideReaches | config.ts:2026-2054 | a reload after the write gives the requested state exactly when a disabled server is not left out for its provider auth, no later source says otherwise, a load reads the file and the entry, and no host config alone disables the server |
| DisabledOverride.LeftOutAlike | config.ts:651-718 | which servers a reload leaves out for their provider auth after the write, from the stack before it |
| DisabledOverride.UsualOverrideWorks | config.ts:2000-2055 | without discovered hosts and with a project override file last, every write that a load reads gives the requested state, except exactly the disable of a server with provider auth; one that no load reads gives it exactly when it was there before |
| DisabledOverride.UnreadWriteChangesNothing | config.ts:1321-1340 | a write to a file that a load refuses, or to an entry that it ignores, changes nothing that a load gives |
| DisabledOverride.RefusedFileIsWritten | config.ts:1321-1331 | an override file whose settings a load refuses is written, the change is reported, and the server stays enabled |
| DisabledOverride.DisabledProviderServerIsGone | config.ts:708-718 | disabling a user-global server with provider auth takes it away altogether |
| DisabledOverride.HostDisabledStays | config.ts:2031-2043 | a server that only a discovered host config disables stays disabled after it is enabled |
| DisabledOverride.MergedTouchesNothingElse | config.ts:2026-2054 | the write leaves every other property of every server's merged entry as it was, before the strip |
| DisabledOverride.OverrideTouchesNothingElse | config.ts:2026-2054 | a reload leaves every other property of every server as it was exactly when the write does not change whether the server is left out for its provider auth |
| DisabledOverride.SecondWriteChangesNothing | config.ts:2046-2048 | writing the same override again changes nothing |
| DisabledOverride.OnlyDisabledIsWritten | config.ts:2024-2054 | in the file itself only that server's `disabled` changes: true to disable, false to enable over a disabled lower source, and else none |
| DisabledOverride.ChangedExactly | config.ts:2046-2054 | a change is reported exactly when the file is another, which is when `disabled` was not yet as it has to be |
| StackLoad.MergedByName | config.ts:622-671 | a server's merged entry is the merge of what each source gives for its name: the first import of a source, its own entry unless left out, and from the override file only an entry that a load accepts |
| StackLoad.ProjectNamesExactly | config.ts:633-671 | a name is project config's exactly when a source of project scope, or an import from one, has it |
| StackLoad.ReloadByName | config.ts:622-718 | a load gives that merged entry, unless its auth is an object and project config names the server |
| CatalogRefresh.ListedAsLast | host-managed.ts:255-258 | a name listed more than once counts as its last tool |
| CatalogRefresh.RetiresExactly | host-managed.ts:255-261 | a re-list retires exactly the tools whose last listing by name does not have the frozen fingerprint |
| HostManaged.HostConnection.RequestCatalogRefresh | host-managed.ts:247-251 | a notification begins a re-list only when tools are selected and none is under way |
| HostManaged.HostConnection.CurrentTools | host-managed.ts:256-256 | the map of listed tools holds each name's last fingerprint |
| HostManaged.HostConnection.ListingArrives | host-managed.ts:252-264 | an answered or failed re-list retires exactly the selected tools it does not show unchanged, and another begins exactly if one was requested |
| HostManaged.HostConnection.SelectTools | host-managed.ts:342-344 | selecting the tools begins the re-list an earlier notification asked for |
| HostManaged.HostCall.ApprovalArrives | host-managed.ts:387-402 | a call goes on only when allowed, with its connection and the adapter open and its signal not aborted |
| HostManaged.HostCall.RefreshCleared | host-managed.ts:268-271 | waiting for a refresh goes on while one is under way, and then takes the verdict |
| HostManaged.HostCall.Continue | host-managed.ts:402-402 | a retired tool's call ends, any other reaches the host |
| HostManaged.HostCall.DispatchOnce | host-managed.ts:476-480 | a second dispatch throws and changes nothing |
| HostManaged.HostCall.SendRequest | host-managed.ts:409-412 | the request goes out only while the call, its connection, its signal and the adapter stand and the verdict is not retired |
| HostManaged.HostCall.ResponseArrives | host-managed.ts:423-433 | a result is kept exactly when it is an error result or passes the output schema, and any other rejects the dispatch as an invalid result |
| HostManaged.HostCall.RequestFails | host-managed.ts:183-195 | a failed request rejects the dispatch with the delivery of its cause |
| HostManaged.HostCall.LinkedResource | host-managed.ts:481-485 | a linked read throws exactly without the link, and asks for approval exactly while the call is available |
| HostManaged.HostCall.HostEnds | host-managed.ts:488-507 | the call is settled, and what its report says: the delivery of a `HostManagedMcpError` without a dispatched result, else whether anything was sent |
| HostManaged.HostRead.ApprovalArrives | host-managed.ts:435-446 | a read is prepared only if allowed while its call is still available |
| HostManaged.HostRead.DispatchOnce | host-managed.ts:446-465 | a read goes out at most once and only while its call is available |
| HostCallSteps.StepCall | host-managed.ts:380-386 | no step changes the arguments, tool or connection of a call |
| HostCallRuns.RunsKeepInv | host-managed.ts:230-570 | every interleaving of calls, answers, notifications, aborts and close keeps the invariant |
| HostCallRuns.HistoryGrows | host-managed.ts:158-159 | what was observed stays, and the retired set only grows |
| HostCallRuns.SendsAreSafe | host-managed.ts:387-434 | each call sends at most one tools/call, with arguments the broker allowed, and never after it settled, was aborted, or lost its connection or the adapter |
| HostCallRuns.NotRunReportsExactly | host-managed.ts:491-507 | however a call ends: while its request is out, it is reported as not run exactly when its host threw a not-sent error and no result had been validated; and what is not out when it ends never is |
| HostCallRuns.NotRunWasNotSent | host-managed.ts:491-507 | without such a borrowed error, a call reported as not run has no request out in the whole run |
| HostCallRuns.RefusedWasNotSent | host-managed.ts:409-411 | a call whose dispatch the adapter refused is never sent in the whole run |
| HostCallRuns.BorrowedReportIsWrong | host-managed.ts:491-495 | a run in which a call is sent, its host throws another call's not-sent error, and the call is reported as not run |
| HostCallRuns.OneRelistAtATime | host-managed.ts:244-251 | at most one re-list of a connection is in flight, and the next begins after the last was answered |
| HostCallRuns.NotificationsAreListed | host-managed.ts:247-266 | whenever the refresh clears or none is under way, every notification so far was followed by an answered re-list begun after it |
| HostCallRuns.RelistsBeginAfter | host-managed.ts:247-253 | a re-list counts for a notification exactly when it began after it |
| HostCallRuns.RetiredToolsAreNotSent | host-managed.ts:268-271 | a dispatch begun after its tool was retired sends nothing, and one begun after a notification sends nothing until a later re-list still shows the tool unchanged |
| HostCallRuns.ReadsAreSafe | host-managed.ts:435-485 | each resources/read names a link in its own call's validated result, was separately approved, is sent at most once, and never after the call settled or the adapter closed |
| HostCallRuns.LinksComeFromTheCall | host-managed.ts:424-433 | a validated result is one of a request that call had sent |
| HostCallEvents.SendsFollowApproval | host-managed.ts:380-421 | each tools/call follows an event in which the broker answered allow_once or allow_for_session for that very call, begun with the same connection, tool and arguments, while it was free to go on |
| HostCallEvents.HostFollowsApproval | host-managed.ts:387-402 | the host is asked about a call only after such an event |
| HostCallEvents.ReadsFollowApproval | host-managed.ts:435-485 | each resources/read follows such an answer for that very read, and its link is in a response to its call |
| HostCallEvents.ValidatedWasAnswered | host-managed.ts:424-433 | a result counts as validated only after a response with just its links, and one that validates or is an error if the tool has an output schema |
| HostCallEvents.EventsAreLogged | host-managed.ts:244-507 | notifications, answered re-lists, closings, aborts, ends, dispatches and failures are all logged, and a checked send goes out exactly when nothing stands against it |
| HostCallEvents.RetiredExactly | host-managed.ts:252-264 | a name is retired exactly when some answered re-list did not show a selected tool of that name unchanged |
| BearerResolver.BearerCommandResolver.Resolve | bearer-command-resolver.ts:135-174 | answers at once from a fresh token or a failure window, else joins or starts the command |
| BearerResolver.BearerCommandResolver.RunHandlers | bearer-command-resolver.ts:151-165 | a token is cached, and a failure opens a window unless the command was cancelled |
| BearerResolver.BearerCommandResolver.SettlePromise | bearer-command-resolver.ts:166-168 | a command clears the in-flight slot only while it is in it |
| BearerResolver.BearerCommandResolver.LeaveWait | bearer-command-resolver.ts:188-195 | the last waiter to leave the command in flight cancels it |
| BearerSteps.WaitersAreCounted | bearer-command-resolver.ts:176-195 | over every run the waiter count is the number of waits that have not left |
| BearerSteps.OnlyLastWaiterCancels | bearer-command-resolver.ts:188-195 | a command is cancelled exactly when its last waiter leaves before it completed, and stays so |
| BearerSteps.OnlyOwnerClears | bearer-command-resolver.ts:166-168 | a superseded command never clears a newer one |
| BearerSteps.CommandStarts | bearer-command-resolver.ts:135-172 | a wait begins exactly for a call that is not aborted and finds the last token and the last failure at least ttl old, and a command starts exactly when no live one is then in flight |
| BearerSteps.WaitsOnLiveCommand | bearer-command-resolver.ts:147-174 | such a wait is one more, on the live command |
| BearerSteps.InFlightIsLive | bearer-command-resolver.ts:166-195 | the command in flight is the one that has neither settled nor been cancelled, and there is no other |
| BearerSteps.PastHolds | bearer-command-resolver.ts:151-165 | from the events alone: the cache holds the last token that a command returned and expires ttl after that, the failure window is that of the last failure unless a token came after it, and each command's result is its own outcome or the last token |
| BearerSteps.AnswersAtOnce | bearer-command-resolver.ts:135-145 | a call is answered at once exactly when the last token or failure is less than ttl old, with that token, or for lack of any with that error |
| BearerSteps.WaitersGetTheOutcome | bearer-command-resolver.ts:151-187 | a wait ended by its command got what that command returned, but for an error the last token if there was one |
| BearerSteps.CancelledOpensNoWindow | bearer-command-resolver.ts:157-162 | a failure window opens only from a failed command that was not cancelled |
| BearerSteps.CacheStays | bearer-command-resolver.ts:152-156 | once a token is cached one always is |
| BearerSteps.CachedCallGetsToken | bearer-command-resolver.ts:135-145 | a call begun with a cached token is answered with a token, refused by its own signal, or waits |
| BearerSteps.CachedWaitGetsToken | bearer-command-resolver.ts:157-165 | and if it waits it leaves with a token or by its own signal |
| DeadlineSteps.NewDeadline | elicitation-handler.ts:95-99 | a deadline starts unarmed with its whole timeout, capped at what a timer can run |
| PromptPauses.PromptPause.PromptOpens | elicitation-handler.ts:64-65 | the first open prompt pauses every registered deadline |
| PromptPauses.PromptPause.PromptCloses | elicitation-handler.ts:66-70 | the last closed prompt resumes every registered deadline |
| PromptPauses.PromptPause.CallStarts | elicitation-handler.ts:95-116 | a call's deadline starts with its capped timeout, running only without a prompt |
| PromptPauses.PromptPause.ProgressArrives | elicitation-handler.ts:122-128 | progress restarts the timeout, and the timer only if it was running |
| DeadlineSteps.RunsKeepInv | elicitation-handler.ts:64-133 | every interleaving of prompts, calls, progress and time keeps the fields in step with the clock of each call |
| DeadlineSteps.ClocksHold | elicitation-handler.ts:64-133 | from the events alone: the open prompts, the calls under way, and for each its capped timeout and the time counted since it began or made progress while no prompt was open |
| DeadlineSteps.ArmedUnlessPrompted | elicitation-handler.ts:64-71 | the open count is the number of open prompts, and a registered timer is armed exactly when there is none |
| DeadlineSteps.ExpiresAtTimeout | elicitation-handler.ts:100-116 | a request expires only when its unprompted time since progress is exactly its timeout |
| DeadlineSteps.NoTimePastTimeout | elicitation-handler.ts:100-116 | a timer is due exactly when that time is used up, and no unprompted time passes beyond it |
| ExecutorCatalog.ParseSearchPage | executor-catalog.ts:68-96 | exactly which replies are a page; its next offset is the reply's own, when that is later, and a repeated offset ends the catalog only with no items |
| ExecutorCatalog.TakeItems | executor-catalog.ts:134-143 | the item loop keeps the first accepted items by path up to the cap and counts the ones skipped |
| ExecutorCatalog.TakeApps | executor-catalog.ts:144-144 | the first unavailable app of each name is kept |
| ExecutorCatalog.FetchExecutorCatalog | executor-catalog.ts:116-157 | against any server at most cap calls, each for the page the last answer named; a success is exactly the first cap accepted tools listed, and each failure has its reason |
| ExecutorCatalog.OffsetsGrow | executor-catalog.ts:76-84 | no page is asked for twice |
| ExecutorCatalog.ToolsAreDistinct | executor-catalog.ts:134-143 | against any server the tools are accepted, listed, distinct by path and at most the cap |
| ExecutorCatalog.SlicesAreWellFormed | executor-catalog.ts:123-156 | against a server that slices a fixed catalog into non-empty pages a fetch fails only for its signal or its page limit |
| ExecutorCatalog.SlicedFetch | executor-catalog.ts:109-157 | against such a server a success is exactly the first cap accepted tools of the whole catalog, and the total is the catalog less the tools skipped, so just the tools when the last page was reached |
| ExecutorResults.ParsePause | executor-pauses.ts:49-75 | a pause carries the string requestId of its result, and a malformed one throws |
| ExecutorResults.PauseExactly | executor-pauses.ts:49-75 | a result is read as a pause exactly when its status, id, form, message and schema are that pause's, and as none exactly when its status is neither kind |
| ExecutorResults.Redact | executor-pauses.ts:81-91 | no outcome keeps a string requestId, and one without it is unchanged |
| ExecutorResults.RetrySafeExactly | executor-accounts.ts:92-116 | a retry is offered exactly for a well-formed single call that lacked an account and whose recorded inner calls are at most one and all failed |
| ExecutorResults.OthersPassThrough | executor-accounts.ts:89-99 | all but a finished single-object call whose value somewhere has an account code passes through |
| ExecutorFlows.AnswerPauses | executor-pauses.ts:147-189 | the original, then a decision and a resume for each pause, at most sixteen, and how the call ends |
| ExecutorFlows.AnsweringCounts | executor-pauses.ts:156-188 | an answered call sends its original exactly once and one resume for every decision that was followed up |
| ExecutorFlows.AnsweredCallIsSafe | executor-pauses.ts:156-188 | at most sixteen resumes; the user is asked only about the pause of the last reply, each resume has its id, the action decided and the user's content, or none for an accepted approval; and no request id is in the result |
| ExecutorFlows.ConnectAccount | executor-accounts.ts:201-234 | an account counts as connected or pending exactly when the link was issued, accepted, continued and read back so, and nothing of it sends the original |
| ExecutorFlows.LinkedExactly | executor-accounts.ts:201-234 | connected means: Executor's program gave a link for the app, its url was accepted, Continue chosen, and the link's own connection read with that status |
| ExecutorFlows.CallToolAnsweringPauses | executor-pauses.ts:107-145 | other connections get their plain call, a resume is refused unsent, and an Executor call is answered, connected and retried as its results allow |
| ExecutorFlows.OriginalIsSentTwiceAtMost | executor-pauses.ts:132-144 | the original is sent once or twice, and twice only after a result that lacked only an account, and after the link of the app that the call's own path names was read back as completed |
| ExecutorFlows.RetriesWhenConnected | executor-pauses.ts:132-144 | and it is sent again whenever that is so, unless the call was aborted |
| DeferredNames.CountNames | deferred-tool-surface.ts:84-90 | the counting loop counts every plain name |
| DeferredNames.Resolve | deferred-tool-surface.ts:84-104 | the naming loop computes the assignment |
| DeferredNames.NamesAreOk | deferred-tool-surface.ts:91-104 | names are pairwise distinct, at most 64 characters, never reserved or owned by another tool's key, and a shared plain name is given to nobody |
| DeferredNames.EachGetsWanted | deferred-tool-surface.ts:84-104 | without a clash every tool gets just the name it would get alone |
| DeferredNames.WantedExactly | deferred-tool-surface.ts:37-104 | a tool alone gets its plain name exactly when that has at most 64 characters, is neither reserved nor another key's, and is no other candidate's; and else its hashed name |
| DeferredNames.NamesAreIdentifiers | deferred-tool-surface.ts:27-41 | every name given begins with `mcp__` and has at most 64 letters, digits and underscores, so scripts can call it as an identifier |
| DeferredNames.KeysHashApart | deferred-tool-surface.ts:37-41 | keys whose servers and tools have no NUL are hashed as the same string only if they are the same, resource included |
| DeferredNames.OrderDecidesNoNameExactly | deferred-tool-surface.ts:84-104 | for any list, also with repeated keys, its order decides no name exactly when no two different tools want one name that each could have |
| DeferredNames.HashesApartSuffice | deferred-tool-surface.ts:84-104 | when hashed names differ from each other and from all other plain names, any order gives every tool the same name |
| DeferredNames.OrderCanDecide | deferred-tool-surface.ts:84-85 | whatever the hash, there are three tools of one server for which list order decides |
| DeferredNames.RepeatedKeyOrderDecides | deferred-tool-surface.ts:72-104 | when two different tools have one key, list order decides which of them its name calls, unless that name is reserved or owned by another key |

## Assumptions

- Time is a non-decreasing integer clock. A timer fires at its due time before time moves on; a delay of zero is due at
  once. In the token resolver no time passes while promise handlers are due, and the refresh interval is positive, as
  `bearer-command-resolver.ts:10-13` makes it.
- A listing request is always answered later, never while it is being sent.
- Strings are sequences of UTF-16 code units. A namespace of a server and the hash of a string are arbitrary functions;
  the hash gives eight hexadecimal digits.
- No server is named like a property that every JavaScript object inherits (`constructor`, `__proto__`), and no two
  config sources are one file.
- What a server, a user, a broker or an abort signal does is arbitrary at every point of a run.

## Left out

- Hunks.ContextHunks: does not render a row or a header as text; a row is its kind and its line, a header its four numbers.
- DisabledOverride.OverrideReaches: stacks hold config files and discovered host configs, without npm packages, Agent Plugins and Claude plugins, which the writer does not merge either.
- PromptPauses.PromptPause.CallStarts: a deadline is a value in the object's map rather than an object with two closures; each method still updates it in place.
- HostManaged.HostCall.HostEnds: the wording of results is not modelled, only whether a result was kept and whether a report says that nothing ran.
- ExecutorFlows.AnswerPauses: messages are fixed texts without the tool and server names, and request timeouts are not modelled.
- ExecutorCatalog.FetchExecutorCatalog: the fetch time, and which part of a page is malformed, are not modelled.
- Creating transports, connecting, the first listing and the check for duplicate tool names in `host-managed.ts:273-367`: they would add only easy members.
- The five-second bound on closing in `host-managed.ts:525-540`: closing is a step, and each connection closes in a later one.
- Session recovery around Executor calls, and telling Executor connections apart by name and schema: both are inputs here.
- The selection of candidates for deferred names in `deferred-tool-surface.ts:54-82`: the list of candidates is an input.
- Merging of `settings`, `imports`, `claudePlugins` and `scriptTools` in `config.ts:1050-1063`: plain overrides, only easy members.
- Reading, parsing and writing files, JSON and regular expressions, spawning commands, dialogs, HTML and the MCP SDK.
