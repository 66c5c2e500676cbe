# Jean front-end coordination core, modelled in Dafny

This project models the client-side coordination layer of the Jean desktop app. It covers:

- how the MCP servers of a chat session are resolved and auto-enabled, and the configuration sent with a message;
- how a plan is approved and the approval message queued;
- the chat window's event handlers (cancel, recap, git diff, plan, debug toggle and a few commands);
- the canvas list's close handler and the row indices it renders;
- the handlers of the "load context" dialog (issues, PRs, saved contexts, generated contexts and the slug they are attached under);
- the remote picker;
- the "Open in…" modal: its options, target path and keyboard handling, including the remote sub-state;
- the new-worktree modal's keyboard handling and derived data;
- four small helpers: the adaptive-thinking check, label text colours, the theme commands and the logger.

Each TypeScript hook or handler becomes one of two things:

- A pure **step function** on an explicit state snapshot (a `…View` datatype). Backend calls, toasts and window events are recorded in logs inside the snapshot. The outcomes of asynchronous calls are parameters.
- A **class** whose fields are that state. Its methods mirror the handler's statements. Each method is proved to end in exactly the state the step function describes (`ensures View() == Step(old(View()), …)`).

The properties are stated as lemmas about the step functions.

The source's loops become methods with loops, proved against specification functions:

- `Mcp.BuildMcpConfigJson`;
- `OpenInModal.ContextOptions` and `OpenInModal.PushNumbered`;
- `CanvasList.RowIndices`.

Shared modules:

- `Common`: JavaScript truthiness, `??`, `indexOf`, `filter`, subsequences.
- `Text`: `trim`, `parseInt(…, 10)`, number-to-string, `split`/`join` on one character, `includes`, and `replace` with a string pattern, which replaces the first occurrence only.

Behaviour of the code that the model reproduces as written:

- The queued approval message always carries `thinkingLevel`, and also `effortLevel` when adaptive thinking or the Codex backend is active (src/components/chat/hooks/usePlanDialogApproval.ts:107-111).
- `useMcpServerResolution` passes a third `knownMcpServers` argument that `getNewServersToAutoEnable` does not take; the function uses only its first two arguments (src/services/mcp.ts:50-58).
- When the session closed from the modal is not in the card list, the index adjustment yields index -1 (src/components/chat/CanvasList.tsx:178-200, `CanvasList.ModalCloseOfUnlistedSession`).
- The header comment of the logger says warn and error always log, but `warn` is a no-op like `debug` and `info`; only `error` writes (src/lib/logger.ts:1-5 against 26-37).

## Model

| member | source | states |
|---|---|---|
| Mcp.NewServersToAutoEnable | src/services/mcp.ts:50-58 | no returned name is already enabled; every non-disabled server not yet enabled is returned; every result is a server name |
| Mcp.AutoEnabledAreNotDisabled | src/services/mcp.ts:56 | every returned name belongs to some server whose `disabled` flag is false |
| Mcp.AutoEnableKeepsOrder | src/services/mcp.ts:55-57 | the result is a subsequence of the catalogue's names (catalogue order kept) |
| Mcp.NothingNewWhenAllEnabled | src/services/mcp.ts:54-57 | nothing is returned when every usable server is already enabled |
| Mcp.AutoEnableIdempotent | src/services/mcp.ts:54-57 | enabling the returned names and asking again returns nothing |
| Mcp.AutoEnableDistinct | src/services/mcp.ts:55-57 | with distinct server names, no name is returned twice |
| Mcp.FindServer | src/services/mcp.ts:72 | a server is found iff the name is in the catalogue, and it has that name |
| Mcp.FindServerIsFirst | src/services/mcp.ts:72 | the server found is the first one with that name |
| Mcp.ConfigMapSnoc | src/services/mcp.ts:70-74 | one loop step adds the name's config exactly when a server matches, and otherwise changes nothing |
| Mcp.McpConfigEmpty | src/services/mcp.ts:68 | no enabled names gives `undefined` |
| Mcp.McpConfigNoneIff | src/services/mcp.ts:66-77 | the result is `undefined` iff no names are enabled or none matches a server |
| Mcp.McpConfigContents | src/services/mcp.ts:70-74 | the keys are exactly the enabled names that match a server, and each maps to the config of the first server so named |
| Mcp.BuildMcpConfigJson | src/services/mcp.ts:64-78 | the loop builds exactly the dictionary (or `undefined`) that the lemmas above describe |
| McpResolution.AvailableServers | src/components/chat/hooks/useMcpServerResolution.ts:30-33 | unloaded data gives the empty catalogue, loaded data itself |
| McpResolution.SessionOverride | src/components/chat/hooks/useMcpServerResolution.ts:40-42 | a session override exists iff the session id is non-empty and the store has an entry for it |
| McpResolution.BaseEnabledMcpServers | src/components/chat/hooks/useMcpServerResolution.ts:45-53 | a defined session override wins (even if empty); then the project's list; then the global default; then none |
| McpResolution.EnabledMcpServers | src/components/chat/hooks/useMcpServerResolution.ts:60-76 | the base list is a prefix; appended names are catalogue names not in the base; every usable server ends up enabled; nothing new means the base list itself |
| McpResolution.EnabledIsStable | src/components/chat/hooks/useMcpServerResolution.ts:60-76 | resolving again from the resolved list changes nothing |
| McpResolution.EnabledComesFromBaseOrCatalogue | src/components/chat/hooks/useMcpServerResolution.ts:60-76 | every enabled name comes from the base list or from a non-disabled server |
| McpResolution.ResolveEnabled | src/components/chat/hooks/useMcpServerResolution.ts:30-76 | every non-disabled available server is in the effective list |
| McpResolution.EmptyOverrideEnablesUsable | src/components/chat/hooks/useMcpServerResolution.ts:45-76 | an explicitly empty session override still auto-enables every usable server |
| PlanApproval.ApprovalText | src/components/chat/hooks/usePlanDialogApproval.ts:88-91 | the edited plan wrapped in `<updated-plan>` when non-empty, else "Approved - yolo" or "Approved" by mode |
| PlanApproval.ApprovalTextRoundTrip | src/components/chat/hooks/usePlanDialogApproval.ts:89-91 | the edited plan is recovered exactly from the message; a plain approval carries none |
| PlanApproval.MarkMessagesApproved | src/components/chat/hooks/usePlanDialogApproval.ts:77-81 | only messages with the plan's id become approved; all others are unchanged |
| PlanApproval.MarkMessagesApprovedIdempotent | src/components/chat/hooks/usePlanDialogApproval.ts:77-81 | marking twice is marking once |
| PlanApproval.MarkSessionApproved | src/components/chat/hooks/usePlanDialogApproval.ts:67-85 | an absent cached session stays absent; the id is appended to the approved ids (absent list read as empty); messages approved iff they already were or carry the id; the message list keeps its length and every other message field; the digest is unchanged |
| PlanApproval.ApprovingTwiceRecordsTwice | src/components/chat/hooks/usePlanDialogApproval.ts:73-76 | the id list is appended to without de-duplication |
| PlanApproval.EffortOf | src/components/chat/hooks/usePlanDialogApproval.ts:108-111 | the effort level is set iff adaptive thinking or the Codex backend is active |
| PlanApproval.ApproveNeedsActiveSession | src/components/chat/hooks/usePlanDialogApproval.ts:56 | without session id, worktree id or worktree path nothing changes |
| PlanApproval.ApproveQueuesOneMessage | src/components/chat/hooks/usePlanDialogApproval.ts:94-119 | the mode is set; exactly one message is appended to the active session's queue only; it carries the approval text, the context's model and provider, the mode, the thinking level, the context's effort level iff enabled, the MCP config and empty attachment lists |
| PlanApproval.ApproveMarksPendingPlan | src/components/chat/hooks/usePlanDialogApproval.ts:59-85 | with a pending plan, the backend mark call is logged and the cached session's plan message is approved; other sessions untouched; with none, cache and calls unchanged |
| PlanApproval.ApprovalState.SetExecutionMode | src/components/chat/hooks/usePlanDialogApproval.ts:95 | only the session's mode changes |
| PlanApproval.ApprovalState.EnqueueMessage | src/components/chat/hooks/usePlanDialogApproval.ts:119 | the message is appended to that session's queue only |
| PlanApproval.ApprovalState.Approve | src/components/chat/hooks/usePlanDialogApproval.ts:55-120 | the handler's statements end in the approval step's state |
| ChatWindowEvents.SessionToCancel | src/components/chat/hooks/useChatWindowEvents.ts:288-296 | the canvas-selected session when the canvas is shown (unset counts as shown) and one is selected, else the ref's session, else the store's active session |
| ChatWindowEvents.CancelPrompt | src/components/chat/hooks/useChatWindowEvents.ts:283-302 | a cancel call goes to the worktree id and to a non-empty session that is sending |
| ChatWindowEvents.CancelIff | src/components/chat/hooks/useChatWindowEvents.ts:284-302 | cancel happens iff there is a worktree id and the target is non-empty and sending, and then targets that session |
| ChatWindowEvents.CanvasSelectionWinsByDefault | src/components/chat/hooks/useChatWindowEvents.ts:288-302 | with the canvas flag unset, the canvas-selected sending session is cancelled |
| ChatWindowEvents.RecapNothingNew | src/components/chat/hooks/useChatWindowEvents.ts:158-164 | an open dialog whose digest covers all messages only gets a notice |
| ChatWindowEvents.RecapShowsExisting | src/components/chat/hooks/useChatWindowEvents.ts:167-176 | a cached digest (store first, then session) opens the closed dialog without generating |
| ChatWindowEvents.RecapTooFewMessages | src/components/chat/hooks/useChatWindowEvents.ts:178-182 | with fewer than two messages nothing is generated and dialog state is unchanged |
| ChatWindowEvents.RecapSuccess | src/components/chat/hooks/useChatWindowEvents.ts:184-207 | success caches, persists and shows the digest, marks the session, and ends not generating |
| ChatWindowEvents.RecapFailure | src/components/chat/hooks/useChatWindowEvents.ts:184-207 | failure clears and closes the dialog, reports the error, and ends not generating |
| ChatWindowEvents.RecapKeepsDialogShowable | src/components/chat/hooks/useChatWindowEvents.ts:155-207 | an open dialog always has a digest to show, and generation never stays flagged |
| ChatWindowEvents.RecapDialog.OpenRecap | src/components/chat/hooks/useChatWindowEvents.ts:155-207 | the handler's statements end in the recap step's state |
| ChatWindowEvents.GitDiffStep | src/components/chat/hooks/useChatWindowEvents.ts:261-272 | the first request is uncommitted against the base branch or "main"; later ones flip the type and keep path and branch |
| ChatWindowEvents.GitDiffTwiceRestores | src/components/chat/hooks/useChatWindowEvents.ts:262-272 | two toggles give back the original request |
| ChatWindowEvents.GitDiffFirstThenBranch | src/components/chat/hooks/useChatWindowEvents.ts:262-272 | the second request after none is the branch diff |
| ChatWindowEvents.OpenPlan | src/components/chat/hooks/useChatWindowEvents.ts:136-147 | not listening on the canvas; content, when present, wins and opens the dialog with that content; the file dialog opens only without content and with a path; a notice iff neither content nor path |
| ChatWindowEvents.PlanDialogOpensIff | src/components/chat/hooks/useChatWindowEvents.ts:138-147 | the dialog opens iff there is plan content or a plan path |
| ChatWindowEvents.ToggleDebugMode | src/components/chat/hooks/useChatWindowEvents.ts:328-334 | without preferences nothing is saved; otherwise the flag saved is the negation (unset read as off) |
| ChatWindowEvents.ToggleDebugTwice | src/components/chat/hooks/useChatWindowEvents.ts:328-334 | two toggles restore the flag, made explicit |
| ChatWindowEvents.CreateNewSession | src/components/chat/hooks/useChatWindowEvents.ts:225-242 | needs worktree id and path; creates, then activates and opens the created session |
| ChatWindowEvents.CycleMode | src/components/chat/hooks/useChatWindowEvents.ts:248-253 | cycles the active session's mode iff there is one |
| ChatWindowEvents.RunScript | src/components/chat/hooks/useChatWindowEvents.ts:312-315 | runs only in the native app, with a worktree and a run script |
| ChatWindowEvents.SetChatInput | src/components/chat/hooks/useChatWindowEvents.ts:341-349 | sets the draft and focuses only with a session and non-empty text |
| CanvasList.SelectedCard | src/components/chat/CanvasList.tsx:98-99 | a card iff the index is set and in range, and it is the card at that index |
| CanvasList.KeyboardNavEnabled | src/components/chat/CanvasList.tsx:128-140 | navigation is on iff no session modal, plan path, plan content, recap or label modal is open |
| CanvasList.ShortcutsEnabled | src/components/chat/CanvasList.tsx:121 | shortcuts are on iff no session modal is open and an index is selected |
| CanvasList.ShortcutsOffUnderSessionModal | src/components/chat/CanvasList.tsx:121-140 | an open session modal turns both off |
| CanvasList.ModalCloseTarget | src/components/chat/CanvasList.tsx:178-200 | there is no replacement iff no other card remains |
| CanvasList.ModalCloseDeletes | src/components/chat/CanvasList.tsx:174-184 | closing the open session deletes it and closes the modal; with no card left the index is cleared |
| CanvasList.ModalCloseSelectsNeighbour | src/components/chat/CanvasList.tsx:186-200 | the new index is the predecessor's (0 for the first); it points at the new selection in the list after deletion |
| CanvasList.ModalCloseOfUnlistedSession | src/components/chat/CanvasList.tsx:178-200 | an unlisted closed session yields index -1 and selects the first card |
| CanvasList.FlatCloseLastCard | src/components/chat/CanvasList.tsx:206-213 | deleting the only card clears the index |
| CanvasList.FlatCloseSelectsNeighbour | src/components/chat/CanvasList.tsx:214-229 | deleting at i > 0 selects i-1; at 0 keeps index 0 and selects the second card; the index stays in range |
| CanvasList.CloseWithoutSelectionIgnored | src/components/chat/CanvasList.tsx:206-231 | with no modal and no valid index the event is not handled |
| CanvasList.CanvasSelection.CloseSessionOrWorktree | src/components/chat/CanvasList.tsx:173-231 | the handler's statements end in the close step's state |
| CanvasList.RowIndices | src/components/chat/CanvasList.tsx:254-277 | the running offset gives each rendered row its position in the flattened groups |
| CanvasList.GroupRowsStartAfterEarlierGroups | src/components/chat/CanvasList.tsx:262-272 | row i of group g has index (sum of earlier group sizes) + i and shows that card |
| CanvasList.GroupedRowsCanDifferFromCards | src/components/chat/CanvasList.tsx:206-221 | with grouping reordering, the highlighted row and the deleted card can differ |
| CanvasList.GroupedRowsMatchCardsWhenOrderKept | src/components/chat/CanvasList.tsx:98-99 | when grouping keeps the order, the selected card is the highlighted row |
| LoadContext.DisplayName | src/components/magic/hooks/useLoadContextHandlers.ts:258 | the name, or the slug when the name is empty |
| LoadContext.SlugDropsTwoPieces | src/components/magic/hooks/useLoadContextHandlers.ts:388-392 | the slug drops the first two dash-separated pieces and the first ".md" |
| LoadContext.SlugOfShortName | src/components/magic/hooks/useLoadContextHandlers.ts:388-392 | a name without a dash has an empty slug |
| LoadContext.SlugOfOneDash | src/components/magic/hooks/useLoadContextHandlers.ts:388-392 | a name with exactly one dash has an empty slug |
| LoadContext.RemoveMdAt | src/components/magic/hooks/useLoadContextHandlers.ts:392 | `replace('.md', '')` removes the ".md" right after a prefix that holds none |
| LoadContext.SlugOfDatedName | src/components/magic/hooks/useLoadContextHandlers.ts:388-392 | for every name without an inner ".md", `year-month-name.md` gives `name` |
| LoadContext.SlugRemovesFirstMdOnly | src/components/magic/hooks/useLoadContextHandlers.ts:392 | for every `year-month-a.md b.md` with no ".md" inside `a`, only the first ".md" is removed |
| LoadContext.ResetStep | src/components/magic/hooks/useLoadContextHandlers.ts:79-87 | all four in-flight sets empty, nothing generating or edited; the viewed context, toasts, toast counter, backend calls and search clears unchanged |
| LoadContext.LoadWithoutSession | src/components/magic/hooks/useLoadContextHandlers.ts:90-95 | without session or path a load only reports an error |
| LoadContext.LoadTracksNumber | src/components/magic/hooks/useLoadContextHandlers.ts:90-122 | the number leaves the loading set; the backend call is logged; the loading toast's id is reused for the success or error toast |
| LoadContext.IssueLoadClearsPrOfSameNumber | src/components/magic/hooks/useLoadContextHandlers.ts:90-122 | issues and PRs share one loading set, so an issue load clears a PR of the same number |
| LoadContext.RemoveTracksNumber | src/components/magic/hooks/useLoadContextHandlers.ts:124-144 | without session or worktree nothing happens; else the number leaves the removing set, the remove call is logged followed by the list refetch exactly on success, and one toast with the next id reports success or failure |
| LoadContext.SelectStep | src/components/magic/hooks/useLoadContextHandlers.ts:154-160 | selecting runs the non-refresh load of the number (same loading set, calls and toasts) and clears the search once |
| LoadContext.NumberView | src/components/magic/hooks/useLoadContextHandlers.ts:146-152 | viewing shows the number and title with no content yet |
| LoadContext.DeleteContextStep | src/components/magic/hooks/useLoadContextHandlers.ts:236-247 | the delete call is made, followed by `RefetchContexts` exactly on success; nothing but the call log changes, so no toast |
| LoadContext.AttachClearsSearchOnSuccess | src/components/magic/hooks/useLoadContextHandlers.ts:249-279 | the slug leaves the loading set; the toast id is reused; the search clears exactly on success |
| LoadContext.RemoveAttachedStep | src/components/magic/hooks/useLoadContextHandlers.ts:281-301 | without session nothing happens; else the slug leaves the removing set, the remove call is logged followed by `RefetchAttached` exactly on success, and one toast with the next id reports "Removed context" or "Failed to remove context: " with the error |
| LoadContext.ViewAttachedStep | src/components/magic/hooks/useLoadContextHandlers.ts:303-319 | without session nothing happens; else the content call is logged; fetched content is shown under the display name with no toast; a failure leaves the view as it was and adds the toast "Failed to load context: " with the error |
| LoadContext.StartEditStep | src/components/magic/hooks/useLoadContextHandlers.ts:321-328 | editing starts on the file with its display name |
| LoadContext.RenameSubmitStep | src/components/magic/hooks/useLoadContextHandlers.ts:330-337 | edit mode ends and the rename is sent with the trimmed value |
| LoadContext.RenameKeyDownStep | src/components/magic/hooks/useLoadContextHandlers.ts:339-351 | Enter submits, Escape leaves edit mode, other keys do nothing |
| LoadContext.RenameSendsTrimmedName | src/components/magic/hooks/useLoadContextHandlers.ts:332 | the name sent has no surrounding whitespace |
| LoadContext.SessionClickEndsClean | src/components/magic/hooks/useLoadContextHandlers.ts:353-416 | generation always ends unflagged; the generate call carries the source session, the custom prompt and model from the preferences and the resolved provider name; the file is attached under its slug after generation; search clears iff attached |
| LoadContext.LoadContextHandlers.ResetState | src/components/magic/hooks/useLoadContextHandlers.ts:79-87 | the handler ends in the reset step's state |
| LoadContext.LoadContextHandlers.LoadNumber | src/components/magic/hooks/useLoadContextHandlers.ts:90-122 | the handler ends in the load step's state |
| LoadContext.LoadContextHandlers.RemoveNumber | src/components/magic/hooks/useLoadContextHandlers.ts:124-144 | the handler ends in the remove step's state |
| LoadContext.LoadContextHandlers.SelectNumber | src/components/magic/hooks/useLoadContextHandlers.ts:154-160 | the handler ends in the select step's state |
| LoadContext.LoadContextHandlers.ViewNumber | src/components/magic/hooks/useLoadContextHandlers.ts:146-152 | only the viewed context changes |
| LoadContext.LoadContextHandlers.DeleteContext | src/components/magic/hooks/useLoadContextHandlers.ts:236-247 | the handler ends in the delete step's state |
| LoadContext.LoadContextHandlers.AttachContext | src/components/magic/hooks/useLoadContextHandlers.ts:249-279 | the handler ends in the attach step's state |
| LoadContext.LoadContextHandlers.RemoveAttachedContext | src/components/magic/hooks/useLoadContextHandlers.ts:281-301 | the handler ends in the detach step's state |
| LoadContext.LoadContextHandlers.ViewAttachedContext | src/components/magic/hooks/useLoadContextHandlers.ts:303-319 | the handler ends in the view step's state |
| LoadContext.LoadContextHandlers.StartEdit | src/components/magic/hooks/useLoadContextHandlers.ts:321-328 | the handler ends in the start-edit step's state |
| LoadContext.LoadContextHandlers.RenameSubmit | src/components/magic/hooks/useLoadContextHandlers.ts:330-337 | the handler ends in the rename step's state |
| LoadContext.LoadContextHandlers.RenameKeyDown | src/components/magic/hooks/useLoadContextHandlers.ts:339-351 | the handler ends in the key step's state |
| LoadContext.LoadContextHandlers.SessionClick | src/components/magic/hooks/useLoadContextHandlers.ts:353-416 | the handler ends in the session-click step's state, whose generate call carries the prompt, model and provider (see `SessionClickEndsClean`) |
| RemotePicker.PickRemoteOrRun | src/hooks/useRemotePicker.ts:15-32 | no path, a failed listing or no remote runs with "origin"; one remote runs with it; two or more open the picker; exactly one of the two happens |
| RemotePicker.ActionRunsAtMostOnce | src/hooks/useRemotePicker.ts:15-32 | the action runs at most once, and not at all when the picker opens |
| RemotePicker.PickRemoteOrRunAsWritten | src/hooks/useRemotePicker.ts:21-31 | with an action that does not throw, the code as written decides like the intended one |
| RemotePicker.ThrowingActionRunsTwice | src/hooks/useRemotePicker.ts:21-31 | a throwing action with one remote is run with that remote and then again with "origin" |
| OpenInModal.SelectedWorktreeId | src/components/open-in/OpenInModal.tsx:57-60 | projects-store selection, else chat's active worktree, else the session modal's |
| OpenInModal.FindProject | src/components/open-in/OpenInModal.tsx:199-200 | a found project has the id; none iff no project has it |
| OpenInModal.FindProjectIsFirst | src/components/open-in/OpenInModal.tsx:200 | the project found is the first one with the id |
| OpenInModal.TargetPath | src/components/open-in/OpenInModal.tsx:193-204 | worktree path, else chat-store path, else the path of the project found under the selected id, else none |
| OpenInModal.BaseOptions | src/components/open-in/OpenInModal.tsx:85-132 | editor, terminal, finder, GitHub natively; only GitHub and the PR otherwise; the PR entry is last and present iff the worktree has a PR URL |
| OpenInModal.KeyFor | src/components/open-in/OpenInModal.tsx:145 | a key exists iff the number is at most 9 |
| OpenInModal.NumberedAt | src/components/open-in/OpenInModal.tsx:140-163 | the k-th entry is built from the k-th item with number first + k |
| OpenInModal.PushNumbered | src/components/open-in/OpenInModal.tsx:140-150 | the loop appends one numbered entry per item and advances the counter by their number |
| OpenInModal.ContextOptions | src/components/open-in/OpenInModal.tsx:135-166 | the two loops build the PRs then the issues, numbered across both |
| OpenInModal.ContextOptionsOrderAndKeys | src/components/open-in/OpenInModal.tsx:135-166 | PRs precede issues; the k-th entry has key k up to 9 and none after |
| OpenInModal.FindByKey | src/components/open-in/OpenInModal.tsx:327-329 | a match is an option whose non-empty key lowers to the pressed key; none iff no option matches |
| OpenInModal.FindByKeyIsFirst | src/components/open-in/OpenInModal.tsx:327-329 | the option found is the first one that matches |
| OpenInModal.FindById | src/components/open-in/OpenInModal.tsx:212 | a found option has the id; none iff no option has it |
| OpenInModal.FindByIdIsFirst | src/components/open-in/OpenInModal.tsx:212 | the option found is the first one with the id |
| OpenInModal.JsRem | src/components/open-in/OpenInModal.tsx:344-345 | JavaScript's `%`: the remainder has the dividend's sign, is smaller than the divisor, and differs from the dividend by a multiple of it; a dividend below the divisor is its own remainder, and one below twice the divisor loses one divisor |
| OpenInModal.ArrowIndex | src/components/open-in/OpenInModal.tsx:341-345 | the new index is always a valid option index |
| OpenInModal.ArrowsAreCyclic | src/components/open-in/OpenInModal.tsx:339-349 | down moves to the next option and wraps to the first; up to the previous and wraps to the last |
| OpenInModal.ArrowsUndoEachOther | src/components/open-in/OpenInModal.tsx:339-349 | up after down, and down after up, return to the same option |
| OpenInModal.ArrowsFromUnlisted | src/components/open-in/OpenInModal.tsx:341-345 | from an unlisted selection down picks the first option and up the one before last |
| OpenInModal.OpenChangeStep | src/components/open-in/OpenInModal.tsx:182-191 | the first opening opens the modal, preselects editor (GitHub outside the native app) and marks it initialised, changing nothing else; a later opening only opens; closing resets initialisation and the remote sub-state |
| OpenInModal.ExecuteContextEntry | src/components/open-in/OpenInModal.tsx:211-217 | a context entry opens its page and closes the modal |
| OpenInModal.ExecuteWithoutPath | src/components/open-in/OpenInModal.tsx:219-223 | with no target path any other action reports an error and closes |
| OpenInModal.GitHubWithSeveralRemotes | src/components/open-in/OpenInModal.tsx:246-250 | GitHub with several remotes enters the remote sub-state and keeps the modal open |
| OpenInModal.ExecuteClosesUnlessPicking | src/components/open-in/OpenInModal.tsx:209-265 | every action closes the modal except GitHub with several remotes |
| OpenInModal.OpenRemoteStep | src/components/open-in/OpenInModal.tsx:282-293 | out of range or unloaded does nothing; else opens `url/tree/branch` (or `url`) and closes |
| OpenInModal.RemoteEscape | src/components/open-in/OpenInModal.tsx:301-307 | Escape only leaves the remote sub-state |
| OpenInModal.RemoteDigitOpensRemote | src/components/open-in/OpenInModal.tsx:308-319 | digit k of n remotes opens remote k-1 |
| OpenInModal.RemoteOtherKeyFallsThrough | src/components/open-in/OpenInModal.tsx:320-322 | any other key collapses the sub-state and is handled normally |
| OpenInModal.ArrowSelectsListedOption | src/components/open-in/OpenInModal.tsx:339-349 | arrows select a listed option and cause no effect |
| OpenInModal.OpenInState.CloseModal | src/components/open-in/OpenInModal.tsx:175-180 | closing resets initialisation and the remote sub-state |
| OpenInModal.OpenInState.HandleOpenChange | src/components/open-in/OpenInModal.tsx:182-191 | the handler ends in the open-change step's state |
| OpenInModal.OpenInState.ExecuteAction | src/components/open-in/OpenInModal.tsx:209-280 | the handler ends in the execute step's state |
| OpenInModal.OpenInState.OpenRemote | src/components/open-in/OpenInModal.tsx:282-293 | the handler ends in the open-remote step's state |
| OpenInModal.OpenInState.HandleKeyDown | src/components/open-in/OpenInModal.tsx:295-350 | the handler ends in the key step's state |
| OpenInModal.OpenInState.HandleRemoteKey | src/components/open-in/OpenInModal.tsx:299-321 | the remote sub-state's branch ends in the remote key step's state |
| OpenInModal.OpenInState.HandleShortcutKey | src/components/open-in/OpenInModal.tsx:324-350 | the handler ends in the normal key step's state |
| NewWorktree.FilteredBranchesMembers | src/components/worktree/hooks/useNewWorktreeData.ts:108-115 | none before loading; a branch is listed iff loaded, not the default, and (empty query or lower-case match) |
| NewWorktree.FilteredBranchesKeepOrder | src/components/worktree/hooks/useNewWorktreeData.ts:108-115 | empty query lists all non-default branches in order; any query keeps the loaded order |
| NewWorktree.FindBase | src/components/worktree/hooks/useNewWorktreeData.ts:46 | a found worktree is a base session |
| NewWorktree.BaseSession | src/components/worktree/hooks/useNewWorktreeData.ts:45-48 | a found worktree is a base session |
| NewWorktree.FindBaseIsFirst | src/components/worktree/hooks/useNewWorktreeData.ts:46 | none iff no base session; else the first one |
| NewWorktree.BaseSessionIffHas | src/components/worktree/hooks/useNewWorktreeData.ts:41-48 | `baseSession` is defined iff `hasBaseSession`, and is the first base session |
| NewWorktree.ItemStateFilter | src/components/worktree/hooks/useNewWorktreeData.ts:51 | all states iff closed items are included |
| NewWorktree.TabShortcut | src/components/worktree/hooks/useNewWorktreeKeyboard.ts:59-80 | 1, 2, 3, 4 name quick, issues, PRs, branches; no other key names a tab |
| NewWorktree.ArrowStaysInRange | src/components/worktree/hooks/useNewWorktreeKeyboard.ts:103-113 | a clamped move keeps an in-range index in range and moves by one unless at the end |
| NewWorktree.TabShortcutsSelectTabs | src/components/worktree/hooks/useNewWorktreeKeyboard.ts:59-80 | Cmd/Ctrl with 1-4 selects that tab and nothing else |
| NewWorktree.ArrowsKeepIndexInRange | src/components/worktree/hooks/useNewWorktreeKeyboard.ts:102-179 | arrows on a list tab keep the index in range and request nothing |
| NewWorktree.EmptyListIgnoresKeys | src/components/worktree/hooks/useNewWorktreeKeyboard.ts:102-186 | with the active list empty only the tab shortcuts act |
| NewWorktree.EnterSelectsIssue | src/components/worktree/hooks/useNewWorktreeKeyboard.ts:115-118 | Enter selects the highlighted issue iff there is one, in the background exactly when Cmd is held |
| NewWorktree.EnterSelectsBranch | src/components/worktree/hooks/useNewWorktreeKeyboard.ts:181-184 | Enter selects the highlighted branch iff it exists and is non-empty, in background with Cmd |
| NewWorktree.InvestigateOnlyWhenIdle | src/components/worktree/hooks/useNewWorktreeKeyboard.ts:153-164 | `m` investigates the highlighted PR iff there is one and nothing is being created |
| NewWorktree.QuickKeysIgnoreTextFields | src/components/worktree/hooks/useNewWorktreeKeyboard.ts:83-98 | `n`/`m` on the quick tab act only outside text fields |
| NewWorktree.NewWorktreeKeyboard.HandleListKey | src/components/worktree/hooks/useNewWorktreeKeyboard.ts:102-131 | the list-tab branch ends in the list step's state |
| NewWorktree.NewWorktreeKeyboard.HandleKeyDown | src/components/worktree/hooks/useNewWorktreeKeyboard.ts:54-187 | the handler ends in the key step's state |
| ModelUtils.AdaptiveThinkingCases | src/lib/model-utils.ts:22-29 | false for any model but opus and for a missing or empty CLI version; otherwise the version comparison with 2.1.32 decides |
| ModelUtils.AdaptiveThinkingSurvivesUpgrade | src/lib/model-utils.ts:28 | with a transitive comparison, a newer CLI keeps the feature |
| LabelColors.LightColorsAreSixDistinct | src/lib/label-colors.ts:4-11 | six distinct colours, all lower case |
| LabelColors.LabelTextColorCases | src/lib/label-colors.ts:17-19 | black iff one of the six listed strings; any upper-case spelling gets white |
| AppearanceCommands.AvailableCommands | src/lib/commands/appearance-commands.ts:4-43 | a command is offered iff the theme differs from its target |
| AppearanceCommands.TwoOfThreeAvailable | src/lib/commands/appearance-commands.ts:4-43 | exactly two commands are offered, for the two other themes |
| AppearanceCommands.CommandContext.Execute | src/lib/commands/appearance-commands.ts:12-41 | the theme becomes the target; that command is then unavailable and the others available |
| Logger.EmitShape | src/lib/logger.ts:17-37 | debug, info and warn emit nothing; error emits "[ERROR]", the tag when set, then the arguments |
| Logger.ErrorKeepsArguments | src/lib/logger.ts:20-23 | the arguments follow the labels unchanged |
| Logger.TagsCompose | src/lib/logger.ts:39-42 | tagging the root gives the name; tagging again joins with ":" |
| Logger.EmptyTagIsUntagged | src/lib/logger.ts:18-41 | an empty tag behaves like no tag |

## Left out

- Rendering: JSX, styling, focus and scroll effects, and the dialog components.
- React lifecycles: listener registration and teardown, hook dependencies, and refs. Every handler is modelled as a function of an explicit snapshot.
- Concurrency: asynchronous interleaving between handlers. Each handler runs to completion with its backend outcome given as a parameter, and its `finally` cleanup is part of the postcondition.
- Backend and foreign calls: `invoke`, the GitHub, chat and git services, and `JSON.stringify`. They appear as logged calls or outcome parameters. `buildMcpConfigJson` yields the name→config dictionary it would serialise, so JSON key order is not modelled.
- Parameters instead of definitions: `compareVersions`, `isBaseSession`, `groupCardsByStatus`, `toLowerCase` (in branch filtering), `generateId`, `Date.now`, and the editor and terminal labels.
- Toast text rendering and `console.error` output. Toasts are a log of (id, kind, text); errors are returned as the console line.
- The MCP cache invalidation effect in useMcpServerResolution (lines 36-38). It is a cache refresh with no state of its own.
- `filterIssues`, `mergeWithSearchResults` and the debounced search in useNewWorktreeData. They are not part of this model; the keyboard model takes the filtered lists as given.
- OpenInModal.LowerAscii: lower-cases ASCII only. That covers every shortcut key the modal defines.
- OpenInModal.KeyStep: takes the pressed key both as typed and lower-cased. It does not check that one is the lower case of the other.
- RemotePicker.PickRemoteOrRunAsWritten: models only synchronous throws from the action. An asynchronous action's rejected promise escapes the `catch`.
- `resolveMagicPromptProvider` is not part of this model. The provider name it resolves is a parameter of `LoadContext.SessionClickStep`.
- ChatWindowEvents: the save-context and load-context commands only forward to other handlers, which are not part of this model.

## Findings

| source | as written | input that shows it | evidently intended | confidence | as-written member | corrected member |
|---|---|---|---|---|---|---|
| src/hooks/useRemotePicker.ts:21-31 | the `try` also wraps the call of the action, so the `catch` that falls back to "origin" also catches the action's own exception | a repository with one remote "upstream" and an action that throws: the action runs with "upstream" and then again with "origin" | the fallback applies only when listing the remotes fails, so the action runs at most once | not executed | RemotePicker.ThrowingActionRunsTwice | RemotePicker.ActionRunsAtMostOnce |
