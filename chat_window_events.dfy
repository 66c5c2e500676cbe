/** The window-event handlers of the chat window: cancelling the running
    prompt, the recap dialog, the git diff toggle, opening the plan, and the
    smaller command handlers (src/components/chat/hooks/useChatWindowEvents.ts).
    Each handler is modelled on an explicit snapshot of what it reads. */
module ChatWindowEvents {
  import opened Common
  import opened ChatTypes

  /** A short notification shown to the user. */
  datatype Notice = Info(text: string) | Error(text: string)

  // ---------------------------------------------------------------- cancel

  /** The parts of the chat store the cancel handler reads, per worktree or
      per session. */
  datatype CancelStore = CancelStore(
    viewingCanvasTab: map<string, bool>,
    canvasSelectedSessionIds: map<string, string>,
    activeSessionIds: map<string, string>,
    sendingSessionIds: map<string, bool>)

  /** The backend call `cancelChatMessage(sessionId, worktreeId)`. */
  datatype CancelCall = CancelCall(sessionId: string, worktreeId: string)

  /** Whether the worktree is showing its canvas; unset counts as yes. */
  predicate IsCanvas(store: CancelStore, wt: string) {
    Lookup(store.viewingCanvasTab, wt).GetOr(true)
  }

  /** The session ESC would cancel: the canvas-selected session while the
      canvas is shown and one is selected, else the ref's active session, else
      the store's active session for the worktree. */
  function SessionToCancel(store: CancelStore, wt: string, refSessionId: Option<string>): (r: Option<string>)
    ensures IsCanvas(store, wt) && Truthy(Lookup(store.canvasSelectedSessionIds, wt)) ==>
      r == Lookup(store.canvasSelectedSessionIds, wt)
    ensures !(IsCanvas(store, wt) && Truthy(Lookup(store.canvasSelectedSessionIds, wt))) ==>
      r == Coalesce(refSessionId, Lookup(store.activeSessionIds, wt))
  {
    var canvasSession := Lookup(store.canvasSelectedSessionIds, wt);
    if IsCanvas(store, wt) && Truthy(canvasSession) then canvasSession
    else Coalesce(refSessionId, Lookup(store.activeSessionIds, wt))
  }

  /** The cancel-prompt handler: at most one backend call. */
  function CancelPrompt(store: CancelStore, refWorktreeId: Option<string>, refSessionId: Option<string>): (r: Option<CancelCall>)
    ensures r.Some? ==> Truthy(refWorktreeId) && r.value.worktreeId == refWorktreeId.value
    ensures r.Some? ==> r.value.sessionId != "" && Lookup(store.sendingSessionIds, r.value.sessionId) == Some(true)
  {
    if !Truthy(refWorktreeId) then None
    else
      var wt := refWorktreeId.value;
      var target := SessionToCancel(store, wt, refSessionId);
      if !Truthy(target) then None
      else if !Lookup(store.sendingSessionIds, target.value).GetOr(false) then None
      else Some(CancelCall(target.value, wt))
  }

  /** The cancel call is made exactly when there is a worktree, a target and
      the target is sending, and it always names the resolved target. */
  lemma CancelIff(store: CancelStore, refWorktreeId: Option<string>, refSessionId: Option<string>)
    ensures CancelPrompt(store, refWorktreeId, refSessionId).Some? <==>
      Truthy(refWorktreeId)
      && var target := SessionToCancel(store, refWorktreeId.value, refSessionId);
         Truthy(target) && Lookup(store.sendingSessionIds, target.value) == Some(true)
    ensures CancelPrompt(store, refWorktreeId, refSessionId).Some? ==>
      Some(CancelPrompt(store, refWorktreeId, refSessionId).value.sessionId)
        == SessionToCancel(store, refWorktreeId.value, refSessionId)
  {
  }

  /** With the canvas view unset, a selected canvas session that is sending
      is the one cancelled, whatever the active session is. */
  lemma CanvasSelectionWinsByDefault(store: CancelStore, wt: string, refSessionId: Option<string>, sid: string)
    requires wt != "" && wt !in store.viewingCanvasTab
    requires Lookup(store.canvasSelectedSessionIds, wt) == Some(sid) && sid != ""
    requires Lookup(store.sendingSessionIds, sid) == Some(true)
    ensures CancelPrompt(store, Some(wt), refSessionId) == Some(CancelCall(sid, wt))
  {
  }

  // ---------------------------------------------------------------- recap

  /** How the digest generation ended (the awaited backend call). */
  datatype GenerateOutcome = Generated(digest: SessionDigest) | Failed(error: string)

  /** The state the recap handler reads and writes: the dialog (open flag,
      digest shown, generating flag), the store's digest cache and
      needs-digest marks, the backend calls made and the notices shown. */
  datatype RecapView = RecapView(
    dialogOpen: bool,
    dialogDigest: Option<SessionDigest>,
    generating: bool,
    digestCache: map<string, SessionDigest>,
    needsDigest: set<string>,
    generateCalls: seq<string>,
    persistCalls: seq<(string, SessionDigest)>,
    notices: seq<Notice>)

  /** The number of messages of the loaded session (0 when there is none). */
  function MessageCount(session: Option<Session>): nat {
    if session.Some? then |session.value.messages| else 0
  }

  /** The digest already known for the session: the store's cache first,
      then the session's own digest. */
  function ExistingDigest(v: RecapView, sid: string, session: Option<Session>): Option<SessionDigest> {
    Coalesce(Lookup(v.digestCache, sid), if session.Some? then session.value.digest else None)
  }

  /** The failure notice. */
  function FailureText(error: string): string {
    "Failed to generate recap: " + error
  }

  /** `handleOpenRecap`, run to completion with the given outcome of the
      generation call. `listening` is false on the canvas outside the modal,
      where the handler is not registered. */
  function RecapStep(v: RecapView, listening: bool, sessionId: Option<string>, session: Option<Session>,
                     outcome: GenerateOutcome): RecapView {
    if !listening || !Truthy(sessionId) then v
    else
      var sid := sessionId.value;
      var digestCount := if v.dialogDigest.Some? then v.dialogDigest.value.messageCount else 0;
      if v.dialogOpen && MessageCount(session) <= digestCount then
        v.(notices := v.notices + [Info("No new messages since last recap")])
      else if ExistingDigest(v, sid, session).Some? && !v.dialogOpen then
        v.(dialogDigest := ExistingDigest(v, sid, session), dialogOpen := true)
      else if MessageCount(session) < 2 then
        v.(notices := v.notices + [Info("Not enough messages to generate a recap")])
      else
        var started := v.(generateCalls := v.generateCalls + [sid]);
        match outcome
        case Generated(d) =>
          started.(needsDigest := started.needsDigest + {sid},
                   digestCache := started.digestCache[sid := d],
                   persistCalls := started.persistCalls + [(sid, d)],
                   dialogDigest := Some(d), dialogOpen := true, generating := false)
        case Failed(e) =>
          started.(dialogDigest := None, dialogOpen := false, generating := false,
                   notices := started.notices + [Error(FailureText(e))])
  }

  /** An open dialog whose digest already covers every message is left as
      it is: only a notice is shown and nothing is generated. */
  lemma RecapNothingNew(v: RecapView, sid: string, session: Option<Session>, outcome: GenerateOutcome)
    requires sid != "" && v.dialogOpen
    requires MessageCount(session) <= (if v.dialogDigest.Some? then v.dialogDigest.value.messageCount else 0)
    ensures RecapStep(v, true, Some(sid), session, outcome)
         == v.(notices := v.notices + [Info("No new messages since last recap")])
  {
  }

  /** A closed dialog with a known digest opens on it, store cache first,
      without calling the backend. */
  lemma RecapShowsExisting(v: RecapView, sid: string, session: Option<Session>, outcome: GenerateOutcome)
    requires sid != "" && !v.dialogOpen
    requires sid in v.digestCache || (session.Some? && session.value.digest.Some?)
    ensures var w := RecapStep(v, true, Some(sid), session, outcome);
      && w.dialogOpen
      && w.dialogDigest == (if sid in v.digestCache then Some(v.digestCache[sid]) else session.value.digest)
      && w.generateCalls == v.generateCalls
      && w.digestCache == v.digestCache && w.notices == v.notices
  {
  }

  /** With fewer than two messages (and no digest to show), nothing is
      generated and the dialog is unchanged. */
  lemma RecapTooFewMessages(v: RecapView, sid: string, session: Option<Session>, outcome: GenerateOutcome)
    requires sid != "" && MessageCount(session) < 2
    requires !v.dialogOpen ==> ExistingDigest(v, sid, session).None?
    ensures var w := RecapStep(v, true, Some(sid), session, outcome);
      && w.dialogOpen == v.dialogOpen && w.dialogDigest == v.dialogDigest
      && w.generateCalls == v.generateCalls && w.digestCache == v.digestCache
      && |w.notices| == |v.notices| + 1
  {
  }

  /** Whether a listening handler for session `sid` reaches the generation
      call. */
  predicate Generates(v: RecapView, sid: string, session: Option<Session>) {
    var digestCount := if v.dialogDigest.Some? then v.dialogDigest.value.messageCount else 0;
    && !(v.dialogOpen && MessageCount(session) <= digestCount)
    && !(ExistingDigest(v, sid, session).Some? && !v.dialogOpen)
    && MessageCount(session) >= 2
  }

  /** A successful generation caches the digest, marks the session as
      needing a digest, persists it, and shows it in the open dialog; the
      generating flag ends false. */
  lemma RecapSuccess(v: RecapView, sid: string, session: Option<Session>, d: SessionDigest)
    requires sid != "" && Generates(v, sid, session)
    ensures var w := RecapStep(v, true, Some(sid), session, Generated(d));
      && w.generateCalls == v.generateCalls + [sid]
      && w.digestCache == v.digestCache[sid := d]
      && w.needsDigest == v.needsDigest + {sid}
      && w.persistCalls == v.persistCalls + [(sid, d)]
      && w.dialogOpen && w.dialogDigest == Some(d) && !w.generating
      && w.notices == v.notices
  {
  }

  /** A failed generation clears the digest, closes the dialog and reports
      the error; the cache is untouched and the generating flag ends false. */
  lemma RecapFailure(v: RecapView, sid: string, session: Option<Session>, e: string)
    requires sid != "" && Generates(v, sid, session)
    ensures var w := RecapStep(v, true, Some(sid), session, Failed(e));
      && w.generateCalls == v.generateCalls + [sid]
      && w.digestCache == v.digestCache && w.needsDigest == v.needsDigest
      && !w.dialogOpen && w.dialogDigest.None? && !w.generating
      && w.notices == v.notices + [Error(FailureText(e))]
  {
  }

  /** An open dialog never ends up without a digest to show: the handler
      keeps `dialogOpen ==> dialogDigest.Some?`, and it never leaves the
      generating flag set. */
  lemma RecapKeepsDialogShowable(v: RecapView, listening: bool, sessionId: Option<string>,
                                 session: Option<Session>, outcome: GenerateOutcome)
    requires v.dialogOpen ==> v.dialogDigest.Some?
    requires !v.generating
    ensures var w := RecapStep(v, listening, sessionId, session, outcome);
      (w.dialogOpen ==> w.dialogDigest.Some?) && !w.generating
  {
  }

  /** The dialog's state and the store's digest cache, updated by the
      recap handler. */
  class RecapDialog {
    var dialogOpen: bool
    var dialogDigest: Option<SessionDigest>
    var generating: bool
    var digestCache: map<string, SessionDigest>
    var needsDigest: set<string>
    var generateCalls: seq<string>
    var persistCalls: seq<(string, SessionDigest)>
    var notices: seq<Notice>

    constructor()
      ensures View() == RecapView(false, None, false, map[], {}, [], [], [])
    {
      dialogOpen, dialogDigest, generating := false, None, false;
      digestCache, needsDigest := map[], {};
      generateCalls, persistCalls, notices := [], [], [];
    }

    function View(): RecapView
      reads this
    {
      RecapView(dialogOpen, dialogDigest, generating, digestCache, needsDigest, generateCalls, persistCalls, notices)
    }

    /** `handleOpenRecap`; `outcome` is what the awaited generation returns. */
    method OpenRecap(listening: bool, sessionId: Option<string>, session: Option<Session>, outcome: GenerateOutcome)
      modifies this
      ensures View() == RecapStep(old(View()), listening, sessionId, session, outcome)
    {
      if !listening || !Truthy(sessionId) {
        return;
      }
      var sid := sessionId.value;
      if dialogOpen {
        var currentCount := MessageCount(session);
        var digestCount := if dialogDigest.Some? then dialogDigest.value.messageCount else 0;
        if currentCount <= digestCount {
          notices := notices + [Info("No new messages since last recap")];
          return;
        }
      }
      var cached := Lookup(digestCache, sid);
      var existing := Coalesce(cached, if session.Some? then session.value.digest else None);
      if existing.Some? && !dialogOpen {
        dialogDigest := existing;
        dialogOpen := true;
        return;
      }
      if MessageCount(session) < 2 {
        notices := notices + [Info("Not enough messages to generate a recap")];
        return;
      }
      dialogDigest := None;
      dialogOpen := true;
      generating := true;
      generateCalls := generateCalls + [sid];
      match outcome {
        case Generated(d) =>
          needsDigest := needsDigest + {sid};
          digestCache := digestCache[sid := d];
          persistCalls := persistCalls + [(sid, d)];
          dialogDigest := Some(d);
        case Failed(e) =>
          dialogDigest := None;
          dialogOpen := false;
          notices := notices + [Error(FailureText(e))];
      }
      generating := false;
    }
  }

  // ---------------------------------------------------------------- git diff

  /** Which diff the viewer shows. */
  datatype DiffType = Uncommitted | Branch

  /** A request for the diff viewer. */
  datatype DiffRequest = DiffRequest(diffType: DiffType, worktreePath: string, baseBranch: string)

  /** The other diff type. */
  function Flip(t: DiffType): (r: DiffType)
    ensures r != t
  {
    if t == Uncommitted then Branch else Uncommitted
  }

  /** The open-git-diff handler applied to the current request. `listening`
      is false on the canvas outside the modal while a session modal is open. */
  function GitDiffStep(prev: Option<DiffRequest>, listening: bool, worktreePath: Option<string>,
                       baseBranch: Option<string>): (r: Option<DiffRequest>)
    ensures !listening || !Truthy(worktreePath) ==> r == prev
    ensures listening && Truthy(worktreePath) && prev.None? ==>
      r == Some(DiffRequest(Uncommitted, worktreePath.value, baseBranch.GetOr("main")))
    ensures listening && Truthy(worktreePath) && prev.Some? ==>
      r.Some? && r.value.diffType != prev.value.diffType
      && r.value.worktreePath == prev.value.worktreePath && r.value.baseBranch == prev.value.baseBranch
  {
    if !listening || !Truthy(worktreePath) then prev
    else if prev.Some? then Some(prev.value.(diffType := Flip(prev.value.diffType)))
    else Some(DiffRequest(Uncommitted, worktreePath.value, baseBranch.GetOr("main")))
  }

  /** Two presses bring an open diff back to the type it had. */
  lemma GitDiffTwiceRestores(prev: DiffRequest, worktreePath: string, baseBranch: Option<string>)
    requires worktreePath != ""
    ensures GitDiffStep(GitDiffStep(Some(prev), true, Some(worktreePath), baseBranch), true, Some(worktreePath), baseBranch)
         == Some(prev)
  {
  }

  /** A first press opens the uncommitted diff, a second switches to the
      branch diff against the same base. */
  lemma GitDiffFirstThenBranch(worktreePath: string, baseBranch: Option<string>)
    requires worktreePath != ""
    ensures GitDiffStep(GitDiffStep(None, true, Some(worktreePath), baseBranch), true, Some(worktreePath), baseBranch)
         == Some(DiffRequest(Branch, worktreePath, baseBranch.GetOr("main")))
  {
  }

  // ---------------------------------------------------------------- plan

  /** What the open-plan handler does. */
  datatype PlanOutcome = NotListening | OpenWithContent(content: string) | OpenDialog | NoPlanNotice

  /** The open-plan handler: the plan text if there is one, else the plan
      file, else a notice. It is not registered on the canvas. */
  function OpenPlan(viewingCanvasTab: bool, latestPlanContent: Option<string>, latestPlanFilePath: Option<string>): (r: PlanOutcome)
    ensures viewingCanvasTab <==> r == NotListening
    ensures r.OpenWithContent? ==> Truthy(latestPlanContent) && r.content == latestPlanContent.value
    ensures !viewingCanvasTab && Truthy(latestPlanContent) ==> r == OpenWithContent(latestPlanContent.value)
    ensures r == OpenDialog ==> !Truthy(latestPlanContent) && Truthy(latestPlanFilePath)
    ensures !viewingCanvasTab ==>
      (r == NoPlanNotice <==> !Truthy(latestPlanContent) && !Truthy(latestPlanFilePath))
  {
    if viewingCanvasTab then NotListening
    else if Truthy(latestPlanContent) then OpenWithContent(latestPlanContent.value)
    else if Truthy(latestPlanFilePath) then OpenDialog
    else NoPlanNotice
  }

  /** Off the canvas, the plan dialog opens exactly when there is plan text
      or a plan file. */
  lemma PlanDialogOpensIff(latestPlanContent: Option<string>, latestPlanFilePath: Option<string>)
    ensures (OpenPlan(false, latestPlanContent, latestPlanFilePath).OpenWithContent?
             || OpenPlan(false, latestPlanContent, latestPlanFilePath) == OpenDialog)
        <==> Truthy(latestPlanContent) || Truthy(latestPlanFilePath)
  {
  }

  // ---------------------------------------------------------------- debug flag

  /** The preferences, reduced to the debug flag (`undefined` when unset). */
  datatype Preferences = Preferences(debugModeEnabled: Option<bool>)

  /** The preferences saved by the toggle-debug-mode handler; nothing is saved
      before the preferences are loaded. An unset flag counts as off. */
  function ToggleDebugMode(prefs: Option<Preferences>): (r: Option<Preferences>)
    ensures prefs.None? <==> r.None?
    ensures r.Some? ==> r.value.debugModeEnabled.Some?
    ensures r.Some? ==> (r.value.debugModeEnabled.value <==> !prefs.value.debugModeEnabled.GetOr(false))
  {
    match prefs
    case None => None
    case Some(p) => Some(p.(debugModeEnabled := Some(!p.debugModeEnabled.GetOr(false))))
  }

  /** Toggling twice turns an unset flag into an explicit off and otherwise
      restores it. */
  lemma ToggleDebugTwice(p: Preferences)
    ensures ToggleDebugMode(ToggleDebugMode(Some(p))) == Some(Preferences(Some(p.debugModeEnabled.GetOr(false))))
  {
  }

  // ---------------------------------------------------------------- other commands

  /** The side effects of the remaining command handlers. */
  datatype Effect =
    | CreateSession(worktreeId: string, worktreePath: string)
    | SetActiveSession(worktreeId: string, sessionId: string)
    | OpenSessionModal(sessionId: string)
    | CycleExecutionMode(sessionId: string)
    | StartRun(worktreeId: string, script: string)
    | SetInputDraft(sessionId: string, text: string)
    | FocusInput

  /** CMD+T: create a session, then activate it and open it in the modal
      once created (`created` is the new session's id, if creation succeeded). */
  function CreateNewSession(worktreeId: Option<string>, worktreePath: Option<string>, created: Option<string>): (r: seq<Effect>)
    ensures !Truthy(worktreeId) || !Truthy(worktreePath) ==> r == []
    ensures Truthy(worktreeId) && Truthy(worktreePath) ==>
      |r| >= 1 && r[0] == CreateSession(worktreeId.value, worktreePath.value)
      && (created.Some? <==> |r| == 3)
      && (created.Some? ==> r[1] == SetActiveSession(worktreeId.value, created.value) && r[2] == OpenSessionModal(created.value))
  {
    if !Truthy(worktreeId) || !Truthy(worktreePath) then []
    else
      [CreateSession(worktreeId.value, worktreePath.value)]
      + (if created.Some? then [SetActiveSession(worktreeId.value, created.value), OpenSessionModal(created.value)] else [])
  }

  /** SHIFT+TAB: cycle the active session's mode (not registered without one). */
  function CycleMode(sessionId: Option<string>): (r: seq<Effect>)
    ensures |r| <= 1
    ensures r != [] <==> Truthy(sessionId)
    ensures r != [] ==> r[0] == CycleExecutionMode(sessionId.value)
  {
    if Truthy(sessionId) then [CycleExecutionMode(sessionId.value)] else []
  }

  /** The run-script command: only in the native app, with a worktree and a
      run script. */
  function RunScript(isNativeApp: bool, worktreeId: Option<string>, runScript: Option<string>): (r: seq<Effect>)
    ensures r != [] <==> isNativeApp && Truthy(worktreeId) && Truthy(runScript)
    ensures r != [] ==> r == [StartRun(worktreeId.value, runScript.value)]
  {
    if !isNativeApp || !Truthy(worktreeId) || !Truthy(runScript) then []
    else [StartRun(worktreeId.value, runScript.value)]
  }

  /** Setting the chat input from outside: needs an active session and a
      non-empty text; the input is then focused. */
  function SetChatInput(sessionId: Option<string>, text: string): (r: seq<Effect>)
    ensures r != [] <==> Truthy(sessionId) && text != ""
    ensures r != [] ==> r == [SetInputDraft(sessionId.value, text), FocusInput]
  {
    if Truthy(sessionId) && text != "" then [SetInputDraft(sessionId.value, text), FocusInput] else []
  }
}
