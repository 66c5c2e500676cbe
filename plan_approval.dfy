/** Approving a plan from the plan dialog, in build or yolo mode: the plan
    message is marked approved (on the backend and optimistically in the
    query cache), the session switches execution mode, and an approval
    message is queued (src/components/chat/hooks/usePlanDialogApproval.ts). */
module PlanApproval {
  import opened Common
  import opened Mcp
  import opened ChatTypes

  /** Opening of the approval message that carries an edited plan. */
  const UpdatedPlanOpening: string := "I've updated the plan. Please review and execute:\n\n<updated-plan>\n"
  /** Closing of the approval message that carries an edited plan. */
  const UpdatedPlanClosing: string := "\n</updated-plan>"

  /** The text sent to the assistant: the edited plan wrapped in
      `<updated-plan>` tags when there is one (non-empty), otherwise the plain
      approval for the mode. */
  function ApprovalText(updatedPlan: Option<string>, mode: ApprovalMode): (r: string)
    ensures !Truthy(updatedPlan) && mode == Yolo ==> r == "Approved - yolo"
    ensures !Truthy(updatedPlan) && mode == Build ==> r == "Approved"
    ensures Truthy(updatedPlan) ==> r == UpdatedPlanOpening + updatedPlan.value + UpdatedPlanClosing
  {
    if Truthy(updatedPlan) then UpdatedPlanOpening + updatedPlan.value + UpdatedPlanClosing
    else if mode == Yolo then "Approved - yolo"
    else "Approved"
  }

  /** Reads an edited plan back out of an approval message, if it carries one. */
  function ExtractUpdatedPlan(text: string): (r: Option<string>)
    ensures r.Some? ==> text == UpdatedPlanOpening + r.value + UpdatedPlanClosing
  {
    var n := |UpdatedPlanOpening|;
    var c := |UpdatedPlanClosing|;
    if |text| >= n + c && text[..n] == UpdatedPlanOpening && text[|text| - c..] == UpdatedPlanClosing then
      var plan := text[n..|text| - c];
      assert text == text[..n] + plan + text[|text| - c..];
      Some(plan)
    else None
  }

  /** The approval message loses nothing: an edited plan is recovered
      exactly, and a plain approval carries no plan. */
  lemma ApprovalTextRoundTrip(updatedPlan: Option<string>, mode: ApprovalMode)
    ensures Truthy(updatedPlan) ==> ExtractUpdatedPlan(ApprovalText(updatedPlan, mode)) == updatedPlan
    ensures !Truthy(updatedPlan) ==> ExtractUpdatedPlan(ApprovalText(updatedPlan, mode)).None?
  {
    var text := ApprovalText(updatedPlan, mode);
    if Truthy(updatedPlan) {
      var n := |UpdatedPlanOpening|;
      var c := |UpdatedPlanClosing|;
      assert text[..n] == UpdatedPlanOpening;
      assert text[|text| - c..] == UpdatedPlanClosing;
      assert text[n..|text| - c] == updatedPlan.value;
    }
  }

  /** Marks every message bearing `planId` as an approved plan. */
  function MarkMessagesApproved(messages: seq<ChatMessage>, planId: string): (r: seq<ChatMessage>)
    ensures |r| == |messages|
    ensures forall k :: 0 <= k < |r| && messages[k].id == planId ==> r[k] == messages[k].(planApproved := true)
    ensures forall k :: 0 <= k < |r| && messages[k].id != planId ==> r[k] == messages[k]
  {
    if messages == [] then []
    else
      var head := if messages[0].id == planId then messages[0].(planApproved := true) else messages[0];
      [head] + MarkMessagesApproved(messages[1..], planId)
  }

  /** Marking a plan approved a second time leaves the messages as they are. */
  lemma {:induction false} MarkMessagesApprovedIdempotent(messages: seq<ChatMessage>, planId: string)
    ensures MarkMessagesApproved(MarkMessagesApproved(messages, planId), planId)
         == MarkMessagesApproved(messages, planId)
  {
    if messages != [] {
      MarkMessagesApprovedIdempotent(messages[1..], planId);
    }
  }

  /** The optimistic cache update: absent sessions stay absent; a cached
      session gets the plan id appended to its approved ids and the plan
      message flagged. */
  function MarkSessionApproved(old_: Option<Session>, planId: string): (r: Option<Session>)
    ensures old_.None? <==> r.None?
    ensures r.Some? ==> r.value.approvedPlanMessageIds == Some(old_.value.approvedPlanMessageIds.GetOr([]) + [planId])
    ensures r.Some? ==> r.value.digest == old_.value.digest
    ensures r.Some? ==> |r.value.messages| == |old_.value.messages|
    ensures r.Some? ==> forall k :: 0 <= k < |r.value.messages| ==>
      r.value.messages[k].planApproved == (old_.value.messages[k].planApproved || old_.value.messages[k].id == planId)
    ensures r.Some? ==> forall k :: 0 <= k < |r.value.messages| ==>
      r.value.messages[k] == old_.value.messages[k].(planApproved := r.value.messages[k].planApproved)
    ensures r.Some? ==> r.value.messages == MarkMessagesApproved(old_.value.messages, planId)
  {
    match old_
    case None => None
    case Some(s) =>
      Some(s.(approvedPlanMessageIds := Some(s.approvedPlanMessageIds.GetOr([]) + [planId]),
              messages := MarkMessagesApproved(s.messages, planId)))
  }

  /** Approving the same plan twice records its id twice in the approved
      list (the update appends without checking). */
  lemma ApprovingTwiceRecordsTwice(s: Session, planId: string)
    requires s.approvedPlanMessageIds.GetOr([]) == []
    ensures MarkSessionApproved(MarkSessionApproved(Some(s), planId), planId).value.approvedPlanMessageIds
         == Some([planId, planId])
  {
    assert [] + [planId] == [planId];
    assert [planId] + [planId] == [planId, planId];
  }

  /** The backend call `markPlanApproved(worktreeId, worktreePath, sessionId, messageId)`. */
  datatype MarkCall = MarkCall(worktreeId: string, worktreePath: string, sessionId: string, messageId: string)

  /** A message waiting in a session's queue. The four pending attachment
      lists are kept as lists of names. */
  datatype QueuedMessage = QueuedMessage(
    id: string,
    message: string,
    pendingImages: seq<string>,
    pendingFiles: seq<string>,
    pendingSkills: seq<string>,
    pendingTextFiles: seq<string>,
    model: string,
    provider: Option<string>,
    executionMode: ExecutionMode,
    thinkingLevel: string,
    effortLevel: Option<string>,
    mcpConfig: Option<map<string, JsonText>>,
    queuedAt: int)

  /** What the hook reads when the user approves: the active ids, the pending
      plan message, and the current values of the selection refs. */
  datatype ApprovalContext = ApprovalContext(
    sessionId: Option<string>,
    worktreeId: Option<string>,
    worktreePath: Option<string>,
    pendingPlan: Option<ChatMessage>,
    model: string,
    provider: Option<string>,
    thinkingLevel: string,
    effortLevel: string,
    adaptiveThinking: bool,
    codexBackend: bool,
    mcpServersData: Option<seq<McpServerInfo>>,
    enabledMcpServers: seq<string>)

  /** The effort level is sent only with adaptive thinking or the Codex
      backend; the thinking level is always sent. */
  function EffortOf(ctx: ApprovalContext): (r: Option<string>)
    ensures r.Some? <==> ctx.adaptiveThinking || ctx.codexBackend
    ensures r.Some? ==> r.value == ctx.effortLevel
  {
    if ctx.adaptiveThinking || ctx.codexBackend then Some(ctx.effortLevel) else None
  }

  /** The queued approval message, given the fresh id and the clock reading
      (both come from outside the hook). */
  function QueuedApproval(ctx: ApprovalContext, updatedPlan: Option<string>, mode: ApprovalMode,
                          newId: string, now: int): QueuedMessage {
    QueuedMessage(newId, ApprovalText(updatedPlan, mode), [], [], [], [],
      ctx.model, ctx.provider, mode, ctx.thinkingLevel, EffortOf(ctx),
      McpConfigOf(ctx.mcpServersData.GetOr([]), ctx.enabledMcpServers), now)
  }

  /** The state the approval touches: the session query cache, the per-session
      execution modes and queues, and the backend calls made. */
  datatype ApprovalView = ApprovalView(
    cache: map<string, Session>,
    executionModes: map<string, ExecutionMode>,
    queues: map<string, seq<QueuedMessage>>,
    markCalls: seq<MarkCall>)

  /** The whole effect of one approval. */
  function ApproveStep(v: ApprovalView, ctx: ApprovalContext, updatedPlan: Option<string>, mode: ApprovalMode,
                       newId: string, now: int): ApprovalView {
    if !Truthy(ctx.sessionId) || !Truthy(ctx.worktreeId) || !Truthy(ctx.worktreePath) then v
    else
      var sid := ctx.sessionId.value;
      var marked :=
        if ctx.pendingPlan.None? then v
        else
          var planId := ctx.pendingPlan.value.id;
          var updated := MarkSessionApproved(Lookup(v.cache, sid), planId);
          v.(markCalls := v.markCalls + [MarkCall(ctx.worktreeId.value, ctx.worktreePath.value, sid, planId)],
             cache := if updated.Some? then v.cache[sid := updated.value] else v.cache);
      marked.(executionModes := marked.executionModes[sid := mode],
              queues := marked.queues[sid := Lookup(marked.queues, sid).GetOr([]) + [QueuedApproval(ctx, updatedPlan, mode, newId, now)]])
  }

  /** Without an active session, worktree id and worktree path, approving
      does nothing at all. */
  lemma ApproveNeedsActiveSession(v: ApprovalView, ctx: ApprovalContext, updatedPlan: Option<string>,
                                  mode: ApprovalMode, newId: string, now: int)
    requires !Truthy(ctx.sessionId) || !Truthy(ctx.worktreeId) || !Truthy(ctx.worktreePath)
    ensures ApproveStep(v, ctx, updatedPlan, mode, newId, now) == v
  {
  }

  /** An approval switches the session to the chosen mode and queues exactly
      one message behind those already waiting; no other session's mode or
      queue changes. The message carries the approval text, the mode, the
      thinking level, the effort level exactly when adaptive thinking or Codex
      is on, the MCP payload of the enabled servers, and no attachments. */
  lemma ApproveQueuesOneMessage(v: ApprovalView, ctx: ApprovalContext, updatedPlan: Option<string>,
                                mode: ApprovalMode, newId: string, now: int)
    requires Truthy(ctx.sessionId) && Truthy(ctx.worktreeId) && Truthy(ctx.worktreePath)
    ensures var w := ApproveStep(v, ctx, updatedPlan, mode, newId, now);
      var sid := ctx.sessionId.value;
      && w.executionModes == v.executionModes[sid := mode]
      && sid in w.queues
      && w.queues[sid][..|w.queues[sid]| - 1] == Lookup(v.queues, sid).GetOr([])
      && (forall other :: other != sid ==> Lookup(w.queues, other) == Lookup(v.queues, other))
      && var q := w.queues[sid][|w.queues[sid]| - 1];
      && q.id == newId && q.queuedAt == now
      && q.message == ApprovalText(updatedPlan, mode)
      && q.executionMode == mode
      && q.model == ctx.model && q.provider == ctx.provider
      && q.thinkingLevel == ctx.thinkingLevel
      && (q.effortLevel.Some? <==> ctx.adaptiveThinking || ctx.codexBackend)
      && (q.effortLevel.Some? ==> q.effortLevel.value == ctx.effortLevel)
      && q.mcpConfig == McpConfigOf(ctx.mcpServersData.GetOr([]), ctx.enabledMcpServers)
      && q.pendingImages == [] && q.pendingFiles == [] && q.pendingSkills == [] && q.pendingTextFiles == []
  {
    var w := ApproveStep(v, ctx, updatedPlan, mode, newId, now);
    var sid := ctx.sessionId.value;
    var before := Lookup(v.queues, sid).GetOr([]);
    assert w.queues[sid] == before + [QueuedApproval(ctx, updatedPlan, mode, newId, now)];
    assert w.queues[sid][..|w.queues[sid]| - 1] == before;
  }

  /** With a pending plan message, approving records one backend call for it
      and flags it in the cached session (when the session is cached); other
      cached sessions are untouched. Without one, no call is made and the
      cache is unchanged. */
  lemma ApproveMarksPendingPlan(v: ApprovalView, ctx: ApprovalContext, updatedPlan: Option<string>,
                                mode: ApprovalMode, newId: string, now: int)
    requires Truthy(ctx.sessionId) && Truthy(ctx.worktreeId) && Truthy(ctx.worktreePath)
    ensures var w := ApproveStep(v, ctx, updatedPlan, mode, newId, now);
      var sid := ctx.sessionId.value;
      && (ctx.pendingPlan.None? ==> w.cache == v.cache && w.markCalls == v.markCalls)
      && (ctx.pendingPlan.Some? ==>
            && w.markCalls == v.markCalls + [MarkCall(ctx.worktreeId.value, ctx.worktreePath.value, sid, ctx.pendingPlan.value.id)]
            && (sid in w.cache <==> sid in v.cache)
            && (forall other :: other != sid ==> Lookup(w.cache, other) == Lookup(v.cache, other))
            && (sid in w.cache ==> forall m :: m in w.cache[sid].messages && m.id == ctx.pendingPlan.value.id ==> m.planApproved))
  {
    var w := ApproveStep(v, ctx, updatedPlan, mode, newId, now);
    var sid := ctx.sessionId.value;
    if ctx.pendingPlan.Some? && sid in w.cache {
      var s := w.cache[sid];
      forall m | m in s.messages && m.id == ctx.pendingPlan.value.id
        ensures m.planApproved
      {
        var k :| 0 <= k < |s.messages| && s.messages[k] == m;
      }
    }
  }

  /** The chat-store and query-cache state the approval works on. */
  class ApprovalState {
    var cache: map<string, Session>
    var executionModes: map<string, ExecutionMode>
    var queues: map<string, seq<QueuedMessage>>
    var markCalls: seq<MarkCall>

    constructor(cache0: map<string, Session>)
      ensures View() == ApprovalView(cache0, map[], map[], [])
    {
      cache := cache0;
      executionModes := map[];
      queues := map[];
      markCalls := [];
    }

    function View(): ApprovalView
      reads this
    {
      ApprovalView(cache, executionModes, queues, markCalls)
    }

    /** `setExecutionMode(sessionId, mode)`. */
    method SetExecutionMode(sid: string, mode: ExecutionMode)
      modifies this
      ensures View() == old(View()).(executionModes := old(executionModes)[sid := mode])
    {
      executionModes := executionModes[sid := mode];
    }

    /** `enqueueMessage(sessionId, message)`: appends to the session's queue. */
    method EnqueueMessage(sid: string, msg: QueuedMessage)
      modifies this
      ensures View() == old(View()).(queues := old(queues)[sid := Lookup(old(queues), sid).GetOr([]) + [msg]])
    {
      var q := if sid in queues then queues[sid] else [];
      queues := queues[sid := q + [msg]];
    }

    /** `approve(updatedPlan, mode)`; `newId` and `now` stand for
        `generateId()` and `Date.now()`. */
    method Approve(ctx: ApprovalContext, updatedPlan: Option<string>, mode: ApprovalMode, newId: string, now: int)
      modifies this
      ensures View() == ApproveStep(old(View()), ctx, updatedPlan, mode, newId, now)
    {
      if !Truthy(ctx.sessionId) || !Truthy(ctx.worktreeId) || !Truthy(ctx.worktreePath) {
        return;
      }
      var sid := ctx.sessionId.value;
      if ctx.pendingPlan.Some? {
        var planId := ctx.pendingPlan.value.id;
        markCalls := markCalls + [MarkCall(ctx.worktreeId.value, ctx.worktreePath.value, sid, planId)];
        var updated := MarkSessionApproved(Lookup(cache, sid), planId);
        if updated.Some? {
          cache := cache[sid := updated.value];
        }
      }
      var text := ApprovalText(updatedPlan, mode);
      SetExecutionMode(sid, mode);
      var mcpConfig := BuildMcpConfigJson(ctx.mcpServersData.GetOr([]), ctx.enabledMcpServers);
      var effort := if ctx.adaptiveThinking || ctx.codexBackend then Some(ctx.effortLevel) else None;
      var queued := QueuedMessage(newId, text, [], [], [], [], ctx.model, ctx.provider, mode,
                                  ctx.thinkingLevel, effort, mcpConfig, now);
      EnqueueMessage(sid, queued);
    }
  }
}
