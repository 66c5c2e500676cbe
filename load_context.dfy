/** The handlers of the load-context dialog: loading and removing GitHub
    issues and pull requests as session context, attaching, viewing,
    renaming and deleting saved contexts, and generating a context from
    another session. Each in-flight operation is tracked in a set while its
    backend call runs (src/components/magic/hooks/useLoadContextHandlers.ts). */
module LoadContext {
  import opened Common
  import opened Text

  /** Issues and pull requests: both are identified by a number. */
  datatype NumberKind = Issue | Pr

  /** Toast kinds: the spinner, then a success or an error. */
  datatype ToastKind = Loading | Success | Failure

  /** A toast shown (or, with an id already shown, updated). */
  datatype Toast = Toast(id: nat, kind: ToastKind, text: string)

  /** What the viewer shows. */
  datatype ContextKind = IssueContext | PrContext | SavedContext
  datatype ViewingContext = ViewingContext(kind: ContextKind, number: Option<int>, slug: Option<string>,
                                           title: string, content: string)

  /** A saved context file. */
  datatype SavedFile = SavedFile(name: string, slug: string, path: string, filename: string)

  /** The session a context is generated from. */
  datatype SourceSession = SourceSession(sessionId: string, worktreeId: string, worktreePath: string,
                                         projectName: string)

  /** The backend calls the handlers make. `tracked` records whether the item
      was in its in-flight set when the call was made. */
  datatype Call =
    | LoadCall(kind: NumberKind, sessionId: string, number: int, worktreePath: string, tracked: bool)
    | RemoveCall(kind: NumberKind, sessionId: string, number: int, worktreePath: string, tracked: bool)
    | RefetchNumbers(kind: NumberKind)
    | DeleteFile(path: string)
    | RefetchContexts
    | AttachCall(sessionId: string, path: string, slug: string, tracked: bool)
    | RemoveAttachedCall(sessionId: string, slug: string, tracked: bool)
    | RefetchAttached
    | ContentCall(sessionId: string, slug: string)
    | GenerateCall(source: SourceSession, customPrompt: Option<string>, model: Option<string>,
                   customProfileName: Option<string>, generating: bool)
    | Rename(filename: string, newName: string)

  /** The context-summary preferences a generation reads: the custom prompt
      and the model, each absent when missing or null. */
  datatype SummaryPrefs = SummaryPrefs(prompt: Option<string>, model: Option<string>)

  /** `preferences?.magic_prompts?.context_summary`. */
  function SummaryPrompt(prefs: Option<SummaryPrefs>): Option<string> {
    if prefs.Some? then prefs.value.prompt else None
  }

  /** `preferences?.magic_prompt_models?.context_summary_model`. */
  function SummaryModel(prefs: Option<SummaryPrefs>): Option<string> {
    if prefs.Some? then prefs.value.model else None
  }

  /** How a load ended: the loaded item's number, title and counts, or the
      error. */
  datatype LoadOutcome = Loaded(number: int, title: string, commentCount: int, reviewCount: int)
                       | LoadFailed(error: string)

  /** How a call without a useful result ended. */
  datatype Outcome = Done | Failed(error: string)

  /** How reading a saved context's content ended. */
  datatype ContentOutcome = Content(text: string) | ContentFailed(error: string)

  /** How generating a context from a session ended: the generation fails, or
      it returns the new file and the attach that follows fails or succeeds. */
  datatype GenerateOutcome =
    | GenerateFailed(error: string)
    | AttachFailed(filename: string, path: string, attachError: string)
    | Attached(filename: string, path: string)

  /** Everything the handlers change. `searchClears` counts the calls of
      `onClearSearch`. */
  datatype ContextView = ContextView(
    loadingNumbers: set<int>,
    removingNumbers: set<int>,
    loadingSlugs: set<string>,
    removingSlugs: set<string>,
    generatingSessionId: Option<string>,
    editingFilename: Option<string>,
    editValue: string,
    viewingContext: Option<ViewingContext>,
    toasts: seq<Toast>,
    nextToastId: nat,
    calls: seq<Call>,
    searchClears: nat)

  // ---------------------------------------------------------------- texts

  /** "issue" or "PR", as the messages spell them. */
  function KindWord(kind: NumberKind): string {
    if kind == Issue then "issue" else "PR"
  }

  /** "Issue" or "PR" at the start of a message. */
  function KindTitle(kind: NumberKind): string {
    if kind == Issue then "Issue" else "PR"
  }

  /** The spinner text of a load. */
  function LoadingText(kind: NumberKind, n: int, isRefresh: bool): string {
    (if isRefresh then "Refreshing " else "Loading ") + KindWord(kind) + " #" + IntToString(n) + "..."
  }

  /** The success text of a load: number, title, and the comment count (and,
      for a PR, the review count) when positive. */
  function LoadedText(kind: NumberKind, number: int, title: string, commentCount: int, reviewCount: int): string {
    KindTitle(kind) + " #" + IntToString(number) + ": " + title
      + (if commentCount > 0 then " (" + IntToString(commentCount) + " comments)" else "")
      + (if kind == Pr && reviewCount > 0 then ", " + IntToString(reviewCount) + " reviews" else "")
  }

  /** `context.name || context.slug`. */
  function DisplayName(name: string, slug: string): (r: string)
    ensures name != "" ==> r == name
    ensures name == "" ==> r == slug
  {
    if name != "" then name else slug
  }

  // ---------------------------------------------------------------- slug

  /** The pieces after the first two (`slice(2)`). */
  function DropTwo(parts: seq<string>): seq<string> {
    if |parts| >= 2 then parts[2..] else []
  }

  /** The slug of a generated context file: drop the first two
      `-`-separated pieces, and remove the first ".md". */
  function Slug(filename: string): string {
    RemoveFirst(Join(DropTwo(Split(filename, '-')), '-'), ".md")
  }

  /** For a name `a-b-rest` whose first two pieces have no dash, the slug is
      `rest` without its first ".md". */
  lemma SlugDropsTwoPieces(a: string, b: string, rest: string)
    requires '-' !in a && '-' !in b
    ensures Slug(a + "-" + b + "-" + rest) == RemoveFirst(rest, ".md")
  {
    assert a + "-" + b + "-" + rest == a + ['-'] + (b + ['-'] + rest);
    SplitAfterPiece(a, '-', b + ['-'] + rest);
    SplitAfterPiece(b, '-', rest);
    var parts := [a] + ([b] + Split(rest, '-'));
    assert DropTwo(parts) == Split(rest, '-');
    JoinSplit(rest, '-');
  }

  /** A name without a dash has the empty slug. */
  lemma SlugOfShortName(a: string)
    requires '-' !in a
    ensures Slug(a) == ""
  {
    SplitNoSeparator(a, '-');
    assert FirstIndexOf("", ".md") == -1;
  }

  /** The first occurrence is where it occurs with none before. */
  lemma FirstIndexOfIs(s: string, sub: string, i: nat)
    requires OccursAt(s, sub, i)
    requires forall j :: 0 <= j < i ==> !OccursAt(s, sub, j)
    ensures FirstIndexOf(s, sub) == i
  {
  }

  /** Removing the first ".md" from `x + ".md" + y` when `x` holds none. */
  lemma RemoveMdAt(x: string, y: string)
    requires forall j :: 0 <= j < |x| ==> !OccursAt(x + ".md" + y, ".md", j)
    ensures RemoveFirst(x + ".md" + y, ".md") == x + y
  {
    var s := x + ".md" + y;
    assert s[|x|..|x| + 3] == ".md";
    FirstIndexOfIs(s, ".md", |x|);
    assert s[..|x|] == x && s[|x| + 3..] == y;
  }

  /** The usual case: for a name without ".md" before its extension, the
      extension is dropped. */
  lemma SlugOfDatedName(year: string, month: string, name: string)
    requires '-' !in year && '-' !in month
    requires forall j :: 0 <= j < |name| ==> !OccursAt(name + ".md", ".md", j)
    ensures Slug(year + "-" + month + "-" + (name + ".md")) == name
  {
    SlugDropsTwoPieces(year, month, name + ".md");
    assert name + ".md" + "" == name + ".md";
    RemoveMdAt(name, "");
    assert name + "" == name;
  }

  /** Only the first ".md" is removed: one inside the name goes, and the
      extension stays. */
  lemma SlugRemovesFirstMdOnly(year: string, month: string, a: string, b: string)
    requires '-' !in year && '-' !in month
    requires forall j :: 0 <= j < |a| ==> !OccursAt(a + ".md" + (b + ".md"), ".md", j)
    ensures Slug(year + "-" + month + "-" + (a + ".md" + (b + ".md"))) == a + (b + ".md")
  {
    SlugDropsTwoPieces(year, month, a + ".md" + (b + ".md"));
    RemoveMdAt(a, b + ".md");
  }

  /** A name with one dash also has the empty slug: `slice(2)` of two pieces
      is empty. */
  lemma SlugOfOneDash(a: string, b: string)
    requires '-' !in a && '-' !in b
    ensures Slug(a + "-" + b) == ""
  {
    SplitAfterPiece(a, '-', b);
    SplitNoSeparator(b, '-');
    assert a + "-" + b == a + ['-'] + b;
    assert FirstIndexOf("", ".md") == -1;
  }

  // ---------------------------------------------------------------- steps

  /** A toast with a fresh id. */
  function Notify(v: ContextView, kind: ToastKind, text: string): ContextView {
    v.(toasts := v.toasts + [Toast(v.nextToastId, kind, text)], nextToastId := v.nextToastId + 1)
  }

  /** `resetState`: nothing in flight, nothing being generated or edited. */
  function ResetStep(v: ContextView): (w: ContextView)
    ensures w.loadingNumbers == {} && w.removingNumbers == {} && w.loadingSlugs == {} && w.removingSlugs == {}
    ensures w.generatingSessionId.None? && w.editingFilename.None? && w.editValue == ""
    ensures w.viewingContext == v.viewingContext && w.toasts == v.toasts && w.calls == v.calls
    ensures w.nextToastId == v.nextToastId && w.searchClears == v.searchClears
  {
    v.(loadingNumbers := {}, removingNumbers := {}, loadingSlugs := {}, removingSlugs := {},
       generatingSessionId := None, editingFilename := None, editValue := "")
  }

  /** `handleLoadIssue` / `handleLoadPR`: the number is tracked in the shared
      loading set around the call, the spinner toast is turned into the
      result, and the list is refetched on success. */
  function LoadStep(v: ContextView, kind: NumberKind, n: int, isRefresh: bool, sessionId: Option<string>,
                    worktreePath: Option<string>, outcome: LoadOutcome): ContextView {
    if !Truthy(sessionId) || !Truthy(worktreePath) then Notify(v, Failure, "No active session")
    else
      var id := v.nextToastId;
      var started := v.(loadingNumbers := v.loadingNumbers + {n},
                        toasts := v.toasts + [Toast(id, Loading, LoadingText(kind, n, isRefresh))],
                        nextToastId := id + 1,
                        calls := v.calls + [LoadCall(kind, sessionId.value, n, worktreePath.value, true)]);
      var ended :=
        match outcome
        case Loaded(number, title, comments, reviews) =>
          started.(calls := started.calls + [RefetchNumbers(kind)],
                   toasts := started.toasts + [Toast(id, Success, LoadedText(kind, number, title, comments, reviews))])
        case LoadFailed(e) =>
          started.(toasts := started.toasts + [Toast(id, Failure, e)]);
      ended.(loadingNumbers := ended.loadingNumbers - {n})
  }

  /** Without a session or a worktree path a load only reports the error. */
  lemma LoadWithoutSession(v: ContextView, kind: NumberKind, n: int, isRefresh: bool, sessionId: Option<string>,
                           worktreePath: Option<string>, outcome: LoadOutcome)
    requires !Truthy(sessionId) || !Truthy(worktreePath)
    ensures var w := LoadStep(v, kind, n, isRefresh, sessionId, worktreePath, outcome);
      && w.loadingNumbers == v.loadingNumbers && w.removingNumbers == v.removingNumbers
      && w.calls == v.calls
      && w.toasts == v.toasts + [Toast(v.nextToastId, Failure, "No active session")]
  {
  }

  /** A load leaves its number out of the loading set, whatever the
      outcome; makes its call while tracking the number; and shows exactly two
      toasts under one id, the spinner and then the result. */
  lemma LoadTracksNumber(v: ContextView, kind: NumberKind, n: int, isRefresh: bool, sid: string,
                         path: string, outcome: LoadOutcome)
    requires sid != "" && path != ""
    ensures var w := LoadStep(v, kind, n, isRefresh, Some(sid), Some(path), outcome);
      && w.loadingNumbers == v.loadingNumbers - {n}
      && w.removingNumbers == v.removingNumbers
      && w.calls[|v.calls|] == LoadCall(kind, sid, n, path, true)
      && |w.toasts| == |v.toasts| + 2
      && w.toasts[|v.toasts|] == Toast(v.nextToastId, Loading, LoadingText(kind, n, isRefresh))
      && w.toasts[|v.toasts| + 1].id == v.nextToastId
      && (w.toasts[|v.toasts| + 1].kind == Success <==> outcome.Loaded?)
  {
  }

  /** Issues and pull requests share the loading set: finishing the load of
      issue `n` also clears a pull request `n` still loading. */
  lemma IssueLoadClearsPrOfSameNumber(v: ContextView, n: int, sid: string, path: string, outcome: LoadOutcome)
    requires sid != "" && path != "" && n in v.loadingNumbers
    ensures n !in LoadStep(v, Issue, n, false, Some(sid), Some(path), outcome).loadingNumbers
  {
  }

  /** `handleRemoveIssue` / `handleRemovePR`: silent without a session or
      path; otherwise the number is tracked in the removing set around the
      call, and a toast reports the outcome. */
  function RemoveStep(v: ContextView, kind: NumberKind, n: int, sessionId: Option<string>,
                      worktreePath: Option<string>, outcome: Outcome): ContextView {
    if !Truthy(sessionId) || !Truthy(worktreePath) then v
    else
      var started := v.(removingNumbers := v.removingNumbers + {n},
                        calls := v.calls + [RemoveCall(kind, sessionId.value, n, worktreePath.value, true)]);
      var ended :=
        match outcome
        case Done =>
          Notify(started.(calls := started.calls + [RefetchNumbers(kind)]), Success,
                 "Removed " + KindWord(kind) + " #" + IntToString(n) + " from context")
        case Failed(e) =>
          Notify(started, Failure, "Failed to remove " + KindWord(kind) + ": " + e);
      ended.(removingNumbers := ended.removingNumbers - {n})
  }

  /** Removing leaves the number out of the removing set and the loading set
      as it was; without a session nothing at all happens. */
  lemma RemoveTracksNumber(v: ContextView, kind: NumberKind, n: int, sessionId: Option<string>,
                           worktreePath: Option<string>, outcome: Outcome)
    ensures var w := RemoveStep(v, kind, n, sessionId, worktreePath, outcome);
      && (!Truthy(sessionId) || !Truthy(worktreePath) ==> w == v)
      && (Truthy(sessionId) && Truthy(worktreePath) ==>
            && w.removingNumbers == v.removingNumbers - {n}
            && w.loadingNumbers == v.loadingNumbers
            && w.calls[|v.calls|] == RemoveCall(kind, sessionId.value, n, worktreePath.value, true)
            && (outcome.Done? ==> w.calls == v.calls + [RemoveCall(kind, sessionId.value, n, worktreePath.value, true), RefetchNumbers(kind)])
            && (outcome.Failed? ==> w.calls == v.calls + [RemoveCall(kind, sessionId.value, n, worktreePath.value, true)])
            && |w.toasts| == |v.toasts| + 1
            && w.toasts[|v.toasts|].id == v.nextToastId
            && w.toasts[|v.toasts|].kind == (if outcome.Done? then Success else Failure))
  {
  }

  /** `handleSelectIssue` / `handleSelectPR`: a load, and the search is
      cleared. */
  function SelectStep(v: ContextView, kind: NumberKind, n: int, sessionId: Option<string>,
                      worktreePath: Option<string>, outcome: LoadOutcome): (w: ContextView)
    ensures w.searchClears == v.searchClears + 1
    ensures w.(searchClears := v.searchClears) == LoadStep(v, kind, n, false, sessionId, worktreePath, outcome)
  {
    var w := LoadStep(v, kind, n, false, sessionId, worktreePath, outcome);
    w.(searchClears := w.searchClears + 1)
  }

  /** The viewer for a loaded or listed issue or PR (content is fetched by
      the viewer itself). */
  function NumberView(kind: NumberKind, number: int, title: string): (r: ViewingContext)
    ensures r.number == Some(number) && r.title == title && r.content == "" && r.slug.None?
    ensures r.kind == (if kind == Issue then IssueContext else PrContext)
  {
    ViewingContext(if kind == Issue then IssueContext else PrContext, Some(number), None, title, "")
  }

  /** `handleDeleteContext`: the file is deleted, and the list refetched on
      success; a failure is only logged. */
  function DeleteContextStep(v: ContextView, file: SavedFile, outcome: Outcome): (w: ContextView)
    ensures w.toasts == v.toasts
    ensures |w.calls| > |v.calls| && w.calls[..|v.calls| + 1] == v.calls + [DeleteFile(file.path)]
    ensures outcome.Done? <==> |w.calls| == |v.calls| + 2
    ensures outcome.Done? ==> w.calls == v.calls + [DeleteFile(file.path), RefetchContexts]
    ensures outcome.Failed? ==> w.calls == v.calls + [DeleteFile(file.path)]
    ensures w.(calls := v.calls) == v
  {
    var started := v.(calls := v.calls + [DeleteFile(file.path)]);
    if outcome.Done? then
      var w := started.(calls := started.calls + [RefetchContexts]);
      assert w.calls[..|v.calls| + 1] == started.calls;
      w
    else started
  }

  /** `handleAttachContext`: the slug is tracked in the loading set around
      the call; the search is cleared only on success. */
  function AttachStep(v: ContextView, file: SavedFile, sessionId: Option<string>, outcome: Outcome): ContextView {
    if !Truthy(sessionId) then Notify(v, Failure, "No active session")
    else
      var id := v.nextToastId;
      var started := v.(loadingSlugs := v.loadingSlugs + {file.slug},
                        toasts := v.toasts + [Toast(id, Loading, "Attaching context \"" + DisplayName(file.name, file.slug) + "\"...")],
                        nextToastId := id + 1,
                        calls := v.calls + [AttachCall(sessionId.value, file.path, file.slug, true)]);
      var ended :=
        match outcome
        case Done =>
          started.(calls := started.calls + [RefetchAttached],
                   toasts := started.toasts + [Toast(id, Success, "Context \"" + DisplayName(file.name, file.slug) + "\" attached")],
                   searchClears := started.searchClears + 1)
        case Failed(e) =>
          started.(toasts := started.toasts + [Toast(id, Failure, e)]);
      ended.(loadingSlugs := ended.loadingSlugs - {file.slug})
  }

  /** Attaching leaves the slug out of the loading set, reuses the spinner's
      toast id for the result, and clears the search exactly on success. */
  lemma AttachClearsSearchOnSuccess(v: ContextView, file: SavedFile, sid: string, outcome: Outcome)
    requires sid != ""
    ensures var w := AttachStep(v, file, Some(sid), outcome);
      && w.loadingSlugs == v.loadingSlugs - {file.slug}
      && (w.searchClears == v.searchClears + 1 <==> outcome.Done?)
      && (outcome.Failed? ==> w.searchClears == v.searchClears)
      && |w.toasts| == |v.toasts| + 2 && w.toasts[|v.toasts|].id == w.toasts[|v.toasts| + 1].id == v.nextToastId
  {
  }

  /** `handleRemoveAttachedContext`: silent without a session; otherwise the
      slug is tracked in the removing set around the call. */
  function RemoveAttachedStep(v: ContextView, slug: string, sessionId: Option<string>, outcome: Outcome): (w: ContextView)
    ensures !Truthy(sessionId) ==> w == v
    ensures Truthy(sessionId) ==>
              && w.removingSlugs == v.removingSlugs - {slug} && w.loadingSlugs == v.loadingSlugs
              && |w.toasts| == |v.toasts| + 1
              && (w.toasts[|v.toasts|].kind == Success <==> outcome.Done?)
    ensures Truthy(sessionId) ==>
              && w.toasts[|v.toasts|] == Toast(v.nextToastId, if outcome.Done? then Success else Failure,
                                               if outcome.Done? then "Removed context \"" + slug + "\""
                                               else "Failed to remove context: " + outcome.error)
              && w.nextToastId == v.nextToastId + 1
              && (outcome.Done? ==> w.calls == v.calls + [RemoveAttachedCall(sessionId.value, slug, true), RefetchAttached])
              && (outcome.Failed? ==> w.calls == v.calls + [RemoveAttachedCall(sessionId.value, slug, true)])
  {
    if !Truthy(sessionId) then v
    else
      var started := v.(removingSlugs := v.removingSlugs + {slug},
                        calls := v.calls + [RemoveAttachedCall(sessionId.value, slug, true)]);
      var ended :=
        match outcome
        case Done => Notify(started.(calls := started.calls + [RefetchAttached]), Success, "Removed context \"" + slug + "\"")
        case Failed(e) => Notify(started, Failure, "Failed to remove context: " + e);
      ended.(removingSlugs := ended.removingSlugs - {slug})
  }

  /** `handleViewAttachedContext`: shows the fetched content, titled by the
      context's name or slug; a failure is reported and the viewer kept. */
  function ViewAttachedStep(v: ContextView, name: string, slug: string, sessionId: Option<string>,
                            outcome: ContentOutcome): (w: ContextView)
    ensures !Truthy(sessionId) ==> w == v
    ensures Truthy(sessionId) && outcome.Content? ==>
      w.viewingContext == Some(ViewingContext(SavedContext, None, Some(slug), DisplayName(name, slug), outcome.text))
    ensures outcome.ContentFailed? ==> w.viewingContext == v.viewingContext
    ensures Truthy(sessionId) ==> w.calls == v.calls + [ContentCall(sessionId.value, slug)]
    ensures Truthy(sessionId) && outcome.Content? ==> w.toasts == v.toasts && w.nextToastId == v.nextToastId
    ensures Truthy(sessionId) && outcome.ContentFailed? ==>
      && w.toasts == v.toasts + [Toast(v.nextToastId, Failure, "Failed to load context: " + outcome.error)]
      && w.nextToastId == v.nextToastId + 1
  {
    if !Truthy(sessionId) then v
    else
      var started := v.(calls := v.calls + [ContentCall(sessionId.value, slug)]);
      match outcome
      case Content(text) =>
        started.(viewingContext := Some(ViewingContext(SavedContext, None, Some(slug), DisplayName(name, slug), text)))
      case ContentFailed(e) => Notify(started, Failure, "Failed to load context: " + e)
  }

  /** `handleStartEdit`: edit the file's name, starting from its display
      name. */
  function StartEditStep(v: ContextView, file: SavedFile): (w: ContextView)
    ensures w.editingFilename == Some(file.filename)
    ensures w.editValue == DisplayName(file.name, file.slug)
  {
    v.(editingFilename := Some(file.filename), editValue := DisplayName(file.name, file.slug))
  }

  /** `handleRenameSubmit`: rename to the trimmed edit value and leave edit
      mode. */
  function RenameSubmitStep(v: ContextView, filename: string): (w: ContextView)
    ensures w.editingFilename.None?
    ensures w.calls == v.calls + [Rename(filename, Trim(v.editValue))]
  {
    v.(calls := v.calls + [Rename(filename, Trim(v.editValue))], editingFilename := None)
  }

  /** `handleRenameKeyDown`: Enter submits, Escape cancels, other keys
      change nothing. */
  function RenameKeyDownStep(v: ContextView, key: string, filename: string): (w: ContextView)
    ensures key == "Enter" ==> w == RenameSubmitStep(v, filename)
    ensures key == "Escape" ==> w == v.(editingFilename := None)
    ensures key != "Enter" && key != "Escape" ==> w == v
  {
    if key == "Enter" then RenameSubmitStep(v, filename)
    else if key == "Escape" then v.(editingFilename := None)
    else v
  }

  /** Submitting a rename sends a name without surrounding whitespace, and
      submitting the same value again sends the same name. */
  lemma RenameSendsTrimmedName(v: ContextView, filename: string)
    ensures var w := RenameSubmitStep(v, filename);
      var sent := w.calls[|w.calls| - 1].newName;
      Trim(sent) == sent
  {
    TrimIdempotent(v.editValue);
  }

  /** `handleSessionClick`: generate a context from another session, attach
      it under the slug of the generated file, and report the outcome; the
      generating marker is cleared at the end whatever happened. */
  function SessionClickStep(v: ContextView, source: SourceSession, activeSessionId: Option<string>,
                            prefs: Option<SummaryPrefs>, profile: Option<string>,
                            outcome: GenerateOutcome): ContextView {
    if !Truthy(activeSessionId) then Notify(v, Failure, "No active session")
    else
      var started := v.(generatingSessionId := Some(source.sessionId),
                        calls := v.calls + [GenerateCall(source, SummaryPrompt(prefs), SummaryModel(prefs), profile, true)]);
      var ended :=
        match outcome
        case GenerateFailed(e) => Notify(started, Failure, "Failed to generate context: " + e)
        case AttachFailed(filename, path, e) =>
          var attached := started.(calls := started.calls + [RefetchContexts, AttachCall(activeSessionId.value, path, Slug(filename), false)]);
          Notify(attached, Failure, "Failed to generate context: " + e)
        case Attached(filename, path) =>
          var attached := started.(calls := started.calls + [RefetchContexts, AttachCall(activeSessionId.value, path, Slug(filename), false), RefetchAttached]);
          Notify(attached.(searchClears := attached.searchClears + 1), Success, "Context created and attached: " + filename);
      ended.(generatingSessionId := None)
  }

  /** Generating a context always ends with no session marked as generating,
      attaches the file under its slug when generation succeeded, and clears
      the search only when the attach succeeded. */
  lemma SessionClickEndsClean(v: ContextView, source: SourceSession, sid: string, prefs: Option<SummaryPrefs>,
                              profile: Option<string>, outcome: GenerateOutcome)
    requires sid != ""
    ensures var w := SessionClickStep(v, source, Some(sid), prefs, profile, outcome);
      && w.generatingSessionId.None?
      && w.calls[|v.calls|].GenerateCall? && w.calls[|v.calls|].source == source && w.calls[|v.calls|].generating
      && w.calls[|v.calls|].customPrompt == (if prefs.Some? then prefs.value.prompt else None)
      && w.calls[|v.calls|].model == (if prefs.Some? then prefs.value.model else None)
      && w.calls[|v.calls|].customProfileName == profile
      && (!outcome.GenerateFailed? ==> w.calls[|v.calls| + 2] == AttachCall(sid, outcome.path, Slug(outcome.filename), false))
      && (w.searchClears == v.searchClears + 1 <==> outcome.Attached?)
      && (outcome.Attached? <==> w.toasts[|w.toasts| - 1].kind == Success)
  {
  }

  /** The dialog's handler state. */
  class LoadContextHandlers {
    var loadingNumbers: set<int>
    var removingNumbers: set<int>
    var loadingSlugs: set<string>
    var removingSlugs: set<string>
    var generatingSessionId: Option<string>
    var editingFilename: Option<string>
    var editValue: string
    var viewingContext: Option<ViewingContext>
    var toasts: seq<Toast>
    var nextToastId: nat
    var calls: seq<Call>
    var searchClears: nat

    constructor()
      ensures View() == ContextView({}, {}, {}, {}, None, None, "", None, [], 0, [], 0)
    {
      loadingNumbers, removingNumbers, loadingSlugs, removingSlugs := {}, {}, {}, {};
      generatingSessionId, editingFilename, editValue, viewingContext := None, None, "", None;
      toasts, nextToastId, calls, searchClears := [], 0, [], 0;
    }

    function View(): ContextView
      reads this
    {
      ContextView(loadingNumbers, removingNumbers, loadingSlugs, removingSlugs, generatingSessionId,
                  editingFilename, editValue, viewingContext, toasts, nextToastId, calls, searchClears)
    }

    /** `toast.*` without an id: a new toast. */
    method ShowToast(kind: ToastKind, text: string) returns (id: nat)
      modifies this
      ensures id == old(nextToastId)
      ensures View() == Notify(old(View()), kind, text)
    {
      id := nextToastId;
      toasts := toasts + [Toast(id, kind, text)];
      nextToastId := nextToastId + 1;
    }

    /** `toast.*` with an id: the toast already shown under it is replaced. */
    method UpdateToast(id: nat, kind: ToastKind, text: string)
      modifies this
      ensures View() == old(View()).(toasts := old(toasts) + [Toast(id, kind, text)])
    {
      toasts := toasts + [Toast(id, kind, text)];
    }

    method ResetState()
      modifies this
      ensures View() == ResetStep(old(View()))
    {
      loadingNumbers, removingNumbers, loadingSlugs, removingSlugs := {}, {}, {}, {};
      generatingSessionId := None;
      editingFilename := None;
      editValue := "";
    }

    /** `handleLoadIssue` and `handleLoadPR`. */
    method LoadNumber(kind: NumberKind, n: int, isRefresh: bool, sessionId: Option<string>,
                      worktreePath: Option<string>, outcome: LoadOutcome)
      modifies this
      ensures View() == LoadStep(old(View()), kind, n, isRefresh, sessionId, worktreePath, outcome)
    {
      if !Truthy(sessionId) || !Truthy(worktreePath) {
        var _ := ShowToast(Failure, "No active session");
        return;
      }
      loadingNumbers := loadingNumbers + {n};
      var toastId := ShowToast(Loading, LoadingText(kind, n, isRefresh));
      calls := calls + [LoadCall(kind, sessionId.value, n, worktreePath.value, n in loadingNumbers)];
      match outcome {
        case Loaded(number, title, comments, reviews) =>
          calls := calls + [RefetchNumbers(kind)];
          UpdateToast(toastId, Success, LoadedText(kind, number, title, comments, reviews));
        case LoadFailed(e) =>
          UpdateToast(toastId, Failure, e);
      }
      loadingNumbers := loadingNumbers - {n};
    }

    /** `handleRemoveIssue` and `handleRemovePR`. */
    method RemoveNumber(kind: NumberKind, n: int, sessionId: Option<string>, worktreePath: Option<string>, outcome: Outcome)
      modifies this
      ensures View() == RemoveStep(old(View()), kind, n, sessionId, worktreePath, outcome)
    {
      if !Truthy(sessionId) || !Truthy(worktreePath) {
        return;
      }
      removingNumbers := removingNumbers + {n};
      calls := calls + [RemoveCall(kind, sessionId.value, n, worktreePath.value, n in removingNumbers)];
      match outcome {
        case Done =>
          calls := calls + [RefetchNumbers(kind)];
          var _ := ShowToast(Success, "Removed " + KindWord(kind) + " #" + IntToString(n) + " from context");
        case Failed(e) =>
          var _ := ShowToast(Failure, "Failed to remove " + KindWord(kind) + ": " + e);
      }
      removingNumbers := removingNumbers - {n};
    }

    /** `handleSelectIssue` and `handleSelectPR`. */
    method SelectNumber(kind: NumberKind, n: int, sessionId: Option<string>, worktreePath: Option<string>, outcome: LoadOutcome)
      modifies this
      ensures View() == SelectStep(old(View()), kind, n, sessionId, worktreePath, outcome)
    {
      LoadNumber(kind, n, false, sessionId, worktreePath, outcome);
      searchClears := searchClears + 1;
    }

    /** `handleViewIssue`, `handlePreviewIssue`, `handleViewPR`,
        `handlePreviewPR`. */
    method ViewNumber(kind: NumberKind, number: int, title: string)
      modifies this
      ensures View() == old(View()).(viewingContext := Some(NumberView(kind, number, title)))
    {
      viewingContext := Some(NumberView(kind, number, title));
    }

    method DeleteContext(file: SavedFile, outcome: Outcome)
      modifies this
      ensures View() == DeleteContextStep(old(View()), file, outcome)
    {
      calls := calls + [DeleteFile(file.path)];
      if outcome.Done? {
        calls := calls + [RefetchContexts];
      }
    }

    method AttachContext(file: SavedFile, sessionId: Option<string>, outcome: Outcome)
      modifies this
      ensures View() == AttachStep(old(View()), file, sessionId, outcome)
    {
      if !Truthy(sessionId) {
        var _ := ShowToast(Failure, "No active session");
        return;
      }
      loadingSlugs := loadingSlugs + {file.slug};
      var toastId := ShowToast(Loading, "Attaching context \"" + DisplayName(file.name, file.slug) + "\"...");
      calls := calls + [AttachCall(sessionId.value, file.path, file.slug, file.slug in loadingSlugs)];
      match outcome {
        case Done =>
          calls := calls + [RefetchAttached];
          UpdateToast(toastId, Success, "Context \"" + DisplayName(file.name, file.slug) + "\" attached");
          searchClears := searchClears + 1;
        case Failed(e) =>
          UpdateToast(toastId, Failure, e);
      }
      loadingSlugs := loadingSlugs - {file.slug};
    }

    method RemoveAttachedContext(slug: string, sessionId: Option<string>, outcome: Outcome)
      modifies this
      ensures View() == RemoveAttachedStep(old(View()), slug, sessionId, outcome)
    {
      if !Truthy(sessionId) {
        return;
      }
      removingSlugs := removingSlugs + {slug};
      calls := calls + [RemoveAttachedCall(sessionId.value, slug, slug in removingSlugs)];
      match outcome {
        case Done =>
          calls := calls + [RefetchAttached];
          var _ := ShowToast(Success, "Removed context \"" + slug + "\"");
        case Failed(e) =>
          var _ := ShowToast(Failure, "Failed to remove context: " + e);
      }
      removingSlugs := removingSlugs - {slug};
    }

    method ViewAttachedContext(name: string, slug: string, sessionId: Option<string>, outcome: ContentOutcome)
      modifies this
      ensures View() == ViewAttachedStep(old(View()), name, slug, sessionId, outcome)
    {
      if !Truthy(sessionId) {
        return;
      }
      calls := calls + [ContentCall(sessionId.value, slug)];
      match outcome {
        case Content(text) =>
          viewingContext := Some(ViewingContext(SavedContext, None, Some(slug), DisplayName(name, slug), text));
        case ContentFailed(e) =>
          var _ := ShowToast(Failure, "Failed to load context: " + e);
      }
    }

    method StartEdit(file: SavedFile)
      modifies this
      ensures View() == StartEditStep(old(View()), file)
    {
      editingFilename := Some(file.filename);
      editValue := DisplayName(file.name, file.slug);
    }

    method RenameSubmit(filename: string)
      modifies this
      ensures View() == RenameSubmitStep(old(View()), filename)
    {
      var newName := Trim(editValue);
      calls := calls + [Rename(filename, newName)];
      editingFilename := None;
    }

    method RenameKeyDown(key: string, filename: string)
      modifies this
      ensures View() == RenameKeyDownStep(old(View()), key, filename)
    {
      if key == "Enter" {
        RenameSubmit(filename);
      } else if key == "Escape" {
        editingFilename := None;
      }
    }

    method SessionClick(source: SourceSession, activeSessionId: Option<string>, prefs: Option<SummaryPrefs>,
                        profile: Option<string>, outcome: GenerateOutcome)
      modifies this
      ensures View() == SessionClickStep(old(View()), source, activeSessionId, prefs, profile, outcome)
    {
      if !Truthy(activeSessionId) {
        var _ := ShowToast(Failure, "No active session");
        return;
      }
      generatingSessionId := Some(source.sessionId);
      calls := calls + [GenerateCall(source, SummaryPrompt(prefs), SummaryModel(prefs), profile, generatingSessionId.Some?)];
      match outcome {
        case GenerateFailed(e) =>
          var _ := ShowToast(Failure, "Failed to generate context: " + e);
        case AttachFailed(filename, path, e) =>
          var slug := Slug(filename);
          calls := calls + [RefetchContexts, AttachCall(activeSessionId.value, path, slug, false)];
          var _ := ShowToast(Failure, "Failed to generate context: " + e);
        case Attached(filename, path) =>
          var slug := Slug(filename);
          calls := calls + [RefetchContexts, AttachCall(activeSessionId.value, path, slug, false), RefetchAttached];
          searchClears := searchClears + 1;
          var _ := ShowToast(Success, "Context created and attached: " + filename);
      }
      generatingSessionId := None;
    }
  }
}
