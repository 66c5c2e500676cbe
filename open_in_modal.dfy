/** The "Open in…" modal: the options it lists (editor, terminal, finder,
    GitHub, the worktree's PR, and the PRs and issues loaded as context), the
    path it opens, and its keyboard handling, including the sub-state that
    picks one of several GitHub remotes (src/components/open-in/OpenInModal.tsx). */
module OpenInModal {
  import opened Common
  import opened Text

  // ---------------------------------------------------------------- target

  /** The worktree the modal acts on: the projects-store selection, else the
      chat's active worktree, else the worktree of the session modal. */
  function SelectedWorktreeId(fromProjects: Option<string>, activeWorktreeId: Option<string>,
                              sessionModalWorktreeId: Option<string>): (r: Option<string>)
    ensures fromProjects.Some? ==> r == fromProjects
    ensures fromProjects.None? && activeWorktreeId.Some? ==> r == activeWorktreeId
    ensures fromProjects.None? && activeWorktreeId.None? ==> r == sessionModalWorktreeId
  {
    Coalesce(Coalesce(fromProjects, activeWorktreeId), sessionModalWorktreeId)
  }

  /** A project: its id and path. */
  datatype Project = Project(id: string, path: string)

  /** `projects.find(p => p.id === id)`. */
  function FindProject(projects: seq<Project>, id: string): (r: Option<Project>)
    ensures r.Some? ==> r.value in projects && r.value.id == id
    ensures r.None? <==> forall p :: p in projects ==> p.id != id
  {
    if projects == [] then None
    else if projects[0].id == id then Some(projects[0])
    else FindProject(projects[1..], id)
  }

  /** The project found is the first one with the id. */
  lemma {:induction false} FindProjectIsFirst(projects: seq<Project>, id: string)
    requires FindProject(projects, id).Some?
    ensures exists k :: 0 <= k < |projects| && projects[k] == FindProject(projects, id).value
                        && forall j :: 0 <= j < k ==> projects[j].id != id
  {
    if projects[0].id == id {
      assert projects[0] == FindProject(projects, id).value;
    } else {
      var rest := projects[1..];
      FindProjectIsFirst(rest, id);
      var k :| 0 <= k < |rest| && rest[k] == FindProject(rest, id).value
               && forall j :: 0 <= j < k ==> rest[j].id != id;
      assert forall j :: 1 <= j < k + 1 ==> projects[j] == rest[j - 1];
      assert projects[k + 1] == FindProject(projects, id).value;
    }
  }

  /** The path the actions open: the worktree's path, else the path the chat
      store knows for the selected worktree, else the selected project's path
      (even when empty), else none. */
  function TargetPath(worktreePath: Option<string>, selectedWorktreeId: Option<string>,
                      chatWorktreePaths: map<string, string>, selectedProjectId: Option<string>,
                      projects: Option<seq<Project>>): (r: Option<string>)
    ensures Truthy(worktreePath) ==> r == worktreePath
    ensures !Truthy(worktreePath) && Truthy(selectedWorktreeId)
            && Truthy(Lookup(chatWorktreePaths, selectedWorktreeId.value)) ==>
              r == Lookup(chatWorktreePaths, selectedWorktreeId.value)
    ensures r.Some? && !Truthy(worktreePath) && !(Truthy(selectedWorktreeId)
            && Truthy(Lookup(chatWorktreePaths, selectedWorktreeId.value))) ==>
              Truthy(selectedProjectId) && projects.Some?
              && Project(selectedProjectId.value, r.value) in projects.value
    ensures !Truthy(worktreePath) && !(Truthy(selectedWorktreeId) && Truthy(Lookup(chatWorktreePaths, selectedWorktreeId.value)))
            && Truthy(selectedProjectId) && projects.Some? && FindProject(projects.value, selectedProjectId.value).Some? ==>
              r == Some(FindProject(projects.value, selectedProjectId.value).value.path)
    ensures !Truthy(worktreePath) && !(Truthy(selectedWorktreeId) && Truthy(Lookup(chatWorktreePaths, selectedWorktreeId.value)))
            && !(Truthy(selectedProjectId) && projects.Some? && FindProject(projects.value, selectedProjectId.value).Some?) ==>
              r.None?
    ensures r.None? ==> !Truthy(worktreePath)
  {
    if Truthy(worktreePath) then worktreePath
    else if Truthy(selectedWorktreeId) && Truthy(Lookup(chatWorktreePaths, selectedWorktreeId.value)) then
      Lookup(chatWorktreePaths, selectedWorktreeId.value)
    else if Truthy(selectedProjectId) && projects.Some? then
      var p := FindProject(projects.value, selectedProjectId.value);
      if p.Some? then Some(p.value.path) else None
    else None
  }

  // ---------------------------------------------------------------- options

  /** An entry of the modal: id, title, shortcut key and (for context
      entries) the page to open. */
  datatype ModalOption = ModalOption(id: string, title: string, key: Option<string>, url: Option<string>)

  /** The ids of a list of options. */
  function Ids(options: seq<ModalOption>): (r: seq<string>)
    ensures |r| == |options|
    ensures forall k :: 0 <= k < |r| ==> r[k] == options[k].id
  {
    if options == [] then [] else [options[0].id] + Ids(options[1..])
  }

  /** The fixed entries: editor, terminal, finder, GitHub, and the worktree's
      PR when it has a PR URL. Outside the native app only GitHub and the PR
      remain. The editor and terminal labels come from the preferences. */
  function BaseOptions(isNative: bool, editorLabel: string, terminalLabel: string,
                       prUrl: Option<string>, prNumber: int): (r: seq<ModalOption>)
    ensures |r| == (if isNative then 4 else 1) + (if Truthy(prUrl) then 1 else 0)
    ensures isNative ==> r[0].id == "editor" && r[1].id == "terminal" && r[2].id == "finder" && r[3].id == "github"
    ensures !isNative ==> r[0].id == "github"
    ensures !isNative ==> forall k :: 0 <= k < |r| ==> r[k].id == "github" || r[k].id == "open-pr"
    ensures r[|r| - 1].id == "open-pr" <==> Truthy(prUrl)
  {
    var github := ModalOption("github", "GitHub", Some("G"), None);
    var pr := if Truthy(prUrl) then [ModalOption("open-pr", "PR #" + IntToString(prNumber), Some("P"), None)] else [];
    if isNative then
      [ModalOption("editor", editorLabel, Some("E"), None),
       ModalOption("terminal", terminalLabel, Some("T"), None),
       ModalOption("finder", "Finder", Some("F"), None),
       github] + pr
    else [github] + pr
  }

  /** A PR or issue loaded as context. */
  datatype LoadedItem = LoadedItem(number: int, repoOwner: string, repoName: string)

  datatype ItemKind = PullRequest | IssueItem

  /** The shortcut of the k-th context entry (1-based): its digit up to 9,
      none after. */
  function KeyFor(k: int): (r: Option<string>)
    ensures r.Some? <==> k <= 9
  {
    if k <= 9 then Some(IntToString(k)) else None
  }

  /** The GitHub web root the context entries link into. */
  const GitHubRoot := "https://github.com/"

  /** The context entry for an item numbered `k`: id and title from the
      item's number, and its page on GitHub. */
  function ContextOption(kind: ItemKind, item: LoadedItem, k: int): (r: ModalOption)
    ensures r.key == KeyFor(k)
  {
    var n := IntToString(item.number);
    var page := GitHubRoot + item.repoOwner + "/" + item.repoName;
    if kind == PullRequest then
      ModalOption("pr-" + n, "PR #" + n, KeyFor(k), Some(page + "/pull/" + n))
    else
      ModalOption("issue-" + n, "Issue #" + n, KeyFor(k), Some(page + "/issues/" + n))
  }

  /** The builder of one kind's entries, as a value the numbering takes. */
  function EntryOf(kind: ItemKind): (LoadedItem, int) -> ModalOption {
    (item, k) => ContextOption(kind, item, k)
  }

  /** The entries built by `entry` for a list of items, numbered from
      `first` on. */
  function Numbered(entry: (LoadedItem, int) -> ModalOption, items: seq<LoadedItem>, first: int): (r: seq<ModalOption>)
    ensures |r| == |items|
  {
    if items == [] then [] else [entry(items[0], first)] + Numbered(entry, items[1..], first + 1)
  }

  /** The k-th entry is built from the k-th item and numbered `first + k`. */
  lemma {:induction false} NumberedAt(entry: (LoadedItem, int) -> ModalOption, items: seq<LoadedItem>, first: int, k: nat)
    requires k < |items|
    ensures Numbered(entry, items, first)[k] == entry(items[k], first + k)
  {
    if k > 0 {
      NumberedAt(entry, items[1..], first + 1, k - 1);
    }
  }

  /** Numbering one more item. */
  lemma {:induction false} NumberedSnoc(entry: (LoadedItem, int) -> ModalOption, items: seq<LoadedItem>, first: int, item: LoadedItem)
    ensures Numbered(entry, items + [item], first) == Numbered(entry, items, first) + [entry(item, first + |items|)]
  {
    if items != [] {
      assert (items + [item])[1..] == items[1..] + [item];
      NumberedSnoc(entry, items[1..], first + 1, item);
    }
  }

  /** Numbering one more item of a list. */
  lemma NumberedPrefix(entry: (LoadedItem, int) -> ModalOption, items: seq<LoadedItem>, first: int, i: nat)
    requires i < |items|
    ensures Numbered(entry, items[..i + 1], first) == Numbered(entry, items[..i], first) + [entry(items[i], first + i)]
  {
    assert items[..i + 1] == items[..i] + [items[i]];
    NumberedSnoc(entry, items[..i], first, items[i]);
  }

  /** The context entries: the loaded PRs, then the loaded issues, numbered
      1, 2, … across both lists. */
  function ContextOptionsSpec(prs: Option<seq<LoadedItem>>, issues: Option<seq<LoadedItem>>): seq<ModalOption> {
    var p := prs.GetOr([]);
    Numbered(EntryOf(PullRequest), p, 1) + Numbered(EntryOf(IssueItem), issues.GetOr([]), 1 + |p|)
  }

  /** One `forEach` of `contextOptions`: pushes an entry per item while
      `keyIndex` counts up. */
  method PushNumbered(items: seq<ModalOption>, kind: ItemKind, list: seq<LoadedItem>, keyIndex: int)
    returns (pushed: seq<ModalOption>, nextKey: int)
    ensures pushed == items + Numbered(EntryOf(kind), list, keyIndex)
    ensures nextKey == keyIndex + |list|
  {
    var entryOf := EntryOf(kind);
    pushed, nextKey := items, keyIndex;
    for i := 0 to |list|
      invariant nextKey == keyIndex + i
      invariant pushed == items + Numbered(entryOf, list[..i], keyIndex)
    {
      NumberedPrefix(entryOf, list, keyIndex, i);
      pushed := pushed + [entryOf(list[i], nextKey)];
      nextKey := nextKey + 1;
    }
    assert list[..|list|] == list;
  }

  /** `contextOptions`: the loaded PRs, then the loaded issues, with one
      counter numbering both. */
  method ContextOptions(prs: Option<seq<LoadedItem>>, issues: Option<seq<LoadedItem>>) returns (items: seq<ModalOption>)
    ensures items == ContextOptionsSpec(prs, issues)
  {
    ghost var p, q := prs.GetOr([]), issues.GetOr([]);
    items := [];
    var keyIndex := 1;
    if prs.Some? {
      items, keyIndex := PushNumbered(items, PullRequest, prs.value, keyIndex);
    }
    assert items == Numbered(EntryOf(PullRequest), p, 1) && keyIndex == 1 + |p|;
    ghost var prItems := items;
    if issues.Some? {
      items, keyIndex := PushNumbered(items, IssueItem, issues.value, keyIndex);
    }
    assert items == prItems + Numbered(EntryOf(IssueItem), q, 1 + |p|);
  }

  /** The PRs come first, then the issues; the k-th entry (counting from 1)
      has the key `String(k)` up to 9 and none after. */
  lemma ContextOptionsOrderAndKeys(prs: seq<LoadedItem>, issues: seq<LoadedItem>, k: nat)
    requires k < |prs| + |issues|
    ensures var opts := ContextOptionsSpec(Some(prs), Some(issues));
      && |opts| == |prs| + |issues|
      && (k < |prs| ==> opts[k] == ContextOption(PullRequest, prs[k], k + 1))
      && (k >= |prs| ==> opts[k] == ContextOption(IssueItem, issues[k - |prs|], k + 1))
      && (k + 1 <= 9 ==> opts[k].key == Some(IntToString(k + 1)))
      && (k + 1 > 9 ==> opts[k].key.None?)
  {
    var opts := ContextOptionsSpec(Some(prs), Some(issues));
    var entry;
    if k < |prs| {
      NumberedAt(EntryOf(PullRequest), prs, 1, k);
      assert opts[k] == Numbered(EntryOf(PullRequest), prs, 1)[k];
      entry := ContextOption(PullRequest, prs[k], k + 1);
    } else {
      NumberedAt(EntryOf(IssueItem), issues, 1 + |prs|, k - |prs|);
      assert opts[k] == Numbered(EntryOf(IssueItem), issues, 1 + |prs|)[k - |prs|];
      entry := ContextOption(IssueItem, issues[k - |prs|], k + 1);
    }
    assert opts[k] == entry && entry.key == KeyFor(k + 1);
  }

  /** The option has a shortcut, and it is the pressed key once lower-cased. */
  predicate KeyMatches(o: ModalOption, key: string) {
    Truthy(o.key) && LowerAscii(o.key.value) == key
  }

  /** The first option whose shortcut, lower-cased, is the pressed key. */
  function FindByKey(options: seq<ModalOption>, key: string): (r: Option<ModalOption>)
    ensures r.Some? ==> r.value in options && KeyMatches(r.value, key)
    ensures r.None? <==> forall o :: o in options ==> !KeyMatches(o, key)
  {
    if options == [] then None
    else if KeyMatches(options[0], key) then Some(options[0])
    else FindByKey(options[1..], key)
  }

  /** The option found by its shortcut is the first one that matches. */
  lemma {:induction false} FindByKeyIsFirst(options: seq<ModalOption>, key: string)
    requires FindByKey(options, key).Some?
    ensures exists k :: 0 <= k < |options| && options[k] == FindByKey(options, key).value
                        && forall j :: 0 <= j < k ==> !KeyMatches(options[j], key)
  {
    if KeyMatches(options[0], key) {
      assert options[0] == FindByKey(options, key).value;
    } else {
      var rest := options[1..];
      FindByKeyIsFirst(rest, key);
      var k :| 0 <= k < |rest| && rest[k] == FindByKey(rest, key).value
               && forall j :: 0 <= j < k ==> !KeyMatches(rest[j], key);
      assert forall j :: 1 <= j < k + 1 ==> options[j] == rest[j - 1];
      assert options[k + 1] == FindByKey(options, key).value;
    }
  }

  /** `toLowerCase` on the shortcut keys, which are ASCII letters and digits. */
  function LowerAscii(s: string): (r: string)
    ensures |r| == |s|
    ensures forall k :: 0 <= k < |s| ==> r[k] == (if 'A' <= s[k] <= 'Z' then (s[k] as int + 32) as char else s[k])
  {
    if s == [] then []
    else [if 'A' <= s[0] <= 'Z' then (s[0] as int + 32) as char else s[0]] + LowerAscii(s[1..])
  }

  /** The first option with a given id. */
  function FindById(options: seq<ModalOption>, id: string): (r: Option<ModalOption>)
    ensures r.Some? ==> r.value in options && r.value.id == id
    ensures r.None? ==> id !in Ids(options)
  {
    if options == [] then None
    else if options[0].id == id then Some(options[0])
    else FindById(options[1..], id)
  }

  /** The option found by id is the first one with the id. */
  lemma {:induction false} FindByIdIsFirst(options: seq<ModalOption>, id: string)
    requires FindById(options, id).Some?
    ensures exists k :: 0 <= k < |options| && options[k] == FindById(options, id).value
                        && forall j :: 0 <= j < k ==> options[j].id != id
  {
    if options[0].id == id {
      assert options[0] == FindById(options, id).value;
    } else {
      var rest := options[1..];
      FindByIdIsFirst(rest, id);
      var k :| 0 <= k < |rest| && rest[k] == FindById(rest, id).value
               && forall j :: 0 <= j < k ==> rest[j].id != id;
      assert forall j :: 1 <= j < k + 1 ==> options[j] == rest[j - 1];
      assert options[k + 1] == FindById(options, id).value;
    }
  }

  // ---------------------------------------------------------------- arrows

  /** JavaScript's `%` for a positive divisor: the remainder takes the sign
      of the dividend (a negative zero indexes like 0). */
  function JsRem(a: int, b: int): (r: int)
    requires b > 0
    ensures -b < r < b
    ensures a >= 0 ==> r >= 0
    ensures a < 0 ==> r <= 0
    ensures exists q :: a == b * q + r
    ensures 0 <= a < b ==> r == a
    ensures b <= a < 2 * b ==> r == a - b
  {
    if a >= 0 then
      assert a == b * (a / b) + a % b;
      if a < b then ModOfSmall(a, b); a % b
      else if a < 2 * b then ModOfWrapped(a - b, b); a % b
      else a % b
    else
      var q := (-a) / b;
      assert -a == b * q + (-a) % b;
      assert a == b * -q + -((-a) % b);
      -((-a) % b)
  }

  /** The option index an arrow key moves to from `current` (the index of
      the selected id, -1 when it is not listed). */
  function ArrowIndex(current: int, n: int, down: bool): (r: int)
    requires n > 0 && -1 <= current < n
    ensures 0 <= r < n
  {
    if down then JsRem(current + 1, n)
    else JsRem(current - 1 + n, n)
  }

  lemma ModOfSmall(a: int, n: int)
    requires 0 <= a < n
    ensures a % n == a
  {
  }

  lemma ModOfWrapped(a: int, n: int)
    requires 0 <= a < n
    ensures (a + n) % n == a
  {
    var q, r := (a + n) / n, (a + n) % n;
    assert a + n == n * q + r;
    OnlyZeroMultipleIsSmall(n, q - 1, a - r);
  }

  lemma OnlyZeroMultipleIsSmall(n: int, k: int, m: int)
    requires n > 0 && m == n * k && -n < m < n
    ensures k == 0
  {
  }

  /** From a listed option, down moves to the next one and wraps to the
      first; up moves to the previous one and wraps to the last. */
  lemma ArrowsAreCyclic(current: int, n: int)
    requires n > 0 && 0 <= current < n
    ensures ArrowIndex(current, n, true) == (if current == n - 1 then 0 else current + 1)
    ensures ArrowIndex(current, n, false) == (if current == 0 then n - 1 else current - 1)
  {
  }

  /** Up undoes down and down undoes up. */
  lemma ArrowsUndoEachOther(current: int, n: int)
    requires n > 0 && 0 <= current < n
    ensures ArrowIndex(ArrowIndex(current, n, true), n, false) == current
    ensures ArrowIndex(ArrowIndex(current, n, false), n, true) == current
  {
    ArrowsAreCyclic(current, n);
    var d := ArrowIndex(current, n, true);
    var u := ArrowIndex(current, n, false);
    ArrowsAreCyclic(d, n);
    ArrowsAreCyclic(u, n);
  }

  /** From an unlisted selection, down selects the first option and up the
      one before last (the first when there is only one). */
  lemma ArrowsFromUnlisted(n: int)
    requires n > 0
    ensures ArrowIndex(-1, n, true) == 0
    ensures ArrowIndex(-1, n, false) == (if n >= 2 then n - 2 else 0)
  {
  }

  // ---------------------------------------------------------------- actions

  /** Effects of the modal on the outside world. */
  datatype Effect =
    | OpenExternal(url: string)
    | OpenInEditor(path: string)
    | OpenInTerminal(path: string)
    | OpenInFinder(path: string)
    | OpenBranchOnGitHub(repoPath: string, branch: string)
    | OpenProjectOnGitHub(projectId: string)
    | NotifyError(text: string)

  /** What the handlers read: the options, the target path, the GitHub
      remotes (their URLs; none while loading), and the worktree's branch and
      PR URL. */
  datatype OpenInEnv = OpenInEnv(
    isNative: bool,
    contextOptions: seq<ModalOption>,
    allOptions: seq<ModalOption>,
    targetPath: Option<string>,
    githubRemotes: Option<seq<string>>,
    branch: Option<string>,
    prUrl: Option<string>,
    selectedProjectId: Option<string>)

  /** The modal's own state and the effects it has caused. */
  datatype OpenInView = OpenInView(
    open: bool,
    initialized: bool,
    selectedOption: string,
    showingRemotes: bool,
    effects: seq<Effect>)

  /** More than one GitHub remote. */
  predicate HasMultipleRemotes(env: OpenInEnv) {
    |env.githubRemotes.GetOr([])| > 1
  }

  /** Closing the modal; the close also resets the initialisation marker and
      leaves the remote sub-state. */
  function Close(v: OpenInView): (w: OpenInView)
    ensures !w.open && !w.showingRemotes
  {
    v.(open := false, initialized := false, showingRemotes := false)
  }

  /** `handleOpenChange`: on the first opening, preselect the editor (the
      GitHub entry outside the native app). */
  function OpenChangeStep(v: OpenInView, env: OpenInEnv, open: bool): (w: OpenInView)
    ensures open && !v.initialized ==>
      w == v.(selectedOption := if env.isNative then "editor" else "github", initialized := true, open := true)
    ensures open && v.initialized ==> w == v.(open := true)
    ensures !open ==> w == Close(v)
  {
    if !open then Close(v)
    else if !v.initialized then v.(selectedOption := if env.isNative then "editor" else "github", initialized := true, open := true)
    else v.(open := true)
  }

  /** `executeAction(optionId)`. */
  function ExecuteStep(v: OpenInView, env: OpenInEnv, optionId: string): OpenInView {
    var contextOpt := FindById(env.contextOptions, optionId);
    if contextOpt.Some? && Truthy(contextOpt.value.url) then
      Close(v.(effects := v.effects + [OpenExternal(contextOpt.value.url.value)]))
    else if !Truthy(env.targetPath) then
      Close(v.(effects := v.effects + [NotifyError("No project or worktree selected")]))
    else
      var path := env.targetPath.value;
      if optionId == "editor" then Close(v.(effects := v.effects + [OpenInEditor(path)]))
      else if optionId == "terminal" then Close(v.(effects := v.effects + [OpenInTerminal(path)]))
      else if optionId == "finder" then Close(v.(effects := v.effects + [OpenInFinder(path)]))
      else if optionId == "open-pr" then
        Close(v.(effects := v.effects + (if Truthy(env.prUrl) then [OpenExternal(env.prUrl.value)] else [])))
      else if optionId == "github" then GitHubStep(v, env, path)
      else Close(v)
  }

  /** A context entry opens its page and closes the modal. */
  lemma ExecuteContextEntry(v: OpenInView, env: OpenInEnv, opt: ModalOption)
    requires FindById(env.contextOptions, opt.id) == Some(opt) && Truthy(opt.url)
    ensures ExecuteStep(v, env, opt.id) == Close(v.(effects := v.effects + [OpenExternal(opt.url.value)]))
  {
  }

  /** Without a target path every other action reports an error and closes
      the modal. */
  lemma ExecuteWithoutPath(v: OpenInView, env: OpenInEnv, optionId: string)
    requires optionId !in Ids(env.contextOptions) && !Truthy(env.targetPath)
    ensures ExecuteStep(v, env, optionId) == Close(v.(effects := v.effects + [NotifyError("No project or worktree selected")]))
  {
  }

  /** GitHub with several remotes switches to the remote sub-state and keeps
      the modal open, doing nothing else. */
  lemma GitHubWithSeveralRemotes(v: OpenInView, env: OpenInEnv)
    requires "github" !in Ids(env.contextOptions) && Truthy(env.targetPath) && HasMultipleRemotes(env)
    ensures ExecuteStep(v, env, "github") == v.(showingRemotes := true)
  {
  }

  /** Every action other than GitHub-with-several-remotes closes the modal. */
  lemma ExecuteClosesUnlessPicking(v: OpenInView, env: OpenInEnv, optionId: string)
    ensures var w := ExecuteStep(v, env, optionId);
      w.open || w.showingRemotes ==>
        optionId == "github" && Truthy(env.targetPath) && HasMultipleRemotes(env) && w == v.(showingRemotes := true)
  {
  }

  /** The GitHub action once a target path is known. */
  function GitHubStep(v: OpenInView, env: OpenInEnv, path: string): (w: OpenInView)
    ensures w.open || w.showingRemotes ==> HasMultipleRemotes(env) && w == v.(showingRemotes := true)
  {
    if HasMultipleRemotes(env) then v.(showingRemotes := true)
    else if !Truthy(env.branch) then
      if Truthy(env.selectedProjectId) then Close(v.(effects := v.effects + [OpenProjectOnGitHub(env.selectedProjectId.value)]))
      else Close(v.(effects := v.effects + [NotifyError("No project selected")]))
    else Close(v.(effects := v.effects + [OpenBranchOnGitHub(path, env.branch.value)]))
  }

  /** The page of a remote: its branch page when the worktree has a branch. */
  function RemoteUrl(remoteUrl: string, branch: Option<string>): string {
    if Truthy(branch) then remoteUrl + "/tree/" + branch.value else remoteUrl
  }

  /** `openRemote(index)`: out-of-range indices and unloaded remotes do
      nothing. */
  function OpenRemoteStep(v: OpenInView, env: OpenInEnv, index: int): (w: OpenInView)
    ensures env.githubRemotes.None? || !(0 <= index < |env.githubRemotes.value|) ==> w == v
    ensures env.githubRemotes.Some? && 0 <= index < |env.githubRemotes.value| ==>
      w == Close(v.(effects := v.effects + [OpenExternal(RemoteUrl(env.githubRemotes.value[index], env.branch))]))
  {
    if env.githubRemotes.None? then v
    else if !(0 <= index < |env.githubRemotes.value|) then v
    else Close(v.(effects := v.effects + [OpenExternal(RemoteUrl(env.githubRemotes.value[index], env.branch))]))
  }

  /** The remote number a key names, if it names one of the remotes. */
  predicate NamesRemote(rawKey: string, remotes: seq<string>) {
    var parsed := ParseInt(rawKey);
    parsed.Num? && 1 <= parsed.n <= |remotes|
  }

  /** The key handler outside the remote sub-state: a shortcut runs its
      option, Enter runs the selected one, arrows move the selection. */
  function NormalKeyStep(v: OpenInView, env: OpenInEnv, key: string): OpenInView {
    var matched := FindByKey(env.allOptions, key);
    if matched.Some? then ExecuteStep(v, env, matched.value.id)
    else if key == "enter" then ExecuteStep(v, env, v.selectedOption)
    else if (key == "arrowdown" || key == "arrowup") && |env.allOptions| > 0 then
      var ids := Ids(env.allOptions);
      var current := IndexOf(ids, v.selectedOption);
      var next := ids[ArrowIndex(current, |ids|, key == "arrowdown")];
      if next != "" then v.(selectedOption := next) else v
    else v
  }

  /** `handleKeyDown`; `rawKey` is the key as pressed and `key` its
      lower-case form. */
  function KeyStep(v: OpenInView, env: OpenInEnv, rawKey: string, key: string): OpenInView {
    if v.showingRemotes && env.githubRemotes.Some? then RemoteKeyStep(v, env, rawKey, key)
    else NormalKeyStep(v, env, key)
  }

  /** A key pressed while the remotes are listed: Escape leaves the list, a
      remote's number opens it, any other key leaves the list and is handled
      as usual. */
  function RemoteKeyStep(v: OpenInView, env: OpenInEnv, rawKey: string, key: string): OpenInView
    requires env.githubRemotes.Some?
  {
    if key == "escape" then v.(showingRemotes := false)
    else if NamesRemote(rawKey, env.githubRemotes.value) then OpenRemoteStep(v, env, ParseInt(rawKey).n - 1)
    else NormalKeyStep(v.(showingRemotes := false), env, key)
  }

  /** In the remote sub-state, Escape only leaves the sub-state. */
  lemma RemoteEscape(v: OpenInView, env: OpenInEnv, rawKey: string)
    requires v.showingRemotes && env.githubRemotes.Some?
    ensures KeyStep(v, env, rawKey, "escape") == v.(showingRemotes := false)
  {
  }

  /** In the remote sub-state, digit k of one of the n remotes opens remote
      k-1 and closes the modal. */
  lemma RemoteDigitOpensRemote(v: OpenInView, env: OpenInEnv, k: nat)
    requires v.showingRemotes && env.githubRemotes.Some? && 1 <= k <= |env.githubRemotes.value| && k <= 9
    ensures KeyStep(v, env, NatToString(k), NatToString(k)) ==
      Close(v.(effects := v.effects + [OpenExternal(RemoteUrl(env.githubRemotes.value[k - 1], env.branch))]))
  {
    ParseIntOfNatToString(k);
    assert NatToString(k) != "escape";
  }

  /** In the remote sub-state any other key collapses it and is then
      handled as usual (a digit beyond the remotes may so run a context
      entry). */
  lemma RemoteOtherKeyFallsThrough(v: OpenInView, env: OpenInEnv, rawKey: string, key: string)
    requires v.showingRemotes && env.githubRemotes.Some?
    requires key != "escape" && !NamesRemote(rawKey, env.githubRemotes.value)
    ensures KeyStep(v, env, rawKey, key) == NormalKeyStep(v.(showingRemotes := false), env, key)
  {
  }

  /** When no option id is empty, the arrow keys put the selection on a
      listed option and cause no effect. */
  lemma ArrowSelectsListedOption(v: OpenInView, env: OpenInEnv, key: string)
    requires !v.showingRemotes && (key == "arrowdown" || key == "arrowup") && |env.allOptions| > 0
    requires FindByKey(env.allOptions, key).None?
    requires forall o :: o in env.allOptions ==> o.id != ""
    ensures KeyStep(v, env, key, key).selectedOption in Ids(env.allOptions)
    ensures KeyStep(v, env, key, key).effects == v.effects
  {
  }

  /** The modal's state. */
  class OpenInState {
    var open: bool
    var initialized: bool
    var selectedOption: string
    var showingRemotes: bool
    var effects: seq<Effect>

    constructor()
      ensures View() == OpenInView(false, false, "editor", false, [])
    {
      open, initialized, selectedOption, showingRemotes, effects := false, false, "editor", false, [];
    }

    function View(): OpenInView
      reads this
    {
      OpenInView(open, initialized, selectedOption, showingRemotes, effects)
    }

    method CloseModal()
      modifies this
      ensures View() == Close(old(View()))
    {
      open, initialized, showingRemotes := false, false, false;
    }

    method HandleOpenChange(env: OpenInEnv, openNow: bool)
      modifies this
      ensures View() == OpenChangeStep(old(View()), env, openNow)
    {
      if openNow && !initialized {
        selectedOption := if env.isNative then "editor" else "github";
        initialized := true;
      }
      if openNow {
        open := true;
      } else {
        CloseModal();
      }
    }

    method ExecuteAction(env: OpenInEnv, optionId: string)
      modifies this
      ensures View() == ExecuteStep(old(View()), env, optionId)
    {
      var contextOpt := FindById(env.contextOptions, optionId);
      if contextOpt.Some? && Truthy(contextOpt.value.url) {
        effects := effects + [OpenExternal(contextOpt.value.url.value)];
        CloseModal();
        return;
      }
      if !Truthy(env.targetPath) {
        effects := effects + [NotifyError("No project or worktree selected")];
        CloseModal();
        return;
      }
      var path := env.targetPath.value;
      if optionId == "editor" {
        effects := effects + [OpenInEditor(path)];
      } else if optionId == "terminal" {
        effects := effects + [OpenInTerminal(path)];
      } else if optionId == "finder" {
        effects := effects + [OpenInFinder(path)];
      } else if optionId == "open-pr" {
        if Truthy(env.prUrl) {
          effects := effects + [OpenExternal(env.prUrl.value)];
        }
      } else if optionId == "github" {
        if HasMultipleRemotes(env) {
          showingRemotes := true;
          return;
        }
        if !Truthy(env.branch) {
          if Truthy(env.selectedProjectId) {
            effects := effects + [OpenProjectOnGitHub(env.selectedProjectId.value)];
          } else {
            effects := effects + [NotifyError("No project selected")];
          }
        } else {
          effects := effects + [OpenBranchOnGitHub(path, env.branch.value)];
        }
      }
      CloseModal();
    }

    method OpenRemote(env: OpenInEnv, index: int)
      modifies this
      ensures View() == OpenRemoteStep(old(View()), env, index)
    {
      if env.githubRemotes.None? {
        return;
      }
      if !(0 <= index < |env.githubRemotes.value|) {
        return;
      }
      var url := RemoteUrl(env.githubRemotes.value[index], env.branch);
      effects := effects + [OpenExternal(url)];
      CloseModal();
    }

    method HandleKeyDown(env: OpenInEnv, rawKey: string, key: string)
      modifies this
      ensures View() == KeyStep(old(View()), env, rawKey, key)
    {
      if showingRemotes && env.githubRemotes.Some? {
        HandleRemoteKey(env, rawKey, key);
      } else {
        HandleShortcutKey(env, key);
      }
    }

    /** The key handling while the remotes are listed. */
    method HandleRemoteKey(env: OpenInEnv, rawKey: string, key: string)
      requires env.githubRemotes.Some?
      modifies this
      ensures View() == RemoteKeyStep(old(View()), env, rawKey, key)
    {
      if key == "escape" {
        showingRemotes := false;
      } else if NamesRemote(rawKey, env.githubRemotes.value) {
        OpenRemote(env, ParseInt(rawKey).n - 1);
      } else {
        showingRemotes := false;
        HandleShortcutKey(env, key);
      }
    }

    /** The key handling outside the remote sub-state. */
    method HandleShortcutKey(env: OpenInEnv, key: string)
      modifies this
      ensures View() == NormalKeyStep(old(View()), env, key)
    {
      var matched := FindByKey(env.allOptions, key);
      if matched.Some? {
        ExecuteAction(env, matched.value.id);
      } else if key == "enter" {
        ExecuteAction(env, selectedOption);
      } else if (key == "arrowdown" || key == "arrowup") && |env.allOptions| > 0 {
        var ids := Ids(env.allOptions);
        var current := IndexOf(ids, selectedOption);
        var newIndex := ArrowIndex(current, |ids|, key == "arrowdown");
        if ids[newIndex] != "" {
          selectedOption := ids[newIndex];
        }
      }
    }
  }
}
