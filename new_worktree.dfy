/** The "new worktree" modal: the data it derives for its tabs
    (src/components/worktree/hooks/useNewWorktreeData.ts) and its keyboard
    handling (src/components/worktree/hooks/useNewWorktreeKeyboard.ts). */
module NewWorktree {
  import opened Common
  import opened Text

  // ---------------------------------------------------------------- data

  /** The branches the branches tab lists: none until they are loaded, never
      the project's default branch, and with a non-empty query only those
      whose lower-case form contains the lower-case query. `lower` is the
      platform's `toLowerCase`. */
  function FilteredBranches(branches: Option<seq<string>>, defaultBranch: Option<string>,
                            searchQuery: string, lower: string -> string): seq<string> {
    if branches.None? then []
    else
      var filtered := Filter(branches.value, b => Some(b) != defaultBranch);
      if searchQuery == "" then filtered
      else Filter(filtered, b => Includes(lower(b), lower(searchQuery)))
  }

  /** Which branches are listed. */
  lemma FilteredBranchesMembers(branches: Option<seq<string>>, defaultBranch: Option<string>,
                                searchQuery: string, lower: string -> string, b: string)
    ensures branches.None? ==> FilteredBranches(branches, defaultBranch, searchQuery, lower) == []
    ensures b in FilteredBranches(branches, defaultBranch, searchQuery, lower) <==>
      && branches.Some? && b in branches.value
      && defaultBranch != Some(b)
      && (searchQuery == "" || Includes(lower(b), lower(searchQuery)))
  {
  }

  /** With an empty query every non-default branch is listed, in the loaded
      order; with any query the listed branches keep the loaded order. */
  lemma FilteredBranchesKeepOrder(branches: seq<string>, defaultBranch: Option<string>,
                                  searchQuery: string, lower: string -> string)
    ensures searchQuery == "" ==>
      FilteredBranches(Some(branches), defaultBranch, searchQuery, lower) == Filter(branches, b => Some(b) != defaultBranch)
    ensures IsSubsequence(FilteredBranches(Some(branches), defaultBranch, searchQuery, lower), branches)
  {
    var filtered := Filter(branches, b => Some(b) != defaultBranch);
    FilterIsSubsequence(branches, b => Some(b) != defaultBranch);
    if searchQuery != "" {
      FilterIsSubsequence(filtered, b => Includes(lower(b), lower(searchQuery)));
      SubsequenceTransitive(FilteredBranches(Some(branches), defaultBranch, searchQuery, lower), filtered, branches);
    }
  }

  /** Whether some worktree is the project's base session (`isBase` is the
      project types' `isBaseSession`). */
  predicate HasBaseSession<W>(worktrees: Option<seq<W>>, isBase: W -> bool) {
    worktrees.Some? && exists k :: 0 <= k < |worktrees.value| && isBase(worktrees.value[k])
  }

  /** The first worktree that is the base session. */
  function FindBase<W>(worktrees: seq<W>, isBase: W -> bool): (r: Option<W>)
    ensures r.Some? ==> isBase(r.value)
  {
    if worktrees == [] then None
    else if isBase(worktrees[0]) then Some(worktrees[0])
    else FindBase(worktrees[1..], isBase)
  }

  /** `baseSession`: `worktrees?.find(isBaseSession)`. */
  function BaseSession<W>(worktrees: Option<seq<W>>, isBase: W -> bool): (r: Option<W>)
    ensures r.Some? ==> isBase(r.value)
  {
    if worktrees.None? then None else FindBase(worktrees.value, isBase)
  }

  /** Position `k` holds the first base session of the list. */
  predicate FirstBaseAt<W>(worktrees: seq<W>, isBase: W -> bool, k: int) {
    0 <= k < |worktrees| && isBase(worktrees[k]) && forall j :: 0 <= j < k ==> !isBase(worktrees[j])
  }

  /** The search finds the first base session, when there is one. */
  lemma {:induction false} FindBaseIsFirst<W>(worktrees: seq<W>, isBase: W -> bool)
    ensures FindBase(worktrees, isBase).None? <==> forall k :: 0 <= k < |worktrees| ==> !isBase(worktrees[k])
    ensures FindBase(worktrees, isBase).Some? ==>
      exists k :: FirstBaseAt(worktrees, isBase, k) && FindBase(worktrees, isBase) == Some(worktrees[k])
  {
    if worktrees != [] && !isBase(worktrees[0]) {
      var rest := worktrees[1..];
      FindBaseIsFirst(rest, isBase);
      assert forall k :: 1 <= k < |worktrees| ==> worktrees[k] == rest[k - 1];
      if FindBase(rest, isBase).Some? {
        var k :| FirstBaseAt(rest, isBase, k) && FindBase(rest, isBase) == Some(rest[k]);
        assert worktrees[k + 1] == rest[k];
        assert FirstBaseAt(worktrees, isBase, k + 1);
      }
    } else if worktrees != [] {
      assert FirstBaseAt(worktrees, isBase, 0);
    }
  }

  /** `hasBaseSession` holds exactly when `baseSession` is defined, and
      then the latter is the first base session in the list. */
  lemma BaseSessionIffHas<W>(worktrees: Option<seq<W>>, isBase: W -> bool)
    ensures BaseSession(worktrees, isBase).Some? <==> HasBaseSession(worktrees, isBase)
    ensures BaseSession(worktrees, isBase).Some? ==>
      exists k :: FirstBaseAt(worktrees.value, isBase, k) && BaseSession(worktrees, isBase) == Some(worktrees.value[k])
  {
    if worktrees.Some? {
      FindBaseIsFirst(worktrees.value, isBase);
    }
  }

  /** The state filter of the issue and PR queries. */
  datatype StateFilter = AllStates | OpenOnly

  /** `includeClosed ? 'all' : 'open'`, used for both issues and PRs. */
  function ItemStateFilter(includeClosed: bool): (r: StateFilter)
    ensures r == AllStates <==> includeClosed
  {
    if includeClosed then AllStates else OpenOnly
  }

  // ---------------------------------------------------------------- keyboard

  /** The modal's tabs. */
  datatype Tab = QuickTab | IssuesTab | PrsTab | BranchesTab

  /** A key press: the key in lower case, the modifier keys, and the tag
      name of the focused element. */
  datatype KeyPress = KeyPress(key: string, metaKey: bool, ctrlKey: bool, targetTag: string)

  /** What the handler asks the modal to do; `background` is the Cmd key. */
  datatype Action<Issue, Pr> =
    | CreateWorktree
    | OpenBaseSession
    | SelectIssue(issue: Issue, background: bool)
    | InvestigateIssue(issue: Issue, background: bool)
    | SelectPr(pr: Pr, background: bool)
    | InvestigatePr(pr: Pr, background: bool)
    | SelectBranch(branch: string, background: bool)

  /** The lists shown in the tabs, and the number of an item whose worktree
      is being created. */
  datatype Lists<Issue, Pr> = Lists(issues: seq<Issue>, prs: seq<Pr>, branches: seq<string>,
                                    creatingFromNumber: Option<int>)

  /** The active tab, the highlighted index, and the actions requested. */
  datatype KeyboardView<Issue, Pr> = KeyboardView(activeTab: Tab, selectedItemIndex: int,
                                                  actions: seq<Action<Issue, Pr>>)

  /** The tab a Cmd/Ctrl digit selects. */
  function TabShortcut(key: string): (r: Option<Tab>)
    ensures key == "1" ==> r == Some(QuickTab)
    ensures key == "2" ==> r == Some(IssuesTab)
    ensures key == "3" ==> r == Some(PrsTab)
    ensures key == "4" ==> r == Some(BranchesTab)
    ensures r.Some? ==> key in {"1", "2", "3", "4"}
  {
    if key == "1" then Some(QuickTab)
    else if key == "2" then Some(IssuesTab)
    else if key == "3" then Some(PrsTab)
    else if key == "4" then Some(BranchesTab)
    else None
  }

  /** The index an arrow key moves to in a list of `len` entries: one down,
      stopping at the last entry, or one up, stopping at the first. */
  function ArrowTarget(prev: int, len: int, down: bool): int {
    if down then (if prev + 1 < len - 1 then prev + 1 else len - 1)
    else (if prev - 1 > 0 then prev - 1 else 0)
  }

  /** An index in range stays in range, and moves by at most one. */
  lemma ArrowStaysInRange(prev: int, len: int, down: bool)
    requires 0 <= prev < len
    ensures 0 <= ArrowTarget(prev, len, down) < len
    ensures down ==> ArrowTarget(prev, len, down) == (if prev == len - 1 then prev else prev + 1)
    ensures !down ==> ArrowTarget(prev, len, down) == (if prev == 0 then 0 else prev - 1)
  {
  }

  /** The index-based handling shared by the three list tabs: arrows move
      the index, Enter selects the item under it, `m` investigates it when no
      worktree is being created (`investigate` is None for branches). */
  function ListKeyStep<Issue, Pr, T>(v: KeyboardView<Issue, Pr>, items: seq<T>, present: T -> bool,
                                     e: KeyPress, creating: Option<int>,
                                     select: (T, bool) -> Action<Issue, Pr>,
                                     investigate: Option<(T, bool) -> Action<Issue, Pr>>): KeyboardView<Issue, Pr> {
    var i := v.selectedItemIndex;
    var atIndex := 0 <= i < |items| && present(items[i]);
    if e.key == "arrowdown" then v.(selectedItemIndex := ArrowTarget(i, |items|, true))
    else if e.key == "arrowup" then v.(selectedItemIndex := ArrowTarget(i, |items|, false))
    else if e.key == "enter" && atIndex then v.(actions := v.actions + [select(items[i], e.metaKey)])
    else if e.key == "m" && investigate.Some? && atIndex && creating.None? then
      v.(actions := v.actions + [investigate.value(items[i], e.metaKey)])
    else v
  }

  /** Objects are always truthy; a branch name is truthy when non-empty. */
  function Always<T>(): T -> bool {
    _ => true
  }

  predicate NonEmpty(b: string) {
    b != ""
  }

  /** `handleKeyDown`. */
  function KeyStep<Issue, Pr>(v: KeyboardView<Issue, Pr>, lists: Lists<Issue, Pr>, e: KeyPress): KeyboardView<Issue, Pr> {
    if (e.metaKey || e.ctrlKey) && TabShortcut(e.key).Some? then v.(activeTab := TabShortcut(e.key).value)
    else if v.activeTab == QuickTab && e.targetTag != "INPUT" && e.targetTag != "TEXTAREA" && e.key == "n" then
      v.(actions := v.actions + [CreateWorktree])
    else if v.activeTab == QuickTab && e.targetTag != "INPUT" && e.targetTag != "TEXTAREA" && e.key == "m" then
      v.(actions := v.actions + [OpenBaseSession])
    else if v.activeTab == IssuesTab && |lists.issues| > 0 then
      ListKeyStep(v, lists.issues, Always(), e, lists.creatingFromNumber,
                  (x, bg) => SelectIssue(x, bg), Some((x, bg) => InvestigateIssue(x, bg)))
    else if v.activeTab == PrsTab && |lists.prs| > 0 then
      ListKeyStep(v, lists.prs, Always(), e, lists.creatingFromNumber,
                  (x, bg) => SelectPr(x, bg), Some((x, bg) => InvestigatePr(x, bg)))
    else if v.activeTab == BranchesTab && |lists.branches| > 0 then
      ListKeyStep(v, lists.branches, NonEmpty, e, lists.creatingFromNumber,
                  (x, bg) => SelectBranch(x, bg), None)
    else v
  }

  /** The items of the active tab's list. */
  function ActiveLength<Issue, Pr>(tab: Tab, lists: Lists<Issue, Pr>): nat {
    match tab
    case QuickTab => 0
    case IssuesTab => |lists.issues|
    case PrsTab => |lists.prs|
    case BranchesTab => |lists.branches|
  }

  /** Cmd or Ctrl with 1 to 4 selects the matching tab and nothing else. */
  lemma TabShortcutsSelectTabs<Issue, Pr>(v: KeyboardView<Issue, Pr>, lists: Lists<Issue, Pr>, e: KeyPress)
    requires e.metaKey || e.ctrlKey
    requires e.key in {"1", "2", "3", "4"}
    ensures KeyStep(v, lists, e) == v.(activeTab := if e.key == "1" then QuickTab
                                                 else if e.key == "2" then IssuesTab
                                                 else if e.key == "3" then PrsTab
                                                 else BranchesTab)
  {
  }

  /** Arrow keys on a list tab keep an index that was in range in range,
      and request nothing. */
  lemma ArrowsKeepIndexInRange<Issue, Pr>(v: KeyboardView<Issue, Pr>, lists: Lists<Issue, Pr>, e: KeyPress)
    requires v.activeTab != QuickTab
    requires e.key == "arrowdown" || e.key == "arrowup"
    requires 0 <= v.selectedItemIndex < ActiveLength(v.activeTab, lists)
    ensures var w := KeyStep(v, lists, e);
      0 <= w.selectedItemIndex < ActiveLength(v.activeTab, lists) && w.actions == v.actions && w.activeTab == v.activeTab
  {
    ArrowStaysInRange(v.selectedItemIndex, ActiveLength(v.activeTab, lists), e.key == "arrowdown");
  }

  /** With the active tab's list empty, only the tab shortcuts do anything. */
  lemma EmptyListIgnoresKeys<Issue, Pr>(v: KeyboardView<Issue, Pr>, lists: Lists<Issue, Pr>, e: KeyPress)
    requires v.activeTab != QuickTab && ActiveLength(v.activeTab, lists) == 0
    requires !((e.metaKey || e.ctrlKey) && e.key in {"1", "2", "3", "4"})
    ensures KeyStep(v, lists, e) == v
  {
  }

  /** Enter on the issues tab selects the highlighted issue, in the
      background when Cmd is held; without an issue there it does nothing. */
  lemma EnterSelectsIssue<Issue, Pr>(v: KeyboardView<Issue, Pr>, lists: Lists<Issue, Pr>, e: KeyPress)
    requires v.activeTab == IssuesTab && e.key == "enter"
    ensures 0 <= v.selectedItemIndex < |lists.issues| ==>
      KeyStep(v, lists, e) == v.(actions := v.actions + [SelectIssue(lists.issues[v.selectedItemIndex], e.metaKey)])
    ensures !(0 <= v.selectedItemIndex < |lists.issues|) ==> KeyStep(v, lists, e) == v
  {
  }

  /** Enter on the branches tab selects the highlighted branch only when it
      exists and is a non-empty name. */
  lemma EnterSelectsBranch<Issue, Pr>(v: KeyboardView<Issue, Pr>, lists: Lists<Issue, Pr>, e: KeyPress)
    requires v.activeTab == BranchesTab && e.key == "enter"
    ensures var i := v.selectedItemIndex;
      KeyStep(v, lists, e) ==
        if 0 <= i < |lists.branches| && lists.branches[i] != "" then
          v.(actions := v.actions + [SelectBranch(lists.branches[i], e.metaKey)])
        else v
  {
  }

  /** `m` on the PRs tab investigates the highlighted PR exactly when there
      is one and no worktree is being created from a number. */
  lemma InvestigateOnlyWhenIdle<Issue, Pr>(v: KeyboardView<Issue, Pr>, lists: Lists<Issue, Pr>, e: KeyPress)
    requires v.activeTab == PrsTab && e.key == "m"
    ensures var i := v.selectedItemIndex;
      KeyStep(v, lists, e) ==
        if 0 <= i < |lists.prs| && lists.creatingFromNumber.None? then
          v.(actions := v.actions + [InvestigatePr(lists.prs[i], e.metaKey)])
        else v
  {
  }

  /** On the quick tab, `n` and `m` act only when focus is not in a text
      field. */
  lemma QuickKeysIgnoreTextFields<Issue, Pr>(v: KeyboardView<Issue, Pr>, lists: Lists<Issue, Pr>, e: KeyPress)
    requires v.activeTab == QuickTab && (e.key == "n" || e.key == "m")
    ensures e.targetTag == "INPUT" || e.targetTag == "TEXTAREA" ==> KeyStep(v, lists, e) == v
    ensures e.targetTag != "INPUT" && e.targetTag != "TEXTAREA" ==>
      KeyStep(v, lists, e) == v.(actions := v.actions + [if e.key == "n" then CreateWorktree else OpenBaseSession])
  {
  }

  /** The modal's keyboard state. */
  class NewWorktreeKeyboard<Issue, Pr> {
    var activeTab: Tab
    var selectedItemIndex: int
    var actions: seq<Action<Issue, Pr>>

    constructor()
      ensures View() == KeyboardView(QuickTab, 0, [])
    {
      activeTab, selectedItemIndex, actions := QuickTab, 0, [];
    }

    function View(): KeyboardView<Issue, Pr>
      reads this
    {
      KeyboardView(activeTab, selectedItemIndex, actions)
    }

    /** The arrow, Enter and `m` handling of one list tab. */
    method HandleListKey<T>(items: seq<T>, present: T -> bool, e: KeyPress, creating: Option<int>,
                            select: (T, bool) -> Action<Issue, Pr>,
                            investigate: Option<(T, bool) -> Action<Issue, Pr>>)
      modifies this
      ensures View() == ListKeyStep(old(View()), items, present, e, creating, select, investigate)
    {
      var i := selectedItemIndex;
      if e.key == "arrowdown" {
        selectedItemIndex := if i + 1 < |items| - 1 then i + 1 else |items| - 1;
      } else if e.key == "arrowup" {
        selectedItemIndex := if i - 1 > 0 then i - 1 else 0;
      } else if e.key == "enter" && 0 <= i < |items| && present(items[i]) {
        actions := actions + [select(items[i], e.metaKey)];
      } else if e.key == "m" && investigate.Some? && 0 <= i < |items| && present(items[i]) && creating.None? {
        actions := actions + [investigate.value(items[i], e.metaKey)];
      }
    }

    method HandleKeyDown(lists: Lists<Issue, Pr>, e: KeyPress)
      modifies this
      ensures View() == KeyStep(old(View()), lists, e)
    {
      if e.metaKey || e.ctrlKey {
        var tab := TabShortcut(e.key);
        if tab.Some? {
          activeTab := tab.value;
          return;
        }
      }
      if activeTab == QuickTab && e.targetTag != "INPUT" && e.targetTag != "TEXTAREA" {
        if e.key == "n" {
          actions := actions + [CreateWorktree];
          return;
        }
        if e.key == "m" {
          actions := actions + [OpenBaseSession];
          return;
        }
      }
      if activeTab == IssuesTab && |lists.issues| > 0 {
        HandleListKey(lists.issues, Always(), e, lists.creatingFromNumber,
                      (x, bg) => SelectIssue(x, bg), Some((x, bg) => InvestigateIssue(x, bg)));
      } else if activeTab == PrsTab && |lists.prs| > 0 {
        HandleListKey(lists.prs, Always(), e, lists.creatingFromNumber,
                      (x, bg) => SelectPr(x, bg), Some((x, bg) => InvestigatePr(x, bg)));
      } else if activeTab == BranchesTab && |lists.branches| > 0 {
        HandleListKey(lists.branches, NonEmpty, e, lists.creatingFromNumber,
                      (x, bg) => SelectBranch(x, bg), None);
      }
    }
  }
}
