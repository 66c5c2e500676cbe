/** The list view of a worktree's session canvas: which session card is
    selected, when keyboard navigation and card shortcuts are on, how the
    selection is repaired after CMD+W closes a session, and the global row
    numbers of the grouped list (src/components/chat/CanvasList.tsx).
    A card is identified by its session id. */
module CanvasList {
  import opened Common

  /** The card under the selection index, if the index points at one. */
  function SelectedCard(cards: seq<string>, selectedIndex: Option<int>): (r: Option<string>)
    ensures r.Some? <==> selectedIndex.Some? && 0 <= selectedIndex.value < |cards|
    ensures r.Some? ==> r.value == cards[selectedIndex.value]
  {
    if selectedIndex.Some? && 0 <= selectedIndex.value < |cards| then Some(cards[selectedIndex.value]) else None
  }

  /** Whether anything covers the list: the session modal, the plan dialog
      (by path or by content), the recap dialog or the label modal. */
  predicate IsModalOpen(selectedSessionId: Option<string>, planDialogPath: Option<string>,
                        planDialogContent: Option<string>, recapDialogOpen: bool, labelModalOpen: bool)
  {
    Truthy(selectedSessionId) || Truthy(planDialogPath) || Truthy(planDialogContent) || recapDialogOpen || labelModalOpen
  }

  /** Arrow-key navigation over the cards runs only while nothing covers the
      list. */
  function KeyboardNavEnabled(selectedSessionId: Option<string>, planDialogPath: Option<string>,
                              planDialogContent: Option<string>, recapDialogOpen: bool, labelModalOpen: bool): (r: bool)
    ensures r <==> !Truthy(selectedSessionId) && !Truthy(planDialogPath) && !Truthy(planDialogContent)
                   && !recapDialogOpen && !labelModalOpen
  {
    !IsModalOpen(selectedSessionId, planDialogPath, planDialogContent, recapDialogOpen, labelModalOpen)
  }

  /** The card shortcuts (plan, recap, approve, label) listen only when no
      session is open in the modal and a card index is selected. */
  function ShortcutsEnabled(selectedSessionId: Option<string>, selectedIndex: Option<int>): (r: bool)
    ensures r <==> !Truthy(selectedSessionId) && selectedIndex.Some?
  {
    !Truthy(selectedSessionId) && selectedIndex.Some?
  }

  /** The shortcuts are never on while keyboard navigation is off because of
      an open session modal. */
  lemma ShortcutsOffUnderSessionModal(selectedSessionId: Option<string>, selectedIndex: Option<int>,
                                      planDialogPath: Option<string>, planDialogContent: Option<string>,
                                      recapDialogOpen: bool, labelModalOpen: bool)
    requires Truthy(selectedSessionId)
    ensures !ShortcutsEnabled(selectedSessionId, selectedIndex)
    ensures !KeyboardNavEnabled(selectedSessionId, planDialogPath, planDialogContent, recapDialogOpen, labelModalOpen)
  {
  }

  // ---------------------------------------------------------------- CMD+W

  /** The selection state the close handler changes, and the sessions it
      asked the parent to delete. `canvasSelected` maps worktree ids to the
      canvas-selected session. `handled` records whether the event was
      consumed (propagation stopped). */
  datatype SelectionView = SelectionView(
    selectedIndex: Option<int>,
    selectedSessionId: Option<string>,
    canvasSelected: map<string, string>,
    deleted: seq<string>,
    handled: bool)

  /** The index the selection moves to after closing the modal session at
      `closingIndex`, and the card then selected. With no card left there is
      neither. */
  function ModalCloseTarget(cards: seq<string>, closing: string): (r: Option<(int, string)>)
    ensures r.None? <==> RemoveAll(cards, closing) == []
  {
    var closingIndex := IndexOf(cards, closing);
    var remaining := RemoveAll(cards, closing);
    if remaining == [] then None
    else
      assert closingIndex > 0 ==> cards[..closingIndex] == remaining[..closingIndex] by {
        if closingIndex > 0 {
          PrefixSurvivesRemoval(cards, closing, closingIndex);
        }
      }
      var target := if closingIndex > 0 then remaining[closingIndex - 1] else remaining[0];
      var newIndex := IndexOf(cards, target);
      var adjusted := if newIndex > closingIndex then newIndex - 1 else newIndex;
      Some((adjusted, target))
  }

  /** Cards in front of the first occurrence of `x` survive its removal
      unchanged. */
  lemma {:induction false} PrefixSurvivesRemoval(s: seq<string>, x: string, n: nat)
    requires n <= |s| && x !in s[..n]
    ensures |RemoveAll(s, x)| >= n && RemoveAll(s, x)[..n] == s[..n]
  {
    if n > 0 {
      assert s[0] != x by { assert s[0] == s[..n][0]; }
      assert s[1..][..n - 1] == s[1..n];
      var t := s[1..][..n - 1];
      assert x !in t by {
        forall k | 0 <= k < |t| ensures t[k] != x {
          assert t[k] == s[..n][k + 1];
        }
      }
      PrefixSurvivesRemoval(s[1..], x, n - 1);
      assert RemoveAll(s, x) == [s[0]] + RemoveAll(s[1..], x);
      assert s[..n] == [s[0]] + s[1..][..n - 1];
    }
  }

  /** `handleCloseSessionOrWorktree`, run against the cards as they were
      when the key was pressed. */
  function CloseStep(v: SelectionView, cards: seq<string>, worktreeId: string): SelectionView {
    if Truthy(v.selectedSessionId) then
      var closing := v.selectedSessionId.value;
      var w := v.(deleted := v.deleted + [closing], selectedSessionId := None, handled := true);
      match ModalCloseTarget(cards, closing)
      case None => w.(selectedIndex := None)
      case Some((index, target)) => w.(selectedIndex := Some(index), canvasSelected := w.canvasSelected[worktreeId := target])
    else if v.selectedIndex.Some? && 0 <= v.selectedIndex.value < |cards| then
      var i := v.selectedIndex.value;
      var w := v.(deleted := v.deleted + [cards[i]], handled := true);
      if |cards| <= 1 then w.(selectedIndex := None)
      else if i > 0 then w.(selectedIndex := Some(i - 1), canvasSelected := w.canvasSelected[worktreeId := cards[i - 1]])
      else w.(canvasSelected := w.canvasSelected[worktreeId := cards[1]])
    else v
  }

  /** Closing the session open in the modal deletes it, closes the modal,
      and clears the index when it was the last card. */
  lemma ModalCloseDeletes(v: SelectionView, cards: seq<string>, worktreeId: string)
    requires Truthy(v.selectedSessionId)
    ensures var w := CloseStep(v, cards, worktreeId);
      && w.deleted == v.deleted + [v.selectedSessionId.value]
      && w.selectedSessionId.None? && w.handled
      && (RemoveAll(cards, v.selectedSessionId.value) == [] ==> w.selectedIndex.None? && w.canvasSelected == v.canvasSelected)
  {
  }

  /** With distinct cards, closing the modal session at position `c`
      selects the previous card (the next one when it was first), and the new
      index is that card's position in the list without the closed session. */
  lemma {:induction false} ModalCloseSelectsNeighbour(v: SelectionView, cards: seq<string>, worktreeId: string, c: nat)
    requires Distinct(cards) && |cards| >= 2
    requires c < |cards| && v.selectedSessionId == Some(cards[c]) && cards[c] != ""
    ensures var w := CloseStep(v, cards, worktreeId);
      var remaining := cards[..c] + cards[c + 1..];
      var target := if c > 0 then cards[c - 1] else cards[1];
      && w.selectedIndex == Some(if c > 0 then c - 1 else 0)
      && w.canvasSelected == v.canvasSelected[worktreeId := target]
      && remaining[w.selectedIndex.value] == target
  {
    var closing := cards[c];
    assert cards[c] !in cards[..c] && cards[c] !in cards[c + 1..] by {
      forall k | 0 <= k < c ensures cards[..c][k] != closing { }
      var after := cards[c + 1..];
      forall k | 0 <= k < |after| ensures after[k] != closing {
        assert after[k] == cards[c + 1 + k];
      }
    }
    RemoveAllSingle(cards, c);
    var remaining := cards[..c] + cards[c + 1..];
    assert IndexOf(cards, closing) == c by {
      var i := IndexOf(cards, closing);
      assert cards[i] == closing;
    }
    if c > 0 {
      assert remaining[c - 1] == cards[c - 1];
      assert IndexOf(cards, cards[c - 1]) == c - 1 by {
        var i := IndexOf(cards, cards[c - 1]);
        assert cards[i] == cards[c - 1];
      }
    } else {
      assert remaining[0] == cards[1];
      assert IndexOf(cards, cards[1]) == 1 by {
        var i := IndexOf(cards, cards[1]);
        assert cards[i] == cards[1];
      }
    }
  }

  /** When the open session is not among the cards, the first card is
      canvas-selected but the index becomes -1 (the handler compares with a
      closing index of -1). */
  lemma ModalCloseOfUnlistedSession(v: SelectionView, cards: seq<string>, worktreeId: string)
    requires Truthy(v.selectedSessionId) && v.selectedSessionId.value !in cards && cards != []
    ensures var w := CloseStep(v, cards, worktreeId);
      w.selectedIndex == Some(-1) && w.canvasSelected == v.canvasSelected[worktreeId := cards[0]]
  {
    var closing := v.selectedSessionId.value;
    RemoveAllAbsent(cards, closing);
    assert IndexOf(cards, cards[0]) == 0;
  }

  /** Deleting the only card from the flat selection clears the index. */
  lemma FlatCloseLastCard(v: SelectionView, card: string, worktreeId: string)
    requires !Truthy(v.selectedSessionId) && v.selectedIndex == Some(0)
    ensures var w := CloseStep(v, [card], worktreeId);
      w.selectedIndex.None? && w.deleted == v.deleted + [card] && w.canvasSelected == v.canvasSelected && w.handled
  {
  }

  /** Deleting a flat-selected card moves the selection to the previous
      card, or keeps index 0 and selects the card that slides into it. The
      index stays within the list that remains. */
  lemma FlatCloseSelectsNeighbour(v: SelectionView, cards: seq<string>, worktreeId: string, i: nat)
    requires !Truthy(v.selectedSessionId) && v.selectedIndex == Some(i) && i < |cards| && |cards| >= 2
    ensures var w := CloseStep(v, cards, worktreeId);
      && w.deleted == v.deleted + [cards[i]] && w.handled
      && w.selectedIndex == Some(if i > 0 then i - 1 else 0)
      && w.canvasSelected == v.canvasSelected[worktreeId := if i > 0 then cards[i - 1] else cards[1]]
      && 0 <= w.selectedIndex.value < |cards| - 1
  {
  }

  /** Without an open session or a selected card the key is left to other
      handlers and nothing changes. */
  lemma CloseWithoutSelectionIgnored(v: SelectionView, cards: seq<string>, worktreeId: string)
    requires !Truthy(v.selectedSessionId)
    requires v.selectedIndex.None? || !(0 <= v.selectedIndex.value < |cards|)
    ensures CloseStep(v, cards, worktreeId) == v
  {
  }

  /** The list's selection state, as the parent and the chat store hold it. */
  class CanvasSelection {
    var selectedIndex: Option<int>
    var selectedSessionId: Option<string>
    var canvasSelected: map<string, string>
    var deleted: seq<string>

    constructor(index: Option<int>, sessionId: Option<string>)
      ensures selectedIndex == index && selectedSessionId == sessionId
      ensures canvasSelected == map[] && deleted == []
    {
      selectedIndex := index;
      selectedSessionId := sessionId;
      canvasSelected := map[];
      deleted := [];
    }

    function View(handled: bool): SelectionView
      reads this
    {
      SelectionView(selectedIndex, selectedSessionId, canvasSelected, deleted, handled)
    }

    /** `handleCloseSessionOrWorktree`; `handled` tells whether propagation
        was stopped. */
    method CloseSessionOrWorktree(cards: seq<string>, worktreeId: string) returns (handled: bool)
      modifies this
      ensures View(handled) == CloseStep(old(View(false)), cards, worktreeId)
    {
      if selectedSessionId.Some? && selectedSessionId.value != "" {
        var closing := selectedSessionId.value;
        handled := true;
        deleted := deleted + [closing];
        selectedSessionId := None;
        var closingIndex := IndexOf(cards, closing);
        var remaining := RemoveAll(cards, closing);
        if |remaining| == 0 {
          selectedIndex := None;
        } else {
          if closingIndex > 0 {
            PrefixSurvivesRemoval(cards, closing, closingIndex);
          }
          var target := if closingIndex > 0 then remaining[closingIndex - 1] else remaining[0];
          var newIndex := IndexOf(cards, target);
          var adjusted := if newIndex > closingIndex then newIndex - 1 else newIndex;
          selectedIndex := Some(adjusted);
          canvasSelected := canvasSelected[worktreeId := target];
        }
        return;
      }
      handled := false;
      if selectedIndex.Some? && 0 <= selectedIndex.value < |cards| {
        var i := selectedIndex.value;
        handled := true;
        deleted := deleted + [cards[i]];
        if |cards| <= 1 {
          selectedIndex := None;
        } else if i > 0 {
          selectedIndex := Some(i - 1);
          canvasSelected := canvasSelected[worktreeId := cards[i - 1]];
        } else {
          canvasSelected := canvasSelected[worktreeId := cards[1]];
        }
      }
    }
  }

  // ---------------------------------------------------------------- row numbers

  /** All cards of the groups, in rendering order. */
  function Flatten(groups: seq<seq<string>>): (r: seq<string>)
    ensures |r| == SizeSum(groups)
  {
    if groups == [] then [] else Flatten(groups[..|groups| - 1]) + groups[|groups| - 1]
  }

  /** The total number of cards in the groups. */
  function SizeSum(groups: seq<seq<string>>): nat {
    if groups == [] then 0 else SizeSum(groups[..|groups| - 1]) + |groups[|groups| - 1]|
  }

  /** A rendered row: the card and its global index. */
  datatype Row = Row(card: string, globalIndex: int)

  /** The rows of the grouped list: group by group, each card gets the running
      index `groupStart + i`. */
  method RowIndices(groups: seq<seq<string>>) returns (rows: seq<Row>)
    ensures |rows| == |Flatten(groups)|
    ensures forall k :: 0 <= k < |rows| ==> rows[k] == Row(Flatten(groups)[k], k)
  {
    rows := [];
    var indexOffset := 0;
    for g := 0 to |groups|
      invariant indexOffset == |rows| == |Flatten(groups[..g])|
      invariant forall k :: 0 <= k < |rows| ==> rows[k] == Row(Flatten(groups[..g])[k], k)
    {
      var groupStart := indexOffset;
      indexOffset := indexOffset + |groups[g]|;
      var before := rows;
      for i := 0 to |groups[g]|
        invariant |rows| == groupStart + i
        invariant rows[..groupStart] == before
        invariant forall k :: 0 <= k < i ==> rows[groupStart + k] == Row(groups[g][k], groupStart + k)
      {
        rows := rows + [Row(groups[g][i], groupStart + i)];
      }
      assert groups[..g + 1][..g] == groups[..g];
      assert Flatten(groups[..g + 1]) == Flatten(groups[..g]) + groups[g];
    }
    assert groups[..|groups|] == groups;
  }

  /** The first row of group `g` is numbered with the number of cards in
      the groups before it, and its cards follow consecutively. */
  lemma {:induction false} GroupRowsStartAfterEarlierGroups(groups: seq<seq<string>>, g: nat, i: nat)
    requires g < |groups| && i < |groups[g]|
    ensures SizeSum(groups[..g]) + i < |Flatten(groups)|
    ensures Flatten(groups)[SizeSum(groups[..g]) + i] == groups[g][i]
  {
    if g == |groups| - 1 {
      assert groups[..|groups| - 1] == groups[..g];
    } else {
      var init := groups[..|groups| - 1];
      assert init[..g] == groups[..g];
      GroupRowsStartAfterEarlierGroups(init, g, i);
      assert init[g] == groups[g];
    }
  }

  /** When grouping reorders the cards, the highlighted row and the card
      the close handler deletes differ: here index 0 highlights "b" while
      CMD+W on index 0 deletes "a". */
  lemma GroupedRowsCanDifferFromCards()
    ensures var cards := ["a", "b"];
      var groups := [["b"], ["a"]];
      var v := SelectionView(Some(0), None, map[], [], false);
      Flatten(groups)[0] == "b" && CloseStep(v, cards, "w").deleted == ["a"]
  {
    assert Flatten([["b"]]) == ["b"] by {
      assert [["b"]][..0] == [];
    }
    assert [["b"], ["a"]][..1] == [["b"]];
  }

  /** When grouping keeps the card order, the row with index `k` shows the
      card the selection index `k` names. */
  lemma GroupedRowsMatchCardsWhenOrderKept(cards: seq<string>, groups: seq<seq<string>>, k: int)
    requires Flatten(groups) == cards && 0 <= k < |cards|
    ensures SelectedCard(cards, Some(k)) == Some(Flatten(groups)[k])
  {
  }
}
