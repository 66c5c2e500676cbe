/** Choosing the git remote an action runs against: no choice with zero or
    one remote, a picker with two or more (src/hooks/useRemotePicker.ts). */
module RemotePicker {
  import opened Common

  /** How listing the repository's remotes ended: their names, or a failure. */
  datatype Listing = Listed(remotes: seq<string>) | ListingFailed

  /** What `pickRemoteOrRun(action)` did: the remotes the action was called
      with, in order, and the repository the picker was opened for (the
      picker then runs the same action with the user's choice). */
  datatype Decision = Decision(actionCalls: seq<string>, pickerFor: Option<string>)

  /** The fallback remote. */
  const Origin: string := "origin"

  /** The decision with the listing failure caught, and only it: without a
      repository, with no remote, or when listing fails, the action runs with
      "origin"; with one remote it runs with that remote; with more the
      picker opens. */
  function PickRemoteOrRun(repoPath: Option<string>, listing: Listing): (r: Decision)
    ensures |r.actionCalls| + (if r.pickerFor.Some? then 1 else 0) == 1
    ensures !Truthy(repoPath) ==> r == Decision([Origin], None)
    ensures Truthy(repoPath) && listing.ListingFailed? ==> r == Decision([Origin], None)
    ensures Truthy(repoPath) && listing.Listed? && |listing.remotes| == 0 ==> r == Decision([Origin], None)
    ensures Truthy(repoPath) && listing.Listed? && |listing.remotes| == 1 ==> r == Decision([listing.remotes[0]], None)
    ensures Truthy(repoPath) && listing.Listed? && |listing.remotes| >= 2 ==> r == Decision([], repoPath)
  {
    if !Truthy(repoPath) then Decision([Origin], None)
    else match listing
      case ListingFailed => Decision([Origin], None)
      case Listed(remotes) =>
        if |remotes| <= 1 then Decision([if |remotes| == 1 then remotes[0] else Origin], None)
        else Decision([], repoPath)
  }

  /** The action is called directly at most once, and never when the picker
      opens. */
  lemma ActionRunsAtMostOnce(repoPath: Option<string>, listing: Listing)
    ensures |PickRemoteOrRun(repoPath, listing).actionCalls| <= 1
    ensures PickRemoteOrRun(repoPath, listing).pickerFor.Some? ==> PickRemoteOrRun(repoPath, listing).actionCalls == []
  {
  }

  /** The decision as written, where the `catch` also catches an exception
      thrown by the action itself (`actionThrows`): the action is then run a
      second time with "origin". */
  function PickRemoteOrRunAsWritten(repoPath: Option<string>, listing: Listing, actionThrows: bool): (r: Decision)
    ensures !actionThrows ==> r == PickRemoteOrRun(repoPath, listing)
  {
    if !Truthy(repoPath) then Decision([Origin], None)
    else match listing
      case ListingFailed => Decision([Origin], None)
      case Listed(remotes) =>
        if |remotes| <= 1 then
          var first := if |remotes| == 1 then remotes[0] else Origin;
          if actionThrows then Decision([first, Origin], None) else Decision([first], None)
        else Decision([], repoPath)
  }

  /** With one remote "upstream" and an action that throws, the action is
      run twice, the second time against "origin". */
  lemma ThrowingActionRunsTwice(repoPath: string, upstream: string)
    requires repoPath != "" && upstream == "upstream"
    ensures PickRemoteOrRunAsWritten(Some(repoPath), Listed([upstream]), true).actionCalls == [upstream, Origin]
  {
  }
}
