/** The follow / approve / decline handlers of the profile screen and the
    deferred "my pending follow request was approved" event. */
module SocialGraph {
  import opened ProfileState

  /** `r` differs from `s` in the follow status of `u` only, which is now
      `status`; every other user's status reads the same. */
  ghost predicate StatusUpdated(s: AppState, r: AppState, u: string, status: FollowStatus) {
    && StatusOf(r.followStatuses, u) == status
    && forall v :: v != u ==> StatusOf(r.followStatuses, v) == StatusOf(s.followStatuses, v)
  }

  /** My chingu count and `u`'s chingu count each rose by exactly one; no
      other profile field and no other user changed, and no user appeared or
      disappeared. */
  predicate ChinguCountsBumped(s: AppState, r: AppState, u: string) {
    && u in s.mockUsers
    && r.myProfile.chingu == s.myProfile.chingu + 1
    && r.myProfile.(chingu := s.myProfile.chingu) == s.myProfile
    && r.mockUsers.Keys == s.mockUsers.Keys
    && r.mockUsers[u].chingu == s.mockUsers[u].chingu + 1
    && r.mockUsers[u].(chingu := s.mockUsers[u].chingu) == s.mockUsers[u]
    && forall v :: v in s.mockUsers && v != u ==> r.mockUsers[v] == s.mockUsers[v]
  }

  /** Both users' chingu counts, each raised by one. */
  function BumpChinguCounts(s: AppState, u: string): (r: AppState)
    requires u in s.mockUsers
    ensures ChinguCountsBumped(s, r, u)
    ensures r.(myProfile := s.myProfile, mockUsers := s.mockUsers) == s
  {
    s.(myProfile := s.myProfile.(chingu := s.myProfile.chingu + 1),
       mockUsers := s.mockUsers[u := s.mockUsers[u].(chingu := s.mockUsers[u].chingu + 1)])
  }

  /** The follow button on another user's profile. */
  function FollowClick(s: AppState): (r: AppState)
    ensures StatusOf(s.followStatuses, s.currentProfile) == NotFollowing ==>
      && StatusUpdated(s, r, s.currentProfile, Pending)
      && r.(followStatuses := s.followStatuses) == s
    ensures StatusOf(s.followStatuses, s.currentProfile) == Pending ==> r == s
    ensures StatusOf(s.followStatuses, s.currentProfile) == Approved ==>
      && r.selectedChat == Some(s.currentProfile)
      && r.viewMode == Texting
      && r.(selectedChat := s.selectedChat, viewMode := s.viewMode) == s
  {
    var status := StatusOf(s.followStatuses, s.currentProfile);
    if status == NotFollowing then
      s.(followStatuses := s.followStatuses[s.currentProfile := Pending])
    else if status == Approved then
      s.(selectedChat := Some(s.currentProfile), viewMode := Texting)
    else
      s
  }

  /** Clicking the follow button a second time adds nothing: a pending
      request stays pending and an approved one opens the same chat again. */
  lemma FollowClickIdempotent(s: AppState)
    ensures FollowClick(FollowClick(s)) == FollowClick(s)
  {
  }

  /** Approving `u` dereferences `mockUsers[u]` when a request from `u`
      exists, so the handler only runs to completion when that user is
      known. */
  predicate ApproveIsSafe(s: AppState, u: string) {
    !HasUsername(s.followRequests, u) || u in s.mockUsers
  }

  /** What approving an existing request from `u` does, apart from the
      chingu list: the request leaves the request list, both counts rise by
      one, `u` becomes approved, and nothing else changes. */
  ghost predicate ApprovalEffects(s: AppState, r: AppState, u: string) {
    && r.followRequests == RemoveUsername(s.followRequests, u)
    && (forall x :: x in r.followRequests <==> x in s.followRequests && x.username != u)
    && ChinguCountsBumped(s, r, u)
    && StatusUpdated(s, r, u, Approved)
    && SameNavigation(s, r)
    && r.chatMessages == s.chatMessages
  }

  /** `handleApproveRequest` as written: the found request is appended to the
      chingu list even when `u` is already on it. */
  function ApproveRequestAsWritten(s: AppState, u: string): (r: AppState)
    requires ApproveIsSafe(s, u)
    ensures !HasUsername(s.followRequests, u) ==> r == s
    ensures HasUsername(s.followRequests, u) ==>
      && ApprovalEffects(s, r, u)
      && r.approvedChingu == s.approvedChingu + [s.followRequests[FindIndex(s.followRequests, u).value]]
      && r.approvedChingu[|r.approvedChingu| - 1].username == u
  {
    match FindIndex(s.followRequests, u)
    case None => s
    case Some(i) =>
      BumpChinguCounts(s, u).(
        followRequests := RemoveUsername(s.followRequests, u),
        approvedChingu := s.approvedChingu + [s.followRequests[i]],
        followStatuses := s.followStatuses[u := Approved])
  }

  /** `handleApproveRequest` with the duplicate check that the pending-approval
      path already performs: the request joins the chingu list only when `u`
      is not on it yet. */
  function ApproveRequest(s: AppState, u: string): (r: AppState)
    requires ApproveIsSafe(s, u)
    ensures !HasUsername(s.followRequests, u) ==> r == s
    ensures HasUsername(s.followRequests, u) ==>
      && ApprovalEffects(s, r, u)
      && HasUsername(r.approvedChingu, u)
      && (HasUsername(s.approvedChingu, u) ==> r.approvedChingu == s.approvedChingu)
      && (!HasUsername(s.approvedChingu, u) ==>
            r.approvedChingu == s.approvedChingu + [s.followRequests[FindIndex(s.followRequests, u).value]])
    ensures NoDuplicateUsernames(s.approvedChingu) ==> NoDuplicateUsernames(r.approvedChingu)
  {
    match FindIndex(s.followRequests, u)
    case None => s
    case Some(i) =>
      var chingu := if HasUsername(s.approvedChingu, u) then s.approvedChingu
                    else s.approvedChingu + [s.followRequests[i]];
      assert HasUsername(chingu, u) by {
        if !HasUsername(s.approvedChingu, u) {
          assert chingu[|chingu| - 1].username == u;
        }
      }
      BumpChinguCounts(s, u).(
        followRequests := RemoveUsername(s.followRequests, u),
        approvedChingu := chingu,
        followStatuses := s.followStatuses[u := Approved])
  }

  /** Once approved, a request is gone: approving the same user again is a
      no-op. */
  lemma ApproveRequestTwice(s: AppState, u: string)
    requires ApproveIsSafe(s, u)
    ensures ApproveIsSafe(ApproveRequest(s, u), u)
    ensures ApproveRequest(ApproveRequest(s, u), u) == ApproveRequest(s, u)
  {
  }

  /** The decline button: every request from `u` goes and `u`'s status is
      reset; the chingu list and every count are left as they were. */
  function DeclineRequest(s: AppState, u: string): (r: AppState)
    ensures r.followRequests == RemoveUsername(s.followRequests, u)
    ensures forall x :: x in r.followRequests <==> x in s.followRequests && x.username != u
    ensures StatusUpdated(s, r, u, NotFollowing)
    ensures r.approvedChingu == s.approvedChingu
    ensures r.myProfile == s.myProfile && r.mockUsers == s.mockUsers
    ensures SameNavigation(s, r) && r.chatMessages == s.chatMessages
  {
    s.(followRequests := RemoveUsername(s.followRequests, u),
       followStatuses := s.followStatuses[u := NotFollowing])
  }

  /** Declining twice is declining once. */
  lemma DeclineRequestIdempotent(s: AppState, u: string)
    ensures DeclineRequest(DeclineRequest(s, u), u) == DeclineRequest(s, u)
  {
    RemoveAbsentUsername(RemoveUsername(s.followRequests, u), u);
  }

  /** Approving and declining the same request leave the same request list;
      they differ only in where the user ends up. */
  lemma ApproveAndDeclineAgreeOnRequests(s: AppState, u: string)
    requires ApproveIsSafe(s, u) && HasUsername(s.followRequests, u)
    ensures ApproveRequest(s, u).followRequests == DeclineRequest(s, u).followRequests
    ensures StatusOf(ApproveRequest(s, u).followStatuses, u) == Approved
    ensures StatusOf(DeclineRequest(s, u).followStatuses, u) == NotFollowing
  {
  }

  /** The deferred event that fires for a user whose follow request is
      pending: the user approves, joins my chingu list unless already on it,
      and both chingu counts rise by one whether or not the list grew. The
      count update dereferences `mockUsers[u]`, so the user must be known. */
  function FollowApproved(s: AppState, u: string): (r: AppState)
    requires StatusOf(s.followStatuses, u) == Pending
    requires u in s.mockUsers
    ensures StatusUpdated(s, r, u, Approved)
    ensures ChinguCountsBumped(s, r, u)
    ensures r.followRequests == s.followRequests
    ensures SameNavigation(s, r) && r.chatMessages == s.chatMessages
    ensures HasUsername(s.approvedChingu, u) ==> r.approvedChingu == s.approvedChingu
    ensures !HasUsername(s.approvedChingu, u) ==>
      r.approvedChingu == s.approvedChingu + [ToChingu(s.mockUsers[u])]
    ensures s.mockUsers[u].username == u ==> HasUsername(r.approvedChingu, u)
    ensures NoDuplicateUsernames(s.approvedChingu) && s.mockUsers[u].username == u ==>
      NoDuplicateUsernames(r.approvedChingu)
  {
    var chingu := if HasUsername(s.approvedChingu, u) then s.approvedChingu
                  else s.approvedChingu + [ToChingu(s.mockUsers[u])];
    assert s.mockUsers[u].username == u ==> HasUsername(chingu, u) by {
      if s.mockUsers[u].username == u && !HasUsername(s.approvedChingu, u) {
        assert chingu[|chingu| - 1].username == u;
      }
    }
    BumpChinguCounts(s, u).(
      followStatuses := s.followStatuses[u := Approved],
      approvedChingu := chingu)
  }
}
