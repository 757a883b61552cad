/** The profile screen as a whole: every event the screen can receive, the
    invariant every reachable state keeps, and the two places where the
    handlers as written depart from that invariant. */
module AppEvents {
  import opened JsString
  import opened ProfileState
  import opened SocialGraph
  import opened Chat
  import opened Navigation

  /** Everything that can happen to the screen: a click, a key press, a
      change in an input box, or one of the two deferred timers firing. */
  datatype Event =
    | ClickFollow
    | PressKeyInSearch(key: string)
    | ClickBack
    | ClickChatInbox
    | EditProfile(field: ProfileField, value: string)
    | ClickApprove(username: string)
    | ClickDecline(username: string)
    | ClickMessage(username: string)
    | ClickSend(id: nat)
    | FollowApprovedTimer(username: string)
    | ReplyTimer(chat: string, id: nat, text: string)
    | TypeSearch(text: string)
    | TypeMessage(text: string)
    | ToggleEdit
    | OpenRequests
    | OpenChinguList
    | OpenMyProfile
  {
    /** The events whose handler acts on another user: following, approving,
        declining, opening a chat, and the approval timer. */
    predicate ActsOnUser() {
      ClickFollow? || ClickApprove? || ClickDecline? || ClickMessage? || FollowApprovedTimer?
    }
  }

  /** Every user is stored under its own username, and none under the
      empty name. */
  predicate UsersKeyed(users: map<string, UserProfile>) {
    && (forall k :: k in users ==> users[k].username == k)
    && "" !in users
  }

  /** Every entry of `list` is for a known user. */
  predicate AllKnown(list: seq<FollowRequest>, users: map<string, UserProfile>) {
    forall i :: 0 <= i < |list| ==> list[i].username in users
  }

  /** Every pending follow is for a known user. */
  predicate PendingKnown(statuses: map<string, FollowStatus>, users: map<string, UserProfile>) {
    forall u :: u in statuses && statuses[u] == Pending ==> u in users
  }

  /** The part of the invariant that keeps every look-up of the handlers and
      of the screen on a real entry: users are keyed by username; every
      request, every chingu and every pending follow is for a known user; a
      profile shown from a search is a known user; and the chat view always
      has a chat partner. */
  predicate WellFormed(s: AppState) {
    && UsersKeyed(s.mockUsers)
    && AllKnown(s.followRequests, s.mockUsers)
    && AllKnown(s.approvedChingu, s.mockUsers)
    && PendingKnown(s.followStatuses, s.mockUsers)
    && (s.viewMode == Profile || s.viewMode == SearchResult ==> s.currentProfile in s.mockUsers)
    && (s.viewMode == Texting ==> IsTruthy(s.selectedChat))
  }

  /** The invariant of every reachable state of the corrected screen: it is
      well formed and nobody is on my chingu list twice. */
  predicate Valid(s: AppState) {
    WellFormed(s) && NoDuplicateUsernames(s.approvedChingu)
  }

  /** Whether the screen draws the control, or runs the timer, that delivers
      `e` in state `s`. The follow button belongs to the other-user profile
      page, which is what the screen falls back to outside the dedicated
      views (including a chat view with no chat selected). Chat buttons sit
      on the rows of the inbox and of the chingu list, one per chingu. The
      approval timer only runs for a pending user. Every other event is
      allowed everywhere, which over-approximates what the screen offers. */
  predicate Enabled(s: AppState, e: Event) {
    match e
    case ClickFollow =>
      || s.viewMode == Profile || s.viewMode == SearchResult
      || (s.viewMode == Texting && !IsTruthy(s.selectedChat))
    case ClickMessage(u) =>
      (s.viewMode == ChatInbox || s.viewMode == ChinguList) && HasUsername(s.approvedChingu, u)
    case FollowApprovedTimer(u) => StatusOf(s.followStatuses, u) == Pending
    case _ => true
  }

  /** The screen starts in a valid state. */
  lemma InitialIsValid()
    ensures Valid(Initial())
  {
  }

  /** Approving as written never dereferences an unknown user and keeps the
      state well formed, though it may list a user twice. */
  lemma ApproveAsWrittenKeepsWellFormed(s: AppState, u: string)
    requires WellFormed(s)
    ensures ApproveIsSafe(s, u)
    ensures WellFormed(ApproveRequestAsWritten(s, u))
  {
    if HasUsername(s.followRequests, u) {
      var r := ApproveRequestAsWritten(s, u);
      forall i | 0 <= i < |r.followRequests|
        ensures r.followRequests[i].username in r.mockUsers
      {
        assert r.followRequests[i] in s.followRequests;
      }
    }
  }

  /** The corrected approve never dereferences an unknown user either, and
      keeps the state well formed. */
  lemma ApproveKeepsWellFormed(s: AppState, u: string)
    requires WellFormed(s)
    ensures ApproveIsSafe(s, u)
    ensures WellFormed(ApproveRequest(s, u))
  {
    if HasUsername(s.followRequests, u) {
      var r := ApproveRequest(s, u);
      forall i | 0 <= i < |r.followRequests|
        ensures r.followRequests[i].username in r.mockUsers
      {
        assert r.followRequests[i] in s.followRequests;
      }
    }
  }

  /** The corrected approve keeps the whole invariant, the chingu list's
      freedom from duplicates included. */
  lemma ApprovePreservesValid(s: AppState, u: string)
    requires Valid(s)
    ensures ApproveIsSafe(s, u)
    ensures Valid(ApproveRequest(s, u))
  {
    ApproveKeepsWellFormed(s, u);
  }

  /** Declining only shrinks the request list. */
  lemma DeclinePreservesValid(s: AppState, u: string)
    requires WellFormed(s)
    ensures WellFormed(DeclineRequest(s, u))
    ensures Valid(s) ==> Valid(DeclineRequest(s, u))
  {
  }

  /** The follow button is only drawn on a known user's profile, so the
      pending follow it creates, or the chat it opens, is with a known
      user. */
  lemma FollowClickPreservesValid(s: AppState)
    requires WellFormed(s) && Enabled(s, ClickFollow)
    ensures WellFormed(FollowClick(s))
    ensures Valid(s) ==> Valid(FollowClick(s))
  {
  }

  /** Chat buttons only exist for chingus, who are known users, so the chat
      view always gets a partner. */
  lemma MessageUserPreservesValid(s: AppState, u: string)
    requires WellFormed(s) && Enabled(s, ClickMessage(u))
    ensures u != ""
    ensures WellFormed(MessageUser(s, u))
    ensures Valid(s) ==> Valid(MessageUser(s, u))
  {
    var i := FindIndex(s.approvedChingu, u).value;
    assert s.approvedChingu[i].username in s.mockUsers;
  }

  /** The approval timer only fires for a pending user, who is known, so it
      can bump that user's count; the list it may extend stays
      duplicate-free. */
  lemma FollowApprovedPreservesValid(s: AppState, u: string)
    requires WellFormed(s) && Enabled(s, FollowApprovedTimer(u))
    ensures u in s.mockUsers
    ensures WellFormed(FollowApproved(s, u))
    ensures Valid(s) ==> Valid(FollowApproved(s, u))
  {
    var r := FollowApproved(s, u);
    assert AllKnown(r.approvedChingu, r.mockUsers) by {
      forall i | 0 <= i < |r.approvedChingu|
        ensures r.approvedChingu[i].username in r.mockUsers
      {
        if i < |s.approvedChingu| {
          assert r.approvedChingu[i] == s.approvedChingu[i];
        }
      }
    }
  }

  /** Search keeps a shown profile on a known user. */
  lemma SearchPreservesValid(s: AppState, key: string)
    requires WellFormed(s)
    ensures WellFormed(Search(s, key))
    ensures Valid(s) ==> Valid(Search(s, key))
  {
  }

  /** A transition that leaves the users, the requests, the chingu list and
      the statuses alone, and either keeps what the view shows or moves to a
      view that shows no particular user, keeps the state well formed. */
  lemma QuietTransition(s: AppState, r: AppState)
    requires WellFormed(s)
    requires r.mockUsers == s.mockUsers && r.followRequests == s.followRequests
    requires r.approvedChingu == s.approvedChingu && r.followStatuses == s.followStatuses
    requires || (r.viewMode == s.viewMode && r.currentProfile == s.currentProfile && r.selectedChat == s.selectedChat)
             || r.viewMode in {MyProfile, ChatInbox, Requests, ChinguList, NotFound}
    ensures WellFormed(r)
  {
  }

  /** Which approve handler the screen runs: the one as written, or the
      corrected one that never lists a user twice. */
  datatype Approval = AsWritten | Corrected

  /** One event, handled. The search is always the corrected one (the search
      as written makes the screen render a profile that does not exist);
      approvals use the handler `approval` selects. Every look-up the
      handlers make succeeds and the state stays well formed; with the
      corrected approve the whole invariant survives. */
  function Step(s: AppState, e: Event, approval: Approval): (r: AppState)
    requires WellFormed(s) && Enabled(s, e)
    ensures WellFormed(r)
    ensures approval == Corrected && NoDuplicateUsernames(s.approvedChingu) ==>
      NoDuplicateUsernames(r.approvedChingu)
  {
    match e
    case ClickFollow => FollowClickPreservesValid(s); FollowClick(s)
    case ClickApprove(u) =>
      if approval == Corrected then
        ApproveKeepsWellFormed(s, u); ApproveRequest(s, u)
      else
        ApproveAsWrittenKeepsWellFormed(s, u); ApproveRequestAsWritten(s, u)
    case ClickDecline(u) => DeclinePreservesValid(s, u); DeclineRequest(s, u)
    case ClickMessage(u) => MessageUserPreservesValid(s, u); MessageUser(s, u)
    case FollowApprovedTimer(u) => FollowApprovedPreservesValid(s, u); FollowApproved(s, u)
    case _ => ScreenStep(s, e)
  }

  /** An event that acts on no other user, handled. The users, the
      requests, the chingu list and the statuses stay as they were, and the
      state stays well formed. */
  function ScreenStep(s: AppState, e: Event): (r: AppState)
    requires WellFormed(s) && !e.ActsOnUser()
    ensures WellFormed(r)
    ensures r.mockUsers == s.mockUsers && r.followRequests == s.followRequests
    ensures r.approvedChingu == s.approvedChingu && r.followStatuses == s.followStatuses
  {
    var r := match e
      case PressKeyInSearch(key) => Search(s, key)
      case ClickBack => Back(s)
      case ClickChatInbox => ChatInboxClick(s)
      case EditProfile(f, v) => ProfileUpdate(s, f, v)
      case ClickSend(id) => SendMessage(s, id)
      case ReplyTimer(c, id, text) => ReceiveReply(s, c, id, text)
      case TypeSearch(text) => s.(searchQuery := text)
      case TypeMessage(text) => s.(messageInput := text)
      case ToggleEdit => s.(isEditing := !s.isEditing)
      case OpenRequests => s.(viewMode := Requests)
      case OpenChinguList => s.(viewMode := ChinguList)
      case OpenMyProfile => s.(viewMode := MyProfile);
    if e.PressKeyInSearch? then
      SearchPreservesValid(s, e.key);
      r
    else
      QuietTransition(s, r);
      r
  }

  /** A whole session: the events in order, each handled when the screen can
      deliver it. From a well-formed state no look-up ever fails; from a
      valid state with the corrected approve every reachable state is
      valid, so in particular my chingu list never lists anyone twice. */
  function Run(s: AppState, events: seq<Event>, approval: Approval): (r: AppState)
    requires WellFormed(s)
    ensures WellFormed(r)
    ensures approval == Corrected && Valid(s) ==> Valid(r)
    decreases |events|
  {
    if events == [] then s
    else
      var next := if Enabled(s, events[0]) then Step(s, events[0], approval) else s;
      Run(next, events[1..], approval)
  }

  /** Every state reachable from the start of the screen is well formed with
      the handlers as written, and valid with the corrected ones. */
  lemma ReachableIsValid(events: seq<Event>)
    ensures WellFormed(Run(Initial(), events, AsWritten))
    ensures Valid(Run(Initial(), events, Corrected))
  {
    InitialIsValid();
  }

  /** Approving, as written, a request from a user who is already on my
      chingu list puts that user on it a second time. */
  lemma ApproveAsWrittenDuplicates(s: AppState, u: string)
    requires ApproveIsSafe(s, u)
    requires HasUsername(s.followRequests, u) && HasUsername(s.approvedChingu, u)
    ensures !NoDuplicateUsernames(ApproveRequestAsWritten(s, u).approvedChingu)
  {
    var r := ApproveRequestAsWritten(s, u);
    var i := FindIndex(s.approvedChingu, u).value;
    assert r.approvedChingu[i].username == u;
    assert r.approvedChingu[|r.approvedChingu| - 1].username == u;
  }

  /** Following a user through search and letting the approval timer fire
      puts that user on my chingu list and leaves the request list as it
      was. */
  lemma FollowThroughSearch(s: AppState)
    requires Valid(s)
    requires !IsBlank(s.searchQuery)
    requires ToLowerCase(s.searchQuery) in s.mockUsers
    requires ToLowerCase(s.searchQuery) != s.myProfile.username
    requires StatusOf(s.followStatuses, ToLowerCase(s.searchQuery)) == NotFollowing
    ensures var q := ToLowerCase(s.searchQuery);
      var s1 := Search(s, "Enter");
      var s2 := FollowClick(s1);
      && s1.viewMode == SearchResult && s1.currentProfile == q
      && Enabled(s1, ClickFollow)
      && StatusOf(s2.followStatuses, q) == Pending
      && q in s2.mockUsers
      && FollowApproved(s2, q).followRequests == s.followRequests
      && HasUsername(FollowApproved(s2, q).approvedChingu, q)
  {
  }

  /** The outcome of the duplicate scenario for user `q` from state `s0`:
      search, follow, let the approval timer fire, then approve `q`'s waiting
      request. As written the chingu list ends up listing `q` twice; the
      corrected approve leaves it duplicate-free. */
  ghost predicate ApproveAfterFollowDuplicates(s0: AppState, q: string) {
    var s2 := FollowClick(Search(s0, "Enter"));
    && StatusOf(s2.followStatuses, q) == Pending
    && q in s2.mockUsers
    && var s3 := FollowApproved(s2, q);
    && ApproveIsSafe(s3, q)
    && !NoDuplicateUsernames(ApproveRequestAsWritten(s3, q).approvedChingu)
    && NoDuplicateUsernames(ApproveRequest(s3, q).approvedChingu)
  }

  /** So following, through search, a user whose own follow request is still
      waiting, and then approving that request as written, lists the user
      twice; the corrected approve does not. */
  lemma FollowThenApproveAsWrittenDuplicates(s: AppState)
    requires Valid(s)
    requires !IsBlank(s.searchQuery)
    requires ToLowerCase(s.searchQuery) in s.mockUsers
    requires ToLowerCase(s.searchQuery) != s.myProfile.username
    requires StatusOf(s.followStatuses, ToLowerCase(s.searchQuery)) == NotFollowing
    requires HasUsername(s.followRequests, ToLowerCase(s.searchQuery))
    ensures ApproveAfterFollowDuplicates(s, ToLowerCase(s.searchQuery))
  {
    var q := ToLowerCase(s.searchQuery);
    FollowThroughSearch(s);
    var s2 := FollowClick(Search(s, "Enter"));
    var s3 := FollowApproved(s2, q);
    ApproveAsWrittenDuplicates(s3, q);
    FollowApprovedPreservesValid(s2, q);
    ApprovePreservesValid(s3, q);
  }

  /** That situation is reachable from the start screen: search for
      `pixel_master`, follow, let the approval timer fire. The request
      `pixel_master` sent at start-up is still waiting, and approving it as
      written lists `pixel_master` twice. */
  lemma DuplicateChinguIsReachable(s0: AppState)
    requires s0 == Initial().(searchQuery := "pixel_master")
    ensures ApproveAfterFollowDuplicates(s0, "pixel_master")
  {
    StartFacts(s0);
    FollowThenApproveAsWrittenDuplicates(s0);
  }

  /** What the pixel_master scenario needs of the start screen. */
  lemma StartFacts(s0: AppState)
    requires s0 == Initial().(searchQuery := "pixel_master")
    ensures Valid(s0)
    ensures !IsBlank(s0.searchQuery) && ToLowerCase(s0.searchQuery) == "pixel_master"
    ensures "pixel_master" in s0.mockUsers && s0.myProfile.username != "pixel_master"
    ensures StatusOf(s0.followStatuses, "pixel_master") == NotFollowing
    ensures HasUsername(s0.followRequests, "pixel_master")
  {
    StartIsValid(s0);
    InitialUsers();
    PlainQuery("pixel_master");
    assert s0.followRequests[0].username == "pixel_master";
  }

  /** Typing into the search box of the start screen keeps it valid. */
  lemma StartIsValid(s0: AppState)
    requires s0 == Initial().(searchQuery := s0.searchQuery)
    ensures Valid(s0)
  {
    InitialIsValid();
  }

  /** The users and the requests of the start screen. */
  lemma InitialUsers()
    ensures Initial().mockUsers.Keys == {"john_doe", "jane_smith", "pixel_master", "gameboy_fan"}
    ensures Initial().myProfile.username == "nazaratul_azli"
    ensures "constructor" !in Initial().mockUsers
    ensures Initial().followRequests[0].username == "pixel_master"
  {
  }

  /** A query that starts with a visible character and has no upper-case
      letter is not blank and is its own lower-case form. */
  lemma PlainQuery(q: string)
    requires |q| > 0 && !IsWhiteSpace(q[0]) && IsLowerCase(q)
    ensures !IsBlank(q) && ToLowerCase(q) == q
  {
    ToLowerCaseOfLowerCase(q);
  }

  /** Searching, as written, for a word that lower-cases to an inherited key
      and names neither me nor any user lands on a search result for a user
      that does not exist; the corrected search reports it as not found. */
  lemma SearchAsWrittenShowsMissingUser(s: AppState)
    requires !IsBlank(s.searchQuery)
    requires ToLowerCase(s.searchQuery) in InheritedObjectKeys
    requires ToLowerCase(s.searchQuery) !in s.mockUsers
    requires ToLowerCase(s.searchQuery) != s.myProfile.username
    ensures SearchAsWritten(s, "Enter").viewMode == SearchResult
    ensures SearchAsWritten(s, "Enter").currentProfile !in s.mockUsers
    ensures Search(s, "Enter").viewMode == NotFound
  {
  }

  /** Typing `constructor` into the search box of the start screen and
      pressing Enter is such a search. */
  lemma SearchConstructorAtStart()
    ensures var s := Initial().(searchQuery := "constructor");
      && SearchAsWritten(s, "Enter").viewMode == SearchResult
      && SearchAsWritten(s, "Enter").currentProfile !in s.mockUsers
      && Search(s, "Enter").viewMode == NotFound
  {
    InitialUsers();
    PlainQuery("constructor");
    SearchAsWrittenShowsMissingUser(Initial().(searchQuery := "constructor"));
  }
}
