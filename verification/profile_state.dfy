/** The whole state of the profile screen as one immutable record, together
    with the list and map look-ups its handlers share. Every handler of the
    screen is a pure function from one `AppState` to the next, mirroring the
    copy-on-write `setState(prev => ...)` updates of the component. */
module ProfileState {

  datatype Option<T> = None | Some(value: T)

  /** A user's follow status; a user with no entry counts as `NotFollowing`. */
  datatype FollowStatus = NotFollowing | Pending | Approved

  /** The screen currently shown. `Profile` is part of the type but no
      handler ever selects it. */
  datatype ViewMode =
    | Profile | MyProfile | SearchResult | NotFound
    | ChatInbox | Requests | ChinguList | Texting

  datatype UserProfile = UserProfile(
    name: string,
    username: string,
    batch: string,
    university: string,
    rank: string,
    chingu: int,
    instagram: string,
    linkedin: string,
    github: string)

  /** A pending follow request, and also the entry type of the approved
      chingu list. */
  datatype FollowRequest = FollowRequest(
    username: string,
    name: string,
    batch: string,
    university: string)

  datatype Sender = Me | Them

  /** A chat message. The source derives `id` from the clock and stamps a
      time; here the id is supplied by the caller and the time is dropped. */
  datatype Message = Message(id: nat, sender: Sender, text: string)

  datatype AppState = AppState(
    viewMode: ViewMode,
    searchQuery: string,
    currentProfile: string,
    isEditing: bool,
    selectedChat: Option<string>,
    messageInput: string,
    followStatuses: map<string, FollowStatus>,
    myProfile: UserProfile,
    mockUsers: map<string, UserProfile>,
    followRequests: seq<FollowRequest>,
    approvedChingu: seq<FollowRequest>,
    chatMessages: map<string, seq<Message>>)

  /** `followStatuses[u] || 'none'`. */
  function StatusOf(statuses: map<string, FollowStatus>, u: string): FollowStatus {
    if u in statuses then statuses[u] else NotFollowing
  }

  /** `chatMessages[c] || []`. */
  function ChatOf(chats: map<string, seq<Message>>, c: string): seq<Message> {
    if c in chats then chats[c] else []
  }

  /** JavaScript truthiness of the nullable `selectedChat`: `null` and the
      empty string are both falsy. */
  predicate IsTruthy(chat: Option<string>) {
    chat.Some? && chat.value != ""
  }

  /** Position of the first entry with the given username, as
      `list.find(r => r.username === u)` locates it. */
  function FindIndex(list: seq<FollowRequest>, u: string): (r: Option<nat>)
    ensures r.Some? ==> r.value < |list| && list[r.value].username == u
    ensures r.Some? ==> forall j :: 0 <= j < r.value ==> list[j].username != u
    ensures r.None? <==> forall k :: 0 <= k < |list| ==> list[k].username != u
  {
    if |list| == 0 then None
    else if list[0].username == u then Some(0)
    else match FindIndex(list[1..], u)
      case None => None
      case Some(i) => Some(i + 1)
  }

  /** Some entry of `list` carries username `u`. */
  predicate HasUsername(list: seq<FollowRequest>, u: string) {
    FindIndex(list, u).Some?
  }

  /** `list.filter(r => r.username !== u)`. */
  function RemoveUsername(list: seq<FollowRequest>, u: string): (r: seq<FollowRequest>)
    ensures forall x :: x in r <==> x in list && x.username != u
    ensures !HasUsername(r, u)
  {
    if list == [] then []
    else
      var rest := RemoveUsername(list[1..], u);
      if list[0].username == u then rest else [list[0]] + rest
  }

  /** Filtering drops every copy of an entry for `u` and keeps every copy of
      every other entry. */
  lemma {:induction false} RemoveUsernameCounts(list: seq<FollowRequest>, u: string)
    ensures forall x :: multiset(RemoveUsername(list, u))[x]
                        == (if x.username == u then 0 else multiset(list)[x])
  {
    if list != [] {
      RemoveUsernameCounts(list[1..], u);
      assert list == [list[0]] + list[1..];
      assert multiset(list) == multiset([list[0]]) + multiset(list[1..]);
    }
  }

  /** Filtering distributes over concatenation, so it keeps the relative
      order of the entries it retains. */
  lemma {:induction false} RemoveUsernameAppend(a: seq<FollowRequest>, b: seq<FollowRequest>, u: string)
    ensures RemoveUsername(a + b, u) == RemoveUsername(a, u) + RemoveUsername(b, u)
  {
    if a != [] {
      var ab := a + b;
      assert ab[0] == a[0];
      assert ab[1..] == a[1..] + b;
      RemoveUsernameAppend(a[1..], b, u);
      var head := if a[0].username == u then [] else [a[0]];
      assert RemoveUsername(ab, u) == head + RemoveUsername(ab[1..], u);
      assert RemoveUsername(a, u) == head + RemoveUsername(a[1..], u);
      assert head + (RemoveUsername(a[1..], u) + RemoveUsername(b, u))
          == (head + RemoveUsername(a[1..], u)) + RemoveUsername(b, u);
    } else {
      assert a + b == b;
    }
  }

  /** Filtering out a username nobody carries changes nothing. */
  lemma {:induction false} RemoveAbsentUsername(list: seq<FollowRequest>, u: string)
    requires !HasUsername(list, u)
    ensures RemoveUsername(list, u) == list
  {
    if list != [] {
      assert list[0].username != u;
      assert !HasUsername(list[1..], u) by {
        forall k | 0 <= k < |list[1..]|
          ensures list[1..][k].username != u
        {
          assert list[1..][k] == list[k + 1];
        }
      }
      RemoveAbsentUsername(list[1..], u);
      assert list == [list[0]] + list[1..];
    }
  }

  /** No username occurs twice in `list` (React renders these lists keyed by
      username). */
  predicate NoDuplicateUsernames(list: seq<FollowRequest>) {
    forall i, j :: 0 <= i < j < |list| ==> list[i].username != list[j].username
  }

  /** The chingu-list entry built from a user's profile. */
  function ToChingu(p: UserProfile): FollowRequest {
    FollowRequest(p.username, p.name, p.batch, p.university)
  }

  /** The navigation part of the state (everything except the social graph
      and the chats) is the same in `a` and `b`. */
  predicate SameNavigation(a: AppState, b: AppState) {
    && a.viewMode == b.viewMode
    && a.searchQuery == b.searchQuery
    && a.currentProfile == b.currentProfile
    && a.isEditing == b.isEditing
    && a.selectedChat == b.selectedChat
    && a.messageInput == b.messageInput
  }

  /** The social graph (statuses, profiles, counts, requests and chingu
      list) is the same in `a` and `b`. */
  predicate SameSocialGraph(a: AppState, b: AppState) {
    && a.followStatuses == b.followStatuses
    && a.myProfile == b.myProfile
    && a.mockUsers == b.mockUsers
    && a.followRequests == b.followRequests
    && a.approvedChingu == b.approvedChingu
  }

  /** The state the component starts in. */
  function Initial(): AppState {
    var john := UserProfile("John Doe", "john_doe", "B21", "Seoul National University",
                            "Senior", 456, "@johndoe", "linkedin.com/in/johndoe", "github.com/johndoe");
    var jane := UserProfile("Jane Smith", "jane_smith", "B23", "KAIST",
                            "Junior", 123, "@janesmith", "linkedin.com/in/janesmith", "github.com/janesmith");
    var pixel := UserProfile("Pixel Master", "pixel_master", "B20", "Hanyang University",
                             "Leader", 789, "@pixelmaster", "linkedin.com/in/pixelmaster", "github.com/pixelmaster");
    var gameboy := UserProfile("Gameboy Fan", "gameboy_fan", "B22", "Yonsei University",
                               "Member", 345, "@gameboyfan", "linkedin.com/in/gameboyfan", "github.com/gameboyfan");
    AppState(
      viewMode := MyProfile,
      searchQuery := "",
      currentProfile := "nazaratul_azli",
      isEditing := false,
      selectedChat := None,
      messageInput := "",
      followStatuses := map[],
      myProfile := UserProfile("Nazaratul Azli", "nazaratul_azli", "B22", "Yonsei University",
                               "Member", 234, "@nazaratul.azli", "linkedin.com/in/nazazli", "github.com/nazazli"),
      mockUsers := map["john_doe" := john, "jane_smith" := jane,
                       "pixel_master" := pixel, "gameboy_fan" := gameboy],
      followRequests := [ToChingu(pixel), ToChingu(gameboy)],
      approvedChingu := [ToChingu(john), ToChingu(jane)],
      chatMessages := map[])
  }
}
