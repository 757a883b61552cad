/** The navigation handlers of the profile screen: search, back, opening the
    chat inbox or a chat, and editing my own profile. */
module Navigation {
  import opened ProfileState
  import opened JsString

  /** Keys of `Object.prototype` that are entirely lower case. A plain
      object literal answers a bracket look-up of these with an inherited,
      truthy value even though it has no such own key. */
  const InheritedObjectKeys: set<string> := {"constructor", "__proto__"}

  /** `mockUsers[q]` is truthy: `q` is an own key, or an inherited one. */
  predicate LookupIsTruthyAsWritten(users: map<string, UserProfile>, q: string) {
    q in users || q in InheritedObjectKeys
  }

  /** What a search that fires does to the state: the query is cleared,
      only the view and the shown profile may change, and the view is chosen
      from the lower-cased (untrimmed) query and whether that query was
      `found` among the users. */
  ghost predicate SearchRouted(s: AppState, r: AppState, found: bool) {
    var q := ToLowerCase(s.searchQuery);
    && r.searchQuery == ""
    && r.(viewMode := s.viewMode, currentProfile := s.currentProfile, searchQuery := s.searchQuery) == s
    && (r.viewMode == MyProfile <==> q == s.myProfile.username)
    && (r.viewMode == SearchResult <==> q != s.myProfile.username && found)
    && (r.viewMode == NotFound <==> q != s.myProfile.username && !found)
    && (r.currentProfile == if r.viewMode == SearchResult then q else s.currentProfile)
  }

  /** `handleSearch` as written: the user look-up is a bracket access on a
      plain object, so `constructor` and `__proto__` count as users. */
  function SearchAsWritten(s: AppState, key: string): (r: AppState)
    ensures key != "Enter" || IsBlank(s.searchQuery) ==> r == s
    ensures key == "Enter" && !IsBlank(s.searchQuery) ==>
      SearchRouted(s, r, LookupIsTruthyAsWritten(s.mockUsers, ToLowerCase(s.searchQuery)))
  {
    if key == "Enter" && Trim(s.searchQuery) != "" then
      var q := ToLowerCase(s.searchQuery);
      if q == s.myProfile.username then
        s.(viewMode := MyProfile, searchQuery := "")
      else if LookupIsTruthyAsWritten(s.mockUsers, q) then
        s.(currentProfile := q, viewMode := SearchResult, searchQuery := "")
      else
        s.(viewMode := NotFound, searchQuery := "")
    else
      s
  }

  /** `handleSearch` with the look-up restricted to own keys: a search
      result always shows a user that exists. */
  function Search(s: AppState, key: string): (r: AppState)
    ensures key != "Enter" || IsBlank(s.searchQuery) ==> r == s
    ensures key == "Enter" && !IsBlank(s.searchQuery) ==>
      SearchRouted(s, r, ToLowerCase(s.searchQuery) in s.mockUsers)
    ensures (s.viewMode == SearchResult ==> s.currentProfile in s.mockUsers) ==>
      (r.viewMode == SearchResult ==> r.currentProfile in r.mockUsers)
  {
    if key == "Enter" && Trim(s.searchQuery) != "" then
      var q := ToLowerCase(s.searchQuery);
      if q == s.myProfile.username then
        s.(viewMode := MyProfile, searchQuery := "")
      else if q in s.mockUsers then
        s.(currentProfile := q, viewMode := SearchResult, searchQuery := "")
      else
        s.(viewMode := NotFound, searchQuery := "")
    else
      s
  }

  /** The two searches differ only on queries that lower-case to an
      inherited key; everywhere else they are the same handler. */
  lemma SearchAgreesOffInheritedKeys(s: AppState, key: string)
    requires ToLowerCase(s.searchQuery) !in InheritedObjectKeys
    ensures SearchAsWritten(s, key) == Search(s, key)
  {
  }

  /** The back arrow. From a chat it returns to the inbox when the chat
      partner is on my chingu list and to my profile otherwise; from every
      other view it returns to my profile. The query and the selected chat
      are always cleared. */
  function Back(s: AppState): (r: AppState)
    ensures r.searchQuery == "" && r.selectedChat == None
    ensures r.viewMode == ChatInbox <==>
      s.viewMode == Texting && IsTruthy(s.selectedChat) && HasUsername(s.approvedChingu, s.selectedChat.value)
    ensures r.viewMode != ChatInbox ==> r.viewMode == MyProfile
    ensures r.(viewMode := s.viewMode, searchQuery := s.searchQuery, selectedChat := s.selectedChat) == s
  {
    var view :=
      if s.viewMode == Texting then
        if IsTruthy(s.selectedChat) && HasUsername(s.approvedChingu, s.selectedChat.value) then ChatInbox
        else MyProfile
      else MyProfile;
    s.(viewMode := view, searchQuery := "", selectedChat := None)
  }

  /** The inbox icon in the header. */
  function ChatInboxClick(s: AppState): (r: AppState)
    ensures r.viewMode == ChatInbox
    ensures r.(viewMode := s.viewMode) == s
  {
    s.(viewMode := ChatInbox)
  }

  /** Opening the chat with `u` from the inbox or the chingu list. */
  function MessageUser(s: AppState, u: string): (r: AppState)
    ensures r.viewMode == Texting && r.selectedChat == Some(u)
    ensures r.(viewMode := s.viewMode, selectedChat := s.selectedChat) == s
  {
    s.(selectedChat := Some(u), viewMode := Texting)
  }

  /** Opening a chat and pressing back returns to the inbox exactly when the
      partner has a non-empty name and is on my chingu list, and to my
      profile otherwise; the social graph and the chats are untouched. */
  lemma MessageUserThenBack(s: AppState, u: string)
    ensures var r := Back(MessageUser(s, u));
      && (r.viewMode == ChatInbox <==> u != "" && HasUsername(s.approvedChingu, u))
      && (r.viewMode != ChatInbox ==> r.viewMode == MyProfile)
      && r.selectedChat == None
      && SameSocialGraph(s, r) && r.chatMessages == s.chatMessages
  {
  }

  /** The text fields of my profile that the edit form can change. */
  datatype ProfileField = Name | Username | Batch | University | Rank | Instagram | Linkedin | Github

  /** The value of one text field of a profile. */
  function FieldOf(p: UserProfile, f: ProfileField): string {
    match f
    case Name => p.name
    case Username => p.username
    case Batch => p.batch
    case University => p.university
    case Rank => p.rank
    case Instagram => p.instagram
    case Linkedin => p.linkedin
    case Github => p.github
  }

  /** A profile is determined by its text fields and its chingu count. */
  lemma ProfileFieldsDetermineProfile(p: UserProfile, q: UserProfile)
    requires forall f :: FieldOf(p, f) == FieldOf(q, f)
    requires p.chingu == q.chingu
    ensures p == q
  {
    assert FieldOf(p, Name) == FieldOf(q, Name);
    assert FieldOf(p, Username) == FieldOf(q, Username);
    assert FieldOf(p, Batch) == FieldOf(q, Batch);
    assert FieldOf(p, University) == FieldOf(q, University);
    assert FieldOf(p, Rank) == FieldOf(q, Rank);
    assert FieldOf(p, Instagram) == FieldOf(q, Instagram);
    assert FieldOf(p, Linkedin) == FieldOf(q, Linkedin);
    assert FieldOf(p, Github) == FieldOf(q, Github);
  }

  /** `handleProfileUpdate(field, value)`: the named field of my profile
      takes the new value; no other field, not my chingu count and nothing
      outside my profile changes. */
  function ProfileUpdate(s: AppState, f: ProfileField, v: string): (r: AppState)
    ensures FieldOf(r.myProfile, f) == v
    ensures forall g :: g != f ==> FieldOf(r.myProfile, g) == FieldOf(s.myProfile, g)
    ensures r.myProfile.chingu == s.myProfile.chingu
    ensures r.(myProfile := s.myProfile) == s
  {
    var p := s.myProfile;
    var p' := match f
      case Name => p.(name := v)
      case Username => p.(username := v)
      case Batch => p.(batch := v)
      case University => p.(university := v)
      case Rank => p.(rank := v)
      case Instagram => p.(instagram := v)
      case Linkedin => p.(linkedin := v)
      case Github => p.(github := v);
    s.(myProfile := p')
  }

  /** Writing a field's current value back changes nothing. */
  lemma ProfileUpdateSameValue(s: AppState, f: ProfileField)
    ensures ProfileUpdate(s, f, FieldOf(s.myProfile, f)) == s
  {
    var r := ProfileUpdate(s, f, FieldOf(s.myProfile, f));
    ProfileFieldsDetermineProfile(r.myProfile, s.myProfile);
  }

  /** Of two updates to the same field, the later one wins. */
  lemma ProfileUpdateLastWriteWins(s: AppState, f: ProfileField, v: string, w: string)
    ensures ProfileUpdate(ProfileUpdate(s, f, v), f, w) == ProfileUpdate(s, f, w)
  {
    var a := ProfileUpdate(ProfileUpdate(s, f, v), f, w);
    var b := ProfileUpdate(s, f, w);
    ProfileFieldsDetermineProfile(a.myProfile, b.myProfile);
  }

  /** Updates to two different fields commute. */
  lemma ProfileUpdatesCommute(s: AppState, f: ProfileField, v: string, g: ProfileField, w: string)
    requires f != g
    ensures ProfileUpdate(ProfileUpdate(s, f, v), g, w) == ProfileUpdate(ProfileUpdate(s, g, w), f, v)
  {
    var a := ProfileUpdate(ProfileUpdate(s, f, v), g, w);
    var b := ProfileUpdate(ProfileUpdate(s, g, w), f, v);
    ProfileFieldsDetermineProfile(a.myProfile, b.myProfile);
  }
}
