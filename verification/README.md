# Profile screen social graph — a Dafny model

This project models the state machine inside the profile screen of the
`profile` prototype (`profile/src/App.tsx`). The screen keeps the following state:

- my profile;
- a small database of other users with their chingu (friend) counts;
- my follow status towards each user (`none`, `pending` or `approved`; a missing entry means `none`);
- the follow requests waiting for my answer;
- my approved chingu list;
- one message list per chat;
- a few navigation fields: the current view, the search query, the profile being shown and the selected chat.

Every handler of the component is a copy-on-write `setState(prev => …)`
update. The model therefore has one immutable `AppState` record and one pure
function per handler. The two timers (a pending follow request being approved
and a chat reply arriving) are explicit events.

Modules:

- `JsString` (`js_string.dfy`) covers `String.prototype.trim` and `toLowerCase`:
  - `trim` uses the full ECMAScript WhiteSpace and LineTerminator set;
  - `Trim` is characterised as the unique split into blank text, trimmed text and blank text.
- `ProfileState` (`profile_state.dfy`) holds:
  - the records (`UserProfile`, `FollowRequest`, `Message`, `ViewMode`, `AppState`);
  - the initial state;
  - the list look-ups the handlers share: `find` by username and `filter` by username.
- `SocialGraph` (`social_graph.dfy`) has the follow click, approve request, decline request, and the deferred approval of a pending follow.
- `Chat` (`chat.dfy`) has sending a message and the deferred reply.
- `Navigation` (`navigation.dfy`) has search on Enter, back, opening the inbox or a chat, and editing a profile field.
- `AppEvents` (`app_events.dfy`) covers the whole screen:
  - every event, and the state invariants `WellFormed` (every look-up hits a real entry) and `Valid` (well formed, and no duplicate chingu);
  - `Step` and `Run`, parameterised by which approve handler runs. With the approve as written, every reachable state is well formed, so approving a request never dereferences an unknown user and the approval timer never does either. With the corrected approve (and, in both cases, the corrected search), every reachable state is also valid: the chingu list never lists anyone twice.
  - the two findings below.

Three JavaScript details are modelled as the code behaves:

- A `selectedChat` of `""` is falsy, so back and send treat it like `null`.
- Search lower-cases the query but does not trim it before the look-up. Only the "is it blank" test uses the trimmed query.
- The approval event raises both counts even when the user was already on my chingu list.

## Model

| member | source | states |
|---|---|---|
| `ProfileState.FindIndex` | profile/src/App.tsx:195 | `find` by username: the index it returns is the first entry with that username, and it returns nothing exactly when no entry has it |
| `ProfileState.RemoveUsername` | profile/src/App.tsx:198 | `filter(r => r.username !== u)`: an entry survives exactly when it was present and is not for `u`, and no entry for `u` is left |
| `ProfileState.RemoveUsernameCounts` | profile/src/App.tsx:198 | the filter drops every copy of an entry for `u` and keeps every copy of every other entry (as multisets) |
| `ProfileState.RemoveUsernameAppend` | profile/src/App.tsx:198 | the filter distributes over concatenation, so the relative order of the kept entries is preserved |
| `ProfileState.RemoveAbsentUsername` | profile/src/App.tsx:218 | filtering out a username that no entry carries leaves the list unchanged |
| `JsString.Trim` | profile/src/App.tsx:229-233 | the result has no white space at either end, is empty exactly when the input is all white space, and is never longer than the input |
| `JsString.TrimSplits` | profile/src/App.tsx:229-233 | the input is the trimmed text with a blank prefix and a blank suffix around it |
| `JsString.TrimOfPadded` | profile/src/App.tsx:229-233 | a trimmed text surrounded only by white space trims back to exactly that text (the converse of `TrimSplits`) |
| `JsString.TrimIdempotent` | profile/src/App.tsx:157 | trimming twice gives the same result as trimming once |
| `JsString.ToLowerCase` | profile/src/App.tsx:158 | lower-casing keeps the length and maps each character independently |
| `JsString.ToLowerCaseIdempotent` | profile/src/App.tsx:158 | a lower-cased query has no upper-case letter, and lowering it again changes nothing |
| `JsString.ToLowerCaseOfLowerCase` | profile/src/App.tsx:158 | a query with no upper-case letter is its own lower-case form |
| `JsString.ToLowerCaseKeepsBlankness` | profile/src/App.tsx:157-158 | a query is blank after lower-casing exactly when it was blank before |
| `SocialGraph.BumpChinguCounts` | profile/src/App.tsx:201-212 | my chingu count and the user's count each rise by exactly 1; every other profile field and every other user is unchanged, and no user is added or removed |
| `SocialGraph.FollowClick` | profile/src/App.tsx:145-154 | from `none` (or no entry), only this user's status changes, to `pending`; from `pending`, nothing changes; from `approved`, the chat with this user opens in the texting view and the statuses are unchanged |
| `SocialGraph.FollowClickIdempotent` | profile/src/App.tsx:145-154 | a second follow click in a row has no further effect |
| `SocialGraph.ApproveRequestAsWritten` | profile/src/App.tsx:194-214 | with no request from `u`, the state is unchanged. Otherwise: every request from `u` is removed and no other request is; the first request found is appended once at the end of the chingu list; both counts rise by 1; `u` becomes approved; all other users, statuses, chats and navigation are unchanged |
| `SocialGraph.ApproveRequest` | profile/src/App.tsx:194-214 | the corrected approve. It has the same effects as the as-written version, except that the request joins the chingu list only when `u` is not already on it. `u` is then on the list, and a duplicate-free list stays duplicate-free |
| `SocialGraph.ApproveRequestTwice` | profile/src/App.tsx:194-198 | approving the same user a second time is a no-op, because the request is gone |
| `SocialGraph.DeclineRequest` | profile/src/App.tsx:216-221 | every request from `u` is removed and no other request is; `u`'s status becomes `none`. The chingu list, my profile, every user's count, the chats and navigation are unchanged |
| `SocialGraph.DeclineRequestIdempotent` | profile/src/App.tsx:216-221 | declining twice gives the same state as declining once |
| `SocialGraph.ApproveAndDeclineAgreeOnRequests` | profile/src/App.tsx:194-221 | approving and declining the same request leave the same request list; the user ends up `approved` in one case and `none` in the other |
| `SocialGraph.FollowApproved` | profile/src/App.tsx:262-290 | for a pending user: the status becomes `approved`; the user is appended to the chingu list only if not already on it; both counts rise by 1 whether or not the append happened; requests, chats and navigation are unchanged; duplicate-freedom is kept |
| `Chat.SendMessage` | profile/src/App.tsx:228-242 | a no-op when the trimmed input is empty or no chat is selected. Otherwise exactly one message from me, holding the trimmed input, is appended to the selected chat (which starts from empty if it had no messages); every other chat is unchanged and the input is cleared |
| `Chat.SentTextIsTrimmedAndNonEmpty` | profile/src/App.tsx:229-233 | a message that was sent is the last one in its chat, is from me, is non-empty and has no surrounding white space |
| `Chat.SendMessageTwice` | profile/src/App.tsx:228-242 | after a successful send, pressing send again does nothing, because the input was cleared |
| `Chat.ReceiveReply` | profile/src/App.tsx:244-257 | the deferred reply appends exactly one message from the other user to the chat it was sent from; nothing else changes |
| `Chat.SendThenReply` | profile/src/App.tsx:228-257 | a send followed by its reply adds exactly two messages to the end of that chat, mine first, and leaves every other chat unchanged |
| `Navigation.SearchAsWritten` | profile/src/App.tsx:156-169 | does nothing unless the key is Enter and the query is not blank. Otherwise it routes on the lower-cased, untrimmed query: to my profile if it equals my username; to a search result for that query if the object look-up is truthy (own or inherited key); to not-found otherwise. The query is cleared in all three cases |
| `Navigation.Search` | profile/src/App.tsx:156-169 | the same routing, but the look-up uses only own keys. A search result therefore always shows a user that exists |
| `Navigation.SearchAgreesOffInheritedKeys` | profile/src/App.tsx:161 | the two searches agree on every query that does not lower-case to an inherited object key |
| `Navigation.Back` | profile/src/App.tsx:171-184 | from texting, goes to the inbox if and only if the selected chat is non-empty and on my chingu list, and to my profile otherwise; from any other view, goes to my profile. The query and the selected chat are always cleared, and nothing else changes |
| `Navigation.ChatInboxClick` | profile/src/App.tsx:186-188 | switches to the inbox view and changes nothing else |
| `Navigation.MessageUser` | profile/src/App.tsx:223-226 | selects the chat with the user, opens the texting view, and changes nothing else |
| `Navigation.MessageUserThenBack` | profile/src/App.tsx:171-184 | after opening a chat, back returns to the inbox exactly when the partner's name is non-empty and on my chingu list; the social graph and the chats are untouched |
| `Navigation.ProfileFieldsDetermineProfile` | profile/src/App.tsx:3-13 | a profile is fully determined by its eight text fields and its chingu count |
| `Navigation.ProfileUpdate` | profile/src/App.tsx:190-192 | the named field takes the new value; every other field, my chingu count and everything outside my profile are unchanged |
| `Navigation.ProfileUpdateSameValue` | profile/src/App.tsx:190-192 | writing a field's current value back leaves the state unchanged |
| `Navigation.ProfileUpdateLastWriteWins` | profile/src/App.tsx:190-192 | of two updates to the same field, the later one wins |
| `Navigation.ProfileUpdatesCommute` | profile/src/App.tsx:190-192 | updates to two different fields commute |
| `ProfileState.Initial` | profile/src/App.tsx:32-112 | the start screen: my profile, the four users, two waiting requests (`pixel_master`, `gameboy_fan`), two chingus (`john_doe`, `jane_smith`), no statuses, no chats, my own profile shown |
| `ProfileState.StatusOf` | profile/src/App.tsx:146 | my status towards `u`, falling back to `'none'`: a user with no entry counts as not followed |
| `ProfileState.ChatOf` | profile/src/App.tsx:239 | the messages of chat `c`, falling back to the empty list: a chat with no entry has no messages |
| `ProfileState.IsTruthy` | profile/src/App.tsx:174 | the truthiness of `selectedChat`: both `null` and `""` are falsy |
| `ProfileState.ToChingu` | profile/src/App.tsx:273-278 | the chingu-list entry built from a user's profile: username, name, batch and university |
| `Navigation.LookupIsTruthyAsWritten` | profile/src/App.tsx:161 | `mockUsers[q]` is truthy exactly when `q` is an own key or one of the inherited lower-case keys `constructor` and `__proto__` |
| `AppEvents.WellFormed` | profile/src/App.tsx:194-295 | every look-up the handlers and the profile page make hits a real entry: users are keyed by username, every request, chingu and pending follow is for a known user, a profile shown from a search is a known user, and the chat view has a chat partner |
| `AppEvents.Valid` | profile/src/App.tsx:313 | well formed, and no username is on the chingu list twice (the list is rendered keyed by username) |
| `AppEvents.Enabled` | profile/src/App.tsx:298-690 | which controls the screen draws: the follow button only on the other-user profile page, chat buttons only on chingu rows, and the approval timer only for pending users |
| `AppEvents.InitialIsValid` | profile/src/App.tsx:32-112 | the start state satisfies the invariant: users are stored under their own usernames, every request is for a known user, and the chingu list has no duplicates |
| `AppEvents.ApproveAsWrittenKeepsWellFormed` | profile/src/App.tsx:194-214 | in a well-formed state, approving as written never dereferences an unknown user, and the state stays well formed |
| `AppEvents.ApproveKeepsWellFormed` | profile/src/App.tsx:194-214 | in a well-formed state, the corrected approve never dereferences an unknown user either, and the state stays well formed |
| `AppEvents.ApprovePreservesValid` | profile/src/App.tsx:194-214 | in a valid state, the corrected approve never dereferences an unknown user and the whole invariant survives |
| `AppEvents.DeclinePreservesValid` | profile/src/App.tsx:216-221 | declining keeps the state well formed, and valid if it was |
| `AppEvents.FollowClickPreservesValid` | profile/src/App.tsx:145-154 | a follow click on a shown profile makes a known user pending or opens the chat with a known user; the state stays well formed, and valid if it was |
| `AppEvents.MessageUserPreservesValid` | profile/src/App.tsx:223-226 | a chat button names a chingu, who is a known user with a non-empty name, so the chat view gets a partner; the state stays well formed, and valid if it was |
| `AppEvents.FollowApprovedPreservesValid` | profile/src/App.tsx:262-290 | the approval timer only fires for a known user; the state stays well formed, and valid if it was |
| `AppEvents.SearchPreservesValid` | profile/src/App.tsx:156-169 | the corrected search keeps every shown profile a known user; the state stays well formed, and valid if it was |
| `AppEvents.ScreenStep` | profile/src/App.tsx:156-257 | an event that acts on no other user (search, back, inbox, profile edit, send, reply and the inline setters) leaves the users, requests, chingu list and statuses alone and keeps the state well formed |
| `AppEvents.Step` | profile/src/App.tsx:145-295 | with the corrected search and the approve the parameter selects: every event the screen can deliver in a well-formed state is handled without a failing look-up and leads to a well-formed state; with the corrected approve, a duplicate-free chingu list stays duplicate-free |
| `AppEvents.Run` | profile/src/App.tsx:145-295 | with the corrected search: every state reached from a well-formed state by any sequence of events is well formed, with either approve; with the corrected approve, every state reached from a valid state is valid |
| `AppEvents.ReachableIsValid` | profile/src/App.tsx:32-295 | with the corrected search: every state reachable from the start screen is well formed with the approve as written, and valid with the corrected one |
| `AppEvents.ApproveAsWrittenDuplicates` | profile/src/App.tsx:194-200 | approving, as written, a request from a user already on the chingu list makes that user appear twice |
| `AppEvents.FollowThroughSearch` | profile/src/App.tsx:145-169 | following a found user and letting the timer fire puts that user on the chingu list and leaves the request list as it was |
| `AppEvents.FollowThenApproveAsWrittenDuplicates` | profile/src/App.tsx:194-290 | follow-through-search, then approving that user's waiting request: the as-written approve duplicates the user, and the corrected one does not |
| `AppEvents.DuplicateChinguIsReachable` | profile/src/App.tsx:103-112 | this happens from the start screen with `pixel_master`, whose request is waiting at start-up |
| `AppEvents.SearchAsWrittenShowsMissingUser` | profile/src/App.tsx:161-163 | a query that lower-cases to an inherited key and names no user gives, as written, a search result for a user that does not exist; the corrected search reports not-found |
| `AppEvents.SearchConstructorAtStart` | profile/src/App.tsx:156-169 | on the start screen, searching `constructor` is such a query |

## Left out

- The JSX markup, Tailwind classes and SVG drawing (lines 297-822) are presentation only. This also covers the href strings built for the social links.
- Timers are left out: their delays, `setTimeout`/`clearTimeout`, and the effect's re-scheduling and cleanup. The approval timer is the event `FollowApprovedTimer`, enabled whenever the user's status is pending. Because the effect restarts its timers whenever its dependencies change, the event can fire at any time while the status is pending. The reply timer is the event `ReplyTimer`, with its chat, id and text as parameters. The code waits a fixed 2 seconds for approval (line 290) and 1–2 seconds for a reply (line 245).
- The reply text chosen by `Math.random` (lines 141-143) is an arbitrary string parameter.
- Message ids built from `Date.now()` are natural-number parameters. The `timestamp` field is dropped.
- React's batching and stale closures are left out. Each handler is one atomic transition. Its closure reads and its `prev` updaters therefore see the same state.
- `JsString.ToLowerCase`: maps only `A`–`Z`. The full Unicode case mapping of `toLowerCase` (for example `İ` or Greek capitals) is not modelled.
- `JsString.Trim`: the white-space set is the one fixed by the ECMAScript standard's WhiteSpace and LineTerminator productions. Unicode versions that add new space separators are not tracked.
- `Navigation.ProfileUpdate`: covers the eight text fields that have call sites in the edit form. Writing a value to `chingu` through `handleProfileUpdate` has no call site and is not modelled. The `@`-stripping of the username happens at the call site (line 621) and is left out.
- `SocialGraph.FollowApproved`: requires that the user is known. As written, the count update `prev[username].chingu` throws for an unknown user. `AppEvents.FollowApprovedPreservesValid` shows this never happens in a reachable state.
- `SocialGraph.ApproveRequestAsWritten`: requires `ApproveIsSafe` for the same reason. `AppEvents.ApproveAsWrittenKeepsWellFormed` shows it always holds in a well-formed state.
- Chingu counts are JavaScript numbers. They are unbounded integers here; precision loss above 2^53 is not modelled.
- Outside search, maps are looked up by own key only. In the code, `followStatuses["constructor"]` would also read an inherited function. That only matters after the search finding below, which the corrected model removes.
- `AppEvents.Enabled`: restricts only the follow button, the chat buttons and the approval timer. The follow button is allowed wherever the screen falls through to the other-user profile page (lines 335 and 502-504, including a chat view with no chat selected). The chat buttons are allowed on chingu rows of the inbox and the chingu list (lines 320 and 469). The approval timer is allowed for pending users. Every other event is allowed in every view. This over-approximates the screen, so the invariant results cover more than the screen can do.
- The `Profile` view mode is part of the type, but no handler selects it.
- The rendering of the chosen view (lines 297-822), including the look-up `mockUsers[currentProfile]` behind the profile shown, is not modelled.
- The community board, marketplace, matching and inbox prototypes are separate apps and are not part of this model.

## Findings

| source | as written | input that shows it | evidently intended | confidence | as-written member | corrected member |
|---|---|---|---|---|---|---|
| profile/src/App.tsx:194-200 | approving a request appends it to `approvedChingu` without checking whether the user is already there | from the start screen: type `pixel_master`, press Enter, click follow, let the approval timer fire, then approve `pixel_master`'s waiting request. `pixel_master` is now listed twice, and the list is rendered keyed by username (line 313). | append only when the user is not yet on the list, as the approval effect already does (line 272) | medium, not executed | `SocialGraph.ApproveRequestAsWritten`, `AppEvents.DuplicateChinguIsReachable` | `SocialGraph.ApproveRequest` |
| profile/src/App.tsx:161-163 | `mockUsers[searchLower]` is a bracket look-up on a plain object, which is truthy for the inherited keys `constructor` and `__proto__` | search `constructor` on the start screen. The view becomes `search-result` for `constructor`. The profile page then reads `mockUsers["constructor"]` (line 502), which is the inherited `Object` function, and calling `instagram.replace` on its missing `instagram` field (line 727) throws during rendering, so the whole screen crashes. | treat only own keys as users, and show not-found | high, not executed | `Navigation.SearchAsWritten`, `AppEvents.SearchConstructorAtStart` | `Navigation.Search` |

`AppEvents.Step` always uses the corrected search. Its `approval` parameter selects the approve as written or the corrected one.
Both corrections keep the chingu counts as the code updates them.
