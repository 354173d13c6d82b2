# Direct-message client: conversation feed, presence roster, auth state and redirect rule

This project models the client-side logic of a direct-message chat application. The
application is a React single-page client whose persistence, authentication and realtime
fan-out are delegated to a hosted backend SDK. What is left on the client is a set of small
sequential state transitions:

- **Conversation feed** (`ChatWindow.jsx`, module `Feed`). It covers:
  - the realtime topic name of a conversation;
  - the relevance filter for pushed inserts;
  - the replace-or-append merge of a pushed row into the message list;
  - the mapping of fetched history;
  - the send path: validation, the optimistic append that clears the input, and rollback when the write fails.

  The pure list transforms are functions. The component's state slots (`messages`,
  `newMessage`, `chatPartner`, `error`, `tempMessageError`) live in the class
  `Feed.ChatWindow`, and each event handler is one method of it.
- **Presence roster** (`UserList.jsx`, module `Roster`). It covers:
  - the initial directory load without the current user;
  - the sync, join and leave updaters;
  - the online/offline display split.

  The updaters are pure functions, and the class `Roster.UserList` holds the `users` and
  `error` slots. `Replay` folds a sequence of presence events.
- **Auth context** (`AuthContext.jsx`, module `Auth`). The class `Auth.AuthProvider` holds
  `user` and `loading`. These are driven by the resolved session check and by the
  auth-state listener. The module also has the render gate, the provided value and the
  `useAuth` hook.
- **Redirect rule** (`App.jsx`, module `Routing`). It is a pure decision over
  (user, loading, path) that returns an optional navigation target, plus the route table.

Two helper modules support these. `JsStrings` holds the JavaScript string semantics the
client relies on: `String.prototype.trim` and the default comparator of `Array.prototype.sort`.
`Wrappers` holds `Option` and `Result`.

The SDK is never called. Everything that crosses that boundary becomes a parameter of the
method that handles its completion:

- query results and their errors;
- pushed insert payloads;
- profile lookups;
- presence keys and presences;
- sessions and auth events;
- the temporary id and the timestamp of a send.

### Behaviour worth knowing

The code behaves as follows, and the model does the same:

- **Echo is not collapsed.** A pushed echo of one's own send is not merged into the
  optimistic record, because the temporary id never equals the server id and the write's
  result is discarded. The echo is appended as a second entry, so one send
  followed by its echo leaves two entries in the list (`Feed.EchoDoesNotReplaceOptimistic`).
- **The list is never sorted by `created_at`.** It is the fetched order followed by appends
  at the tail.
- **Loaded statuses are not defaulted.** The initial roster keeps each user's stored status;
  nothing defaults it to offline.
- **A write failure replaces the whole window.** It sets `error` while the inline error is
  clear, so the error screen replaces the entire chat window rather than showing a banner
  (`Feed.ChatWindow.WriteFailed`, `Feed.ChatWindow.View`).

## Model

| member | source | states |
|---|---|---|
| `JsStrings.Trim` | client/src/components/ChatWindow.jsx:185 | the trimmed text is a contiguous slice of the input that neither starts nor ends with white space, and only white space lies outside it |
| `JsStrings.TrimEmptyIffAllWhiteSpace` | client/src/components/ChatWindow.jsx:168 | `!newMessage.trim()` holds exactly when every character of the input is white space (the empty input included) |
| `JsStrings.SortPair` | client/src/components/ChatWindow.jsx:100 | `[a, b].sort()` puts the two ids in ascending order: `(a, b)` when a sorts first, `(b, a)` when b does |
| `JsStrings.SortPairSymmetric` | client/src/components/ChatWindow.jsx:100 | sorting the pair gives the same result whichever order the ids come in |
| `Feed.TopicName` | client/src/components/ChatWindow.jsx:100 | the topic is `dm_` followed by the smaller id, `_` and the larger id, in either argument order |
| `Feed.TopicNameSymmetric` | client/src/components/ChatWindow.jsx:100 | both participants compute the same topic, whoever opens the conversation |
| `Feed.SplitAtUnderscore` | client/src/components/ChatWindow.jsx:100 | joining two ids with `_` can be undone when the first id holds no underscore |
| `Feed.TopicNameIdentifiesPair` | client/src/components/ChatWindow.jsx:100 | for ids without underscores, equal topics mean the same unordered pair of participants |
| `Feed.RelevanceCharacterised` | client/src/components/ChatWindow.jsx:110-113 | relevance is symmetric in me/peer: a row accepted by one participant's window is accepted by the other's |
| `Feed.OtherConversationNotRelevant` | client/src/components/ChatWindow.jsx:110-113 | a message of the pair {A, C} is never relevant to the conversation {A, B} when C differs from B and A from B, in either role order |
| `Feed.History` | client/src/components/ChatWindow.jsx:60-87 | fetched rows keep their number and order; each entry carries the row's id, sender, receiver, content and timestamp, no `channel_id` (the query does not select it), and its joined profile or the 'Unknown' placeholder |
| `Feed.CountIdZero` | client/src/components/ChatWindow.jsx:126 | no entry carries an id exactly when the count of entries with that id is zero: the `find` test of the realtime updater |
| `Feed.RemoveId` | client/src/components/ChatWindow.jsx:214 | the rollback filter shortens the list by exactly the number of entries carrying the removed id |
| `Feed.RemoveIdMembers` | client/src/components/ChatWindow.jsx:214 | the rollback filter keeps exactly the entries whose id differs from the removed one |
| `Feed.RemoveIdConcat` | client/src/components/ChatWindow.jsx:214 | the filter works piecewise on a concatenation, so the surviving entries keep their relative order |
| `Feed.RemoveIdAbsent` | client/src/components/ChatWindow.jsx:214 | filtering out an id no entry carries leaves the list unchanged |
| `Feed.ReplaceAll` | client/src/components/ChatWindow.jsx:127-131 | the `map` keeps the length and replaces exactly the entries with the id, leaving the others in place |
| `Feed.ReplaceAllKeeps` | client/src/components/ChatWindow.jsx:127-131 | replacing entries by one with the same id keeps the number of such entries and everything else |
| `Feed.Merge` | client/src/components/ChatWindow.jsx:125-134 | when an entry with the row's id is present, the length is kept and every such entry becomes the row with its profile and `is_optimistic` false, all others unchanged in place; otherwise the list is the old list with the row appended (profile attached, `is_optimistic` undefined) |
| `Feed.MergePresent` | client/src/components/ChatWindow.jsx:126-131 | merging a row whose id is present keeps the length and the number of entries with that id, and all other entries stay in their order |
| `Feed.MergeAbsentThenRedeliver` | client/src/components/ChatWindow.jsx:123-134 | merging a row whose id is absent appends exactly one entry at the end, carrying the given profile; redelivering it leaves exactly one entry with that id, now with `is_optimistic` false, and further deliveries change nothing |
| `Feed.CountIdConcat` | client/src/components/ChatWindow.jsx:133 | the number of entries with an id adds up over a concatenation, so an append adds one entry with the appended id |
| `Feed.Deliver` | client/src/components/ChatWindow.jsx:110-134 | an irrelevant pushed row leaves the list unchanged. A relevant row is merged with the looked-up profile, or with the placeholder when the lookup returned nothing |
| `Feed.RemoveIdReplaceAll` | client/src/components/ChatWindow.jsx:127-131 | removing one id commutes with replacing the entries of another id |
| `Feed.MergeCommutesWithRemove` | client/src/components/ChatWindow.jsx:125-134 | removing a temporary id commutes with merging a pushed row, whose id is a server id |
| `Feed.DeliverAllCommutesWithRemove` | client/src/components/ChatWindow.jsx:105-134 | removing a temporary id commutes with any sequence of pushed inserts |
| `Feed.SendError` | client/src/components/ChatWindow.jsx:168-175 | whitespace-only input gives 'Message cannot be empty.' first. Otherwise a missing user, route id or partner id gives the 'not defined' error. The send goes ahead iff neither applies |
| `Feed.EchoDoesNotReplaceOptimistic` | client/src/components/ChatWindow.jsx:177-210 | after a send, the echo of the written row (server id absent from the list) is appended behind the optimistic record, which stays: the list grows by two, not one |
| `Feed.RollbackRestores` | client/src/components/ChatWindow.jsx:211-215 | a send followed by any pushed inserts and then a failed write leaves exactly the list those inserts would have produced without the send |
| `Feed.ChatWindow.constructor` | client/src/components/ChatWindow.jsx:12-16 | the window starts with no messages, an empty input, no partner and no errors |
| `Feed.ChatWindow.PartnerLoaded` | client/src/components/ChatWindow.jsx:22-49 | without a route id the partner is cleared; otherwise the error is cleared and the fetched partner stored, or the 'Failed to load chat' error set and the partner cleared |
| `Feed.ChatWindow.HistoryLoaded` | client/src/components/ChatWindow.jsx:80-94 | (the fetch only runs with a signed-in user and a route id, line 53) a successful fetch replaces the list by the mapped history; a failed one sets 'Failed to load messages' and empties the list |
| `Feed.ChatWindow.InsertPushed` | client/src/components/ChatWindow.jsx:105-134 | (the listener only exists with a signed-in user and a route id, line 53) the insert handler replaces the list by the delivery of the pushed row against the current user and the route's user |
| `Feed.ChatWindow.InputChanged` | client/src/components/ChatWindow.jsx:271-274 | typing stores the text and clears the inline error |
| `Feed.ChatWindow.Send` | client/src/components/ChatWindow.jsx:164-201 | a refused send sets the inline error and leaves messages and input unchanged. A valid send appends exactly one optimistic entry and empties the input. The entry has the fresh temp id, the trimmed content, the sender's display profile, the route's user as receiver, a null channel and `is_optimistic` true. The valid send also returns the record to write |
| `Feed.ChatWindow.WriteFailed` | client/src/components/ChatWindow.jsx:211-215 | exactly the entries with the temp id are removed and 'Failed to send message' is set; the input is left as it is, and unless an inline error shows, the window turns into the error screen |
| `Feed.ChatWindow.WriteSucceeded` | client/src/components/ChatWindow.jsx:203-210 | a successful write changes nothing: the optimistic entry stays |
| `Feed.ChatWindow.View` | client/src/components/ChatWindow.jsx:218-225 | the error screen shows iff an error is set and no inline error is; otherwise the loading screen shows iff no partner is loaded |
| `Roster.InitialRoster` | client/src/components/UserList.jsx:19-28 | the roster holds exactly the directory entries whose id differs from the current user's, each with its stored status |
| `Roster.InitialRosterConcat` | client/src/components/UserList.jsx:19-28 | the load keeps the directory's order and multiplicity: it works piecewise on a concatenation |
| `Roster.InitialRosterSingle` | client/src/components/UserList.jsx:19-28 | a single directory entry is dropped exactly when it is the current user |
| `Roster.Sync` | client/src/components/UserList.jsx:56-69 | sync keeps length, order, ids, names and avatars, and sets each status to 'Online' iff the id is a presence key, 'Offline' otherwise |
| `Roster.Join` | client/src/components/UserList.jsx:74-82 | join keeps the roster's shape, sets the users named by a new presence to 'Online' and leaves every other entry unchanged |
| `Roster.Leave` | client/src/components/UserList.jsx:87-95 | leave keeps the roster's shape, sets the users named by a left presence to 'Offline' and leaves every other entry unchanged |
| `Roster.SyncOverrides` | client/src/components/UserList.jsx:59-68 | the result of a sync does not depend on the statuses before it, so sync is idempotent |
| `Roster.JoinLeaveIdempotent` | client/src/components/UserList.jsx:74-95 | repeating a join, or a leave, with the same presences changes nothing more |
| `Roster.LastEventWins` | client/src/components/UserList.jsx:51-96 | after any sequence of sync/join/leave events the roster keeps its entries and order, and each status is set by the last event concerning that user (a sync concerns everyone), or is the loaded one if none does |
| `Roster.WithStatus` | client/src/components/UserList.jsx:129-141 | a display section holds exactly the roster entries whose status is the section's |
| `Roster.WithStatusConcat` | client/src/components/UserList.jsx:129-141 | a section keeps the roster's order and multiplicity: the filter works piecewise on a concatenation |
| `Roster.WithStatusSingle` | client/src/components/UserList.jsx:129-141 | a single entry is kept in a section exactly when it has the section's status |
| `Roster.SectionsDisjoint` | client/src/components/UserList.jsx:129-141 | no user is in both sections, and a user with any other status, or none, is in neither |
| `Roster.SectionsCover` | client/src/components/UserList.jsx:129-141 | when every status is 'Online' or 'Offline', the two sections together hold every entry once |
| `Roster.SyncedSections` | client/src/components/UserList.jsx:129-141 | after a sync every user is in exactly one section: the online one iff the id is a presence key |
| `Roster.UserList.constructor` | client/src/components/UserList.jsx:8-9 | the list starts empty and without error |
| `Roster.UserList.DirectoryLoaded` | client/src/components/UserList.jsx:16-34 | a successful fetch replaces the roster by the directory without the current user; a failure sets 'Failed to load users.' and keeps the roster |
| `Roster.UserList.PresenceSynced` | client/src/components/UserList.jsx:51-70 | the sync handler replaces the roster by its sync against the presence keys |
| `Roster.UserList.PresenceJoined` | client/src/components/UserList.jsx:71-83 | the join handler replaces the roster by its join with the new presences |
| `Roster.UserList.PresenceLeft` | client/src/components/UserList.jsx:84-96 | the leave handler replaces the roster by its leave with the left presences |
| `Roster.UserList.View` | client/src/components/UserList.jsx:121-152 | an error replaces the list; otherwise the online and offline sections are shown |
| `Auth.ReadContext` | client/src/context/AuthContext.jsx:16 | the context yields the provider's value inside a provider and `null` outside one, never `undefined`, so `useAuth` never throws |
| `Auth.UseAuth` | client/src/context/AuthContext.jsx:68-73 | the hook throws exactly when the context is `undefined` and otherwise returns it unchanged |
| `Auth.AuthProvider.constructor` | client/src/context/AuthContext.jsx:19-20 | the provider starts with no user and `loading` true |
| `Auth.AuthProvider.SessionChecked` | client/src/context/AuthContext.jsx:24-32 | the resolved session check takes the session's user when there is a session and keeps the user otherwise; loading ends in every case |
| `Auth.AuthProvider.AuthStateChanged` | client/src/context/AuthContext.jsx:37-46 | SIGNED_IN takes the session's user, SIGNED_OUT clears it, any other event keeps it; each such event ends loading, and loading never comes back |
| `Auth.AuthProvider.Value` | client/src/context/AuthContext.jsx:54-58 | the provided value consists of exactly the user, the loading flag and the client |
| `Auth.RenderGate` | client/src/context/AuthContext.jsx:62 | children are rendered iff loading is false, and inside the provider `useAuth` returns the provider's value |
| `Routing.RedirectTarget` | client/src/App.jsx:24-41 | no navigation while loading. When signed in, it navigates to '/home' iff the path is '/' or '/auth'. When signed out, it navigates to '/' iff the path is neither of those |
| `Routing.RouteFor` | client/src/App.jsx:44-54 | '/' and '/auth' show the sign-in page. Paths under '/home' show the main layout iff a user is present, and the sign-in page otherwise. Any other path matches no route |
| `Routing.RedirectIsFixpoint` | client/src/App.jsx:24-41 | at the path the redirect chose, the redirect does not move again |
| `Routing.LandingPage` | client/src/App.jsx:21-54 | once loading is over, a signed-out user lands on the sign-in page from anywhere. A signed-in user starting on a public path or under '/home' lands on the main layout |
| `Routing.SignedInElsewhereShowsNothing` | client/src/App.jsx:29-54 | a signed-in user at a path outside the route table is not redirected and no route matches |

## Left out

- All backend SDK calls are foreign and are not modelled: queries, inserts, profile lookups, channel creation, subscription, track/untrack, channel removal, `getSession` and `onAuthStateChange`. Each call's result is a parameter of the method that handles its completion.
- Asynchronous interleaving is not modelled. In particular, a handler that resumes after cleanup can still update state. Each completion is one atomic method call.
- The effect and subscription lifecycle of the components is not modelled. This covers mounting, dependency-driven re-subscription, cleanup, and the `setError(null)` issued when the message effect starts.
- `Date.now()`/`Math.random()` temp ids and `new Date().toISOString()` timestamps are parameters of `Feed.ChatWindow.Send`. The caller supplies the temp id fresh.
- Rendering is not modelled: markup, CSS, placeholder avatars, time formatting and auto-scroll.
- `MainLayout` is not part of this model. The `Auth` page, `Home`, `ChannelList`, `Layout` and the Express server are not part of this model either.
- `Feed.ChatWindow.InsertPushed`: the sender-profile lookup result is taken as given for the row's `sender_id`. A failed lookup and an empty lookup are both `None`.
- `Feed.Message`: an undefined `is_optimistic` is modelled as `None`, distinct from `false`. An undefined `channel_id` on fetched entries (the query does not select it) is modelled as `None`, the same value as null; `Feed.FromHistory` sets it so.
- `Auth.AuthProvider.SessionChecked`: the session-check error is only logged, so it is dropped from the parameters. A `getSession` that rejects (which would leave `loading` true) is not modelled.
- `JsStrings.SortsBefore`: the ids are compared by Dafny characters (Unicode scalar values), not UTF-16 code units. The two orders agree outside the supplementary planes and on all ASCII ids.
- `Routing.RouteFor`: React Router's case-insensitive matching and trailing-slash tolerance are not modelled. Paths are compared exactly.
- `Auth.AuthProvider.AuthStateChanged`: a SIGNED_IN event without a session fails on `session.user` before either update runs. It is modelled as leaving both fields unchanged, and the thrown error is not modelled.
