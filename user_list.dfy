/** The presence roster of the user list: the directory of other users with their status,
    updated by the sync, join and leave events of the shared presence channel, and split
    into an online and an offline section for display. */
module Roster {
  import opened Wrappers

  /** A row of the profiles table: `{ id, username, avatar_url, status }`. The status is
      whatever string the table holds, or null. */
  datatype User = User(id: string, username: string, avatarUrl: Option<string>, status: Option<string>)

  /** A presence entry of a join or leave event; only its `key` (a user id) is read. */
  datatype Presence = Presence(key: string)

  const Online: string := "Online"
  const Offline: string := "Offline"

  /** The roster as loaded: the directory without the current user, statuses as stored. */
  function InitialRoster(directory: seq<User>, selfId: string): (r: seq<User>)
    ensures |r| <= |directory|
    ensures forall u :: u in r <==> u in directory && u.id != selfId
  {
    if directory == [] then []
    else
      assert forall u :: u in directory <==> u == directory[0] || u in directory[1..];
      (if directory[0].id == selfId then [] else [directory[0]]) + InitialRoster(directory[1..], selfId)
  }

  /** The load keeps the directory's order and multiplicity: it works piecewise on a
      concatenation. */
  lemma {:induction false} InitialRosterConcat(a: seq<User>, b: seq<User>, selfId: string)
    ensures InitialRoster(a + b, selfId) == InitialRoster(a, selfId) + InitialRoster(b, selfId)
  {
    if a == [] {
      assert a + b == b;
    } else {
      var ab := a + b;
      assert ab[0] == a[0];
      assert ab[1..] == a[1..] + b;
      InitialRosterConcat(a[1..], b, selfId);
      var h := if a[0].id == selfId then [] else [a[0]];
      calc {
        InitialRoster(ab, selfId);
        h + InitialRoster(a[1..] + b, selfId);
        h + (InitialRoster(a[1..], selfId) + InitialRoster(b, selfId));
        (h + InitialRoster(a[1..], selfId)) + InitialRoster(b, selfId);
      }
    }
  }

  /** A single directory entry is dropped exactly when it is the current user. */
  lemma InitialRosterSingle(u: User, selfId: string)
    ensures InitialRoster([u], selfId) == if u.id == selfId then [] else [u]
  {
    assert [u][1..] == [];
  }

  /** Some presence entry carries `id` as its key (`presences.find(p => p.key === id)`). */
  predicate Mentioned(presences: seq<Presence>, id: string) {
    exists p :: p in presences && p.key == id
  }

  /** The sync updater: every user whose id is a key of the presence state is online, every
      other user offline. */
  function Sync(users: seq<User>, onlineIds: seq<string>): (r: seq<User>)
    ensures SameExceptStatus(users, r)
    ensures forall i :: 0 <= i < |r| ==>
              && (r[i].status == Some(Online) <==> users[i].id in onlineIds)
              && (r[i].status == Some(Offline) <==> users[i].id !in onlineIds)
  {
    seq(|users|, i requires 0 <= i < |users| =>
      users[i].(status := Some(if users[i].id in onlineIds then Online else Offline)))
  }

  /** The join updater: the users named by a new presence become online, the rest keep
      their status. */
  function Join(users: seq<User>, joined: seq<Presence>): (r: seq<User>)
    ensures SameExceptStatus(users, r)
    ensures forall i :: 0 <= i < |r| && Mentioned(joined, users[i].id) ==> r[i].status == Some(Online)
    ensures forall i :: 0 <= i < |r| && !Mentioned(joined, users[i].id) ==> r[i] == users[i]
  {
    seq(|users|, i requires 0 <= i < |users| =>
      if Mentioned(joined, users[i].id) then users[i].(status := Some(Online)) else users[i])
  }

  /** The leave updater: the users named by a left presence become offline, the rest keep
      their status. */
  function Leave(users: seq<User>, left: seq<Presence>): (r: seq<User>)
    ensures SameExceptStatus(users, r)
    ensures forall i :: 0 <= i < |r| && Mentioned(left, users[i].id) ==> r[i].status == Some(Offline)
    ensures forall i :: 0 <= i < |r| && !Mentioned(left, users[i].id) ==> r[i] == users[i]
  {
    seq(|users|, i requires 0 <= i < |users| =>
      if Mentioned(left, users[i].id) then users[i].(status := Some(Offline)) else users[i])
  }

  /** Two rosters that agree on everything but the statuses: same length, same order, same
      ids, names and avatars. */
  predicate SameExceptStatus(a: seq<User>, b: seq<User>) {
    |a| == |b| && forall i :: 0 <= i < |a| ==> a[i].(status := b[i].status) == b[i]
  }

  /** Sync is a full override: its result does not depend on the statuses it starts from,
      so applying it twice is applying it once. */
  lemma SyncOverrides(a: seq<User>, b: seq<User>, onlineIds: seq<string>)
    requires SameExceptStatus(a, b)
    ensures Sync(a, onlineIds) == Sync(b, onlineIds)
    ensures Sync(Sync(a, onlineIds), onlineIds) == Sync(a, onlineIds)
  {
    var sa, sb := Sync(a, onlineIds), Sync(b, onlineIds);
    forall i | 0 <= i < |a| ensures sa[i] == sb[i] {
      assert a[i].(status := b[i].status) == b[i];
    }
    var ss := Sync(sa, onlineIds);
    forall i | 0 <= i < |a| ensures ss[i] == sa[i] {
    }
  }

  /** Repeating a join or a leave changes nothing more. */
  lemma JoinLeaveIdempotent(users: seq<User>, presences: seq<Presence>)
    ensures Join(Join(users, presences), presences) == Join(users, presences)
    ensures Leave(Leave(users, presences), presences) == Leave(users, presences)
  {
    var j := Join(users, presences);
    var jj := Join(j, presences);
    forall i | 0 <= i < |users| ensures jj[i] == j[i] {
      assert j[i].id == users[i].id;
    }
    var l := Leave(users, presences);
    var ll := Leave(l, presences);
    forall i | 0 <= i < |users| ensures ll[i] == l[i] {
      assert l[i].id == users[i].id;
    }
  }

  /** The three events of the presence channel. */
  datatype Event =
    | SyncEvent(onlineIds: seq<string>)
    | JoinEvent(joined: seq<Presence>)
    | LeaveEvent(left: seq<Presence>)

  function Apply(users: seq<User>, e: Event): seq<User> {
    match e
    case SyncEvent(ids) => Sync(users, ids)
    case JoinEvent(ps) => Join(users, ps)
    case LeaveEvent(ps) => Leave(users, ps)
  }

  /** The roster after the events `events`, in order. */
  function Replay(users: seq<User>, events: seq<Event>): seq<User>
    decreases |events|
  {
    if events == [] then users
    else Apply(Replay(users, events[..|events| - 1]), events[|events| - 1])
  }

  /** An event concerns a user: a sync concerns everyone, a join or leave the users it names. */
  predicate Concerns(e: Event, id: string) {
    match e
    case SyncEvent(_) => true
    case JoinEvent(ps) => Mentioned(ps, id)
    case LeaveEvent(ps) => Mentioned(ps, id)
  }

  /** The status an event that concerns `id` gives it. */
  function StatusAfter(e: Event, id: string): string {
    match e
    case SyncEvent(ids) => if id in ids then Online else Offline
    case JoinEvent(_) => Online
    case LeaveEvent(_) => Offline
  }

  /** The status set by the last event concerning `id`, or `initial` when none does. */
  function LastWord(events: seq<Event>, id: string, initial: Option<string>): Option<string>
    decreases |events|
  {
    if events == [] then initial
    else
      var e := events[|events| - 1];
      if Concerns(e, id) then Some(StatusAfter(e, id)) else LastWord(events[..|events| - 1], id, initial)
  }

  /** After any sequence of presence events the roster has the same entries in the same
      order, and each user's status is the one set by the last event concerning them. */
  lemma {:induction false} LastEventWins(users: seq<User>, events: seq<Event>)
    ensures |Replay(users, events)| == |users|
    ensures forall i :: 0 <= i < |users| ==>
              Replay(users, events)[i] == users[i].(status := LastWord(events, users[i].id, users[i].status))
    decreases |events|
  {
    if events != [] {
      var init := events[..|events| - 1];
      var e := events[|events| - 1];
      LastEventWins(users, init);
      var before := Replay(users, init);
      var after := Apply(before, e);
      forall i | 0 <= i < |users|
        ensures after[i] == users[i].(status := LastWord(events, users[i].id, users[i].status))
      {
        assert before[i].id == users[i].id;
      }
    }
  }

  /** `users.filter(u => u.status === status)`. */
  function WithStatus(users: seq<User>, status: string): (r: seq<User>)
    ensures |r| <= |users|
    ensures forall u :: u in r <==> u in users && u.status == Some(status)
  {
    if users == [] then []
    else
      assert forall u :: u in users <==> u == users[0] || u in users[1..];
      (if users[0].status == Some(status) then [users[0]] else []) + WithStatus(users[1..], status)
  }

  /** A section keeps the roster's order and multiplicity: the filter works piecewise on a
      concatenation. */
  lemma {:induction false} WithStatusConcat(a: seq<User>, b: seq<User>, status: string)
    ensures WithStatus(a + b, status) == WithStatus(a, status) + WithStatus(b, status)
  {
    if a == [] {
      assert a + b == b;
    } else {
      var ab := a + b;
      assert ab[0] == a[0];
      assert ab[1..] == a[1..] + b;
      WithStatusConcat(a[1..], b, status);
      var h := if a[0].status == Some(status) then [a[0]] else [];
      assert WithStatus(ab, status) == h + WithStatus(a[1..] + b, status);
      assert WithStatus(a, status) == h + WithStatus(a[1..], status);
    }
  }

  /** A single entry is kept exactly when it has the section's status. */
  lemma WithStatusSingle(u: User, status: string)
    ensures WithStatus([u], status) == if u.status == Some(status) then [u] else []
  {
    assert [u][1..] == [];
  }

  /** The online section of the display. */
  function OnlineSection(users: seq<User>): seq<User> {
    WithStatus(users, Online)
  }

  /** The offline section of the display. */
  function OfflineSection(users: seq<User>): seq<User> {
    WithStatus(users, Offline)
  }

  /** The two sections are disjoint, and a user with any other status (or none) is in
      neither of them. */
  lemma SectionsDisjoint(users: seq<User>, u: User)
    ensures !(u in OnlineSection(users) && u in OfflineSection(users))
    ensures u in users && u.status != Some(Online) && u.status != Some(Offline) ==>
              u !in OnlineSection(users) && u !in OfflineSection(users)
  {
  }

  /** Every user is online or offline, so the sections together hold every entry once. */
  lemma {:induction false} SectionsCover(users: seq<User>)
    requires forall i :: 0 <= i < |users| ==> users[i].status in {Some(Online), Some(Offline)}
    ensures |OnlineSection(users)| + |OfflineSection(users)| == |users|
  {
    if users != [] {
      SectionsCover(users[1..]);
    }
  }

  /** After a sync every user appears in exactly one section: the online one when their id
      is a key of the presence state. */
  lemma SyncedSections(users: seq<User>, onlineIds: seq<string>)
    ensures var s := Sync(users, onlineIds);
            && |OnlineSection(s)| + |OfflineSection(s)| == |users|
            && (forall u :: u in OnlineSection(s) <==> u in s && u.id in onlineIds)
            && (forall u :: u in OfflineSection(s) <==> u in s && u.id !in onlineIds)
  {
    SectionsCover(Sync(users, onlineIds));
  }

  /** What the user list renders. */
  datatype Screen = ErrorScreen(message: string) | Sections(online: seq<User>, offline: seq<User>)

  const LoadError: string := "Failed to load users."

  /** The state of a mounted user list. */
  class UserList {
    /** The current user's id, from the auth context. */
    const selfId: string
    var users: seq<User>
    var error: Option<string>

    constructor (selfId: string)
      ensures this.selfId == selfId && users == [] && error.None?
    {
      this.selfId := selfId;
      users := [];
      error := None;
    }

    /** The directory fetch completed: the other users replace the roster, or the error
        is recorded and the roster left as it is. */
    method DirectoryLoaded(directory: Result<seq<User>>)
      modifies this
      ensures directory.Ok? ==> users == InitialRoster(directory.value, selfId) && error == old(error)
      ensures directory.Err? ==> users == old(users) && error == Some(LoadError)
    {
      match directory
      case Ok(rows) =>
        users := InitialRoster(rows, selfId);
      case Err(_) =>
        error := Some(LoadError);
    }

    method PresenceSynced(onlineIds: seq<string>)
      modifies this`users
      ensures users == Sync(old(users), onlineIds)
    {
      users := Sync(users, onlineIds);
    }

    method PresenceJoined(joined: seq<Presence>)
      modifies this`users
      ensures users == Join(old(users), joined)
    {
      users := Join(users, joined);
    }

    method PresenceLeft(left: seq<Presence>)
      modifies this`users
      ensures users == Leave(old(users), left)
    {
      users := Leave(users, left);
    }

    /** An error replaces the list; otherwise the two sections are shown. */
    function View(): (s: Screen)
      reads this
      ensures error.Some? ==> s == ErrorScreen(error.value)
      ensures error.None? ==> s == Sections(OnlineSection(users), OfflineSection(users))
    {
      if error.Some? then ErrorScreen(error.value)
      else Sections(OnlineSection(users), OfflineSection(users))
    }
  }
}
