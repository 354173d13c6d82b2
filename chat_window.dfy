/** The direct-message conversation feed of the chat window: the topic name of a
    conversation, the relevance filter for pushed inserts, the merge of a pushed row into the
    message list, the mapping of fetched history, and the send path with its optimistic
    append and rollback. */
module Feed {
  import opened Wrappers
  import opened JsStrings
  import Auth

  /** A message id: a server-assigned id, or the local id of an optimistic record.
      A temporary id is never equal to a server id. */
  datatype MsgId = Server(key: string) | Temp(key: string)

  /** Sender display information: `{ username, avatar_url }`. */
  datatype Profile = Profile(username: string, avatarUrl: Option<string>)

  /** The placeholder shown when no sender profile is available. */
  const UnknownSender: Profile := Profile("Unknown", None)

  /** The chat partner's profile, loaded from the route's user id. */
  datatype Partner = Partner(id: string, username: string, avatarUrl: Option<string>)

  /** A row of the messages table, as fetched or as pushed in an insert event. */
  datatype Row = Row(id: string, senderId: string, receiverId: Option<string>,
                     channelId: Option<string>, content: string, createdAt: string)

  /** A fetched history row with the sender's joined profile, absent when the join is empty.
      The history query does not select `channel_id`, so the row's `channelId` is not read. */
  datatype HistoryRow = HistoryRow(row: Row, profiles: Option<Profile>)

  /** An entry of the displayed list. `isOptimistic` is `Some(true)` on a pending local
      record, `Some(false)` on a row that replaced an entry with its id, and None (the
      field is undefined) on fetched and appended rows. */
  datatype Message = Message(id: MsgId, senderId: string, receiverId: Option<string>,
                             channelId: Option<string>, content: string, createdAt: string,
                             senderProfile: Profile, isOptimistic: Option<bool>)

  /** The record a send writes to the messages table. */
  datatype NewMessage = NewMessage(senderId: string, content: string, receiverId: string,
                                   channelId: Option<string>)

  const EmptyMessageError: string := "Message cannot be empty."
  const NotDefinedError: string := "User or chat partner not defined. Please refresh."

  // ---------------------------------------------------------------------------------------
  // Conversation identity

  /** The realtime topic of the conversation between `me` and `peer`: `dm_`, then the two
      ids in sorted order joined by `_`. The smaller id always comes first. */
  function TopicName(me: string, peer: string): (r: string)
    ensures SortsBefore(me, peer) ==> r == "dm_" + me + "_" + peer
    ensures SortsBefore(peer, me) ==> r == "dm_" + peer + "_" + me
  {
    var p := SortPair(me, peer);
    "dm_" + p.0 + "_" + p.1
  }

  /** Both participants subscribe to the same topic, whoever opened the conversation. */
  lemma TopicNameSymmetric(a: string, b: string)
    ensures TopicName(a, b) == TopicName(b, a)
  {
    SortPairSymmetric(a, b);
  }

  predicate NoUnderscore(s: string) {
    forall i :: 0 <= i < |s| ==> s[i] != '_'
  }

  /** The index of the first underscore of `s`, or `|s|` when there is none. */
  function FirstUnderscore(s: string): (n: nat)
    ensures n <= |s|
  {
    if s == [] || s[0] == '_' then 0 else 1 + FirstUnderscore(s[1..])
  }

  lemma {:induction false} FirstUnderscoreOfJoin(x: string, y: string)
    requires NoUnderscore(x)
    ensures FirstUnderscore(x + "_" + y) == |x|
  {
    if x != [] {
      assert (x + "_" + y)[1..] == x[1..] + "_" + y;
      FirstUnderscoreOfJoin(x[1..], y);
    }
  }

  /** Joining with `_` is undone by splitting at the first underscore. */
  lemma SplitAtUnderscore(x: string, y: string, x': string, y': string)
    requires NoUnderscore(x) && NoUnderscore(x')
    requires x + "_" + y == x' + "_" + y'
    ensures x == x' && y == y'
  {
    var s := x + "_" + y;
    FirstUnderscoreOfJoin(x, y);
    FirstUnderscoreOfJoin(x', y');
    assert x == s[..|x|] == x';
    assert y == s[|x| + 1..] == y';
  }

  /** For ids without an underscore (such as UUIDs) the topic determines the conversation:
      two pairs with the same topic are the same unordered pair. */
  lemma TopicNameIdentifiesPair(a: string, b: string, c: string, d: string)
    requires NoUnderscore(a) && NoUnderscore(b) && NoUnderscore(c) && NoUnderscore(d)
    requires TopicName(a, b) == TopicName(c, d)
    ensures (a == c && b == d) || (a == d && b == c)
  {
    var p, q := SortPair(a, b), SortPair(c, d);
    assert TopicName(a, b) == "dm_" + (p.0 + "_" + p.1);
    assert TopicName(c, d) == "dm_" + (q.0 + "_" + q.1);
    assert p.0 + "_" + p.1 == TopicName(a, b)[3..];
    assert q.0 + "_" + q.1 == TopicName(c, d)[3..];
    SplitAtUnderscore(p.0, p.1, q.0, q.1);
  }

  // ---------------------------------------------------------------------------------------
  // Relevance of a pushed insert

  /** A direct message between `a` and `b`, in either direction. */
  predicate IsDirectBetween(row: Row, a: string, b: string) {
    (row.senderId == a && row.receiverId == Some(b)) || (row.senderId == b && row.receiverId == Some(a))
  }

  /** A pushed row belongs to the open conversation: it was sent from `me` to `peer` or from
      `peer` to `me`, and it is a direct message (its `channel_id` is null). */
  predicate IsRelevant(row: Row, me: string, peer: string) {
    IsDirectBetween(row, me, peer) && row.channelId.None?
  }

  /** Relevance is symmetric in the pair: both windows of a conversation accept the same rows. */
  lemma RelevanceCharacterised(row: Row, me: string, peer: string)
    ensures IsRelevant(row, me, peer) <==> IsRelevant(row, peer, me)
  {
  }

  /** A message of the pair {a, c} never shows up in the conversation {a, b} when c != b
      and a != b. */
  lemma OtherConversationNotRelevant(row: Row, a: string, b: string, c: string)
    requires IsDirectBetween(row, a, c)
    requires c != b && a != b
    ensures !IsRelevant(row, a, b) && !IsRelevant(row, b, a)
  {
  }

  // ---------------------------------------------------------------------------------------
  // Fetched history

  function FromHistory(h: HistoryRow): Message {
    Message(Server(h.row.id), h.row.senderId, h.row.receiverId, None,
            h.row.content, h.row.createdAt, h.profiles.GetOr(UnknownSender), None)
  }

  /** The fetched history as displayed: same length and order as the rows, each carrying
      its joined profile or the 'Unknown' placeholder. */
  function History(rows: seq<HistoryRow>): (r: seq<Message>)
    ensures |r| == |rows|
    ensures forall i :: 0 <= i < |rows| ==>
              && r[i].id == Server(rows[i].row.id)
              && r[i].senderId == rows[i].row.senderId
              && r[i].receiverId == rows[i].row.receiverId
              && r[i].channelId.None?
              && r[i].content == rows[i].row.content
              && r[i].createdAt == rows[i].row.createdAt
              && r[i].senderProfile == (if rows[i].profiles.Some? then rows[i].profiles.value else UnknownSender)
              && r[i].isOptimistic.None?
  {
    seq(|rows|, i requires 0 <= i < |rows| => FromHistory(rows[i]))
  }

  // ---------------------------------------------------------------------------------------
  // The message list

  predicate HasId(msgs: seq<Message>, id: MsgId) {
    exists m :: m in msgs && m.id == id
  }

  /** The number of entries carrying `id`. */
  function CountId(msgs: seq<Message>, id: MsgId): (n: nat)
    ensures n <= |msgs|
  {
    if msgs == [] then 0
    else (if msgs[0].id == id then 1 else 0) + CountId(msgs[1..], id)
  }

  lemma {:induction false} CountIdZero(msgs: seq<Message>, id: MsgId)
    ensures CountId(msgs, id) == 0 <==> !HasId(msgs, id)
  {
    if msgs != [] {
      CountIdZero(msgs[1..], id);
      assert forall m :: m in msgs <==> m == msgs[0] || m in msgs[1..];
    }
  }

  /** `msgs.filter(msg => msg.id !== id)`. */
  function RemoveId(msgs: seq<Message>, id: MsgId): (r: seq<Message>)
    ensures |r| == |msgs| - CountId(msgs, id)
  {
    if msgs == [] then []
    else (if msgs[0].id == id then [] else [msgs[0]]) + RemoveId(msgs[1..], id)
  }

  /** The filter keeps exactly the entries without `id`. */
  lemma {:induction false} RemoveIdMembers(msgs: seq<Message>, id: MsgId)
    ensures forall m :: m in RemoveId(msgs, id) <==> m in msgs && m.id != id
  {
    if msgs != [] {
      RemoveIdMembers(msgs[1..], id);
      assert forall m :: m in msgs <==> m == msgs[0] || m in msgs[1..];
    }
  }

  /** Every entry carrying `id` replaced by `entry`, the others kept in place. */
  function ReplaceAll(msgs: seq<Message>, id: MsgId, entry: Message): (r: seq<Message>)
    ensures |r| == |msgs|
    ensures forall i :: 0 <= i < |msgs| ==> r[i] == if msgs[i].id == id then entry else msgs[i]
  {
    if msgs == [] then []
    else [if msgs[0].id == id then entry else msgs[0]] + ReplaceAll(msgs[1..], id, entry)
  }

  function FromRow(row: Row, profile: Profile, isOptimistic: Option<bool>): Message {
    Message(Server(row.id), row.senderId, row.receiverId, row.channelId, row.content,
            row.createdAt, profile, isOptimistic)
  }

  /** The realtime updater for a relevant row: when an entry with the row's id is present,
      every such entry becomes the row with `is_optimistic` false; otherwise the row is
      appended with the looked-up profile. */
  function Merge(msgs: seq<Message>, row: Row, profile: Profile): (r: seq<Message>)
    ensures HasId(msgs, Server(row.id)) ==>
              |r| == |msgs|
              && forall i :: 0 <= i < |msgs| ==>
                   r[i] == if msgs[i].id == Server(row.id) then FromRow(row, profile, Some(false)) else msgs[i]
    ensures !HasId(msgs, Server(row.id)) ==> r == msgs + [FromRow(row, profile, None)]
  {
    if HasId(msgs, Server(row.id)) then ReplaceAll(msgs, Server(row.id), FromRow(row, profile, Some(false)))
    else msgs + [FromRow(row, profile, None)]
  }

  /** One pushed insert: merged with the looked-up sender profile (or the placeholder)
      when relevant to the conversation of `me` and `peer`, ignored otherwise. */
  function Deliver(msgs: seq<Message>, row: Row, lookup: Option<Profile>, me: string, peer: string): (r: seq<Message>)
    ensures !IsRelevant(row, me, peer) ==> r == msgs
    ensures IsRelevant(row, me, peer) && lookup.Some? ==> r == Merge(msgs, row, lookup.value)
    ensures IsRelevant(row, me, peer) && lookup.None? ==> r == Merge(msgs, row, UnknownSender)
  {
    if IsRelevant(row, me, peer) then Merge(msgs, row, lookup.GetOr(UnknownSender)) else msgs
  }

  /** A pushed insert with the result of its sender-profile lookup. */
  datatype Push = Push(row: Row, lookup: Option<Profile>)

  /** A sequence of pushed inserts delivered in order. */
  function DeliverAll(msgs: seq<Message>, pushes: seq<Push>, me: string, peer: string): seq<Message>
    decreases |pushes|
  {
    if pushes == [] then msgs
    else DeliverAll(Deliver(msgs, pushes[0].row, pushes[0].lookup, me, peer), pushes[1..], me, peer)
  }

  lemma {:induction false} RemoveIdConcat(a: seq<Message>, b: seq<Message>, id: MsgId)
    ensures RemoveId(a + b, id) == RemoveId(a, id) + RemoveId(b, id)
  {
    if a == [] {
      assert a + b == b;
    } else {
      assert (a + b)[0] == a[0];
      assert (a + b)[1..] == a[1..] + b;
      RemoveIdConcat(a[1..], b, id);
    }
  }

  lemma {:induction false} RemoveIdAbsent(a: seq<Message>, id: MsgId)
    requires !HasId(a, id)
    ensures RemoveId(a, id) == a
  {
    if a != [] {
      assert a[0] in a;
      assert forall m :: m in a[1..] ==> m in a;
      RemoveIdAbsent(a[1..], id);
      assert a == [a[0]] + a[1..];
    }
  }

  lemma {:induction false} RemoveIdReplaceAll(a: seq<Message>, id: MsgId, entry: Message, gone: MsgId)
    requires entry.id == id && id != gone
    ensures RemoveId(ReplaceAll(a, id, entry), gone) == ReplaceAll(RemoveId(a, gone), id, entry)
  {
    if a != [] {
      var h, t := a[0], a[1..];
      var h' := if h.id == id then entry else h;
      RemoveIdReplaceAll(t, id, entry, gone);
      var rt := RemoveId(t, gone);
      var replaced := ReplaceAll(t, id, entry);
      assert ReplaceAll(a, id, entry) == [h'] + replaced;
      assert ([h'] + replaced)[0] == h' && ([h'] + replaced)[1..] == replaced;
      if h.id != gone {
        assert RemoveId(a, gone) == [h] + rt;
        assert ([h] + rt)[0] == h && ([h] + rt)[1..] == rt;
      }
    }
  }

  /** Removing a temporary id commutes with merging a pushed row, whose id is a server id. */
  lemma MergeCommutesWithRemove(msgs: seq<Message>, row: Row, profile: Profile, tid: MsgId)
    requires tid.Temp?
    ensures RemoveId(Merge(msgs, row, profile), tid) == Merge(RemoveId(msgs, tid), row, profile)
  {
    var sid := Server(row.id);
    RemoveIdMembers(msgs, tid);
    assert HasId(msgs, sid) <==> HasId(RemoveId(msgs, tid), sid);
    if HasId(msgs, sid) {
      RemoveIdReplaceAll(msgs, sid, FromRow(row, profile, Some(false)), tid);
    } else {
      RemoveIdConcat(msgs, [FromRow(row, profile, None)], tid);
    }
  }

  lemma {:induction false} DeliverAllCommutesWithRemove(msgs: seq<Message>, pushes: seq<Push>, me: string, peer: string, tid: MsgId)
    requires tid.Temp?
    ensures RemoveId(DeliverAll(msgs, pushes, me, peer), tid) == DeliverAll(RemoveId(msgs, tid), pushes, me, peer)
    decreases |pushes|
  {
    if pushes != [] {
      var p := pushes[0];
      if IsRelevant(p.row, me, peer) {
        MergeCommutesWithRemove(msgs, p.row, p.lookup.GetOr(UnknownSender), tid);
      }
      DeliverAllCommutesWithRemove(Deliver(msgs, p.row, p.lookup, me, peer), pushes[1..], me, peer, tid);
    }
  }

  /** Merging a row whose id is present keeps the length and the number of entries with that
      id, and leaves every other entry where it was. */
  lemma MergePresent(msgs: seq<Message>, row: Row, profile: Profile)
    requires HasId(msgs, Server(row.id))
    ensures |Merge(msgs, row, profile)| == |msgs|
    ensures CountId(Merge(msgs, row, profile), Server(row.id)) == CountId(msgs, Server(row.id))
    ensures RemoveId(Merge(msgs, row, profile), Server(row.id)) == RemoveId(msgs, Server(row.id))
  {
    var sid := Server(row.id);
    var e := FromRow(row, profile, Some(false));
    ReplaceAllKeeps(msgs, sid, e);
  }

  lemma {:induction false} ReplaceAllKeeps(a: seq<Message>, id: MsgId, entry: Message)
    requires entry.id == id
    ensures CountId(ReplaceAll(a, id, entry), id) == CountId(a, id)
    ensures RemoveId(ReplaceAll(a, id, entry), id) == RemoveId(a, id)
  {
    if a != [] {
      ReplaceAllKeeps(a[1..], id, entry);
      assert ReplaceAll(a, id, entry)[1..] == ReplaceAll(a[1..], id, entry);
    }
  }

  /** Merging a row whose id is absent appends exactly one entry, at the end; delivering the
      same row again leaves exactly one entry with that id, now confirmed, and further
      deliveries change nothing. */
  lemma MergeAbsentThenRedeliver(msgs: seq<Message>, row: Row, profile: Profile)
    requires !HasId(msgs, Server(row.id))
    ensures Merge(msgs, row, profile) == msgs + [FromRow(row, profile, None)]
    ensures CountId(Merge(msgs, row, profile), Server(row.id)) == 1
    ensures var twice := Merge(Merge(msgs, row, profile), row, profile);
            && twice == msgs + [FromRow(row, profile, Some(false))]
            && CountId(twice, Server(row.id)) == 1
            && Merge(twice, row, profile) == twice
  {
    var sid := Server(row.id);
    var once := Merge(msgs, row, profile);
    CountIdZero(msgs, sid);
    CountIdConcat(msgs, [FromRow(row, profile, None)], sid);
    assert once[|msgs|] in once;
    var twice := Merge(once, row, profile);
    assert twice == msgs + [FromRow(row, profile, Some(false))] by {
      assert forall i :: 0 <= i < |msgs| ==> msgs[i] in msgs;
    }
    CountIdConcat(msgs, [FromRow(row, profile, Some(false))], sid);
    assert twice[|msgs|] in twice;
    assert Merge(twice, row, profile) == twice;
  }

  lemma {:induction false} CountIdConcat(a: seq<Message>, b: seq<Message>, id: MsgId)
    ensures CountId(a + b, id) == CountId(a, id) + CountId(b, id)
  {
    if a == [] {
      assert a + b == b;
    } else {
      assert (a + b)[1..] == a[1..] + b;
      CountIdConcat(a[1..], b, id);
    }
  }

  // ---------------------------------------------------------------------------------------
  // Sending

  /** The display profile of an optimistic record: the metadata username when it is a
      non-empty string, the e-mail otherwise, and the metadata avatar. */
  function SenderDisplay(user: Auth.AuthUser): Profile {
    Profile(if user.metaUsername.Some? && user.metaUsername.value != "" then user.metaUsername.value else user.email,
            user.metaAvatarUrl)
  }

  /** The optimistic record of a send. */
  function Optimistic(tempId: string, user: Auth.AuthUser, content: string, receiver: string, createdAt: string): Message {
    Message(Temp(tempId), user.id, Some(receiver), None, content, createdAt, SenderDisplay(user), Some(true))
  }

  /** The partner is known by a non-empty id (`chatPartner?.id` is truthy). */
  predicate PartnerHasId(partner: Option<Partner>) {
    partner.Some? && partner.value.id != ""
  }

  /** The validation a send runs before touching any state: an input that trims to empty is
      refused first, then a missing user, conversation or partner. */
  function SendError(input: string, user: Option<Auth.AuthUser>, isDM: bool, partner: Option<Partner>): (r: Option<string>)
    ensures AllWhiteSpace(input) ==> r == Some(EmptyMessageError)
    ensures !AllWhiteSpace(input) && (user.None? || !isDM || !PartnerHasId(partner)) ==> r == Some(NotDefinedError)
    ensures r.None? <==> !AllWhiteSpace(input) && user.Some? && isDM && PartnerHasId(partner)
  {
    TrimEmptyIffAllWhiteSpace(input);
    if Trim(input) == [] then Some(EmptyMessageError)
    else if user.None? || !isDM || !PartnerHasId(partner) then Some(NotDefinedError)
    else None
  }

  /** Send followed by an echo of the written row: the echo carries a server id, which the
      optimistic record's temporary id never matches, so a second entry is appended and the
      optimistic one stays. */
  lemma EchoDoesNotReplaceOptimistic(msgs: seq<Message>, opt: Message, row: Row, profile: Profile)
    requires opt.id.Temp?
    requires !HasId(msgs, Server(row.id))
    ensures Merge(msgs + [opt], row, profile) == msgs + [opt, FromRow(row, profile, None)]
    ensures CountId(Merge(msgs + [opt], row, profile), opt.id) == CountId(msgs, opt.id) + 1
  {
    var sid := Server(row.id);
    assert !HasId(msgs + [opt], sid) by {
      assert forall m :: m in msgs + [opt] ==> m in msgs || m == opt;
    }
    CountIdConcat(msgs, [opt, FromRow(row, profile, None)], opt.id);
    assert [opt, FromRow(row, profile, None)] == [opt] + [FromRow(row, profile, None)];
    CountIdConcat([opt], [FromRow(row, profile, None)], opt.id);
  }

  /** The rollback of a failed write, after any pushed inserts delivered in between, leaves
      exactly the list those inserts would have produced without the send. */
  lemma RollbackRestores(msgs: seq<Message>, opt: Message, pushes: seq<Push>, me: string, peer: string)
    requires opt.id.Temp?
    requires !HasId(msgs, opt.id)
    ensures RemoveId(DeliverAll(msgs + [opt], pushes, me, peer), opt.id) == DeliverAll(msgs, pushes, me, peer)
  {
    var sent := msgs + [opt];
    assert RemoveId(sent, opt.id) == msgs by {
      RemoveIdConcat(msgs, [opt], opt.id);
      RemoveIdAbsent(msgs, opt.id);
      assert [opt][1..] == [];
      assert RemoveId([opt], opt.id) == [];
      assert msgs + [] == msgs;
    }
    DeliverAllCommutesWithRemove(sent, pushes, me, peer, opt.id);
  }

  // ---------------------------------------------------------------------------------------
  // The chat window's state

  /** What the chat window renders. */
  datatype Screen = ErrorScreen(message: string) | LoadingScreen | ChatScreen

  class ChatWindow {
    /** The signed-in user, from the auth context. */
    const currentUser: Option<Auth.AuthUser>
    /** The route's `userId` parameter. */
    const userId: Option<string>

    var messages: seq<Message>
    /** The text field (`newMessage`). */
    var input: string
    var partner: Option<Partner>
    var error: Option<string>
    var tempError: Option<string>

    constructor (currentUser: Option<Auth.AuthUser>, userId: Option<string>)
      ensures this.currentUser == currentUser && this.userId == userId
      ensures messages == [] && input == "" && partner.None? && error.None? && tempError.None?
    {
      this.currentUser := currentUser;
      this.userId := userId;
      messages := [];
      input := "";
      partner := None;
      error := None;
      tempError := None;
    }

    /** `!!userId`: a non-empty route id. */
    predicate IsDM() {
      userId.Some? && userId.value != ""
    }

    /** The partner-profile fetch completed (or could not start without a route id). */
    method PartnerLoaded(fetched: Result<Partner>)
      modifies this
      ensures !IsDM() ==> partner.None? && error == old(error)
      ensures IsDM() && fetched.Ok? ==> partner == Some(fetched.value) && error.None?
      ensures IsDM() && fetched.Err? ==> partner.None? && error == Some("Failed to load chat: " + fetched.message)
      ensures messages == old(messages) && input == old(input) && tempError == old(tempError)
    {
      if !IsDM() {
        partner := None;
        return;
      }
      error := None;
      match fetched
      case Ok(p) =>
        partner := Some(p);
      case Err(m) =>
        error := Some("Failed to load chat: " + m);
        partner := None;
    }

    /** The history fetch completed: the rows replace the list, or an error empties it. */
    method HistoryLoaded(fetched: Result<seq<HistoryRow>>)
      requires currentUser.Some? && IsDM()
      modifies this
      ensures fetched.Ok? ==> messages == History(fetched.value) && error == old(error)
      ensures fetched.Err? ==> messages == [] && error == Some("Failed to load messages: " + fetched.message)
      ensures input == old(input) && partner == old(partner) && tempError == old(tempError)
    {
      match fetched
      case Ok(rows) =>
        messages := History(rows);
      case Err(m) =>
        error := Some("Failed to load messages: " + m);
        messages := [];
    }

    /** The realtime insert handler, with the result of its sender-profile lookup. */
    method InsertPushed(row: Row, lookup: Option<Profile>)
      requires currentUser.Some? && IsDM()
      modifies this`messages
      ensures messages == Deliver(old(messages), row, lookup, currentUser.value.id, userId.value)
    {
      if IsRelevant(row, currentUser.value.id, userId.value) {
        var profile := lookup.GetOr(UnknownSender);
        messages := Merge(messages, row, profile);
      }
    }

    /** Typing in the text field clears the inline error. */
    method InputChanged(value: string)
      modifies this`input, this`tempError
      ensures input == value && tempError.None?
    {
      input := value;
      if tempError.Some? {
        tempError := None;
      }
    }

    /** `handleSendMessage` up to the write: validation, then the optimistic append and the
        cleared input. Returns the record to write, or None when validation refused. */
    method Send(tempId: string, now: string) returns (write: Option<NewMessage>)
      requires !HasId(messages, Temp(tempId))
      modifies this`messages, this`input, this`tempError
      ensures var refusal := SendError(old(input), currentUser, IsDM(), partner);
              && (refusal.Some? ==>
                    tempError == refusal && write.None?
                    && messages == old(messages) && input == old(input))
              && (refusal.None? ==>
                    var content := Trim(old(input));
                    && tempError.None? && input == ""
                    && messages == old(messages) + [Optimistic(tempId, currentUser.value, content, userId.value, now)]
                    && write == Some(NewMessage(currentUser.value.id, content, userId.value, None)))
      ensures write.Some? ==> CountId(messages, Temp(tempId)) == 1
    {
      tempError := None;
      TrimEmptyIffAllWhiteSpace(input);
      if Trim(input) == [] {
        tempError := Some(EmptyMessageError);
        return None;
      }
      if currentUser.None? || !IsDM() || !PartnerHasId(partner) {
        tempError := Some(NotDefinedError);
        return None;
      }
      var content := Trim(input);
      var optimistic := Optimistic(tempId, currentUser.value, content, userId.value, now);
      CountIdZero(messages, Temp(tempId));
      CountIdConcat(messages, [optimistic], Temp(tempId));
      messages := messages + [optimistic];
      input := "";
      write := Some(NewMessage(currentUser.value.id, content, userId.value, None));
    }

    /** The write was rejected: the optimistic record is removed and the error is shown. */
    method WriteFailed(tempId: string, reason: string)
      modifies this`messages, this`error
      ensures messages == RemoveId(old(messages), Temp(tempId))
      ensures error == Some("Failed to send message: " + reason)
      ensures tempError.None? ==> View() == ErrorScreen("Failed to send message: " + reason)
    {
      error := Some("Failed to send message: " + reason);
      messages := RemoveId(messages, Temp(tempId));
    }

    /** The write succeeded: its result is not used, the list is left as it is. */
    method WriteSucceeded(inserted: seq<Row>)
      ensures messages == old(messages) && input == old(input) && error == old(error)
    {
    }

    /** An error replaces the whole window unless an inline error is showing; without a
        partner the window shows its loading state. */
    function View(): (s: Screen)
      reads this
      ensures s.ErrorScreen? <==> error.Some? && tempError.None?
      ensures s == LoadingScreen <==> !(error.Some? && tempError.None?) && partner.None?
    {
      if error.Some? && tempError.None? then ErrorScreen(error.value)
      else if partner.None? then LoadingScreen
      else ChatScreen
    }
  }
}
