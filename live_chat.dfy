/** The live-chat service's socket handlers: who is connected (the
    `activeUsers` map with each user's open chat, current target and game
    invitations), the friendship rows with their two block flags, the
    stored direct messages and the per-conversation unread counters.

    A connected user is known by id; the socket behind an entry is the
    entry's key. The SQL tables are relations in memory: `users` by id,
    `lc_friendships` by the ordered pair of its two user ids, `messages` in
    insertion order and `unread_counter` by conversation and receiver.
    What the handlers emit to other users' sockets is returned as a set of
    `Emit`s; the callback's answer is the reply's `status`. */
module LiveChat {
  import opened Wrappers

  type UserId = int
  type ConvoId = int

  /** The id the tournament system chat uses as its chat id. */
  const TOURNAMENT_ID: UserId := 0
  /** `currentTargetID` of a freshly connected user. */
  const NO_TARGET: int := -1
  /** The avatar column's default. */
  const DEFAULT_AVATAR := "default"

  // Statuses of the callbacks.
  const ONLINE := "Online"
  const OFFLINE := "Offline"
  const NOT_FRIENDS := "not friends"
  const NO_BLOCKS := "no blocks"
  const MUTUAL_BLOCK := "mutual block"
  const BLOCKED_BY_TARGET := "blocked by target"
  const TARGET_BLOCKED := "target blocked"
  const SUCCESS := "success"
  const ERROR := "error"
  const SENT := "sent"
  const RECEIVED := "received"
  const OFFLINE_TARGET := "offline"
  const CAN_SEND := "can send"
  const CHECK := "check"
  const CHAT_ID := "chatID"

  /** An `activeUsers` entry without its socket. */
  datatype UserChatInfo = UserChatInfo(activeChatID: Option<UserId>, currentTargetID: int, sent: seq<UserId>, received: seq<UserId>)

  const NEW_INFO := UserChatInfo(None, NO_TARGET, [], [])

  /** A `users` row. */
  datatype UserRow = UserRow(nickname: string, avatar: string)

  /** An `lc_friendships` row: `user1Blocked` says that the row's smaller
      user id has been blocked by the other one. */
  datatype Friendship = Friendship(id: ConvoId, user1Blocked: bool, user2Blocked: bool)

  /** A `messages` row. */
  datatype Message = Message(conversation: ConvoId, sender: UserId, text: string, createdAt: string)

  datatype Chat = Chat(
    active: map<UserId, UserChatInfo>,
    users: map<UserId, UserRow>,
    friendships: map<(UserId, UserId), Friendship>,
    messages: seq<Message>,
    unread: map<(ConvoId, UserId), nat>)

  /** What the handlers emit to another user's socket. */
  datatype Event =
    | IAmOnline(user: UserId)
    | ByeBye(user: UserId)
    | YouGotBlocked(blocker: UserId)
    | YouGotUnblocked(blocker: UserId)
    | ReceivedMessage(from: UserId, nickname: string, avatar: string, text: string, time: string)
    | UpdateNotification(from: UserId, nickname: string, avatar: string, text: string, amount: nat)
    | ReceivedGameInvitation(from: UserId, nickname: string, avatar: string)
    | GameInvitationNotice(from: UserId, nickname: string, avatar: string)
    | InvitationDeclined(invitee: UserId)
    | InvitationCanceled(inviter: UserId)

  datatype Emit = Emit(to: UserId, event: Event)

  /** A handler's outcome: the new state, the callback's answer (empty
      where the handler has no callback) and what it emitted. */
  datatype Reply = Reply(chat: Chat, status: string, emits: set<Emit>)

  /** The authenticated user a socket carries. */
  datatype Identity = Identity(id: UserId, nickname: string)

  // ---------------------------------------------------------------------
  // Presence
  // ---------------------------------------------------------------------

  /** A user whose open chat or current target is `u` hears of `u` coming
      and going. */
  predicate Watching(i: UserChatInfo, u: UserId) {
    i.activeChatID == Some(u) || i.currentTargetID == u
  }

  /** `e` emitted to every user in `a` watching `u`. */
  function Notices(a: map<UserId, UserChatInfo>, u: UserId, e: Event): (r: set<Emit>)
    ensures forall x :: x in r <==> x.to in a && Watching(a[x.to], u) && x.event == e
  {
    set k | k in a && Watching(a[k], u) :: Emit(k, e)
  }

  /** `xs` without the occurrences of `x`: `filter(id => id !== x)`. */
  function Without(xs: seq<UserId>, x: UserId): (r: seq<UserId>)
    ensures |r| <= |xs|
    ensures forall y :: y in r <==> y in xs && y != x
  {
    if xs == [] then []
    else if xs[0] == x then Without(xs[1..], x)
    else [xs[0]] + Without(xs[1..], x)
  }

  /** The two invitation lists with `u` filtered out where it occurs. */
  function Forget(i: UserChatInfo, u: UserId): UserChatInfo {
    i.(sent := if u in i.sent then Without(i.sent, u) else i.sent,
       received := if u in i.received then Without(i.received, u) else i.received)
  }

  /** Every entry with `u` forgotten: the invitation half of `goOffline`. */
  function Forgotten(a: map<UserId, UserChatInfo>, u: UserId): (r: map<UserId, UserChatInfo>)
    ensures r.Keys == a.Keys
  {
    map k | k in a :: Forget(a[k], u)
  }

  /** `recordInfoToDatabase`: `INSERT OR IGNORE`, which ignores a clash on
      the id or on the unique nickname. */
  function Registered(users: map<UserId, UserRow>, who: Identity): map<UserId, UserRow> {
    if who.id in users || exists k :: k in users && users[k].nickname == who.nickname then users
    else users[who.id := UserRow(who.nickname, DEFAULT_AVATAR)]
  }

  /** The "connection" handler: a socket without a user is dropped;
      otherwise the user gets a fresh entry, is recorded, and `goOnline`
      tells the users watching it. */
  function Connect(c: Chat, who: Option<Identity>): Reply {
    match who
    case None => Reply(c, "", {})
    case Some(w) =>
      var a := c.active[w.id := NEW_INFO];
      Reply(c.(active := a, users := Registered(c.users, w)), "", Notices(a, w.id, IAmOnline(w.id)))
  }

  /** "update chat and target info": the open chat is `id` only for the
      "chatID" kind; the target is always `id`. The handler dereferences
      the caller's entry without a check. */
  function UpdateChatInfo(c: Chat, u: UserId, id: UserId, kind: string): Chat
    requires u in c.active
  {
    var i := c.active[u];
    c.(active := c.active[u := i.(activeChatID := if kind == CHAT_ID then Some(id) else None, currentTargetID := id)])
  }

  /** The "disconnect" handler: the entry goes first, then `goOffline`
      says goodbye to the watchers and clears every invitation naming `u`. */
  function Disconnect(c: Chat, u: UserId): Reply {
    var a := c.active - {u};
    Reply(c.(active := Forgotten(a, u)), "", Notices(a, u, ByeBye(u)))
  }

  /** "get online status". */
  function OnlineStatus(c: Chat, t: UserId): (r: string)
    ensures r == ONLINE <==> t in c.active
    ensures r == ONLINE || r == OFFLINE
  {
    if t in c.active then ONLINE else OFFLINE
  }

  // ---------------------------------------------------------------------
  // Blocks
  // ---------------------------------------------------------------------

  function Min(x: int, y: int): int { if x <= y then x else y }
  function Max(x: int, y: int): int { if x <= y then y else x }

  /** The key of the friendship row between two users. */
  function Key(u: UserId, t: UserId): (UserId, UserId) {
    (Min(u, t), Max(u, t))
  }

  /** Whether `victim`'s flag is set on its row with `other`. */
  predicate BlockedOn(f: Friendship, k: (UserId, UserId), victim: UserId) {
    if victim == k.0 then f.user1Blocked else f.user2Blocked
  }

  /** "check blocks" answer for caller `u` and target `t`. */
  function CheckBlocks(c: Chat, u: UserId, t: UserId): (r: string)
    ensures r == NOT_FRIENDS <==> Key(u, t) !in c.friendships
  {
    var k := Key(u, t);
    if k !in c.friendships then NOT_FRIENDS
    else
      var f := c.friendships[k];
      if !f.user1Blocked && !f.user2Blocked then NO_BLOCKS
      else if f.user1Blocked && f.user2Blocked then MUTUAL_BLOCK
      else if f.user1Blocked then (if k.0 == u then BLOCKED_BY_TARGET else TARGET_BLOCKED)
      else (if k.1 == u then BLOCKED_BY_TARGET else TARGET_BLOCKED)
  }

  /** `user` has been blocked by the other party of its row with `other`. */
  predicate IsBlocked(c: Chat, user: UserId, other: UserId) {
    Key(user, other) in c.friendships && BlockedOn(c.friendships[Key(user, other)], Key(user, other), user)
  }

  /** The `UPDATE` of "block user" (`to` true) and "unblock user" (`to`
      false): the flag of whichever party is not the caller. */
  function SetFlag(c: Chat, u: UserId, t: UserId, to: bool): map<(UserId, UserId), Friendship> {
    var k := Key(u, t);
    if k !in c.friendships then c.friendships
    else
      var f := c.friendships[k];
      c.friendships[k := f.(user1Blocked := if k.1 == u then to else f.user1Blocked,
                            user2Blocked := if k.0 == u then to else f.user2Blocked)]
  }

  /** "block user": the row is updated if it exists and the target, if
      online, is told. The answer is always "success". */
  function Block(c: Chat, u: UserId, t: UserId): Reply {
    Reply(c.(friendships := SetFlag(c, u, t, true)), SUCCESS, if t in c.active then {Emit(t, YouGotBlocked(u))} else {})
  }

  /** "unblock user". */
  function Unblock(c: Chat, u: UserId, t: UserId): Reply {
    Reply(c.(friendships := SetFlag(c, u, t, false)), SUCCESS, if t in c.active then {Emit(t, YouGotUnblocked(u))} else {})
  }

  // ---------------------------------------------------------------------
  // Messages
  // ---------------------------------------------------------------------

  /** The row and the caller's `users` row joined, as the message and
      invitation queries read them; a missing half gives no result. */
  predicate Joined(c: Chat, u: UserId, t: UserId) {
    Key(u, t) in c.friendships && u in c.users
  }

  predicate NoFlags(f: Friendship) {
    !f.user1Blocked && !f.user2Blocked
  }

  /** The counter after `ON CONFLICT DO UPDATE SET amount = amount + 1`. */
  function Bumped(unread: map<(ConvoId, UserId), nat>, k: (ConvoId, UserId)): nat {
    if k in unread then unread[k] + 1 else 1
  }

  /** Whether `t` has the chat with `u` open. */
  predicate InChatWith(c: Chat, t: UserId, u: UserId) {
    t in c.active && c.active[t].activeChatID == Some(u)
  }

  /** "record message". */
  function RecordMessage(c: Chat, u: UserId, t: UserId, msg: string, time: string): Reply {
    if !Joined(c, u, t) then Reply(c, ERROR, {})
    else
      var f := c.friendships[Key(u, t)];
      var sender := c.users[u];
      if !NoFlags(f) then Reply(c, ERROR, {})
      else
        var c1 := c.(messages := c.messages + [Message(f.id, u, msg, time)]);
        if InChatWith(c, t, u) then
          Reply(c1, SUCCESS, {Emit(t, ReceivedMessage(u, sender.nickname, sender.avatar, msg, time))})
        else
          var amount := Bumped(c.unread, (f.id, t));
          Reply(c1.(unread := c.unread[(f.id, t) := amount]), SUCCESS,
                if t in c.active then {Emit(t, UpdateNotification(u, sender.nickname, sender.avatar, msg, amount))} else {})
  }

  /** The messages of the conversation between `u` and `t`, oldest first. */
  function Conversation(c: Chat, u: UserId, t: UserId): (r: seq<Message>)
    ensures Key(u, t) !in c.friendships ==> r == []
    ensures forall m :: m in r <==> Key(u, t) in c.friendships && m in c.messages && m.conversation == c.friendships[Key(u, t)].id
  {
    if Key(u, t) !in c.friendships then [] else Of(c.messages, c.friendships[Key(u, t)].id)
  }

  function Of(ms: seq<Message>, id: ConvoId): (r: seq<Message>)
    ensures forall m :: m in r <==> m in ms && m.conversation == id
  {
    if ms == [] then []
    else (if ms[0].conversation == id then [ms[0]] else []) + Of(ms[1..], id)
  }

  /** "load messages": when the conversation holds a message, the caller's
      unread counter for it becomes 0. */
  function LoadMessages(c: Chat, u: UserId, t: UserId): Chat {
    if Conversation(c, u, t) == [] then c
    else c.(unread := c.unread[(c.friendships[Key(u, t)].id, u) := 0])
  }

  // ---------------------------------------------------------------------
  // Game invitations
  // ---------------------------------------------------------------------

  /** "record or check game invitation". */
  function RecordInvitation(c: Chat, u: UserId, t: UserId, option: string): Reply {
    if u !in c.active then Reply(c, ERROR, {})
    else if t in c.active[u].sent then Reply(c, SENT, {})
    else if t in c.active[u].received then Reply(c, RECEIVED, {})
    else if t !in c.active then Reply(c, OFFLINE_TARGET, {})
    else if option == CHECK then Reply(c, CAN_SEND, {})
    else if !Joined(c, u, t) || !NoFlags(c.friendships[Key(u, t)]) then Reply(c, ERROR, {})
    else
      var sender := c.users[u];
      var event := if c.active[t].activeChatID == Some(u)
        then ReceivedGameInvitation(u, sender.nickname, sender.avatar)
        else GameInvitationNotice(u, sender.nickname, sender.avatar);
      Reply(c.(active := Invited(c.active, u, t)), SUCCESS, {Emit(t, event)})
  }

  /** `t` pushed onto `u`'s sent list, then `u` onto `t`'s received list. */
  function Invited(a: map<UserId, UserChatInfo>, u: UserId, t: UserId): (r: map<UserId, UserChatInfo>)
    requires u in a && t in a
    ensures r.Keys == a.Keys
  {
    var a1 := a[u := a[u].(sent := a[u].sent + [t])];
    a1[t := a1[t].(received := a1[t].received + [u])]
  }

  /** One half of an invitation removed: `x` filtered out of `holder`'s
      sent (or received) list, if the holder is online and lists it. */
  function Dropped(a: map<UserId, UserChatInfo>, holder: UserId, x: UserId, fromSent: bool): (r: map<UserId, UserChatInfo>)
    ensures r.Keys == a.Keys
  {
    if holder !in a then a
    else if fromSent then (if x in a[holder].sent then a[holder := a[holder].(sent := Without(a[holder].sent, x))] else a)
    else (if x in a[holder].received then a[holder := a[holder].(received := Without(a[holder].received, x))] else a)
  }

  /** "delete invitation": "received" declines `t`'s invitation to `u`;
      any other option cancels `u`'s invitation to `t`. */
  function DeleteInvitation(c: Chat, u: UserId, t: UserId, option: string): Reply {
    if option == RECEIVED then
      Reply(c.(active := Dropped(Dropped(c.active, u, t, false), t, u, true)), "",
            if t in c.active then {Emit(t, InvitationDeclined(u))} else {})
    else
      Reply(c.(active := Dropped(Dropped(c.active, u, t, true), t, u, false)), "",
            if t in c.active then {Emit(t, InvitationCanceled(u))} else {})
  }

  // ---------------------------------------------------------------------
  // The invitation invariant
  // ---------------------------------------------------------------------

  /** Invitation lists name only connected users. */
  predicate Closed(a: map<UserId, UserChatInfo>) {
    (forall x, y :: x in a && y in a[x].sent ==> y in a)
    && (forall x, y :: x in a && y in a[x].received ==> y in a)
  }

  /** Each invitation is recorded in both halves: `y` is in `x`'s sent
      list exactly when `x` is in `y`'s received list. */
  predicate Paired(a: map<UserId, UserChatInfo>) {
    forall x, y :: x in a && y in a ==> (y in a[x].sent <==> x in a[y].received)
  }

  predicate Valid(c: Chat) {
    Closed(c.active) && Paired(c.active)
  }

  // ---------------------------------------------------------------------
  // Properties
  // ---------------------------------------------------------------------

  /** Some element of a non-empty set: the next key a `forEach` visits. */
  method Pick<T>(s: set<T>) returns (x: T)
    requires s != {}
    ensures x in s
  {
    x :| x in s;
  }

  /** Filtering out a value that is absent changes nothing. */
  lemma {:induction false} WithoutAbsent(xs: seq<UserId>, x: UserId)
    requires x !in xs
    ensures Without(xs, x) == xs
  {
    if xs != [] {
      WithoutAbsent(xs[1..], x);
      assert xs == [xs[0]] + xs[1..];
    }
  }

  /** Filtering distributes over appending one value. */
  lemma {:induction false} WithoutSnoc(xs: seq<UserId>, y: UserId, x: UserId)
    ensures Without(xs + [y], x) == Without(xs, x) + (if y == x then [] else [y])
  {
    if xs == [] {
      assert Without([y], x) == (if y == x then [] else [y]) + Without([], x);
    } else {
      assert (xs + [y])[1..] == xs[1..] + [y];
      WithoutSnoc(xs[1..], y, x);
    }
  }

  /** A new connection gives the user the fresh entry and leaves every
      other entry as it was; the users watching it are told. */
  lemma ConnectEntry(c: Chat, w: Identity)
    ensures Connect(c, Some(w)).chat.active[w.id] == NEW_INFO
    ensures forall k :: k in c.active && k != w.id ==> k in Connect(c, Some(w)).chat.active && Connect(c, Some(w)).chat.active[k] == c.active[k]
    ensures forall x :: x in Connect(c, Some(w)).emits <==>
      ((x.to in c.active && x.to != w.id && Watching(c.active[x.to], w.id) && x.event == IAmOnline(w.id))
       || (x.to == w.id && Watching(NEW_INFO, w.id) && x.event == IAmOnline(w.id)))
  {
  }

  /** Recording a user keeps every existing row; afterwards the user has a
      row unless its nickname is taken, and a new row has the default
      avatar. */
  lemma RegisteredRows(users: map<UserId, UserRow>, who: Identity)
    ensures forall k :: k in users ==> k in Registered(users, who) && Registered(users, who)[k] == users[k]
    ensures who.id in Registered(users, who) || exists k :: k in users && users[k].nickname == who.nickname
    ensures forall k :: k in Registered(users, who) && k !in users ==> k == who.id && Registered(users, who)[k] == UserRow(who.nickname, DEFAULT_AVATAR)
  {
  }

  /** The first connection of a user keeps the invitation invariant. */
  lemma ConnectKeepsValid(c: Chat, w: Identity)
    requires Valid(c) && w.id !in c.active
    ensures Valid(Connect(c, Some(w)).chat)
  {
    var a := Connect(c, Some(w)).chat.active;
    forall x, y | x in a && y in a
      ensures y in a[x].sent <==> x in a[y].received
    {
      if x != w.id && y != w.id {
        assert y in c.active[x].sent <==> x in c.active[y].received;
      }
    }
  }

  /** After a disconnect the user has no entry, no remaining entry's
      invitation lists name it, and every other id in them is kept. */
  lemma DisconnectForgets(c: Chat, u: UserId)
    ensures u !in Disconnect(c, u).chat.active
    ensures forall k :: k in Disconnect(c, u).chat.active <==> k in c.active && k != u
    ensures forall k, x :: k in Disconnect(c, u).chat.active ==>
      (x in Disconnect(c, u).chat.active[k].sent <==> x in c.active[k].sent && x != u)
      && (x in Disconnect(c, u).chat.active[k].received <==> x in c.active[k].received && x != u)
  {
  }

  /** A disconnect keeps the invitation invariant. */
  lemma DisconnectKeepsValid(c: Chat, u: UserId)
    requires Valid(c)
    ensures Valid(Disconnect(c, u).chat)
  {
    DisconnectForgets(c, u);
    var a := Disconnect(c, u).chat.active;
    forall x, y | x in a && y in a
      ensures y in a[x].sent <==> x in a[y].received
    {
      assert y in c.active[x].sent <==> x in c.active[y].received;
    }
  }

  /** Changing the open chat leaves the invitations alone. */
  lemma UpdateChatInfoKeepsValid(c: Chat, u: UserId, id: UserId, kind: string)
    requires Valid(c) && u in c.active
    ensures Valid(UpdateChatInfo(c, u, id, kind))
  {
    var a := UpdateChatInfo(c, u, id, kind).active;
    assert forall k :: k in a ==> a[k].sent == c.active[k].sent && a[k].received == c.active[k].received;
  }

  /** The two users of a pair share one friendship row. */
  lemma KeySymmetric(u: UserId, t: UserId)
    ensures Key(u, t) == Key(t, u)
  {
  }

  /** "check blocks" reads the flags as who has blocked whom: a set flag of
      the caller means it is blocked by the target, one of the target that
      the caller has blocked it. */
  lemma CheckBlocksMeaning(c: Chat, u: UserId, t: UserId)
    requires u != t && Key(u, t) in c.friendships
    ensures CheckBlocks(c, u, t) == NO_BLOCKS <==> !IsBlocked(c, u, t) && !IsBlocked(c, t, u)
    ensures CheckBlocks(c, u, t) == MUTUAL_BLOCK <==> IsBlocked(c, u, t) && IsBlocked(c, t, u)
    ensures CheckBlocks(c, u, t) == BLOCKED_BY_TARGET <==> IsBlocked(c, u, t) && !IsBlocked(c, t, u)
    ensures CheckBlocks(c, u, t) == TARGET_BLOCKED <==> !IsBlocked(c, u, t) && IsBlocked(c, t, u)
  {
    KeySymmetric(u, t);
  }

  /** "block user" sets only the target's flag, and "unblock user" clears
      only it; every other row is left alone. */
  lemma BlockSetsTargetFlag(c: Chat, u: UserId, t: UserId)
    requires u != t
    ensures IsBlocked(Block(c, u, t).chat, t, u) <==> Key(u, t) in c.friendships
    ensures !IsBlocked(Unblock(c, u, t).chat, t, u)
    ensures IsBlocked(Block(c, u, t).chat, u, t) == IsBlocked(c, u, t) == IsBlocked(Unblock(c, u, t).chat, u, t)
    ensures forall k :: k != Key(u, t) ==>
      (k in Block(c, u, t).chat.friendships <==> k in c.friendships)
      && (k in c.friendships ==> Block(c, u, t).chat.friendships[k] == c.friendships[k] == Unblock(c, u, t).chat.friendships[k])
  {
    KeySymmetric(u, t);
  }

  /** From "no blocks", once `u` blocks `t`, `u` sees "target blocked" and
      `t` sees "blocked by target". */
  lemma BlockThenCheck(c: Chat, u: UserId, t: UserId)
    requires u != t && CheckBlocks(c, u, t) == NO_BLOCKS
    ensures CheckBlocks(Block(c, u, t).chat, u, t) == TARGET_BLOCKED
    ensures CheckBlocks(Block(c, u, t).chat, t, u) == BLOCKED_BY_TARGET
  {
    CheckBlocksMeaning(c, u, t);
    BlockSetsTargetFlag(c, u, t);
    CheckBlocksMeaning(Block(c, u, t).chat, u, t);
    CheckBlocksMeaning(Block(c, u, t).chat, t, u);
  }

  /** Unblocking undoes a block of a target that was not blocked before. */
  lemma UnblockUndoesBlock(c: Chat, u: UserId, t: UserId)
    requires u != t && !IsBlocked(c, t, u)
    ensures Unblock(Block(c, u, t).chat, u, t).chat == c
  {
    KeySymmetric(u, t);
    var k := Key(u, t);
    if k in c.friendships {
      var f := c.friendships[k];
      assert Unblock(Block(c, u, t).chat, u, t).chat.friendships[k] == f;
      assert Unblock(Block(c, u, t).chat, u, t).chat.friendships == c.friendships;
    }
  }

  /** "record message" succeeds exactly when the two are friends, the
      sender has a `users` row and neither flag is set; a refusal changes
      nothing, a success stores the message. */
  lemma RecordMessageOutcome(c: Chat, u: UserId, t: UserId, msg: string, time: string)
    ensures RecordMessage(c, u, t, msg, time).status == SUCCESS <==> Joined(c, u, t) && NoFlags(c.friendships[Key(u, t)])
    ensures RecordMessage(c, u, t, msg, time).status != SUCCESS ==> RecordMessage(c, u, t, msg, time) == Reply(c, ERROR, {})
    ensures RecordMessage(c, u, t, msg, time).status == SUCCESS ==>
      RecordMessage(c, u, t, msg, time).chat.messages == c.messages + [Message(c.friendships[Key(u, t)].id, u, msg, time)]
      && RecordMessage(c, u, t, msg, time).chat.active == c.active
  {
  }

  /** The receiver's unread counter for the conversation goes up by one
      exactly when it does not have the sender's chat open; no other
      counter changes. */
  lemma RecordMessageUnread(c: Chat, u: UserId, t: UserId, msg: string, time: string)
    requires Joined(c, u, t) && NoFlags(c.friendships[Key(u, t)])
    ensures var key := (c.friendships[Key(u, t)].id, t);
      var after := RecordMessage(c, u, t, msg, time).chat.unread;
      var before := if key in c.unread then c.unread[key] else 0;
      (!InChatWith(c, t, u) ==> key in after && after[key] == before + 1)
      && (InChatWith(c, t, u) ==> after == c.unread)
      && (forall k :: k != key ==> (k in after <==> k in c.unread) && (k in c.unread ==> after[k] == c.unread[k]))
  {
  }

  /** Loading a conversation that holds a message resets the caller's
      unread counter for it and changes nothing else. */
  lemma LoadMessagesResets(c: Chat, u: UserId, t: UserId)
    ensures Conversation(c, u, t) == [] ==> LoadMessages(c, u, t) == c
    ensures Conversation(c, u, t) != [] ==>
      LoadMessages(c, u, t).unread[(c.friendships[Key(u, t)].id, u)] == 0
      && LoadMessages(c, u, t).(unread := c.unread) == c
  {
  }

  /** Once a message is recorded, the receiver loading that chat clears its
      unread counter. */
  lemma LoadAfterRecord(c: Chat, u: UserId, t: UserId, msg: string, time: string)
    requires RecordMessage(c, u, t, msg, time).status == SUCCESS
    ensures var c1 := RecordMessage(c, u, t, msg, time).chat;
      LoadMessages(c1, t, u).unread[(c.friendships[Key(u, t)].id, t)] == 0
  {
    RecordMessageOutcome(c, u, t, msg, time);
    KeySymmetric(u, t);
    var c1 := RecordMessage(c, u, t, msg, time).chat;
    var m := Message(c.friendships[Key(u, t)].id, u, msg, time);
    assert m in c1.messages;
    assert m in Conversation(c1, t, u);
  }

  /** The answers of "record or check game invitation", in the order the
      handler tries them; only a success changes anything. */
  lemma RecordInvitationOutcome(c: Chat, u: UserId, t: UserId, option: string)
    ensures var r := RecordInvitation(c, u, t, option);
      (u !in c.active ==> r.status == ERROR)
      && (u in c.active && t in c.active[u].sent ==> r.status == SENT)
      && (u in c.active && t !in c.active[u].sent && t in c.active[u].received ==> r.status == RECEIVED)
      && (u in c.active && t !in c.active[u].sent && t !in c.active[u].received && t !in c.active ==> r.status == OFFLINE_TARGET)
      && (u in c.active && t !in c.active[u].sent && t !in c.active[u].received && t in c.active && option == CHECK ==> r.status == CAN_SEND)
      && (r.status == SUCCESS <==>
            (u in c.active && t !in c.active[u].sent && t !in c.active[u].received && t in c.active
             && option != CHECK && Joined(c, u, t) && NoFlags(c.friendships[Key(u, t)])))
      && (r.status != SUCCESS ==> r.chat == c && r.emits == {})
  {
  }

  /** A recorded invitation is in both halves: the target at the end of the
      sender's sent list and the sender at the end of the target's received
      list; the target gets exactly one notice. */
  lemma RecordInvitationStores(c: Chat, u: UserId, t: UserId, option: string)
    requires RecordInvitation(c, u, t, option).status == SUCCESS
    ensures var r := RecordInvitation(c, u, t, option);
      r.chat.active[u].sent == c.active[u].sent + [t]
      && r.chat.active[t].received == c.active[t].received + [u]
      && (forall k :: k in c.active && k != u && k != t ==> k in r.chat.active && r.chat.active[k] == c.active[k])
      && |r.emits| == 1 && (forall x :: x in r.emits ==> x.to == t)
  {
    RecordInvitationOutcome(c, u, t, option);
  }

  /** Recording an invitation keeps the invitation invariant. */
  lemma RecordInvitationKeepsValid(c: Chat, u: UserId, t: UserId, option: string)
    requires Valid(c)
    ensures Valid(RecordInvitation(c, u, t, option).chat)
  {
    RecordInvitationOutcome(c, u, t, option);
    if RecordInvitation(c, u, t, option).status == SUCCESS {
      assert RecordInvitation(c, u, t, option).chat.active == Invited(c.active, u, t);
      InvitedKeepsValid(c.active, u, t);
    }
  }

  /** Pushing both halves of an invitation keeps the lists closed and
      paired. */
  lemma InvitedKeepsValid(a: map<UserId, UserChatInfo>, u: UserId, t: UserId)
    requires u in a && t in a && Closed(a) && Paired(a)
    ensures Closed(Invited(a, u, t)) && Paired(Invited(a, u, t))
  {
    var b := Invited(a, u, t);
    forall x, y | x in b && y in b
      ensures y in b[x].sent <==> x in b[y].received
    {
      assert y in a[x].sent <==> x in a[y].received;
    }
  }

  /** `b` is `a` with the invitation from `sender` to `receiver` gone:
      both halves removed, every other list entry kept. */
  ghost predicate Uninvited(a: map<UserId, UserChatInfo>, b: map<UserId, UserChatInfo>, sender: UserId, receiver: UserId) {
    b.Keys == a.Keys
    && (forall k, y :: k in a ==> (y in b[k].sent <==> y in a[k].sent && (k != sender || y != receiver)))
    && (forall k, y :: k in a ==> (y in b[k].received <==> y in a[k].received && (k != receiver || y != sender)))
  }

  /** What one `Dropped` leaves in each list. */
  lemma DroppedLists(a: map<UserId, UserChatInfo>, holder: UserId, x: UserId, fromSent: bool)
    ensures forall k, y :: k in a ==>
      (y in Dropped(a, holder, x, fromSent)[k].sent <==> y in a[k].sent && !(fromSent && k == holder && y == x))
    ensures forall k, y :: k in a ==>
      (y in Dropped(a, holder, x, fromSent)[k].received <==> y in a[k].received && !(!fromSent && k == holder && y == x))
  {
  }

  /** Both options of "delete invitation" remove exactly one invitation:
      a decline `t`'s to `u`, a cancel `u`'s to `t`. */
  lemma DeleteInvitationUninvites(c: Chat, u: UserId, t: UserId, option: string)
    ensures option == RECEIVED ==> Uninvited(c.active, DeleteInvitation(c, u, t, option).chat.active, t, u)
    ensures option != RECEIVED ==> Uninvited(c.active, DeleteInvitation(c, u, t, option).chat.active, u, t)
  {
    var fromSent := option != RECEIVED;
    var a1 := Dropped(c.active, u, t, fromSent);
    DroppedLists(c.active, u, t, fromSent);
    DroppedLists(a1, t, u, !fromSent);
  }

  /** Removing one invitation in both halves keeps the invariant. */
  lemma UninvitedKeepsValid(a: map<UserId, UserChatInfo>, b: map<UserId, UserChatInfo>, sender: UserId, receiver: UserId)
    requires Closed(a) && Paired(a) && Uninvited(a, b, sender, receiver)
    ensures Closed(b) && Paired(b)
  {
    forall x, y | x in b && y in b
      ensures y in b[x].sent <==> x in b[y].received
    {
      assert y in a[x].sent <==> x in a[y].received;
    }
  }

  /** Deleting an invitation keeps the invitation invariant. */
  lemma DeleteInvitationKeepsValid(c: Chat, u: UserId, t: UserId, option: string)
    requires Valid(c)
    ensures Valid(DeleteInvitation(c, u, t, option).chat)
  {
    DeleteInvitationUninvites(c, u, t, option);
    var b := DeleteInvitation(c, u, t, option).chat.active;
    if option == RECEIVED {
      UninvitedKeepsValid(c.active, b, t, u);
    } else {
      UninvitedKeepsValid(c.active, b, u, t);
    }
  }

  /** Facts about a recorded invitation both deletions rely on: neither
      list held the other party before. */
  lemma InvitationWasNew(c: Chat, u: UserId, t: UserId, option: string)
    requires Valid(c) && RecordInvitation(c, u, t, option).status == SUCCESS
    ensures u in c.active && t in c.active
    ensures Without(c.active[u].sent + [t], t) == c.active[u].sent
    ensures Without(c.active[t].received + [u], u) == c.active[t].received
  {
    RecordInvitationOutcome(c, u, t, option);
    assert u !in c.active[t].received;
    WithoutSnoc(c.active[u].sent, t, t);
    WithoutAbsent(c.active[u].sent, t);
    WithoutSnoc(c.active[t].received, u, u);
    WithoutAbsent(c.active[t].received, u);
  }

  /** Cancelling an invitation just recorded gives back the lists as they
      were. */
  lemma InviteThenCancel(c: Chat, u: UserId, t: UserId, option: string, deleteOption: string)
    requires Valid(c) && RecordInvitation(c, u, t, option).status == SUCCESS && deleteOption != RECEIVED
    ensures DeleteInvitation(RecordInvitation(c, u, t, option).chat, u, t, deleteOption).chat.active == c.active
  {
    InvitationWasNew(c, u, t, option);
    RecordInvitationStores(c, u, t, option);
    var a := RecordInvitation(c, u, t, option).chat.active;
    var a1 := Dropped(a, u, t, true);
    assert a1[u].sent == c.active[u].sent;
  }

  /** The target declining an invitation just recorded gives back the
      lists as they were. */
  lemma InviteThenDecline(c: Chat, u: UserId, t: UserId, option: string)
    requires Valid(c) && RecordInvitation(c, u, t, option).status == SUCCESS
    ensures DeleteInvitation(RecordInvitation(c, u, t, option).chat, t, u, RECEIVED).chat.active == c.active
  {
    InvitationWasNew(c, u, t, option);
    RecordInvitationStores(c, u, t, option);
    var a := RecordInvitation(c, u, t, option).chat.active;
    var b1 := Dropped(a, t, u, false);
    assert b1[t].received == c.active[t].received;
  }

  // ---------------------------------------------------------------------
  // The handler state
  // ---------------------------------------------------------------------

  /** The module-level `activeUsers` map and the service's database. */
  class ChatServer {
    var active: map<UserId, UserChatInfo>
    var users: map<UserId, UserRow>
    var friendships: map<(UserId, UserId), Friendship>
    var messages: seq<Message>
    var unread: map<(ConvoId, UserId), nat>

    function State(): Chat
      reads this
    {
      Chat(active, users, friendships, messages, unread)
    }

    /** No one connected and empty tables. */
    constructor ()
      ensures State() == Chat(map[], map[], map[], [], map[])
      ensures Valid(State())
    {
      active := map[];
      users := map[];
      friendships := map[];
      messages := [];
      unread := map[];
    }

    /** `goOnline`: the `forEach` over the connected users. */
    method GoOnline(u: UserId) returns (emits: set<Emit>)
      ensures emits == Notices(active, u, IAmOnline(u))
    {
      var todo := active.Keys;
      emits := {};
      while todo != {}
        invariant todo <= active.Keys
        invariant forall x :: x in emits <==> x.to in active && x.to !in todo && Watching(active[x.to], u) && x.event == IAmOnline(u)
        decreases todo
      {
        var k := Pick(todo);
        if Watching(active[k], u) {
          emits := emits + {Emit(k, IAmOnline(u))};
        }
        todo := todo - {k};
      }
    }

    /** `goOffline`: the `forEach` that says goodbye to the watchers and
        filters `u` out of every invitation list. */
    method GoOffline(u: UserId) returns (emits: set<Emit>)
      modifies this
      ensures active == Forgotten(old(active), u)
      ensures emits == Notices(old(active), u, ByeBye(u))
      ensures users == old(users) && friendships == old(friendships) && messages == old(messages) && unread == old(unread)
    {
      ghost var a0 := active;
      var todo := active.Keys;
      emits := {};
      while todo != {}
        invariant todo <= a0.Keys && active.Keys == a0.Keys
        invariant forall k :: k in a0 ==> active[k] == if k in todo then a0[k] else Forget(a0[k], u)
        invariant forall x :: x in emits <==> x.to in a0 && x.to !in todo && Watching(a0[x.to], u) && x.event == ByeBye(u)
        invariant users == old(users) && friendships == old(friendships) && messages == old(messages) && unread == old(unread)
        decreases todo
      {
        var k := Pick(todo);
        var user := active[k];
        if Watching(user, u) {
          emits := emits + {Emit(k, ByeBye(u))};
        }
        if u in user.sent {
          user := user.(sent := Without(user.sent, u));
        }
        if u in user.received {
          user := user.(received := Without(user.received, u));
        }
        active := active[k := user];
        todo := todo - {k};
      }
      assert forall k :: k in a0 ==> active[k] == Forgotten(a0, u)[k];
    }

    /** The "connection" handler. */
    method OnConnection(who: Option<Identity>) returns (emits: set<Emit>)
      modifies this
      ensures Reply(State(), "", emits) == Connect(old(State()), who)
    {
      if who.None? {
        return {};
      }
      var w := who.value;
      active := active[w.id := NEW_INFO];
      if !(w.id in users || exists k :: k in users && users[k].nickname == w.nickname) {
        users := users[w.id := UserRow(w.nickname, DEFAULT_AVATAR)];
      }
      emits := GoOnline(w.id);
    }

    /** "update chat and target info". */
    method OnUpdateChatInfo(u: UserId, id: UserId, kind: string)
      requires u in active
      modifies this
      ensures State() == UpdateChatInfo(old(State()), u, id, kind)
    {
      var info := active[u];
      active := active[u := info.(activeChatID := if kind == CHAT_ID then Some(id) else None)];
      active := active[u := active[u].(currentTargetID := id)];
    }

    /** "disconnect": the entry is deleted before `goOffline` runs. */
    method OnDisconnect(u: UserId) returns (emits: set<Emit>)
      modifies this
      ensures Reply(State(), "", emits) == Disconnect(old(State()), u)
    {
      active := active - {u};
      emits := GoOffline(u);
    }

    /** "block user" (`to` true) and "unblock user" (`to` false). */
    method UpdateBlock(u: UserId, t: UserId, to: bool) returns (status: string, emits: set<Emit>)
      modifies this
      ensures Reply(State(), status, emits) == (if to then Block(old(State()), u, t) else Unblock(old(State()), u, t))
    {
      var k := Key(u, t);
      if k in friendships {
        var f := friendships[k];
        friendships := friendships[k := f.(user1Blocked := if k.1 == u then to else f.user1Blocked,
                                           user2Blocked := if k.0 == u then to else f.user2Blocked)];
      }
      emits := {};
      if t in active {
        emits := {Emit(t, if to then YouGotBlocked(u) else YouGotUnblocked(u))};
      }
      status := SUCCESS;
    }

    /** "record message". */
    method OnRecordMessage(u: UserId, t: UserId, msg: string, time: string) returns (status: string, emits: set<Emit>)
      modifies this
      ensures Reply(State(), status, emits) == RecordMessage(old(State()), u, t, msg, time)
    {
      var k := Key(u, t);
      if k !in friendships || u !in users {
        return ERROR, {};
      }
      var f := friendships[k];
      var sender := users[u];
      if !(!f.user1Blocked && !f.user2Blocked) {
        return ERROR, {};
      }
      messages := messages + [Message(f.id, u, msg, time)];
      if t in active && active[t].activeChatID == Some(u) {
        return SUCCESS, {Emit(t, ReceivedMessage(u, sender.nickname, sender.avatar, msg, time))};
      }
      var amount := if (f.id, t) in unread then unread[(f.id, t)] + 1 else 1;
      unread := unread[(f.id, t) := amount];
      emits := {};
      if t in active {
        emits := {Emit(t, UpdateNotification(u, sender.nickname, sender.avatar, msg, amount))};
      }
      status := SUCCESS;
    }

    /** "load messages": returns whether the conversation holds a message;
        if it does, the caller's unread counter for it is reset. */
    method OnLoadMessages(u: UserId, t: UserId) returns (found: bool)
      modifies this
      ensures found <==> Conversation(old(State()), u, t) != []
      ensures State() == LoadMessages(old(State()), u, t)
    {
      found := Conversation(State(), u, t) != [];
      if found {
        unread := unread[(friendships[Key(u, t)].id, u) := 0];
      }
    }

    /** "record or check game invitation". */
    method OnRecordOrCheckGameInvitation(u: UserId, t: UserId, option: string) returns (status: string, emits: set<Emit>)
      modifies this
      ensures Reply(State(), status, emits) == RecordInvitation(old(State()), u, t, option)
    {
      if u !in active {
        return ERROR, {};
      }
      if t in active[u].sent {
        return SENT, {};
      }
      if t in active[u].received {
        return RECEIVED, {};
      }
      if t !in active {
        return OFFLINE_TARGET, {};
      }
      if option == CHECK {
        return CAN_SEND, {};
      }
      var k := Key(u, t);
      if k !in friendships || u !in users {
        return ERROR, {};
      }
      var f := friendships[k];
      if !(!f.user1Blocked && !f.user2Blocked) {
        return ERROR, {};
      }
      var sender := users[u];
      var inChat := active[t].activeChatID == Some(u);
      active := active[u := active[u].(sent := active[u].sent + [t])];
      active := active[t := active[t].(received := active[t].received + [u])];
      var event := if inChat then ReceivedGameInvitation(u, sender.nickname, sender.avatar)
        else GameInvitationNotice(u, sender.nickname, sender.avatar);
      return SUCCESS, {Emit(t, event)};
    }

    /** "delete invitation". */
    method OnDeleteInvitation(u: UserId, t: UserId, option: string) returns (emits: set<Emit>)
      modifies this
      ensures Reply(State(), "", emits) == DeleteInvitation(old(State()), u, t, option)
    {
      var online := t in active;
      var mine := option != RECEIVED;
      active := Dropped(active, u, t, mine);
      active := Dropped(active, t, u, !mine);
      emits := {};
      if online {
        emits := {Emit(t, if option == RECEIVED then InvitationDeclined(u) else InvitationCanceled(u))};
      }
    }
  }
}
