/** The auth service's account tables: users, friendships between them and
    each user's game statistics, kept as relations in memory keyed by their
    `AUTOINCREMENT` ids (the statistics by the user they belong to).

    Timestamps (`created_at`, `updated_at`, `last_game_date`) are left out,
    and so is the order of the rows a query returns: a query answers a set. */
module Accounts {
  import opened Wrappers

  type UserId = int
  type FriendshipId = int

  /** The `CHECK` of `friendships.status`. */
  datatype FriendStatus = Pending | Accepted | Declined | Blocked

  function StatusText(s: FriendStatus): string {
    match s
    case Pending => "pending"
    case Accepted => "accepted"
    case Declined => "declined"
    case Blocked => "blocked"
  }

  datatype User = User(nickname: string, email: string, passwordHash: string, avatar: string, status: string)

  datatype Friendship = Friendship(requester: UserId, addressee: UserId, status: FriendStatus)

  datatype Stats = Stats(gamesPlayed: int, gamesWon: int, gamesLost: int, totalScore: int)

  /** A new `game_statistics` row: every column defaults to 0. */
  const ZERO_STATS := Stats(0, 0, 0, 0)

  const DEFAULT_AVATAR := "default"
  const DEFAULT_STATUS := "online"
  const NO_FRIENDSHIP := "none"

  const CONSTRAINT_FAILED := "UNIQUE constraint failed"
  const ALREADY_EXISTS := "Friendship relationship already exists"
  const RESPOND_FAILED := "Failed to respond to friend request: "
  const FRIENDSHIP_NOT_FOUND := "Friendship not found"
  const NICKNAME_EXISTS := "Nickname already exists"

  /** `getAvailableAvatars`. */
  const AVAILABLE_AVATARS: seq<string> := [
    "default", "robot", "alien", "ninja", "pirate", "wizard",
    "knight", "astronaut", "viking", "samurai", "cyberpunk", "steampunk"]

  /** The three tables and the next id each `AUTOINCREMENT` hands out. */
  datatype Db = Db(
    users: map<UserId, User>, nextUserId: int,
    friendships: map<FriendshipId, Friendship>, nextFriendshipId: int,
    stats: map<UserId, Stats>)

  const EMPTY := Db(map[], 1, map[], 1, map[])

  /** Whether a row links `a` and `b`, in either direction. */
  predicate Between(f: Friendship, a: UserId, b: UserId) {
    (f.requester == a && f.addressee == b) || (f.requester == b && f.addressee == a)
  }

  /** What the tables keep true: ids below the counters, unique nicknames
      and e-mails, at most one friendship row per pair of users, and
      statistics only for users, each game counted as won or lost. */
  ghost predicate Valid(db: Db) {
    0 < db.nextUserId && 0 < db.nextFriendshipId
    && (forall id :: id in db.users ==> 0 < id < db.nextUserId)
    && (forall id :: id in db.friendships ==> 0 < id < db.nextFriendshipId)
    && (forall a, b :: a in db.users && b in db.users && db.users[a].nickname == db.users[b].nickname ==> a == b)
    && (forall a, b :: a in db.users && b in db.users && db.users[a].email == db.users[b].email ==> a == b)
    && OnePerPair(db.friendships)
    && (forall u :: u in db.stats ==> u in db.users && db.stats[u].gamesPlayed == db.stats[u].gamesWon + db.stats[u].gamesLost)
  }

  ghost predicate OnePerPair(fs: map<FriendshipId, Friendship>) {
    forall i, j :: i in fs && j in fs && Between(fs[i], fs[j].requester, fs[j].addressee) ==> i == j
  }

  // ---------------------------------------------------------------------
  // Users
  // ---------------------------------------------------------------------

  /** A column value supplied or, when missing, its default. */
  function OrDefault(v: Option<string>, default: string): string {
    if v.Some? then v.value else default
  }

  predicate NicknameTaken(db: Db, nickname: string) {
    exists id :: id in db.users && db.users[id].nickname == nickname
  }

  predicate EmailTaken(db: Db, email: string) {
    exists id :: id in db.users && db.users[id].email == email
  }

  /** `createUser`: the insert fails on a taken nickname or e-mail;
      otherwise the user gets the next id, the defaults for a missing
      avatar or status, and a zeroed statistics row. */
  function UserCreated(db: Db, nickname: string, email: string, passwordHash: string, avatar: Option<string>, status: Option<string>): Result<(Db, UserId), string> {
    if NicknameTaken(db, nickname) || EmailTaken(db, email) then Err(CONSTRAINT_FAILED)
    else
      var id := db.nextUserId;
      var user := User(nickname, email, passwordHash, OrDefault(avatar, DEFAULT_AVATAR), OrDefault(status, DEFAULT_STATUS));
      Ok((db.(users := db.users[id := user], nextUserId := id + 1, stats := db.stats[id := ZERO_STATS]), id))
  }

  /** `getUserByEmail`: the user with that e-mail, if any. */
  ghost function UserByEmail(db: Db, email: string): (r: Option<UserId>)
    ensures r.None? <==> !EmailTaken(db, email)
    ensures r.Some? ==> r.value in db.users && db.users[r.value].email == email
  {
    if EmailTaken(db, email) then Some(var id :| id in db.users && db.users[id].email == email; id) else None
  }

  /** `updateUserAvatar`: true when the user's row was updated. */
  function AvatarUpdated(db: Db, u: UserId, avatar: string): (Db, bool) {
    if u in db.users then (db.(users := db.users[u := db.users[u].(avatar := avatar)]), true) else (db, false)
  }

  /** `updateUserStatus`. */
  function StatusUpdated(db: Db, u: UserId, status: string): (Db, bool) {
    if u in db.users then (db.(users := db.users[u := db.users[u].(status := status)]), true) else (db, false)
  }

  /** `updateUserNickname`: a nickname another user holds breaks the
      `UNIQUE` constraint, reported as "Nickname already exists". */
  function NicknameUpdated(db: Db, u: UserId, nickname: string): Result<(Db, bool), string> {
    if u !in db.users then Ok((db, false))
    else if exists id :: id in db.users && id != u && db.users[id].nickname == nickname then Err(NICKNAME_EXISTS)
    else Ok((db.(users := db.users[u := db.users[u].(nickname := nickname)]), true))
  }

  // ---------------------------------------------------------------------
  // Friendships
  // ---------------------------------------------------------------------

  predicate Linked(db: Db, a: UserId, b: UserId) {
    exists i :: i in db.friendships && Between(db.friendships[i], a, b)
  }

  /** `sendFriendRequest`: refused when the two are already linked either
      way; otherwise a pending row from requester to addressee. */
  function FriendRequestSent(db: Db, requester: UserId, addressee: UserId): Result<Db, string> {
    if Linked(db, requester, addressee) then Err(ALREADY_EXISTS)
    else
      var id := db.nextFriendshipId;
      Ok(db.(friendships := db.friendships[id := Friendship(requester, addressee, Pending)], nextFriendshipId := id + 1))
  }

  /** `respondToFriendRequest`: sets the row's status to the response. */
  function FriendRequestAnswered(db: Db, id: FriendshipId, response: FriendStatus): Result<Db, string>
    requires response == Accepted || response == Declined
  {
    if id !in db.friendships then Err(RESPOND_FAILED + FRIENDSHIP_NOT_FOUND)
    else Ok(db.(friendships := db.friendships[id := db.friendships[id].(status := response)]))
  }

  /** The party of a row that is not `u`, as `getFriends`' join picks it. */
  function Other(f: Friendship, u: UserId): UserId {
    if f.requester == u then f.addressee else f.requester
  }

  /** `getFriends`: the other party of every accepted row of `u`. */
  function Friends(db: Db, u: UserId): set<UserId> {
    set i | i in db.friendships && db.friendships[i].status == Accepted
      && (db.friendships[i].requester == u || db.friendships[i].addressee == u)
      && Other(db.friendships[i], u) in db.users :: Other(db.friendships[i], u)
  }

  /** `getFriendRequests`: the pending rows addressed to `u`, as pairs of
      row id and requester. */
  function FriendRequests(db: Db, u: UserId): set<(FriendshipId, UserId)> {
    set i | i in db.friendships && db.friendships[i].addressee == u && db.friendships[i].status == Pending
      && db.friendships[i].requester in db.users :: (i, db.friendships[i].requester)
  }

  /** The rows `removeFriend` deletes. */
  predicate Unfriended(f: Friendship, u: UserId, friend: UserId) {
    Between(f, u, friend) && f.status == Accepted
  }

  /** `removeFriend`: deletes the accepted rows between the two and says
      whether there was one. */
  function FriendRemoved(db: Db, u: UserId, friend: UserId): (Db, bool) {
    var kept := map i | i in db.friendships && !Unfriended(db.friendships[i], u, friend) :: db.friendships[i];
    (db.(friendships := kept), exists i :: i in db.friendships && Unfriended(db.friendships[i], u, friend))
  }

  // ---------------------------------------------------------------------
  // Statistics and profiles
  // ---------------------------------------------------------------------

  /** `updateGameStats`: one more game, won or lost, and the score added. */
  function GameStatsUpdated(db: Db, u: UserId, won: bool, score: int): (Db, bool) {
    if u !in db.stats then (db, false)
    else
      var s := db.stats[u];
      var s' := Stats(s.gamesPlayed + 1, s.gamesWon + (if won then 1 else 0), s.gamesLost + (if won then 0 else 1), s.totalScore + score);
      (db.(stats := db.stats[u := s']), true)
  }

  datatype Profile = Profile(id: UserId, nickname: string, email: string, avatar: string, status: string, friendshipStatus: string, gameStats: Stats)

  /** `getUserProfile` of `u` as seen by `current`: its row, the status of
      the row between the two ("none" without one) and its statistics
      (zeros without them). */
  ghost function UserProfile(db: Db, u: UserId, current: UserId): Option<Profile> {
    if u !in db.users then None
    else
      var user := db.users[u];
      var link := if Linked(db, current, u)
        then StatusText(db.friendships[var i :| i in db.friendships && Between(db.friendships[i], current, u); i].status)
        else NO_FRIENDSHIP;
      Some(Profile(u, user.nickname, user.email, user.avatar, user.status, link, if u in db.stats then db.stats[u] else ZERO_STATS))
  }

  // ---------------------------------------------------------------------
  // Properties
  // ---------------------------------------------------------------------

  /** An empty database keeps the invariant. */
  lemma EmptyValid()
    ensures Valid(EMPTY)
  {
  }

  /** `createUser` fails exactly on a nickname or e-mail already taken;
      otherwise the new id was free and every other user is untouched. */
  lemma CreateUserOutcome(db: Db, nickname: string, email: string, hash: string, avatar: Option<string>, status: Option<string>)
    requires Valid(db)
    ensures var r := UserCreated(db, nickname, email, hash, avatar, status);
      (r.Err? <==> NicknameTaken(db, nickname) || EmailTaken(db, email))
      && (r.Ok? ==> (r.value.1 !in db.users && r.value.0.users.Keys == db.users.Keys + {r.value.1}
                     && forall id :: id in db.users ==> r.value.0.users[id] == db.users[id]))
  {
  }

  /** A created user is found by its e-mail, and its profile shows what was
      given, the defaults for what was not, and zeroed statistics. */
  lemma CreateUserProfile(db: Db, nickname: string, email: string, hash: string, avatar: Option<string>, status: Option<string>, viewer: UserId)
    requires Valid(db)
    requires !NicknameTaken(db, nickname) && !EmailTaken(db, email)
    ensures var (db', id) := UserCreated(db, nickname, email, hash, avatar, status).value;
      UserByEmail(db', email) == Some(id)
      && var p := UserProfile(db', id, viewer);
      p.Some? && p.value.nickname == nickname && p.value.email == email
      && p.value.avatar == (if avatar.Some? then avatar.value else "default")
      && p.value.status == (if status.Some? then status.value else "online")
      && p.value.gameStats == ZERO_STATS
  {
    var (db', id) := UserCreated(db, nickname, email, hash, avatar, status).value;
    CreateUserKeepsValid(db, nickname, email, hash, avatar, status);
    assert db'.users[id].email == email;
  }

  lemma CreateUserKeepsValid(db: Db, nickname: string, email: string, hash: string, avatar: Option<string>, status: Option<string>)
    requires Valid(db)
    ensures var r := UserCreated(db, nickname, email, hash, avatar, status);
      r.Ok? ==> Valid(r.value.0)
  {
  }

  /** Changing a nickname fails exactly when another user holds it, and
      keeps nicknames unique. */
  lemma UpdateUserNicknameSpec(db: Db, u: UserId, nickname: string)
    requires Valid(db)
    ensures var r := NicknameUpdated(db, u, nickname);
      (r.Err? <==> u in db.users && exists id :: id in db.users && id != u && db.users[id].nickname == nickname)
      && (r.Ok? ==> (Valid(r.value.0) && (r.value.1 <==> u in db.users)
                     && (r.value.1 ==> r.value.0.users[u].nickname == nickname)))
  {
  }

  /** Avatar and status updates touch one user's row and keep the tables
      valid. */
  lemma UpdateUserRowKeepsValid(db: Db, u: UserId, v: string)
    requires Valid(db)
    ensures var (a, okA) := AvatarUpdated(db, u, v);
      Valid(a) && (okA <==> u in db.users) && (okA ==> a.users[u].avatar == v)
    ensures var (b, okB) := StatusUpdated(db, u, v);
      Valid(b) && (okB <==> u in db.users) && (okB ==> b.users[u].status == v)
  {
  }

  /** `getFriends`: `f` is a friend of `u` exactly when `f` is a user and an
      accepted row links the two, in either direction. */
  lemma FriendsIff(db: Db, u: UserId, f: UserId)
    ensures f in Friends(db, u) <==>
      (f in db.users && exists i :: i in db.friendships && db.friendships[i].status == Accepted && Between(db.friendships[i], u, f))
  {
    if f in db.users && exists i :: i in db.friendships && db.friendships[i].status == Accepted && Between(db.friendships[i], u, f) {
      var i :| i in db.friendships && db.friendships[i].status == Accepted && Between(db.friendships[i], u, f);
      assert Other(db.friendships[i], u) == f;
    }
  }

  /** Friendship is mutual. */
  lemma FriendsSymmetric(db: Db, u: UserId, f: UserId)
    requires u in db.users && f in db.users
    ensures f in Friends(db, u) <==> u in Friends(db, f)
  {
    FriendsIff(db, u, f);
    FriendsIff(db, f, u);
  }

  /** `getFriendRequests`: exactly the pending rows addressed to `u` whose
      requester is a user. */
  lemma FriendRequestsIff(db: Db, u: UserId, i: FriendshipId, r: UserId)
    ensures (i, r) in FriendRequests(db, u) <==>
      (i in db.friendships && db.friendships[i] == Friendship(r, u, Pending) && r in db.users)
  {
  }

  /** `sendFriendRequest` is refused exactly when the two are already
      linked; otherwise it leaves a pending request the addressee sees. */
  lemma SendFriendRequestOutcome(db: Db, requester: UserId, addressee: UserId)
    requires requester in db.users
    ensures var r := FriendRequestSent(db, requester, addressee);
      (r.Err? <==> Linked(db, requester, addressee))
      && (r.Ok? ==> ((db.nextFriendshipId, requester) in FriendRequests(r.value, addressee)
                     && Linked(r.value, requester, addressee) && Linked(r.value, addressee, requester)))
  {
    var r := FriendRequestSent(db, requester, addressee);
    if r.Ok? {
      FriendRequestsIff(r.value, addressee, db.nextFriendshipId, requester);
      assert Between(r.value.friendships[db.nextFriendshipId], addressee, requester);
    }
  }

  lemma SendFriendRequestKeepsValid(db: Db, requester: UserId, addressee: UserId)
    requires Valid(db)
    ensures var r := FriendRequestSent(db, requester, addressee);
      r.Ok? ==> Valid(r.value)
  {
  }

  /** `respondToFriendRequest` fails exactly on an unknown id; otherwise
      that row now carries the response, its pair unchanged, and no other
      row moves. */
  lemma RespondOutcome(db: Db, id: FriendshipId, response: FriendStatus)
    requires response == Accepted || response == Declined
    ensures var r := FriendRequestAnswered(db, id, response);
      (r.Err? <==> id !in db.friendships)
      && (r.Ok? ==> (r.value.friendships.Keys == db.friendships.Keys
                     && r.value.friendships[id] == Friendship(db.friendships[id].requester, db.friendships[id].addressee, response)
                     && forall j :: j in db.friendships && j != id ==> r.value.friendships[j] == db.friendships[j]))
  {
  }

  lemma RespondKeepsValid(db: Db, id: FriendshipId, response: FriendStatus)
    requires Valid(db)
    requires response == Accepted || response == Declined
    ensures var r := FriendRequestAnswered(db, id, response);
      r.Ok? ==> Valid(r.value)
  {
    var r := FriendRequestAnswered(db, id, response);
    if r.Ok? {
      var fs := r.value.friendships;
      forall i, j | i in fs && j in fs && Between(fs[i], fs[j].requester, fs[j].addressee)
        ensures i == j
      {
        assert Between(db.friendships[i], db.friendships[j].requester, db.friendships[j].addressee);
      }
    }
  }

  /** A request, once answered, is no longer pending for anyone. */
  lemma RespondClearsRequest(db: Db, id: FriendshipId, response: FriendStatus, u: UserId, r: UserId)
    requires response == Accepted || response == Declined
    requires id in db.friendships
    ensures (id, r) !in FriendRequests(FriendRequestAnswered(db, id, response).value, u)
  {
  }

  /** Sending a request and accepting it makes the two mutual friends. */
  lemma AcceptMakesFriends(db: Db, a: UserId, b: UserId)
    requires a in db.users && b in db.users && !Linked(db, a, b)
    ensures var db1 := FriendRequestSent(db, a, b).value;
      var db2 := FriendRequestAnswered(db1, db.nextFriendshipId, Accepted).value;
      b in Friends(db2, a) && a in Friends(db2, b)
  {
    var db1 := FriendRequestSent(db, a, b).value;
    var db2 := FriendRequestAnswered(db1, db.nextFriendshipId, Accepted).value;
    FriendsIff(db2, a, b);
    FriendsIff(db2, b, a);
    assert Between(db2.friendships[db.nextFriendshipId], a, b);
    assert Between(db2.friendships[db.nextFriendshipId], b, a);
  }

  /** Declining a request leaves the two not friends. */
  lemma DeclineKeepsApart(db: Db, a: UserId, b: UserId)
    requires Valid(db) && !Linked(db, a, b)
    ensures var db1 := FriendRequestSent(db, a, b).value;
      var db2 := FriendRequestAnswered(db1, db.nextFriendshipId, Declined).value;
      b !in Friends(db2, a) && a !in Friends(db2, b)
  {
    var db1 := FriendRequestSent(db, a, b).value;
    var db2 := FriendRequestAnswered(db1, db.nextFriendshipId, Declined).value;
    FriendsIff(db2, a, b);
    FriendsIff(db2, b, a);
  }

  /** `removeFriend` drops exactly `f` from `u`'s friends, reports whether
      there was a friendship to delete, and leaves pending requests alone. */
  lemma RemoveFriendSpec(db: Db, u: UserId, f: UserId)
    requires f in db.users
    ensures var (db', removed) := FriendRemoved(db, u, f);
      Friends(db', u) == Friends(db, u) - {f}
      && (removed <==> f in Friends(db, u))
      && forall v :: FriendRequests(db', v) == FriendRequests(db, v)
  {
    var (db', removed) := FriendRemoved(db, u, f);
    forall g
      ensures g in Friends(db', u) <==> g in Friends(db, u) - {f}
    {
      FriendsIff(db', u, g);
      FriendsIff(db, u, g);
      if g in Friends(db, u) - {f} {
        var i :| i in db.friendships && db.friendships[i].status == Accepted && Between(db.friendships[i], u, g);
        assert !Unfriended(db.friendships[i], u, f);
        assert i in db'.friendships;
      }
    }
    forall v, x
      ensures x in FriendRequests(db', v) <==> x in FriendRequests(db, v)
    {
      FriendRequestsIff(db', v, x.0, x.1);
      FriendRequestsIff(db, v, x.0, x.1);
    }
    FriendsIff(db, u, f);
    if removed {
      var i :| i in db.friendships && Unfriended(db.friendships[i], u, f);
      assert db.friendships[i].status == Accepted && Between(db.friendships[i], u, f);
    }
  }

  lemma RemoveFriendKeepsValid(db: Db, u: UserId, f: UserId)
    requires Valid(db)
    ensures Valid(FriendRemoved(db, u, f).0)
  {
  }

  /** Sending, accepting and removing a friendship between two unlinked
      users restores the friendships table and reports the removal. */
  lemma FriendshipRoundTrip(db: Db, a: UserId, b: UserId)
    requires Valid(db) && !Linked(db, a, b)
    ensures var db1 := FriendRequestSent(db, a, b).value;
      var db2 := FriendRequestAnswered(db1, db.nextFriendshipId, Accepted).value;
      var (db3, removed) := FriendRemoved(db2, a, b);
      removed && db3.friendships == db.friendships
  {
    var db1 := FriendRequestSent(db, a, b).value;
    var id := db.nextFriendshipId;
    var db2 := FriendRequestAnswered(db1, id, Accepted).value;
    var (db3, removed) := FriendRemoved(db2, a, b);
    assert Unfriended(db2.friendships[id], a, b);
    forall i | i in db.friendships
      ensures i in db3.friendships && db3.friendships[i] == db.friendships[i]
    {
      assert i != id;
      assert !Between(db.friendships[i], a, b);
    }
  }

  /** `updateGameStats` counts one more game, as a win or a loss, adds the
      score, and keeps every game counted as exactly one of the two. */
  lemma UpdateGameStatsSpec(db: Db, u: UserId, won: bool, score: int)
    requires Valid(db)
    ensures var (db', ok) := GameStatsUpdated(db, u, won, score);
      Valid(db') && (ok <==> u in db.stats)
      && (ok ==> var (s, s') := (db.stats[u], db'.stats[u]);
          s'.gamesPlayed == s.gamesPlayed + 1 && s'.totalScore == s.totalScore + score
          && (won ==> s'.gamesWon == s.gamesWon + 1 && s'.gamesLost == s.gamesLost)
          && (!won ==> s'.gamesLost == s.gamesLost + 1 && s'.gamesWon == s.gamesWon))
  {
  }

  /** `getUserProfile`: none for an unknown user; otherwise the status of
      the one row linking the viewer and the user, "none" without a row,
      and zeroed statistics when the user has none. */
  lemma UserProfileSpec(db: Db, u: UserId, viewer: UserId)
    requires Valid(db)
    ensures var p := UserProfile(db, u, viewer);
      (p.None? <==> u !in db.users)
      && (p.Some? ==>
          (p.value.friendshipStatus == "none" <==> !Linked(db, viewer, u))
          && (forall i :: i in db.friendships && Between(db.friendships[i], viewer, u) ==>
                p.value.friendshipStatus == StatusText(db.friendships[i].status))
          && p.value.gameStats == (if u in db.stats then db.stats[u] else Stats(0, 0, 0, 0)))
  {
    var p := UserProfile(db, u, viewer);
    if p.Some? && Linked(db, viewer, u) {
      var k :| k in db.friendships && Between(db.friendships[k], viewer, u) && p.value.friendshipStatus == StatusText(db.friendships[k].status);
      forall i | i in db.friendships && Between(db.friendships[i], viewer, u)
        ensures p.value.friendshipStatus == StatusText(db.friendships[i].status)
      {
        assert Between(db.friendships[i], db.friendships[k].requester, db.friendships[k].addressee);
      }
    }
  }

  // ---------------------------------------------------------------------
  // The service object over its tables
  // ---------------------------------------------------------------------

  /** `AuthService`: the tables are its fields, and each query method
      rewrites them as the matching function does. */
  class AuthService {
    var users: map<UserId, User>
    var nextUserId: int
    var friendships: map<FriendshipId, Friendship>
    var nextFriendshipId: int
    var stats: map<UserId, Stats>

    function State(): Db
      reads this
    {
      Db(users, nextUserId, friendships, nextFriendshipId, stats)
    }

    method SetState(db: Db)
      modifies this
      ensures State() == db
    {
      users, nextUserId, friendships, nextFriendshipId, stats := db.users, db.nextUserId, db.friendships, db.nextFriendshipId, db.stats;
    }

    constructor ()
      ensures State() == EMPTY && Valid(State())
    {
      users, nextUserId, friendships, nextFriendshipId, stats := map[], 1, map[], 1, map[];
    }

    method CreateUser(nickname: string, email: string, hash: string, avatar: Option<string>, status: Option<string>) returns (r: Result<UserId, string>)
      modifies this
      ensures var c := UserCreated(old(State()), nickname, email, hash, avatar, status);
        if c.Ok? then r == Ok(c.value.1) && State() == c.value.0 else r == Err(c.error) && State() == old(State())
      ensures Valid(old(State())) ==> Valid(State())
    {
      if Valid(State()) {
        CreateUserKeepsValid(State(), nickname, email, hash, avatar, status);
      }
      var c := UserCreated(State(), nickname, email, hash, avatar, status);
      if c.Ok? {
        SetState(c.value.0);
        r := Ok(c.value.1);
      } else {
        r := Err(c.error);
      }
    }

    method UpdateUserAvatar(u: UserId, avatar: string) returns (ok: bool)
      modifies this
      ensures (State(), ok) == AvatarUpdated(old(State()), u, avatar)
    {
      var (db, b) := AvatarUpdated(State(), u, avatar);
      SetState(db);
      ok := b;
    }

    method UpdateUserStatus(u: UserId, status: string) returns (ok: bool)
      modifies this
      ensures (State(), ok) == StatusUpdated(old(State()), u, status)
    {
      var (db, b) := StatusUpdated(State(), u, status);
      SetState(db);
      ok := b;
    }

    method UpdateUserNickname(u: UserId, nickname: string) returns (r: Result<bool, string>)
      modifies this
      ensures var c := NicknameUpdated(old(State()), u, nickname);
        if c.Ok? then r == Ok(c.value.1) && State() == c.value.0 else r == Err(c.error) && State() == old(State())
    {
      var c := NicknameUpdated(State(), u, nickname);
      if c.Ok? {
        SetState(c.value.0);
        r := Ok(c.value.1);
      } else {
        r := Err(c.error);
      }
    }

    method SendFriendRequest(requester: UserId, addressee: UserId) returns (r: Result<bool, string>)
      modifies this
      ensures var c := FriendRequestSent(old(State()), requester, addressee);
        if c.Ok? then r == Ok(true) && State() == c.value else r == Err(c.error) && State() == old(State())
      ensures Valid(old(State())) ==> Valid(State())
    {
      if Valid(State()) {
        SendFriendRequestKeepsValid(State(), requester, addressee);
      }
      var c := FriendRequestSent(State(), requester, addressee);
      if c.Ok? {
        SetState(c.value);
        r := Ok(true);
      } else {
        r := Err(c.error);
      }
    }

    method RespondToFriendRequest(id: FriendshipId, response: FriendStatus) returns (r: Result<bool, string>)
      requires response == Accepted || response == Declined
      modifies this
      ensures var c := FriendRequestAnswered(old(State()), id, response);
        if c.Ok? then r == Ok(true) && State() == c.value else r == Err(c.error) && State() == old(State())
      ensures Valid(old(State())) ==> Valid(State())
    {
      if Valid(State()) {
        RespondKeepsValid(State(), id, response);
      }
      var c := FriendRequestAnswered(State(), id, response);
      if c.Ok? {
        SetState(c.value);
        r := Ok(true);
      } else {
        r := Err(c.error);
      }
    }

    method RemoveFriend(u: UserId, f: UserId) returns (removed: bool)
      modifies this
      ensures (State(), removed) == FriendRemoved(old(State()), u, f)
      ensures Valid(old(State())) ==> Valid(State())
    {
      if Valid(State()) {
        RemoveFriendKeepsValid(State(), u, f);
      }
      var (db, b) := FriendRemoved(State(), u, f);
      SetState(db);
      removed := b;
    }

    method UpdateGameStats(u: UserId, won: bool, score: int) returns (ok: bool)
      modifies this
      ensures (State(), ok) == GameStatsUpdated(old(State()), u, won, score)
      ensures Valid(old(State())) ==> Valid(State())
    {
      if Valid(State()) {
        UpdateGameStatsSpec(State(), u, won, score);
      }
      var (db, b) := GameStatsUpdated(State(), u, won, score);
      SetState(db);
      ok := b;
    }
  }
}
