/** The game service's room bookkeeping: private game rooms and
    tournament lobbies, each stored under its id, and the room each
    connected player is in.

    A player is known by its id: `player.roomId` is the store's `roomOf`
    map, and a socket whose `room` field has been set is one in `attached`.
    The random draws behind room ids, the answer of `checkForExistingRoom`
    and whether `startGame` succeeds are inputs. The game loop that
    `startGame` starts and `abortGame` stops is the room's `gameLoop`
    flag; `abortGame`'s broadcast is part of the emitted messages. */
module Rooms {
  import opened Wrappers

  type PlayerId = string
  type RoomId = string

  /** Characters in a drawn room id: `substring(2, 8)` of the base-36 text. */
  const ID_LENGTH: nat := 6
  const MAX_TOURNAMENT_PLAYERS: nat := 5
  const MIN_TOURNAMENT_PLAYERS: nat := 3
  const LOCAL_OWNER_NAME: string := "Player1"

  datatype Player = Player(id: PlayerId, nickname: string, score: int, paddleY: int)

  /** The stand-in second player of a local room. */
  const LOCAL_GUEST: Player := Player("123450", "Player2", 0, 250)

  datatype GameType = Single | Remote | Local
  datatype Movement = MoveUp | MoveDown | MoveNone

  /** The `create_room` payload. */
  datatype CreateRequest = CreateRequest(isSinglePlayer: bool, isRemote: bool)

  datatype GameRoom = GameRoom(
    id: RoomId, gameType: GameType, owner: Option<Player>, guest: Option<Player>,
    ownerMovement: Movement, guestMovement: Movement, isPrivate: bool, gameLoop: bool)

  datatype TournamentRoom = TournamentRoom(
    id: RoomId, owner: Option<Player>, guest: Option<Player>, players: seq<Player>,
    lostPlayers: seq<Player>, lastWinner: Option<Player>, matchCount: nat, gameLoop: bool)

  datatype Store = Store(
    gameRooms: map<RoomId, GameRoom>, tournamentRooms: map<RoomId, TournamentRoom>,
    roomOf: map<PlayerId, RoomId>, attached: set<PlayerId>)

  const EMPTY := Store(map[], map[], map[], {})

  // ---------------------------------------------------------------------
  // Messages
  // ---------------------------------------------------------------------

  const ALREADY_IN_ROOM := "You are already in a room"
  const CREATE_WHILE_ACTIVE := "You are already in an active Room, and therefore cannot create a new room. Your current RoomId: "
  const JOIN_WHILE_ACTIVE := "You already are already in an active Room, and therefore cannot join a new room. Your current RoomId: "
  const ROOM_NOT_FOUND := "Room not found"
  const TOURNAMENT_FULL := "TournamentRoom is full"
  const ROOM_FULL := "Room is already full"
  const OWN_ROOM := "You are not allowed to play against yourself"
  const START_FAILED := "Failed to start game"
  const AI_FAILED := "Failed to start AI opponent"
  const TOO_FEW_PLAYERS := "At least 3 players are required to start the tournament"
  const TOURNAMENT_NOT_FOUND := "Tournament not found"
  const TOURNAMENT_ABORTED := "Tournament aborted - not enough players remaining"

  /** A player as the lobby broadcasts list them. */
  datatype Entry = Entry(id: PlayerId, nickname: string)

  /** Who receives a message: the calling player, or every socket in a room. */
  datatype Recipient = Caller | Members(roomId: RoomId)

  datatype Message =
    | CreateError(message: string)
    | RoomCreated(roomId: RoomId)
    | TournamentRoomCreated(roomId: RoomId, players: seq<Entry>, owner: string)
    | JoinError(message: string)
    | JoinedRoom(roomId: RoomId)
    | JoinedTournamentRoom(roomId: RoomId, players: seq<Entry>)
    | TournamentPlayerJoined(roomId: RoomId, players: seq<Entry>)
    | TournamentPlayersUpdated(players: seq<Entry>, playerCount: nat)
    | RoomError(message: string)
    | GameAborted

  datatype Emit = Emit(to: Recipient, message: Message)

  /** The store after an operation, and what it sent, in order. */
  datatype Step = Step(store: Store, emits: seq<Emit>)

  function Entries(ps: seq<Player>): (r: seq<Entry>)
    ensures |r| == |ps|
  {
    seq(|ps|, i requires 0 <= i < |ps| => Entry(ps[i].id, ps[i].nickname))
  }

  // ---------------------------------------------------------------------
  // Membership
  // ---------------------------------------------------------------------

  function SeqIds(ps: seq<Player>): set<PlayerId> {
    set i | 0 <= i < |ps| :: ps[i].id
  }

  function OptIds(o: Option<Player>): set<PlayerId> {
    if o.Some? then {o.value.id} else {}
  }

  /** The players whose `roomId` `deleteRoom` clears for a game room. */
  function GameMembers(g: GameRoom): set<PlayerId> {
    OptIds(g.owner) + OptIds(g.guest)
  }

  /** The players whose `roomId` `deleteTournamentRoom` clears. */
  function TournamentMembers(t: TournamentRoom): set<PlayerId> {
    SeqIds(t.players) + SeqIds(t.lostPlayers) + OptIds(t.lastWinner) + OptIds(t.owner) + OptIds(t.guest)
  }

  /** `players.filter(p => p.id !== id)`. */
  function WithoutPlayer(ps: seq<Player>, id: PlayerId): (r: seq<Player>)
    ensures |r| <= |ps|
    ensures forall x :: x in r <==> x in ps && x.id != id
    ensures SeqIds(r) == SeqIds(ps) - {id}
  {
    if ps == [] then []
    else
      var rest := WithoutPlayer(ps[1..], id);
      SeqIdsCons(ps);
      if ps[0].id == id then rest
      else
        SeqIdsCons([ps[0]] + rest);
        assert ([ps[0]] + rest)[1..] == rest;
        [ps[0]] + rest
  }

  /** Removing two key sets one after the other removes their union. */
  lemma MinusUnion<K, V>(m: map<K, V>, a: set<K>, b: set<K>)
    ensures m - a - b == m - (a + b)
    ensures m - a - {} == m - a
  {
  }

  lemma SeqIdsCons(ps: seq<Player>)
    requires ps != []
    ensures SeqIds(ps) == {ps[0].id} + SeqIds(ps[1..])
  {
    forall x | x in SeqIds(ps) ensures x in {ps[0].id} + SeqIds(ps[1..]) {
      var i :| 0 <= i < |ps| && ps[i].id == x;
      if i > 0 {
        assert ps[1..][i - 1].id == x;
      }
    }
    forall x | x in SeqIds(ps[1..]) ensures x in SeqIds(ps) {
      var i :| 0 <= i < |ps[1..]| && ps[1..][i].id == x;
      assert ps[i + 1].id == x;
    }
  }

  lemma SeqIdsSnoc(ps: seq<Player>, p: Player)
    ensures SeqIds(ps + [p]) == SeqIds(ps) + {p.id}
  {
    var q := ps + [p];
    forall x | x in SeqIds(q) ensures x in SeqIds(ps) + {p.id} {
      var i :| 0 <= i < |q| && q[i].id == x;
      if i < |ps| {
        assert ps[i].id == x;
      }
    }
    forall x | x in SeqIds(ps) ensures x in SeqIds(q) {
      var i :| 0 <= i < |ps| && ps[i].id == x;
      assert q[i].id == x;
    }
    assert q[|ps|].id == p.id;
  }

  // ---------------------------------------------------------------------
  // The store invariant
  // ---------------------------------------------------------------------

  /** `p` is one of the players room `k` holds. */
  predicate Seated(s: Store, p: PlayerId, k: RoomId) {
    (k in s.gameRooms && p in GameMembers(s.gameRooms[k]))
    || (k in s.tournamentRooms && p in SeqIds(s.tournamentRooms[k].players))
  }

  /** Every room is stored under its own id (six characters for a game
      room, "T" and six for a tournament), no tournament has more than
      five players, and a player's `roomId` always names a room that holds
      the player. */
  predicate Valid(s: Store) {
    (forall k :: k in s.gameRooms ==> s.gameRooms[k].id == k && |k| == ID_LENGTH)
    && (forall k :: k in s.tournamentRooms ==>
          s.tournamentRooms[k].id == k && |k| == ID_LENGTH + 1
          && |s.tournamentRooms[k].players| <= MAX_TOURNAMENT_PLAYERS)
    && (forall p :: p in s.roomOf ==> Seated(s, p, s.roomOf[p]))
  }

  // ---------------------------------------------------------------------
  // Room ids
  // ---------------------------------------------------------------------

  /** The guard of `generateUniqueRoomId` as written: it looks for the
      tournament key in `gameRooms`, where no tournament room is stored. */
  predicate FreeAsWritten(s: Store, id: RoomId) {
    id !in s.gameRooms && "T" + id !in s.gameRooms
  }

  /** The guard as intended: the id is not taken by a game room, and its
      tournament key is not taken by a tournament. */
  predicate Free(s: Store, id: RoomId) {
    FreeAsWritten(s, id) && "T" + id !in s.tournamentRooms
  }

  /** Which guard the drawing loop uses: a game room keeps the guard as
      written, which is all a game room needs; a tournament gets the
      intended one. */
  datatype Guard = AsWritten | Intended

  predicate FreeUnder(guard: Guard, s: Store, id: RoomId) {
    match guard
    case AsWritten => FreeAsWritten(s, id)
    case Intended => Free(s, id)
  }

  /** The random draws are six-character ids, and one of them passes the
      guard, so the drawing loop ends. */
  predicate DrawsOk(guard: Guard, s: Store, draws: seq<RoomId>) {
    (forall k :: 0 <= k < |draws| ==> |draws[k]| == ID_LENGTH)
    && exists k :: 0 <= k < |draws| && FreeUnder(guard, s, draws[k])
  }

  /** The id `generateUniqueRoomId` settles on: the first draw that passes
      the guard. */
  function FirstFree(guard: Guard, s: Store, draws: seq<RoomId>): (r: RoomId)
    requires exists k :: 0 <= k < |draws| && FreeUnder(guard, s, draws[k])
    ensures FreeUnder(guard, s, r)
    ensures exists k :: 0 <= k < |draws| && draws[k] == r && forall j :: 0 <= j < k ==> !FreeUnder(guard, s, draws[j])
  {
    if FreeUnder(guard, s, draws[0]) then
      draws[0]
    else
      var k :| 0 <= k < |draws| && FreeUnder(guard, s, draws[k]);
      assert draws[1..][k - 1] == draws[k];
      var r := FirstFree(guard, s, draws[1..]);
      var k' :| 0 <= k' < |draws[1..]| && draws[1..][k'] == r && forall j :: 0 <= j < k' ==> !FreeUnder(guard, s, draws[1..][j]);
      assert draws[k' + 1] == r;
      assert forall j :: 0 <= j < k' + 1 ==> !FreeUnder(guard, s, draws[j]) by {
        forall j | 0 <= j < k' + 1 ensures !FreeUnder(guard, s, draws[j]) {
          if j > 0 {
            assert draws[j] == draws[1..][j - 1];
          }
        }
      }
      r
  }

  /** A draw that passes the guard after only refused ones is the id
      settled on. */
  lemma {:induction false} FirstFreeAt(guard: Guard, s: Store, draws: seq<RoomId>, i: nat)
    requires i < |draws| && FreeUnder(guard, s, draws[i])
    requires forall j :: 0 <= j < i ==> !FreeUnder(guard, s, draws[j])
    ensures FirstFree(guard, s, draws) == draws[i]
  {
    if i > 0 {
      assert draws[1..][i - 1] == draws[i];
      forall j | 0 <= j < i - 1 ensures !FreeUnder(guard, s, draws[1..][j]) {
        assert draws[1..][j] == draws[j + 1];
      }
      FirstFreeAt(guard, s, draws[1..], i - 1);
    }
  }

  /** The guard as written settles on a draw whose tournament key a live
      lobby holds when it comes first; the intended guard passes over it. */
  lemma GuardsDiffer(s: Store, taken: RoomId, other: RoomId)
    requires FreeAsWritten(s, taken) && "T" + taken in s.tournamentRooms && Free(s, other)
    ensures FreeUnder(AsWritten, s, [taken, other][0]) && FirstFree(AsWritten, s, [taken, other]) == taken
    ensures FreeUnder(Intended, s, [taken, other][1]) && FirstFree(Intended, s, [taken, other]) == other
  {
    FirstFreeAt(Intended, s, [taken, other], 1);
  }

  // ---------------------------------------------------------------------
  // Deleting rooms
  // ---------------------------------------------------------------------

  /** `deleteTournamentRoom`: clears the `roomId` of everyone the lobby
      references and removes the key from both dictionaries. */
  function TournamentDeleted(s: Store, k: RoomId): Store {
    if k !in s.tournamentRooms then s
    else
      s.(tournamentRooms := s.tournamentRooms - {k}, gameRooms := s.gameRooms - {k},
         roomOf := s.roomOf - TournamentMembers(s.tournamentRooms[k]))
  }

  /** `deleteRoom`: a tournament under the id goes first; then the game
      room's owner and guest lose their `roomId` and the key goes. */
  function RoomDeleted(s: Store, k: RoomId): Store {
    var s1 := TournamentDeleted(s, k);
    if k !in s1.gameRooms then s1
    else s1.(gameRooms := s1.gameRooms - {k}, roomOf := s1.roomOf - GameMembers(s1.gameRooms[k]))
  }

  /** What `abortGame` broadcasts: a `game_aborted` when a loop runs. */
  function AbortEmits(gameLoop: bool, id: RoomId): seq<Emit> {
    if gameLoop then [Emit(Members(id), GameAborted)] else []
  }

  // ---------------------------------------------------------------------
  // Operations
  // ---------------------------------------------------------------------

  function TypeOf(req: CreateRequest): GameType {
    if req.isSinglePlayer then Single else if req.isRemote then Remote else Local
  }

  /** The room `handleCreateRoom` stores before a local game is set up. */
  function NewGameRoom(id: RoomId, p: Player, req: CreateRequest): GameRoom {
    GameRoom(id, TypeOf(req), Some(p), None, MoveNone, MoveNone, true, false)
  }

  /** `handleCreateRoom`. `existing` is `checkForExistingRoom`'s answer
      and `startOk` whether a local room's `startGame` returns normally. */
  function CreateRoom(s: Store, p: Player, req: CreateRequest, existing: Option<RoomId>, draws: seq<RoomId>, startOk: bool): Step
    requires p.id in s.roomOf || existing.Some? || DrawsOk(AsWritten, s, draws)
  {
    if p.id in s.roomOf then Step(s, [Emit(Caller, CreateError(ALREADY_IN_ROOM))])
    else if existing.Some? then Step(s, [Emit(Caller, CreateError(CREATE_WHILE_ACTIVE + existing.value))])
    else OpenGameRoom(s, p, req, FirstFree(AsWritten, s, draws), startOk)
  }

  /** What `handleCreateRoom` does once it has drawn `id`: store the room
      with the creator as owner and announce it; a local room then renames
      the owner, seats the stand-in guest and starts the game, and when
      that fails drops the guest and the owner's `roomId`. */
  function OpenGameRoom(s: Store, p: Player, req: CreateRequest, id: RoomId, startOk: bool): Step {
    var room := NewGameRoom(id, p, req);
    var created := [Emit(Caller, RoomCreated(id))];
    var attached := s.attached + {p.id};
    if req.isSinglePlayer || req.isRemote then
      Step(Store(s.gameRooms[id := room], s.tournamentRooms, s.roomOf[p.id := id], attached), created)
    else
      var local := room.(owner := Some(p.(nickname := LOCAL_OWNER_NAME)), guest := Some(LOCAL_GUEST));
      if startOk then
        Step(Store(s.gameRooms[id := local.(gameLoop := true)], s.tournamentRooms, s.roomOf[p.id := id], attached), created)
      else
        Step(Store(s.gameRooms[id := local.(guest := None)], s.tournamentRooms, s.roomOf - {p.id}, attached),
             created + [Emit(Caller, CreateError(START_FAILED))])
  }

  /** The answer to a single-player room's AI request failing: the owner
      is told, the game is aborted and the room deleted. A room that is
      already gone makes `abortGame` throw, so nothing is deleted. */
  function AiUnavailable(s: Store, k: RoomId): Step {
    var told := [Emit(Caller, CreateError(AI_FAILED))];
    if k !in s.gameRooms then Step(s, told)
    else Step(RoomDeleted(s, k), told + AbortEmits(s.gameRooms[k].gameLoop, s.gameRooms[k].id))
  }

  /** A new tournament lobby under key `key`, holding only `p`. */
  function OpenTournament(s: Store, p: Player, key: RoomId): Store {
    s.(tournamentRooms := s.tournamentRooms[key := TournamentRoom(key, Some(p), None, [p], [], None, 0, false)],
       attached := s.attached + {p.id}, roomOf := s.roomOf[p.id := key])
  }

  /** `handleCreateTournamentRoom`, with the intended id guard. */
  function CreateTournamentRoom(s: Store, p: Player, existing: Option<RoomId>, draws: seq<RoomId>): Step
    requires p.id in s.roomOf || existing.Some? || DrawsOk(Intended, s, draws)
  {
    if p.id in s.roomOf then Step(s, [Emit(Caller, CreateError(ALREADY_IN_ROOM))])
    else if existing.Some? then Step(s, [Emit(Caller, CreateError(CREATE_WHILE_ACTIVE + existing.value))])
    else
      var key := "T" + FirstFree(Intended, s, draws);
      Step(OpenTournament(s, p, key), [Emit(Caller, TournamentRoomCreated(key, [Entry(p.id, p.nickname)], p.nickname))])
  }

  /** `joinTournamentRoom`. */
  function JoinTournamentRoom(s: Store, p: Player, k: RoomId, existing: Option<RoomId>): Step {
    if p.id in s.roomOf then Step(s, [Emit(Caller, JoinError(ALREADY_IN_ROOM))])
    else if k !in s.tournamentRooms then Step(s, [Emit(Caller, JoinError(ROOM_NOT_FOUND))])
    else if |s.tournamentRooms[k].players| >= MAX_TOURNAMENT_PLAYERS then Step(s, [Emit(Caller, JoinError(TOURNAMENT_FULL))])
    else if existing.Some? then Step(s, [Emit(Caller, JoinError(JOIN_WHILE_ACTIVE + existing.value))])
    else
      var r := Enlisted(s, p, k);
      var t := r.tournamentRooms[k];
      var entries := Entries(t.players);
      Step(r, [Emit(Members(k), JoinedTournamentRoom(t.id, entries)), Emit(Members(k), TournamentPlayerJoined(t.id, entries))])
  }

  /** Lobby `k` with player `p` appended, and `p` seated there. */
  function Enlisted(s: Store, p: Player, k: RoomId): (r: Store)
    requires k in s.tournamentRooms
    ensures k in r.tournamentRooms
  {
    var t := s.tournamentRooms[k];
    Store(s.gameRooms, s.tournamentRooms[k := t.(players := t.players + [p])], s.roomOf[p.id := k], s.attached + {p.id})
  }

  /** `checkStartTournament`: `Ok(k)` is the call of `startTournament(k)`,
      an error the `room_error` message sent to the caller. */
  function CheckStartTournament(s: Store, k: RoomId): (r: Result<RoomId, string>)
    ensures r.Ok? <==> k in s.tournamentRooms && |s.tournamentRooms[k].players| >= MIN_TOURNAMENT_PLAYERS
    ensures r.Ok? ==> r.value == k
    ensures r.Err? ==> r.error == (if k in s.tournamentRooms then TOO_FEW_PLAYERS else ROOM_NOT_FOUND)
  {
    if k !in s.tournamentRooms then Err(ROOM_NOT_FOUND)
    else if |s.tournamentRooms[k].players| < MIN_TOURNAMENT_PLAYERS then Err(TOO_FEW_PLAYERS)
    else Ok(k)
  }

  /** The lobby `k` without the entries of player `p`, and `p` without a
      `roomId`. */
  function Unlisted(s: Store, p: PlayerId, k: RoomId): (r: Store)
    requires k in s.tournamentRooms
    ensures k in r.tournamentRooms
  {
    var t := s.tournamentRooms[k];
    s.(tournamentRooms := s.tournamentRooms[k := t.(players := WithoutPlayer(t.players, p))], roomOf := s.roomOf - {p})
  }

  /** `leaveTournamentRoom`. */
  function LeaveTournamentRoom(s: Store, p: PlayerId, k: RoomId): Step {
    if k !in s.tournamentRooms then Step(s, [Emit(Caller, RoomError(TOURNAMENT_NOT_FOUND))])
    else
      var s1 := Unlisted(s, p, k);
      var left := s1.tournamentRooms[k];
      var n := |left.players|;
      var update := if n > 0 then [Emit(Members(left.id), TournamentPlayersUpdated(Entries(left.players), n))] else [];
      if n == 0 then Step(RoomDeleted(s1, k), update + AbortEmits(left.gameLoop, left.id))
      else if n < MIN_TOURNAMENT_PLAYERS && left.gameLoop then
        Step(RoomDeleted(s1, k), update + [Emit(Members(k), RoomError(TOURNAMENT_ABORTED))] + AbortEmits(left.gameLoop, left.id))
      else Step(s1, update)
  }

  /** `joinRoom`. `startOk` is whether `startGame` returns normally. */
  function JoinRoom(s: Store, p: Player, k: RoomId, startOk: bool): Step {
    if p.id in s.roomOf then Step(s, [Emit(Caller, JoinError(ALREADY_IN_ROOM))])
    else if k !in s.gameRooms then Step(s, [Emit(Caller, JoinError(ROOM_NOT_FOUND))])
    else
      var g := s.gameRooms[k];
      if g.owner.None? then
        Step(s.(gameRooms := s.gameRooms[k := g.(owner := Some(p))], roomOf := s.roomOf[p.id := k]),
             [Emit(Caller, JoinedRoom(g.id))])
      else if g.guest.Some? then Step(s, [Emit(Caller, JoinError(ROOM_FULL))])
      else if g.owner.value.id == p.id then Step(s, [Emit(Caller, JoinError(OWN_ROOM))])
      else SeatGuest(s, p, k, startOk)
  }

  /** The last case of `joinRoom`: the player becomes the guest, the room
      is told, and the game starts; when it fails to start, the room is
      aborted and deleted. */
  function SeatGuest(s: Store, p: Player, k: RoomId, startOk: bool): Step
    requires k in s.gameRooms
  {
    var seated := s.gameRooms[k].(guest := Some(p));
    var s1 := Store(s.gameRooms[k := seated], s.tournamentRooms, s.roomOf[p.id := k], s.attached + {p.id});
    var joined := [Emit(Members(k), JoinedRoom(seated.id))];
    if startOk then Step(s1.(gameRooms := s.gameRooms[k := seated.(gameLoop := true)]), joined)
    else
      var s2 := RoomDeleted(s1, k);
      Step(s2.(roomOf := s2.roomOf - {p.id}),
           joined + [Emit(Caller, JoinError(START_FAILED))] + AbortEmits(seated.gameLoop, seated.id))
  }

  /** `handleLeaveRoom`, for the socket of player `p`. */
  function LeaveRoom(s: Store, p: PlayerId): Step {
    if p !in s.attached || p !in s.roomOf || s.roomOf[p] !in s.gameRooms then Step(s, [])
    else
      var g := s.gameRooms[s.roomOf[p]];
      Step(RoomDeleted(s, s.roomOf[p]), AbortEmits(g.gameLoop, g.id))
  }

  /** `handleDisconnect`: leave the tournament, then the game room, that
      the player's `roomId` names. */
  function Disconnect(s: Store, p: PlayerId): Step {
    var a := if p in s.roomOf && s.roomOf[p] in s.tournamentRooms then LeaveTournamentRoom(s, p, s.roomOf[p]) else Step(s, []);
    var s1 := a.store;
    var b := if p in s1.roomOf && s1.roomOf[p] in s1.gameRooms then LeaveRoom(s1, p) else Step(s1, []);
    Step(b.store, a.emits + b.emits)
  }

  // ---------------------------------------------------------------------
  // Properties
  // ---------------------------------------------------------------------

  /** The empty store is valid. */
  lemma EmptyValid()
    ensures Valid(EMPTY)
  {
  }

  /** Deleting a room removes its key from both dictionaries and nothing
      else, clears the `roomId` of the players it held and of no one else,
      and an unknown id changes nothing. */
  lemma DeleteRoomSpec(s: Store, k: RoomId)
    requires Valid(s)
    ensures var r := RoomDeleted(s, k);
      r.gameRooms == s.gameRooms - {k} && r.tournamentRooms == s.tournamentRooms - {k}
      && r.attached == s.attached
      && (forall q :: q in r.roomOf <==> q in s.roomOf && !(k in s.gameRooms && q in GameMembers(s.gameRooms[k]))
                                         && !(k in s.tournamentRooms && q in TournamentMembers(s.tournamentRooms[k])))
      && (forall q :: q in r.roomOf ==> r.roomOf[q] == s.roomOf[q])
    ensures k !in s.gameRooms && k !in s.tournamentRooms ==> RoomDeleted(s, k) == s
  {
    if k in s.tournamentRooms {
      assert |k| == ID_LENGTH + 1;
      assert k !in s.gameRooms;
    }
  }

  /** Deleting a room removes its key from both dictionaries and no other
      key, and clears `roomId`s without setting any. */
  lemma DeleteShrinks(s: Store, k: RoomId)
    ensures var r := RoomDeleted(s, k);
      r.gameRooms == s.gameRooms - {k} && r.tournamentRooms == s.tournamentRooms - {k}
      && r.roomOf.Keys <= s.roomOf.Keys
  {
  }

  /** Deleting a room keeps the store valid. */
  lemma DeleteKeepsValid(s: Store, k: RoomId)
    requires Valid(s)
    ensures Valid(RoomDeleted(s, k))
  {
    DeleteRoomSpec(s, k);
    var r := RoomDeleted(s, k);
    forall q | q in r.roomOf ensures Seated(r, q, r.roomOf[q]) {
      var j := s.roomOf[q];
      assert Seated(s, q, j);
      if j == k {
        assert false;
      }
    }
  }

  /** Seating `p` in a new game room keeps the store valid. */
  lemma AddGameRoomKeepsValid(s: Store, g: GameRoom, p: PlayerId, seat: bool, a: set<PlayerId>)
    requires Valid(s) && g.id !in s.gameRooms && |g.id| == ID_LENGTH
    requires seat ==> p in GameMembers(g)
    ensures Valid(Store(s.gameRooms[g.id := g], s.tournamentRooms, if seat then s.roomOf[p := g.id] else s.roomOf, a))
  {
    var r := Store(s.gameRooms[g.id := g], s.tournamentRooms, if seat then s.roomOf[p := g.id] else s.roomOf, a);
    forall q | q in r.roomOf ensures Seated(r, q, r.roomOf[q]) {
      if !seat || q != p {
        assert Seated(s, q, s.roomOf[q]);
        assert s.roomOf[q] != g.id;
      }
    }
  }

  /** Seating `p` in a game room that keeps the room's players keeps the
      store valid. */
  lemma ReplaceGameRoomKeepsValid(s: Store, g: GameRoom, p: PlayerId, a: set<PlayerId>)
    requires Valid(s) && g.id in s.gameRooms
    requires GameMembers(s.gameRooms[g.id]) <= GameMembers(g) && p in GameMembers(g)
    ensures Valid(Store(s.gameRooms[g.id := g], s.tournamentRooms, s.roomOf[p := g.id], a))
  {
    var r := Store(s.gameRooms[g.id := g], s.tournamentRooms, s.roomOf[p := g.id], a);
    forall q | q in r.roomOf ensures Seated(r, q, r.roomOf[q]) {
      if q != p {
        assert Seated(s, q, s.roomOf[q]);
      }
    }
  }

  /** Seating `p` in a new lobby of at most five keeps the store valid. */
  lemma AddTournamentKeepsValid(s: Store, t: TournamentRoom, p: PlayerId, a: set<PlayerId>)
    requires Valid(s) && t.id !in s.tournamentRooms && |t.id| == ID_LENGTH + 1
    requires |t.players| <= MAX_TOURNAMENT_PLAYERS && p in SeqIds(t.players)
    ensures Valid(Store(s.gameRooms, s.tournamentRooms[t.id := t], s.roomOf[p := t.id], a))
  {
    var r := Store(s.gameRooms, s.tournamentRooms[t.id := t], s.roomOf[p := t.id], a);
    forall q | q in r.roomOf ensures Seated(r, q, r.roomOf[q]) {
      if q != p {
        assert Seated(s, q, s.roomOf[q]);
      }
    }
  }

  /** Clearing some players' `roomId` keeps the store valid. */
  lemma UnseatKeepsValid(s: Store, ps: set<PlayerId>)
    requires Valid(s)
    ensures Valid(s.(roomOf := s.roomOf - ps))
  {
    var r := s.(roomOf := s.roomOf - ps);
    forall q | q in r.roomOf ensures Seated(r, q, r.roomOf[q]) {
      assert Seated(s, q, s.roomOf[q]);
    }
  }

  /** A player already in a room, or one `checkForExistingRoom` finds,
      gets a `create_error` and nothing changes. */
  lemma CreateRefused(s: Store, p: Player, req: CreateRequest, existing: Option<RoomId>, draws: seq<RoomId>, startOk: bool)
    requires p.id in s.roomOf || existing.Some?
    ensures var r := CreateRoom(s, p, req, existing, draws, startOk);
      r.store == s && |r.emits| == 1 && r.emits[0].to == Caller && r.emits[0].message.CreateError?
  {
  }

  /** A room opened under a free id holds the player as owner with no
      movement, under its own id, and is announced to the creator. A
      remote or single-player room has no guest yet; a local room renames
      the owner, seats the stand-in guest and starts, or on failure drops
      the guest and leaves the owner without a `roomId`. No other room
      changes. */
  lemma OpenGameRoomSpec(s: Store, p: Player, req: CreateRequest, id: RoomId, startOk: bool)
    requires p.id !in s.roomOf
    ensures var r := OpenGameRoom(s, p, req, id, startOk);
      && r.emits[0] == Emit(Caller, RoomCreated(id))
      && r.store.tournamentRooms == s.tournamentRooms
      && r.store.attached == s.attached + {p.id}
      && r.store.gameRooms.Keys == s.gameRooms.Keys + {id}
      && (forall k :: k in s.gameRooms && k != id ==> r.store.gameRooms[k] == s.gameRooms[k])
      && var g := r.store.gameRooms[id];
      && g.id == id && g.owner.Some? && g.owner.value.id == p.id
      && g.ownerMovement == MoveNone && g.guestMovement == MoveNone && g.isPrivate
      && g.gameType == (if req.isSinglePlayer then Single else if req.isRemote then Remote else Local)
      && (req.isSinglePlayer || req.isRemote ==>
            g.owner == Some(p) && g.guest.None? && !g.gameLoop && r.store.roomOf == s.roomOf[p.id := id])
      && (!req.isSinglePlayer && !req.isRemote ==>
            g.owner.value.nickname == LOCAL_OWNER_NAME
            && (startOk ==> g.guest == Some(LOCAL_GUEST) && g.gameLoop && r.store.roomOf == s.roomOf[p.id := id])
            && (!startOk ==> (g.guest.None? && r.store.roomOf == s.roomOf
                              && r.emits == [Emit(Caller, RoomCreated(id)), Emit(Caller, CreateError(START_FAILED))])))
  {
    if !req.isSinglePlayer && !req.isRemote && !startOk {
      assert s.roomOf - {p.id} == s.roomOf;
    }
  }

  /** A player in no room gets the first draw that the guard as written
      passes as the room's id: neither the id nor its tournament form is a
      game room's key, and every earlier draw was. */
  lemma CreateUsesFreeId(s: Store, p: Player, req: CreateRequest, draws: seq<RoomId>, startOk: bool)
    requires DrawsOk(AsWritten, s, draws)
    requires p.id !in s.roomOf
    ensures var id := FirstFree(AsWritten, s, draws);
      && CreateRoom(s, p, req, None, draws, startOk) == OpenGameRoom(s, p, req, id, startOk)
      && id !in s.gameRooms && "T" + id !in s.gameRooms
      && exists k :: 0 <= k < |draws| && draws[k] == id
           && forall j :: 0 <= j < k ==> draws[j] in s.gameRooms || "T" + draws[j] in s.gameRooms
  {
    assert FreeAsWritten(s, FirstFree(AsWritten, s, draws));
  }

  /** Opening a game room under a fresh six-character id keeps the store
      valid. */
  lemma OpenGameRoomKeepsValid(s: Store, p: Player, req: CreateRequest, id: RoomId, startOk: bool)
    requires Valid(s) && id !in s.gameRooms && |id| == ID_LENGTH
    ensures Valid(OpenGameRoom(s, p, req, id, startOk).store)
  {
    var room := NewGameRoom(id, p, req);
    var a := s.attached + {p.id};
    if req.isSinglePlayer || req.isRemote {
      AddGameRoomKeepsValid(s, room, p.id, true, a);
    } else {
      var local := room.(owner := Some(p.(nickname := LOCAL_OWNER_NAME)), guest := Some(LOCAL_GUEST));
      if startOk {
        AddGameRoomKeepsValid(s, local.(gameLoop := true), p.id, true, a);
      } else {
        AddGameRoomKeepsValid(s, local.(guest := None), p.id, false, a);
        UnseatKeepsValid(Store(s.gameRooms[id := local.(guest := None)], s.tournamentRooms, s.roomOf, a), {p.id});
      }
    }
  }

  /** Creating a game room keeps the store valid. */
  lemma CreateKeepsValid(s: Store, p: Player, req: CreateRequest, existing: Option<RoomId>, draws: seq<RoomId>, startOk: bool)
    requires Valid(s) && DrawsOk(AsWritten, s, draws)
    ensures Valid(CreateRoom(s, p, req, existing, draws, startOk).store)
  {
    if p.id !in s.roomOf && existing.None? {
      var id := FirstFree(AsWritten, s, draws);
      var k :| 0 <= k < |draws| && draws[k] == id && forall j :: 0 <= j < k ==> !FreeUnder(AsWritten, s, draws[j]);
      OpenGameRoomKeepsValid(s, p, req, id, startOk);
    }
  }

  /** A failed AI request deletes the room and keeps the store valid. */
  lemma AiUnavailableKeepsValid(s: Store, k: RoomId)
    requires Valid(s)
    ensures var r := AiUnavailable(s, k);
      Valid(r.store) && k !in r.store.gameRooms && r.emits[0] == Emit(Caller, CreateError(AI_FAILED))
  {
    DeleteKeepsValid(s, k);
  }

  /** Creating a tournament puts the creator alone in a lobby under a key
      no tournament held before, announced with the creator as owner. */
  lemma CreateTournamentStoresRoom(s: Store, p: Player, draws: seq<RoomId>)
    requires DrawsOk(Intended, s, draws)
    requires p.id !in s.roomOf
    ensures var r := CreateTournamentRoom(s, p, None, draws);
      var key := "T" + FirstFree(Intended, s, draws);
      && key !in s.tournamentRooms
      && r.store.tournamentRooms == s.tournamentRooms[key := TournamentRoom(key, Some(p), None, [p], [], None, 0, false)]
      && r.store.gameRooms == s.gameRooms
      && r.store.roomOf == s.roomOf[p.id := key]
      && r.emits == [Emit(Caller, TournamentRoomCreated(key, [Entry(p.id, p.nickname)], p.nickname))]
  {
    assert Free(s, FirstFree(Intended, s, draws));
  }

  /** Creating a tournament keeps the store valid. */
  lemma CreateTournamentKeepsValid(s: Store, p: Player, existing: Option<RoomId>, draws: seq<RoomId>)
    requires Valid(s) && DrawsOk(Intended, s, draws)
    ensures Valid(CreateTournamentRoom(s, p, existing, draws).store)
  {
    if p.id !in s.roomOf && existing.None? {
      var id := FirstFree(Intended, s, draws);
      var k :| 0 <= k < |draws| && draws[k] == id && forall j :: 0 <= j < k ==> !FreeUnder(Intended, s, draws[j]);
      var key := "T" + id;
      assert p.id in SeqIds([p]) by { assert [p][0].id == p.id; }
      AddTournamentKeepsValid(s, TournamentRoom(key, Some(p), None, [p], [], None, 0, false), p.id, s.attached + {p.id});
    }
  }

  /** `joinTournamentRoom` refuses, in this order, a player already in a
      room, an unknown lobby, a full lobby and a player with another
      active room; otherwise it appends the player and tells the lobby. */
  lemma JoinTournamentOutcome(s: Store, p: Player, k: RoomId, existing: Option<RoomId>)
    ensures var r := JoinTournamentRoom(s, p, k, existing);
      var refusal := if p.id in s.roomOf then Some(ALREADY_IN_ROOM)
        else if k !in s.tournamentRooms then Some(ROOM_NOT_FOUND)
        else if |s.tournamentRooms[k].players| >= MAX_TOURNAMENT_PLAYERS then Some(TOURNAMENT_FULL)
        else if existing.Some? then Some(JOIN_WHILE_ACTIVE + existing.value)
        else None;
      && (refusal.Some? ==> r.store == s && r.emits == [Emit(Caller, JoinError(refusal.value))])
      && (refusal.None? ==>
            r.store.tournamentRooms == s.tournamentRooms[k := s.tournamentRooms[k].(players := s.tournamentRooms[k].players + [p])]
            && |r.store.tournamentRooms[k].players| <= MAX_TOURNAMENT_PLAYERS
            && r.store.roomOf == s.roomOf[p.id := k]
            && r.store.gameRooms == s.gameRooms
            && |r.emits| == 2 && r.emits[0].to == Members(k) && r.emits[1].to == Members(k))
  {
  }

  /** Seating `p` in a lobby of at most five that keeps the lobby's
      players keeps the store valid. */
  lemma ReplaceTournamentKeepsValid(s: Store, t: TournamentRoom, p: PlayerId, a: set<PlayerId>)
    requires Valid(s) && t.id in s.tournamentRooms
    requires SeqIds(s.tournamentRooms[t.id].players) <= SeqIds(t.players)
    requires |t.players| <= MAX_TOURNAMENT_PLAYERS && p in SeqIds(t.players)
    ensures Valid(Store(s.gameRooms, s.tournamentRooms[t.id := t], s.roomOf[p := t.id], a))
  {
    var r := Store(s.gameRooms, s.tournamentRooms[t.id := t], s.roomOf[p := t.id], a);
    forall q | q in r.roomOf ensures Seated(r, q, r.roomOf[q]) {
      if q != p {
        assert Seated(s, q, s.roomOf[q]);
      }
    }
  }

  /** Appending a player to a lobby with room for one keeps the store
      valid. */
  lemma EnlistedKeepsValid(s: Store, p: Player, k: RoomId)
    requires Valid(s) && k in s.tournamentRooms && |s.tournamentRooms[k].players| < MAX_TOURNAMENT_PLAYERS
    ensures Valid(Enlisted(s, p, k))
  {
    var t := s.tournamentRooms[k];
    assert t.id == k;
    SeqIdsSnoc(t.players, p);
    ReplaceTournamentKeepsValid(s, t.(players := t.players + [p]), p.id, s.attached + {p.id});
  }

  /** Joining a tournament keeps the store valid, so no lobby ever holds
      more than five players. */
  lemma JoinTournamentKeepsValid(s: Store, p: Player, k: RoomId, existing: Option<RoomId>)
    requires Valid(s)
    ensures Valid(JoinTournamentRoom(s, p, k, existing).store)
  {
    JoinTournamentStore(s, p, k, existing);
    if p.id !in s.roomOf && k in s.tournamentRooms && |s.tournamentRooms[k].players| < MAX_TOURNAMENT_PLAYERS && existing.None? {
      EnlistedKeepsValid(s, p, k);
    }
  }

  /** A join either enlists the player or leaves the store as it was. */
  lemma JoinTournamentStore(s: Store, p: Player, k: RoomId, existing: Option<RoomId>)
    ensures JoinTournamentRoom(s, p, k, existing).store ==
      if p.id !in s.roomOf && k in s.tournamentRooms && |s.tournamentRooms[k].players| < MAX_TOURNAMENT_PLAYERS && existing.None?
      then Enlisted(s, p, k) else s
  {
  }

  /** Unlisting a player keeps the store valid. */
  lemma UnlistedKeepsValid(s: Store, p: PlayerId, k: RoomId)
    requires Valid(s) && k in s.tournamentRooms
    ensures Valid(Unlisted(s, p, k))
  {
    var r := Unlisted(s, p, k);
    forall q | q in r.roomOf ensures Seated(r, q, r.roomOf[q]) {
      assert Seated(s, q, s.roomOf[q]);
    }
  }

  /** After `leaveTournamentRoom` the player has no `roomId`, and no other
      lobby changes. */
  lemma LeaveTournamentUnseats(s: Store, p: PlayerId, k: RoomId)
    requires k in s.tournamentRooms
    ensures var r := LeaveTournamentRoom(s, p, k).store;
      p !in r.roomOf && r.tournamentRooms - {k} == s.tournamentRooms - {k}
  {
    var s1 := Unlisted(s, p, k);
    assert s1.tournamentRooms - {k} == s.tournamentRooms - {k};
    DeleteShrinks(s1, k);
  }

  /** The lobby is deleted exactly when it became empty, or fell below
      three players while its game loop runs; a lobby that stays has lost
      exactly the leaving player's entries. */
  lemma LeaveTournamentDeletes(s: Store, p: PlayerId, k: RoomId)
    requires k in s.tournamentRooms
    ensures var r := LeaveTournamentRoom(s, p, k).store;
      var n := |WithoutPlayer(s.tournamentRooms[k].players, p)|;
      var deleted := n == 0 || (n < MIN_TOURNAMENT_PLAYERS && s.tournamentRooms[k].gameLoop);
      && (deleted <==> k !in r.tournamentRooms)
      && (!deleted ==> SeqIds(r.tournamentRooms[k].players) == SeqIds(s.tournamentRooms[k].players) - {p})
  {
    var s1 := Unlisted(s, p, k);
    var t := s.tournamentRooms[k];
    var n := |WithoutPlayer(t.players, p)|;
    assert s1.tournamentRooms[k].players == WithoutPlayer(t.players, p);
    if n == 0 || (n < MIN_TOURNAMENT_PLAYERS && t.gameLoop) {
      DeleteShrinks(s1, k);
      assert LeaveTournamentRoom(s, p, k).store == RoomDeleted(s1, k);
    } else {
      assert LeaveTournamentRoom(s, p, k).store == s1;
    }
  }

  /** Leaving a tournament keeps the store valid. */
  lemma LeaveTournamentKeepsValid(s: Store, p: PlayerId, k: RoomId)
    requires Valid(s)
    ensures Valid(LeaveTournamentRoom(s, p, k).store)
  {
    if k in s.tournamentRooms {
      UnlistedKeepsValid(s, p, k);
      DeleteKeepsValid(Unlisted(s, p, k), k);
    }
  }

  /** `joinRoom` answers, in this order: a player already in a room and an
      unknown room are refused; an ownerless room takes the player as
      owner; a room with a guest, or whose owner is the player, refuses;
      otherwise the player is seated as the guest. */
  lemma JoinRoomOutcome(s: Store, p: Player, k: RoomId, startOk: bool)
    ensures var r := JoinRoom(s, p, k, startOk);
      && (p.id in s.roomOf ==> r == Step(s, [Emit(Caller, JoinError(ALREADY_IN_ROOM))]))
      && (p.id !in s.roomOf && k !in s.gameRooms ==> r == Step(s, [Emit(Caller, JoinError(ROOM_NOT_FOUND))]))
      && (p.id !in s.roomOf && k in s.gameRooms ==>
            var g := s.gameRooms[k];
            && (g.owner.None? ==>
                  r.store == s.(gameRooms := s.gameRooms[k := g.(owner := Some(p))], roomOf := s.roomOf[p.id := k]))
            && (g.owner.Some? && g.guest.Some? ==> r == Step(s, [Emit(Caller, JoinError(ROOM_FULL))]))
            && (g.owner.Some? && g.guest.None? && g.owner.value.id == p.id ==>
                  r == Step(s, [Emit(Caller, JoinError(OWN_ROOM))]))
            && (g.owner.Some? && g.guest.None? && g.owner.value.id != p.id ==> r == SeatGuest(s, p, k, startOk)))
  {
  }

  /** A seated guest is announced to the room. A started game keeps both
      players with their `roomId`; a game that fails to start leaves
      neither the room nor the `roomId` of its players. */
  lemma SeatGuestOutcome(s: Store, p: Player, k: RoomId, startOk: bool)
    requires Valid(s) && k in s.gameRooms
    ensures var r := SeatGuest(s, p, k, startOk);
      var g := s.gameRooms[k];
      && r.emits[0] == Emit(Members(k), JoinedRoom(k))
      && (startOk ==> r.store.gameRooms == s.gameRooms[k := g.(guest := Some(p), gameLoop := true)]
                      && r.store.roomOf == s.roomOf[p.id := k])
      && (!startOk ==> k !in r.store.gameRooms && p.id !in r.store.roomOf
                       && (g.owner.Some? ==> g.owner.value.id !in r.store.roomOf)
                       && r.emits[1] == Emit(Caller, JoinError(START_FAILED)))
  {
    if !startOk {
      var seated := s.gameRooms[k].(guest := Some(p));
      var s1 := Store(s.gameRooms[k := seated], s.tournamentRooms, s.roomOf[p.id := k], s.attached + {p.id});
      assert k !in s.tournamentRooms;
      assert TournamentDeleted(s1, k) == s1;
    }
  }

  /** Joining a game room keeps the store valid. */
  lemma JoinRoomKeepsValid(s: Store, p: Player, k: RoomId, startOk: bool)
    requires Valid(s)
    ensures Valid(JoinRoom(s, p, k, startOk).store)
  {
    if p.id !in s.roomOf && k in s.gameRooms {
      var g := s.gameRooms[k];
      assert g.id == k;
      if g.owner.None? {
        ReplaceGameRoomKeepsValid(s, g.(owner := Some(p)), p.id, s.attached);
      } else if g.guest.None? && g.owner.value.id != p.id {
        var seated := g.(guest := Some(p));
        var a := s.attached + {p.id};
        if startOk {
          ReplaceGameRoomKeepsValid(s, seated.(gameLoop := true), p.id, a);
        } else {
          ReplaceGameRoomKeepsValid(s, seated, p.id, a);
          var s1 := Store(s.gameRooms[k := seated], s.tournamentRooms, s.roomOf[p.id := k], a);
          DeleteKeepsValid(s1, k);
          UnseatKeepsValid(RoomDeleted(s1, k), {p.id});
        }
      }
    }
  }

  /** `handleLeaveRoom` deletes the game room the player's `roomId` names,
      and does nothing for a socket without a room. */
  lemma LeaveRoomOutcome(s: Store, p: PlayerId)
    requires Valid(s)
    ensures var r := LeaveRoom(s, p);
      && (p !in s.attached || p !in s.roomOf || s.roomOf[p] !in s.gameRooms ==> r == Step(s, []))
      && (p in s.attached && p in s.roomOf && s.roomOf[p] in s.gameRooms ==>
            s.roomOf[p] !in r.store.gameRooms && p !in r.store.roomOf && Valid(r.store))
  {
    if p in s.attached && p in s.roomOf && s.roomOf[p] in s.gameRooms {
      var k := s.roomOf[p];
      assert Seated(s, p, k);
      assert k !in s.tournamentRooms;
      DeleteKeepsValid(s, k);
    }
  }

  /** A disconnect keeps the store valid, and a player whose `roomId`
      named a tournament has none afterwards. */
  lemma DisconnectKeepsValid(s: Store, p: PlayerId)
    requires Valid(s)
    ensures Valid(Disconnect(s, p).store)
    ensures p in s.roomOf && s.roomOf[p] in s.tournamentRooms ==> p !in Disconnect(s, p).store.roomOf
  {
    var a := if p in s.roomOf && s.roomOf[p] in s.tournamentRooms then LeaveTournamentRoom(s, p, s.roomOf[p]) else Step(s, []);
    if p in s.roomOf && s.roomOf[p] in s.tournamentRooms {
      LeaveTournamentKeepsValid(s, p, s.roomOf[p]);
      LeaveTournamentUnseats(s, p, s.roomOf[p]);
    }
    LeaveRoomOutcome(a.store, p);
  }

  /** The id guard as written lets through an id whose tournament key a
      live lobby holds, and opening the lobby under that key replaces it:
      its player keeps a `roomId` naming a lobby without them. */
  lemma AsWrittenGuardReplacesTournament()
    ensures var q := Player("q", "q", 0, 250);
      var p := Player("p", "p", 0, 250);
      var s := Store(map[], map["TABCDEF" := TournamentRoom("TABCDEF", Some(q), None, [q], [], None, 0, false)],
                     map["q" := "TABCDEF"], {"q"});
      Valid(s) && FreeAsWritten(s, "ABCDEF") && !Free(s, "ABCDEF") && !Valid(OpenTournament(s, p, "T" + "ABCDEF"))
  {
    var q := Player("q", "q", 0, 250);
    var p := Player("p", "p", 0, 250);
    var s := Store(map[], map["TABCDEF" := TournamentRoom("TABCDEF", Some(q), None, [q], [], None, 0, false)],
                   map["q" := "TABCDEF"], {"q"});
    assert [q][0].id == "q";
    assert Seated(s, "q", "TABCDEF");
    var r := OpenTournament(s, p, "T" + "ABCDEF");
    assert "T" + "ABCDEF" == "TABCDEF";
    assert SeqIds([p]) == {"p"} by {
      assert [p][0].id == "p";
    }
    assert !Seated(r, "q", r.roomOf["q"]);
  }

  // ---------------------------------------------------------------------
  // The store object
  // ---------------------------------------------------------------------

  class RoomStore {
    var gameRooms: map<RoomId, GameRoom>
    var tournamentRooms: map<RoomId, TournamentRoom>
    var roomOf: map<PlayerId, RoomId>
    var attached: set<PlayerId>

    function State(): Store
      reads this
    {
      Store(gameRooms, tournamentRooms, roomOf, attached)
    }

    constructor ()
      ensures State() == EMPTY
    {
      gameRooms := map[];
      tournamentRooms := map[];
      roomOf := map[];
      attached := {};
    }

    /** `generateUniqueRoomId`: draws until the guard passes the id. */
    method GenerateUniqueRoomId(guard: Guard, draws: seq<RoomId>) returns (id: RoomId)
      requires DrawsOk(guard, State(), draws)
      ensures id == FirstFree(guard, State(), draws)
    {
      var i := 0;
      id := draws[0];
      while !FreeUnder(guard, State(), id)
        invariant 0 <= i < |draws| && id == draws[i]
        invariant forall j :: 0 <= j < i ==> !FreeUnder(guard, State(), draws[j])
        invariant exists k :: i <= k < |draws| && FreeUnder(guard, State(), draws[k])
        decreases |draws| - i
      {
        i := i + 1;
        id := draws[i];
      }
      FirstFreeAt(guard, State(), draws, i);
    }

    /** The `forEach` that clears each listed player's `roomId`. */
    method ClearRoomIds(ps: seq<Player>)
      modifies this
      ensures roomOf == old(roomOf) - SeqIds(ps)
      ensures gameRooms == old(gameRooms) && tournamentRooms == old(tournamentRooms) && attached == old(attached)
    {
      for i := 0 to |ps|
        invariant roomOf == old(roomOf) - SeqIds(ps[..i])
        invariant gameRooms == old(gameRooms) && tournamentRooms == old(tournamentRooms) && attached == old(attached)
      {
        SeqIdsSnoc(ps[..i], ps[i]);
        assert ps[..i + 1] == ps[..i] + [ps[i]];
        roomOf := roomOf - {ps[i].id};
      }
      assert ps[..|ps|] == ps;
    }

    /** `deleteTournamentRoom`. */
    method DeleteTournamentRoom(k: RoomId)
      modifies this
      ensures State() == TournamentDeleted(old(State()), k)
    {
      if k !in tournamentRooms {
        return;
      }
      var t := tournamentRooms[k];
      ghost var before := roomOf;
      ClearRoomIds(t.players);
      ClearRoomIds(t.lostPlayers);
      MinusUnion(before, SeqIds(t.players), SeqIds(t.lostPlayers));
      ghost var cleared := SeqIds(t.players) + SeqIds(t.lostPlayers);
      if t.lastWinner.Some? {
        roomOf := roomOf - {t.lastWinner.value.id};
      }
      MinusUnion(before, cleared, OptIds(t.lastWinner));
      cleared := cleared + OptIds(t.lastWinner);
      if t.owner.Some? {
        roomOf := roomOf - {t.owner.value.id};
      }
      MinusUnion(before, cleared, OptIds(t.owner));
      cleared := cleared + OptIds(t.owner);
      if t.guest.Some? {
        roomOf := roomOf - {t.guest.value.id};
      }
      MinusUnion(before, cleared, OptIds(t.guest));
      tournamentRooms := tournamentRooms - {k};
      if k in gameRooms {
        gameRooms := gameRooms - {k};
      }
    }

    /** `deleteRoom`. */
    method DeleteRoom(k: RoomId)
      modifies this
      ensures State() == RoomDeleted(old(State()), k)
    {
      DeleteTournamentRoom(k);
      if k !in gameRooms {
        return;
      }
      var g := gameRooms[k];
      if g.owner.Some? {
        roomOf := roomOf - {g.owner.value.id};
      }
      if g.guest.Some? {
        roomOf := roomOf - {g.guest.value.id};
      }
      gameRooms := gameRooms - {k};
    }

    /** `handleCreateRoom`. */
    method HandleCreateRoom(p: Player, req: CreateRequest, existing: Option<RoomId>, draws: seq<RoomId>, startOk: bool)
      returns (emits: seq<Emit>)
      requires p.id in roomOf || existing.Some? || DrawsOk(AsWritten, State(), draws)
      modifies this
      ensures Step(State(), emits) == CreateRoom(old(State()), p, req, existing, draws, startOk)
    {
      if p.id in roomOf {
        return [Emit(Caller, CreateError(ALREADY_IN_ROOM))];
      }
      if existing.Some? {
        return [Emit(Caller, CreateError(CREATE_WHILE_ACTIVE + existing.value))];
      }
      var id := GenerateUniqueRoomId(AsWritten, draws);
      emits := OpenRoom(p, req, id, startOk);
    }

    /** `handleCreateRoom` once the id is drawn. */
    method OpenRoom(p: Player, req: CreateRequest, id: RoomId, startOk: bool) returns (emits: seq<Emit>)
      modifies this
      ensures Step(State(), emits) == OpenGameRoom(old(State()), p, req, id, startOk)
    {
      var room := NewGameRoom(id, p, req);
      gameRooms := gameRooms[id := room];
      attached := attached + {p.id};
      roomOf := roomOf[p.id := id];
      emits := [Emit(Caller, RoomCreated(id))];
      if !req.isSinglePlayer && !req.isRemote {
        room := room.(owner := Some(p.(nickname := LOCAL_OWNER_NAME)), guest := Some(LOCAL_GUEST));
        if startOk {
          gameRooms := gameRooms[id := room.(gameLoop := true)];
        } else {
          emits := emits + [Emit(Caller, CreateError(START_FAILED))];
          roomOf := roomOf - {p.id};
          gameRooms := gameRooms[id := room.(guest := None)];
        }
      }
    }

    /** The single-player room's failed AI request. */
    method AiRequestFailed(k: RoomId) returns (emits: seq<Emit>)
      modifies this
      ensures Step(State(), emits) == AiUnavailable(old(State()), k)
    {
      emits := [Emit(Caller, CreateError(AI_FAILED))];
      if k !in gameRooms {
        return;
      }
      var g := gameRooms[k];
      emits := emits + AbortEmits(g.gameLoop, g.id);
      DeleteRoom(k);
    }

    /** `handleCreateTournamentRoom`. */
    method HandleCreateTournamentRoom(p: Player, existing: Option<RoomId>, draws: seq<RoomId>) returns (emits: seq<Emit>)
      requires p.id in roomOf || existing.Some? || DrawsOk(Intended, State(), draws)
      modifies this
      ensures Step(State(), emits) == CreateTournamentRoom(old(State()), p, existing, draws)
    {
      if p.id in roomOf {
        return [Emit(Caller, CreateError(ALREADY_IN_ROOM))];
      }
      if existing.Some? {
        return [Emit(Caller, CreateError(CREATE_WHILE_ACTIVE + existing.value))];
      }
      var id := GenerateUniqueRoomId(Intended, draws);
      var key := "T" + id;
      tournamentRooms := tournamentRooms[key := TournamentRoom(key, Some(p), None, [p], [], None, 0, false)];
      attached := attached + {p.id};
      roomOf := roomOf[p.id := key];
      emits := [Emit(Caller, TournamentRoomCreated(key, [Entry(p.id, p.nickname)], p.nickname))];
    }

    /** `joinTournamentRoom`. */
    method JoinTournament(p: Player, k: RoomId, existing: Option<RoomId>) returns (emits: seq<Emit>)
      modifies this
      ensures Step(State(), emits) == JoinTournamentRoom(old(State()), p, k, existing)
    {
      if p.id in roomOf {
        return [Emit(Caller, JoinError(ALREADY_IN_ROOM))];
      }
      if k !in tournamentRooms {
        return [Emit(Caller, JoinError(ROOM_NOT_FOUND))];
      }
      var t := tournamentRooms[k];
      if |t.players| >= MAX_TOURNAMENT_PLAYERS {
        return [Emit(Caller, JoinError(TOURNAMENT_FULL))];
      }
      if existing.Some? {
        return [Emit(Caller, JoinError(JOIN_WHILE_ACTIVE + existing.value))];
      }
      t := t.(players := t.players + [p]);
      tournamentRooms := tournamentRooms[k := t];
      var entries := Entries(t.players);
      roomOf := roomOf[p.id := k];
      attached := attached + {p.id};
      emits := [Emit(Members(k), JoinedTournamentRoom(t.id, entries)), Emit(Members(k), TournamentPlayerJoined(t.id, entries))];
    }

    /** `checkStartTournament`. */
    method CheckStart(k: RoomId) returns (r: Result<RoomId, string>)
      ensures r == CheckStartTournament(State(), k)
    {
      if k !in tournamentRooms {
        return Err(ROOM_NOT_FOUND);
      }
      if |tournamentRooms[k].players| < MIN_TOURNAMENT_PLAYERS {
        return Err(TOO_FEW_PLAYERS);
      }
      return Ok(k);
    }

    /** `leaveTournamentRoom`. */
    method LeaveTournament(p: PlayerId, k: RoomId) returns (emits: seq<Emit>)
      modifies this
      ensures Step(State(), emits) == LeaveTournamentRoom(old(State()), p, k)
    {
      if k !in tournamentRooms {
        return [Emit(Caller, RoomError(TOURNAMENT_NOT_FOUND))];
      }
      var t := tournamentRooms[k];
      t := t.(players := WithoutPlayer(t.players, p));
      tournamentRooms := tournamentRooms[k := t];
      roomOf := roomOf - {p};
      emits := [];
      if |t.players| > 0 {
        emits := [Emit(Members(t.id), TournamentPlayersUpdated(Entries(t.players), |t.players|))];
      }
      if |t.players| == 0 {
        emits := emits + AbortEmits(t.gameLoop, t.id);
        DeleteRoom(k);
      } else if |t.players| < MIN_TOURNAMENT_PLAYERS && t.gameLoop {
        emits := emits + [Emit(Members(k), RoomError(TOURNAMENT_ABORTED))] + AbortEmits(t.gameLoop, t.id);
        DeleteRoom(k);
      }
    }

    /** `joinRoom`. */
    method Join(p: Player, k: RoomId, startOk: bool) returns (emits: seq<Emit>)
      modifies this
      ensures Step(State(), emits) == JoinRoom(old(State()), p, k, startOk)
    {
      if p.id in roomOf {
        return [Emit(Caller, JoinError(ALREADY_IN_ROOM))];
      }
      if k !in gameRooms {
        return [Emit(Caller, JoinError(ROOM_NOT_FOUND))];
      }
      var g := gameRooms[k];
      if g.owner.None? {
        gameRooms := gameRooms[k := g.(owner := Some(p))];
        roomOf := roomOf[p.id := k];
        return [Emit(Caller, JoinedRoom(g.id))];
      }
      if g.guest.Some? {
        return [Emit(Caller, JoinError(ROOM_FULL))];
      }
      if g.owner.value.id == p.id {
        return [Emit(Caller, JoinError(OWN_ROOM))];
      }
      emits := SeatAsGuest(p, k, startOk);
    }

    /** The last case of `joinRoom`. */
    method SeatAsGuest(p: Player, k: RoomId, startOk: bool) returns (emits: seq<Emit>)
      requires k in gameRooms
      modifies this
      ensures Step(State(), emits) == SeatGuest(old(State()), p, k, startOk)
    {
      var g := gameRooms[k].(guest := Some(p));
      gameRooms := gameRooms[k := g];
      roomOf := roomOf[p.id := k];
      attached := attached + {p.id};
      emits := [Emit(Members(k), JoinedRoom(g.id))];
      if startOk {
        gameRooms := gameRooms[k := g.(gameLoop := true)];
      } else {
        emits := emits + [Emit(Caller, JoinError(START_FAILED))] + AbortEmits(g.gameLoop, g.id);
        DeleteRoom(k);
        roomOf := roomOf - {p.id};
      }
    }

    /** `handleLeaveRoom`. */
    method HandleLeaveRoom(p: PlayerId) returns (emits: seq<Emit>)
      modifies this
      ensures Step(State(), emits) == LeaveRoom(old(State()), p)
    {
      if p !in attached || p !in roomOf || roomOf[p] !in gameRooms {
        return [];
      }
      var k := roomOf[p];
      var g := gameRooms[k];
      emits := AbortEmits(g.gameLoop, g.id);
      DeleteRoom(k);
    }

    /** `handleDisconnect`. */
    method HandleDisconnect(p: PlayerId) returns (emits: seq<Emit>)
      modifies this
      ensures Step(State(), emits) == Disconnect(old(State()), p)
    {
      emits := [];
      if p in roomOf && roomOf[p] in tournamentRooms {
        emits := LeaveTournament(p, roomOf[p]);
      }
      if p in roomOf && roomOf[p] in gameRooms {
        var more := HandleLeaveRoom(p);
        emits := emits + more;
      }
    }
  }
}
