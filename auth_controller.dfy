/** The auth controller's request handlers: the checks each applies to its
    request before and after it calls the account tables, and the reply
    status it answers with.

    What the handlers receive from outside is a parameter: the result of
    verifying the request's token (`None` when verification throws), a
    `parseInt` result (`None` for `NaN`), the bcrypt hash of a new password
    and the bcrypt comparison of a password with a stored hash. */
module AuthRoutes {
  import opened Wrappers
  import opened Accounts
  import Duration

  datatype Reply = Reply(code: int, message: string)

  const OK := 200
  const CREATED := 201
  const BAD_REQUEST := 400
  const UNAUTHORIZED := 401
  const NOT_FOUND := 404
  const CONFLICT := 409
  const SERVER_ERROR := 500

  /** The one reply `login` gives for an unknown e-mail and for a wrong
      password alike. */
  const INVALID_CREDENTIALS := Reply(UNAUTHORIZED, "Email or password is incorrect")

  /** The statuses `updateProfile` accepts. */
  const VALID_STATUSES: seq<string> := ["online", "away", "busy", "invisible"]

  /** A JavaScript string that is truthy: present and not empty. */
  predicate Given(s: Option<string>) {
    s.Some? && s.value != ""
  }

  /** A JavaScript number that is truthy: present, so not `NaN`, and not 0. */
  predicate GivenId(n: Option<int>) {
    n.Some? && n.value != 0
  }

  // ---------------------------------------------------------------------
  // Sign-up and log-in
  // ---------------------------------------------------------------------

  /** `signup`: all three fields are required, the e-mail must be new, and
      the insert failing (a taken nickname) lands in the catch-all. */
  function Signup(db: Db, nickname: Option<string>, email: Option<string>, password: Option<string>, hash: string): (Db, Reply) {
    if !Given(nickname) || !Given(email) || !Given(password) then (db, Reply(BAD_REQUEST, "All fields are required"))
    else if EmailTaken(db, email.value) then (db, Reply(CONFLICT, "Email already registered"))
    else
      match UserCreated(db, nickname.value, email.value, hash, Some(DEFAULT_AVATAR), Some(DEFAULT_STATUS))
      case Err(_) => (db, Reply(SERVER_ERROR, "Network error"))
      case Ok((db', _)) => (db', Reply(CREATED, "success"))
  }

  /** `login`: the user with that e-mail whose stored hash matches the
      password is set online. */
  ghost function Login(db: Db, email: string, password: string, matches: (string, string) -> bool): (Db, Reply) {
    match UserByEmail(db, email)
    case None => (db, INVALID_CREDENTIALS)
    case Some(u) =>
      if !matches(password, db.users[u].passwordHash) then (db, INVALID_CREDENTIALS)
      else (StatusUpdated(db, u, DEFAULT_STATUS).0, Reply(OK, "success"))
  }

  // ---------------------------------------------------------------------
  // Friends
  // ---------------------------------------------------------------------

  /** `searchUsers`' check of its query. A token that fails to verify ends
      in the catch-all, whose `'Unauthorized'` comparison never holds for
      the error object thrown. The matching users are not modelled. */
  function SearchUsers(caller: Option<UserId>, q: Option<string>): Reply {
    if caller.None? then Reply(SERVER_ERROR, "Search failed")
    else if !Given(q) || |Duration.Trim(q.value)| < 2 then Reply(BAD_REQUEST, "Search term must be at least 2 characters")
    else Reply(OK, "users")
  }

  /** `sendFriendRequest`: a target is required and may not be the caller;
      an existing link is a conflict. */
  function SendFriendRequest(db: Db, caller: Option<UserId>, target: Option<int>): (Db, Reply) {
    if caller.None? then (db, Reply(SERVER_ERROR, "Failed to send friend request"))
    else if !GivenId(target) || target.value == caller.value then (db, Reply(BAD_REQUEST, "Invalid target user"))
    else
      match FriendRequestSent(db, caller.value, target.value)
      case Err(_) => (db, Reply(CONFLICT, "Friend relationship already exists"))
      case Ok(db') => (db', Reply(OK, "Friend request sent"))
  }

  /** The response text to the status it sets. */
  function ResponseStatus(response: string): Option<FriendStatus> {
    if response == "accepted" then Some(Accepted)
    else if response == "declined" then Some(Declined)
    else None
  }

  /** `respondToFriendRequest`: a non-zero id and a response of "accepted"
      or "declined"; an unknown id throws into the catch-all. Who the
      caller is plays no part. */
  function RespondToFriendRequest(db: Db, caller: Option<UserId>, friendshipId: Option<int>, response: string): (Db, Reply) {
    if caller.None? then (db, Reply(SERVER_ERROR, "Failed to respond to friend request"))
    else if !GivenId(friendshipId) || ResponseStatus(response).None? then (db, Reply(BAD_REQUEST, "Invalid request parameters"))
    else
      match FriendRequestAnswered(db, friendshipId.value, ResponseStatus(response).value)
      case Err(_) => (db, Reply(SERVER_ERROR, "Failed to respond to friend request"))
      case Ok(db') => (db', Reply(OK, "Friend request " + response))
  }

  /** Whether `t` occurs in `s`, as `String.prototype.includes`. */
  predicate Contains(s: string, t: string) {
    exists i :: 0 <= i <= |s| && t <= s[i..]
  }

  /** The action `respondToFriendRequestById` acts on: named by the URL, or
      else taken from the body. */
  function UrlAction(url: string, bodyAction: Option<string>): Option<string> {
    if Contains(url, "/accept") then Some("accept")
    else if Contains(url, "/decline") then Some("decline")
    else bodyAction
  }

  const BEARER := "Bearer "

  /** `respondToFriendRequestById`: a bearer token that verifies, a numeric
      id and an action of "accept" or "decline"; the request must be one
      of the caller's pending requests. */
  function RespondToFriendRequestById(db: Db, authorization: Option<string>, verify: string -> Option<UserId>, id: Option<int>, url: string, bodyAction: Option<string>): (Db, Reply) {
    if !Given(authorization) || !(|BEARER| <= |authorization.value| && authorization.value[..|BEARER|] == BEARER) then
      (db, Reply(UNAUTHORIZED, "No token provided"))
    else
      var caller := verify(authorization.value[|BEARER|..]);
      if caller.None? then (db, Reply(UNAUTHORIZED, "Invalid token"))
      else
        var action := UrlAction(url, bodyAction);
        if id.None? || !(action == Some("accept") || action == Some("decline")) then (db, Reply(BAD_REQUEST, "Invalid request parameters"))
        else if !exists x :: x in FriendRequests(db, caller.value) && x.0 == id.value then (db, Reply(NOT_FOUND, "Friend request not found"))
        else
          var response := if action == Some("accept") then Accepted else Declined;
          match FriendRequestAnswered(db, id.value, response)
          case Err(_) => (db, Reply(SERVER_ERROR, "Failed to respond to friend request"))
          case Ok(db') => (db', Reply(OK, "Friend request " + action.value + "ed"))
  }

  /** `removeFriend`: a non-zero id other than the caller's, and a friend
      to remove. */
  function RemoveFriend(db: Db, caller: Option<UserId>, friendId: Option<int>): (Db, Reply) {
    if caller.None? then (db, Reply(SERVER_ERROR, "Failed to remove friend"))
    else if !GivenId(friendId) || friendId.value == caller.value then (db, Reply(BAD_REQUEST, "Invalid friend ID"))
    else
      var (db', removed) := FriendRemoved(db, caller.value, friendId.value);
      if !removed then (db', Reply(BAD_REQUEST, "Failed to remove friend"))
      else (db', Reply(OK, "Friend removed"))
  }

  // ---------------------------------------------------------------------
  // Profile updates
  // ---------------------------------------------------------------------

  /** `updateProfile` from its status step on: an unknown status is
      refused; at the end, nothing updated is refused. */
  function StatusStep(db: Db, u: UserId, status: Option<string>, updated: bool): (Db, Reply) {
    var (db', updated') :=
      if Given(status) && status.value in VALID_STATUSES then
        var (d, ok) := StatusUpdated(db, u, status.value); (d, updated || ok)
      else (db, updated);
    if Given(status) && status.value !in VALID_STATUSES then (db, Reply(BAD_REQUEST, "Invalid status"))
    else if !updated' then (db', Reply(BAD_REQUEST, "No valid updates provided"))
    else (db', Reply(OK, "success"))
  }

  /** `updateProfile` from its avatar step on: an avatar not on offer is
      refused. */
  function AvatarStep(db: Db, u: UserId, avatar: Option<string>, status: Option<string>, updated: bool): (Db, Reply) {
    if Given(avatar) && avatar.value !in AVAILABLE_AVATARS then (db, Reply(BAD_REQUEST, "Invalid avatar selection"))
    else if Given(avatar) then
      var (d, ok) := AvatarUpdated(db, u, avatar.value);
      StatusStep(d, u, status, updated || ok)
    else StatusStep(db, u, status, updated)
  }

  /** `updateProfile`: the nickname, avatar and status steps in turn, each
      run only for a field given, each write kept even when a later step
      refuses the request. */
  function ProfileUpdate(db: Db, caller: Option<UserId>, nickname: Option<string>, avatar: Option<string>, status: Option<string>): (Db, Reply) {
    if caller.None? then (db, Reply(SERVER_ERROR, "Internal server error"))
    else if Given(nickname) then
      match NicknameUpdated(db, caller.value, nickname.value)
      case Err(_) => (db, Reply(CONFLICT, NICKNAME_EXISTS))
      case Ok((d, ok)) =>
        if !ok then (d, Reply(BAD_REQUEST, "Failed to update nickname"))
        else AvatarStep(d, caller.value, avatar, status, true)
    else AvatarStep(db, caller.value, avatar, status, false)
  }

  /** `updateProfile` over the service object: the steps write to the
      tables one after another while `updated` collects their successes. */
  method UpdateProfile(service: AuthService, caller: Option<UserId>, nickname: Option<string>, avatar: Option<string>, status: Option<string>) returns (reply: Reply)
    modifies service
    ensures (service.State(), reply) == ProfileUpdate(old(service.State()), caller, nickname, avatar, status)
  {
    if caller.None? {
      return Reply(SERVER_ERROR, "Internal server error");
    }
    var u := caller.value;
    var updated := false;
    if Given(nickname) {
      var r := service.UpdateUserNickname(u, nickname.value);
      if r.Err? {
        return Reply(CONFLICT, NICKNAME_EXISTS);
      }
      if !r.value {
        return Reply(BAD_REQUEST, "Failed to update nickname");
      }
      updated := true;
    }
    if Given(avatar) {
      if avatar.value !in AVAILABLE_AVATARS {
        return Reply(BAD_REQUEST, "Invalid avatar selection");
      }
      var ok := service.UpdateUserAvatar(u, avatar.value);
      if ok {
        updated := true;
      }
    }
    if Given(status) {
      if status.value !in VALID_STATUSES {
        return Reply(BAD_REQUEST, "Invalid status");
      }
      var ok := service.UpdateUserStatus(u, status.value);
      if ok {
        updated := true;
      }
    }
    if !updated {
      return Reply(BAD_REQUEST, "No valid updates provided");
    }
    return Reply(OK, "success");
  }

  // ---------------------------------------------------------------------
  // Properties
  // ---------------------------------------------------------------------

  /** `signup` refuses a missing field with 400 and a registered e-mail with
      409; a taken nickname fails in the insert with 500; otherwise the new
      user is found by its e-mail, with the given hash. Only a 201 writes. */
  lemma SignupSpec(db: Db, nickname: Option<string>, email: Option<string>, password: Option<string>, hash: string)
    requires Valid(db)
    ensures var (db', r) := Signup(db, nickname, email, password, hash);
      var given := Given(nickname) && Given(email) && Given(password);
      (r.code == BAD_REQUEST <==> !given)
      && (r.code == CONFLICT <==> given && EmailTaken(db, email.value))
      && (r.code == SERVER_ERROR <==> given && !EmailTaken(db, email.value) && NicknameTaken(db, nickname.value))
      && (r.code != CREATED ==> db' == db)
      && (r.code == CREATED ==> (Valid(db') && UserByEmail(db', email.value).Some?
                                 && db'.users[UserByEmail(db', email.value).value].passwordHash == hash))
  {
    var (db', r) := Signup(db, nickname, email, password, hash);
    if r.code == CREATED {
      CreateUserOutcome(db, nickname.value, email.value, hash, Some(DEFAULT_AVATAR), Some(DEFAULT_STATUS));
      CreateUserKeepsValid(db, nickname.value, email.value, hash, Some(DEFAULT_AVATAR), Some(DEFAULT_STATUS));
      var id := UserCreated(db, nickname.value, email.value, hash, Some(DEFAULT_AVATAR), Some(DEFAULT_STATUS)).value.1;
      assert db'.users[id].email == email.value;
    }
  }

  /** `login` succeeds exactly when the user with that e-mail has a hash
      the password matches, and then sets that user online; an unknown
      e-mail and a wrong password get the same reply and write nothing. */
  lemma LoginSpec(db: Db, email: string, password: string, matches: (string, string) -> bool)
    requires Valid(db)
    ensures var (db', r) := Login(db, email, password, matches);
      (r.code == OK <==> exists u :: u in db.users && db.users[u].email == email && matches(password, db.users[u].passwordHash))
      && (r.code != OK ==> r == INVALID_CREDENTIALS && db' == db)
      && (r.code == OK ==> (Valid(db') && var u := UserByEmail(db, email).value; db'.users[u].status == "online"))
  {
    var (db', r) := Login(db, email, password, matches);
    var found := UserByEmail(db, email);
    if found.Some? {
      UpdateUserRowKeepsValid(db, found.value, DEFAULT_STATUS);
    }
  }

  /** `searchUsers` refuses a query that is missing or shorter than two
      characters once trimmed, and never answers 401. */
  lemma SearchUsersSpec(caller: Option<UserId>, q: Option<string>)
    ensures var r := SearchUsers(caller, q);
      (caller.Some? ==> (r.code == BAD_REQUEST <==> q.None? || |Duration.Trim(q.value)| < 2))
      && r.code != UNAUTHORIZED
  {
    if q.Some? && q.value == "" {
      assert Duration.Trim(q.value) == "";
    }
  }

  /** `sendFriendRequest` refuses a missing target or the caller's own id
      with 400 and an existing link with 409; otherwise the target sees the
      caller's pending request. */
  lemma SendFriendRequestSpec(db: Db, caller: UserId, target: Option<int>)
    requires caller in db.users
    ensures var (db', r) := SendFriendRequest(db, Some(caller), target);
      (r.code == BAD_REQUEST <==> !GivenId(target) || target.value == caller)
      && (r.code == CONFLICT <==> GivenId(target) && target.value != caller && Linked(db, caller, target.value))
      && (r.code == OK <==> GivenId(target) && target.value != caller && !Linked(db, caller, target.value))
      && (r.code == OK ==> (db.nextFriendshipId, caller) in FriendRequests(db', target.value))
  {
    if GivenId(target) && target.value != caller {
      SendFriendRequestOutcome(db, caller, target.value);
    }
  }

  /** `respondToFriendRequest` refuses a zero or missing id or another
      response with 400 and fails on an unknown id with 500; otherwise the
      row carries the response. */
  lemma RespondToFriendRequestSpec(db: Db, caller: UserId, friendshipId: Option<int>, response: string)
    ensures var (db', r) := RespondToFriendRequest(db, Some(caller), friendshipId, response);
      var valid := GivenId(friendshipId) && (response == "accepted" || response == "declined");
      (r.code == BAD_REQUEST <==> !valid)
      && (r.code == SERVER_ERROR <==> valid && friendshipId.value !in db.friendships)
      && (r.code == OK ==> (db'.friendships[friendshipId.value].status == (if response == "accepted" then Accepted else Declined)))
  {
    if GivenId(friendshipId) && ResponseStatus(response).Some? {
      RespondOutcome(db, friendshipId.value, ResponseStatus(response).value);
    }
  }

  /** Any signed-in caller may answer any request by its id: the handler
      never compares the caller with the row's addressee. */
  lemma RespondIgnoresCaller(db: Db, a: UserId, b: UserId, friendshipId: Option<int>, response: string)
    ensures RespondToFriendRequest(db, Some(a), friendshipId, response) == RespondToFriendRequest(db, Some(b), friendshipId, response)
  {
  }

  /** The URL names the action before the body does, "/accept" before
      "/decline". */
  lemma UrlActionSpec(url: string, bodyAction: Option<string>)
    ensures Contains(url, "/accept") ==> UrlAction(url, bodyAction) == Some("accept")
    ensures !Contains(url, "/accept") && Contains(url, "/decline") ==> UrlAction(url, bodyAction) == Some("decline")
    ensures !Contains(url, "/accept") && !Contains(url, "/decline") ==> UrlAction(url, bodyAction) == bodyAction
  {
  }

  /** A URL ending in "/accept" names the accept action. */
  lemma AcceptUrl(prefix: string, bodyAction: Option<string>)
    ensures UrlAction(prefix + "/accept", bodyAction) == Some("accept")
  {
    var url := prefix + "/accept";
    assert "/accept" <= url[|prefix|..];
  }

  predicate HasBearer(authorization: Option<string>) {
    Given(authorization) && |BEARER| <= |authorization.value| && authorization.value[..|BEARER|] == BEARER
  }

  /** `respondToFriendRequestById` answers 401 exactly without a bearer
      token that verifies, 404 exactly when the id is none of the caller's
      pending requests, and never 500; a 200 answers a request that was
      addressed to the caller, with the action the request named. */
  lemma RespondToFriendRequestByIdSpec(db: Db, authorization: Option<string>, verify: string -> Option<UserId>, id: Option<int>, url: string, bodyAction: Option<string>)
    ensures var (db', r) := RespondToFriendRequestById(db, authorization, verify, id, url, bodyAction);
      var signedIn := HasBearer(authorization) && verify(authorization.value[|BEARER|..]).Some?;
      var action := UrlAction(url, bodyAction);
      var valid := id.Some? && (action == Some("accept") || action == Some("decline"));
      (r.code == UNAUTHORIZED <==> !signedIn)
      && (r.code == BAD_REQUEST <==> signedIn && !valid)
      && (r.code == NOT_FOUND <==> (signedIn && valid && forall x :: x in FriendRequests(db, verify(authorization.value[|BEARER|..]).value) ==> x.0 != id.value))
      && r.code != SERVER_ERROR
      && (r.code == OK ==> (var u := verify(authorization.value[|BEARER|..]).value;
            id.value in db.friendships && db.friendships[id.value].addressee == u && db.friendships[id.value].status == Pending
            && db'.friendships[id.value].status == (if action == Some("accept") then Accepted else Declined)))
  {
    var (db', r) := RespondToFriendRequestById(db, authorization, verify, id, url, bodyAction);
    if HasBearer(authorization) && verify(authorization.value[|BEARER|..]).Some? {
      var u := verify(authorization.value[|BEARER|..]).value;
      if id.Some? && exists x :: x in FriendRequests(db, u) && x.0 == id.value {
        var x :| x in FriendRequests(db, u) && x.0 == id.value;
        FriendRequestsIff(db, u, x.0, x.1);
      }
    }
  }

  /** `removeFriend` refuses a zero or missing id or the caller's own with
      400, and a user who is no friend with 400 too; a 200 removes exactly
      that friend. */
  lemma RemoveFriendSpec(db: Db, caller: UserId, friendId: Option<int>)
    requires friendId.Some? ==> friendId.value in db.users
    ensures var (db', r) := RemoveFriend(db, Some(caller), friendId);
      (r.code == OK <==> GivenId(friendId) && friendId.value != caller && friendId.value in Friends(db, caller))
      && (r.code != OK ==> r.code == BAD_REQUEST)
      && (r.code == OK ==> Friends(db', caller) == Friends(db, caller) - {friendId.value})
  {
    if GivenId(friendId) && friendId.value != caller {
      Accounts.RemoveFriendSpec(db, caller, friendId.value);
    }
  }

  /** The status step refuses an unknown status, else reports whether
      anything was updated. */
  lemma StatusStepSpec(db: Db, u: UserId, status: Option<string>, updated: bool)
    requires Valid(db)
    ensures var (db', r) := StatusStep(db, u, status, updated);
      Valid(db')
      && (r.code == OK <==> (!Given(status) || status.value in VALID_STATUSES) && (updated || (Given(status) && u in db.users)))
      && (r.code != OK ==> r.code == BAD_REQUEST)
      && (r.code == OK && Given(status) && u in db.users ==> db'.users[u].status == status.value)
      && (forall v :: v in db.users && v != u ==> v in db'.users && db'.users[v] == db.users[v])
      && (u in db.users ==> u in db'.users && db'.users[u].nickname == db.users[u].nickname
                            && db'.users[u].avatar == db.users[u].avatar)
  {
    if Given(status) {
      UpdateUserRowKeepsValid(db, u, status.value);
    }
  }

  /** The avatar step refuses an avatar not on offer, else hands on to the
      status step. */
  lemma AvatarStepSpec(db: Db, u: UserId, avatar: Option<string>, status: Option<string>, updated: bool)
    requires Valid(db)
    ensures var (db', r) := AvatarStep(db, u, avatar, status, updated);
      Valid(db')
      && (r.code == OK <==> (!Given(avatar) || avatar.value in AVAILABLE_AVATARS)
                            && (!Given(status) || status.value in VALID_STATUSES)
                            && (updated || ((Given(avatar) || Given(status)) && u in db.users)))
      && (r.code != OK ==> r.code == BAD_REQUEST)
      && (r.code == OK && Given(avatar) && u in db.users ==> db'.users[u].avatar == avatar.value)
      && (r.code == OK && Given(status) && u in db.users ==> db'.users[u].status == status.value)
      && (u in db.users ==> u in db'.users && db'.users[u].nickname == db.users[u].nickname)
  {
    if Given(avatar) && avatar.value in AVAILABLE_AVATARS {
      UpdateUserRowKeepsValid(db, u, avatar.value);
      var (d, ok) := AvatarUpdated(db, u, avatar.value);
      StatusStepSpec(d, u, status, updated || ok);
    } else if !Given(avatar) {
      StatusStepSpec(db, u, status, updated);
    }
  }

  /** `updateProfile` answers 409 exactly for a nickname another user
      holds, refuses an avatar not on offer or an unknown status, and
      succeeds exactly when the caller exists, some field is given and
      every given field is acceptable; then the caller's row shows every
      given field. */
  lemma {:induction false} ProfileUpdateSpec(db: Db, u: UserId, nickname: Option<string>, avatar: Option<string>, status: Option<string>)
    requires Valid(db)
    ensures var (db', r) := ProfileUpdate(db, Some(u), nickname, avatar, status);
      var clash := Given(nickname) && u in db.users && exists v :: v in db.users && v != u && db.users[v].nickname == nickname.value;
      Valid(db')
      && (r.code == CONFLICT <==> clash)
      && (r.code == OK <==> u in db.users && (Given(nickname) || Given(avatar) || Given(status)) && !clash
                            && (!Given(avatar) || avatar.value in AVAILABLE_AVATARS)
                            && (!Given(status) || status.value in VALID_STATUSES))
      && (r.code == OK ==> ((Given(nickname) ==> db'.users[u].nickname == nickname.value)
                            && (Given(avatar) ==> db'.users[u].avatar == avatar.value)
                            && (Given(status) ==> db'.users[u].status == status.value)))
  {
    if Given(nickname) {
      UpdateUserNicknameSpec(db, u, nickname.value);
      var c := NicknameUpdated(db, u, nickname.value);
      if c.Ok? && c.value.1 {
        AvatarStepSpec(c.value.0, u, avatar, status, true);
      }
    } else {
      AvatarStepSpec(db, u, avatar, status, false);
    }
  }

  /** A write is not undone by a later refusal: a new nickname stays even
      when the avatar sent with it is refused. */
  lemma NicknameKeptOnRefusal(db: Db, u: UserId, nickname: string, avatar: string, status: Option<string>)
    requires Valid(db) && u in db.users && nickname != ""
    requires !exists v :: v in db.users && v != u && db.users[v].nickname == nickname
    requires avatar != "" && avatar !in AVAILABLE_AVATARS
    ensures var (db', r) := ProfileUpdate(db, Some(u), Some(nickname), Some(avatar), status);
      r.code == BAD_REQUEST && db'.users[u].nickname == nickname
  {
    UpdateUserNicknameSpec(db, u, nickname);
  }
}
