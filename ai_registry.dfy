/** The AI-opponent service's registry: one AI instance per game room,
    kept in a `Map` from room id to the instance and the time it was
    created. A `Map` visits its keys in insertion order, so the registry
    is the map together with that order.

    The clock is passed in as `now` (milliseconds); the instance's socket
    manager and game are left out, only `createdAt` is kept. */
module AiRegistry {
  import opened Wrappers

  type RoomId = string

  /** `cleanupOldInstances`' default age limit: 30 minutes. */
  const DEFAULT_MAX_AGE_MS: int := 30 * 60 * 1000

  /** HTTP status codes of the `/api/ai` routes. */
  const OK: nat := 200
  const BAD_REQUEST: nat := 400
  const NOT_FOUND: nat := 404

  /** The instances' creation times, and their keys in insertion order. */
  datatype Registry = Registry(createdAt: map<RoomId, int>, order: seq<RoomId>)

  const EMPTY := Registry(map[], [])

  /** No room is listed twice. */
  predicate Distinct(xs: seq<RoomId>) {
    forall i, j :: 0 <= i < j < |xs| ==> xs[i] != xs[j]
  }

  /** The order lists each key once and nothing else. */
  ghost predicate Valid(g: Registry) {
    Distinct(g.order) && (forall k :: k in g.order <==> k in g.createdAt)
  }

  /** `xs` without `x`. */
  function Erase(xs: seq<RoomId>, x: RoomId): (r: seq<RoomId>)
    ensures forall y :: y in r <==> y in xs && y != x
    ensures |r| <= |xs|
  {
    if xs == [] then []
    else if xs[0] == x then Erase(xs[1..], x)
    else [xs[0]] + Erase(xs[1..], x)
  }

  /** `createAIInstance`: an existing room keeps its instance; otherwise a
      new one created at `now` is appended. */
  function Created(g: Registry, r: RoomId, now: int): Registry {
    if r in g.createdAt then g
    else Registry(g.createdAt[r := now], g.order + [r])
  }

  /** `removeAIInstance`'s effect; an unknown room changes nothing. */
  function Removed(g: Registry, r: RoomId): Registry {
    if r !in g.createdAt then g
    else Registry(g.createdAt - {r}, Erase(g.order, r))
  }

  /** `removeAIInstance`'s answer. */
  function WasRemoved(g: Registry, r: RoomId): (b: bool)
    ensures b <==> r in g.createdAt
  {
    r in g.createdAt
  }

  /** `getActiveInstances`: the room ids in insertion order. */
  function ActiveInstances(g: Registry): (r: seq<RoomId>)
    requires Valid(g)
    ensures forall k :: k in r <==> k in g.createdAt
    ensures Distinct(r)
  {
    g.order
  }

  /** Whether an instance created at `createdAt` is too old at `now`. */
  predicate TooOld(createdAt: int, now: int, maxAgeMs: int) {
    now - createdAt > maxAgeMs
  }

  /** The rooms the first `forEach` of `cleanupOldInstances` collects, in
      visiting order. */
  function Expired(createdAt: map<RoomId, int>, order: seq<RoomId>, now: int, maxAgeMs: int): (r: seq<RoomId>)
    requires forall k :: k in order ==> k in createdAt
    ensures forall k :: k in r <==> k in order && TooOld(createdAt[k], now, maxAgeMs)
    ensures |r| <= |order|
  {
    if order == [] then []
    else
      var rest := Expired(createdAt, order[..|order| - 1], now, maxAgeMs);
      var last := order[|order| - 1];
      if TooOld(createdAt[last], now, maxAgeMs) then rest + [last] else rest
  }

  /** Each room of `rs` removed in turn: the second `forEach`. */
  function RemovedAll(g: Registry, rs: seq<RoomId>): Registry {
    if rs == [] then g else Removed(RemovedAll(g, rs[..|rs| - 1]), rs[|rs| - 1])
  }

  /** The values of a `roomid` header line repeated in one request, joined
      as Node joins a repeated header: in order, separated by ", ". */
  function JoinedHeader(lines: seq<string>): (r: string)
    requires lines != []
    ensures |lines| >= 2 ==> |r| >= 2
    decreases |lines|
  {
    if |lines| == 1 then lines[0]
    else JoinedHeader(lines[..|lines| - 1]) + ", " + lines[|lines| - 1]
  }

  /** `request.headers['roomid']`, given the values of every `roomid`
      header line the request carried: `undefined` without one, else one
      string. */
  function HeaderValue(lines: seq<string>): Option<string> {
    if lines == [] then None else Some(JoinedHeader(lines))
  }

  /** The room id the routes accept: the header's string unless it is
      absent or empty. A repeated header is one joined string, so it is
      accepted. */
  function HeaderRoomId(lines: seq<string>): (r: Option<RoomId>)
    ensures r.Some? <==> |lines| >= 2 || (|lines| == 1 && lines[0] != "")
    ensures |lines| == 1 && lines[0] != "" ==> r == Some(lines[0])
    ensures r.Some? ==> HeaderValue(lines) == r
  {
    var v := HeaderValue(lines);
    if v.None? || v.value == "" then None else v
  }

  /** `GET /api/ai`: the status and the registry afterwards. */
  function GetAi(g: Registry, h: seq<string>, now: int): (Registry, nat) {
    match HeaderRoomId(h)
    case None => (g, BAD_REQUEST)
    case Some(r) => (Created(g, r, now), OK)
  }

  /** `DELETE /api/ai`. */
  function DeleteAi(g: Registry, h: seq<string>): (Registry, nat) {
    match HeaderRoomId(h)
    case None => (g, BAD_REQUEST)
    case Some(r) => (Removed(g, r), if WasRemoved(g, r) then OK else NOT_FOUND)
  }

  // ---------------------------------------------------------------------
  // Properties
  // ---------------------------------------------------------------------

  /** A repeat-free list with a new room in front. */
  lemma DistinctCons(a: RoomId, r: seq<RoomId>)
    requires a !in r && Distinct(r)
    ensures Distinct([a] + r)
  {
    var s := [a] + r;
    forall i, j | 0 <= i < j < |s|
      ensures s[i] != s[j]
    {
      assert s[j] == r[j - 1];
      if i > 0 {
        assert s[i] == r[i - 1];
      }
    }
  }

  /** A repeat-free list with a new room at the end. */
  lemma DistinctSnoc(r: seq<RoomId>, a: RoomId)
    requires a !in r && Distinct(r)
    ensures Distinct(r + [a])
  {
    var s := r + [a];
    forall i, j | 0 <= i < j < |s|
      ensures s[i] != s[j]
    {
      assert s[i] == r[i];
      if j < |r| {
        assert s[j] == r[j];
      }
    }
  }

  /** The head of a repeat-free list is not in its tail, and the tail is
      repeat-free. */
  lemma DistinctTail(xs: seq<RoomId>)
    requires xs != [] && Distinct(xs)
    ensures xs[0] !in xs[1..] && Distinct(xs[1..])
  {
    var t := xs[1..];
    forall i, j | 0 <= i < j < |t|
      ensures t[i] != t[j]
    {
      assert t[i] == xs[i + 1] && t[j] == xs[j + 1];
    }
  }

  /** The prefix of a repeat-free list is repeat-free and lacks its last
      room. */
  lemma DistinctInit(xs: seq<RoomId>)
    requires xs != [] && Distinct(xs)
    ensures xs[|xs| - 1] !in xs[..|xs| - 1] && Distinct(xs[..|xs| - 1])
  {
  }

  /** Erasing keeps a list free of repeats. */
  lemma {:induction false} EraseDistinct(xs: seq<RoomId>, x: RoomId)
    requires Distinct(xs)
    ensures Distinct(Erase(xs, x))
  {
    if xs != [] {
      DistinctTail(xs);
      EraseDistinct(xs[1..], x);
      if xs[0] != x {
        DistinctCons(xs[0], Erase(xs[1..], x));
      }
    }
  }

  /** Erasing a value that is absent changes nothing. */
  lemma {:induction false} EraseAbsent(xs: seq<RoomId>, x: RoomId)
    requires x !in xs
    ensures Erase(xs, x) == xs
  {
    if xs != [] {
      EraseAbsent(xs[1..], x);
      assert xs == [xs[0]] + xs[1..];
    }
  }

  /** Erasing the value just appended gives the list back. */
  lemma {:induction false} EraseSnoc(xs: seq<RoomId>, x: RoomId)
    requires x !in xs
    ensures Erase(xs + [x], x) == xs
  {
    if xs == [] {
    } else {
      assert (xs + [x])[1..] == xs[1..] + [x];
      EraseSnoc(xs[1..], x);
      assert xs == [xs[0]] + xs[1..];
    }
  }

  /** Creating an instance for a known room returns it and changes
      nothing; for a new room it adds exactly that room, created at
      `now`, at the end of the order. */
  lemma CreatedSpec(g: Registry, r: RoomId, now: int)
    requires Valid(g)
    ensures Valid(Created(g, r, now))
    ensures r in g.createdAt ==> Created(g, r, now) == g
    ensures r !in g.createdAt ==>
      Created(g, r, now).createdAt == g.createdAt[r := now] && Created(g, r, now).order == g.order + [r]
  {
    if r !in g.createdAt {
      var o := g.order + [r];
      assert forall i :: 0 <= i < |g.order| ==> o[i] == g.order[i];
    }
  }

  /** Removing a known room deletes exactly its key and answers true; an
      unknown room answers false and changes nothing. */
  lemma RemovedSpec(g: Registry, r: RoomId)
    requires Valid(g)
    ensures Valid(Removed(g, r))
    ensures WasRemoved(g, r) ==> Removed(g, r).createdAt == g.createdAt - {r}
    ensures !WasRemoved(g, r) ==> Removed(g, r) == g
  {
    EraseDistinct(g.order, r);
  }

  /** Removing a room whose instance was just created gives back the
      registry as it was. */
  lemma CreateThenRemove(g: Registry, r: RoomId, now: int)
    requires Valid(g) && r !in g.createdAt
    ensures Removed(Created(g, r, now), r) == g
  {
    EraseSnoc(g.order, r);
    assert g.createdAt[r := now] - {r} == g.createdAt;
  }

  /** Removing rooms one after the other deletes exactly their keys. */
  lemma {:induction false} RemovedAllSpec(g: Registry, rs: seq<RoomId>)
    requires Valid(g)
    ensures Valid(RemovedAll(g, rs))
    ensures RemovedAll(g, rs).createdAt == (map k | k in g.createdAt && k !in rs :: g.createdAt[k])
  {
    if rs != [] {
      var init := rs[..|rs| - 1];
      var last := rs[|rs| - 1];
      RemovedAllSpec(g, init);
      var h := RemovedAll(g, init);
      RemovedSpec(h, last);
      assert forall k :: k in rs <==> k in init || k == last by {
        assert rs == init + [last];
      }
    }
  }

  /** A repeat-free list is as long as the set of its elements. */
  lemma {:induction false} DistinctCard(xs: seq<RoomId>)
    requires Distinct(xs)
    ensures |set k | k in xs| == |xs|
  {
    if xs != [] {
      var init := xs[..|xs| - 1];
      DistinctInit(xs);
      DistinctCard(init);
      assert (set k | k in xs) == (set k | k in init) + {xs[|xs| - 1]};
    }
  }

  /** The collected rooms are listed once each. */
  lemma {:induction false} ExpiredDistinct(createdAt: map<RoomId, int>, order: seq<RoomId>, now: int, maxAgeMs: int)
    requires forall k :: k in order ==> k in createdAt
    requires Distinct(order)
    ensures Distinct(Expired(createdAt, order, now, maxAgeMs))
  {
    if order != [] {
      var init := order[..|order| - 1];
      DistinctInit(order);
      ExpiredDistinct(createdAt, init, now, maxAgeMs);
      var last := order[|order| - 1];
      if TooOld(createdAt[last], now, maxAgeMs) {
        DistinctSnoc(Expired(createdAt, init, now, maxAgeMs), last);
      }
    }
  }

  /** `cleanupOldInstances` removes exactly the instances older than the
      limit, keeps every other one, and answers how many it removed. */
  lemma CleanupSpec(g: Registry, now: int, maxAgeMs: int)
    requires Valid(g)
    ensures var rs := Expired(g.createdAt, g.order, now, maxAgeMs);
      var h := RemovedAll(g, rs);
      Valid(h)
      && h.createdAt == (map k | k in g.createdAt && !TooOld(g.createdAt[k], now, maxAgeMs) :: g.createdAt[k])
      && |rs| == |set k | k in g.createdAt && TooOld(g.createdAt[k], now, maxAgeMs)|
  {
    var rs := Expired(g.createdAt, g.order, now, maxAgeMs);
    RemovedAllSpec(g, rs);
    ExpiredDistinct(g.createdAt, g.order, now, maxAgeMs);
    DistinctCard(rs);
    assert (set k | k in rs) == (set k | k in g.createdAt && TooOld(g.createdAt[k], now, maxAgeMs));
  }

  /** A request with a usable header is answered 200 by GET; DELETE
      answers 404 exactly for a room without an instance. Both refuse a
      missing or empty header with 400 and change nothing, and both take
      a repeated header as the room its joined values name. */
  lemma RoutesSpec(g: Registry, h: seq<string>, now: int)
    ensures HeaderRoomId(h).None? <==> h == [] || (|h| == 1 && h[0] == "")
    ensures HeaderRoomId(h).None? ==> GetAi(g, h, now) == (g, BAD_REQUEST) && DeleteAi(g, h) == (g, BAD_REQUEST)
    ensures HeaderRoomId(h).Some? ==> GetAi(g, h, now) == (Created(g, JoinedHeader(h), now), OK)
    ensures HeaderRoomId(h).Some? ==> (DeleteAi(g, h).1 == NOT_FOUND <==> JoinedHeader(h) !in g.createdAt)
  {
  }

  /** Two `roomid` lines "A" and "B" name the room "A, B". */
  lemma RepeatedHeaderJoined(g: Registry, now: int)
    ensures GetAi(g, ["A", "B"], now) == (Created(g, "A, B", now), OK)
  {
    assert JoinedHeader(["A", "B"][..1]) == "A";
    assert JoinedHeader(["A", "B"]) == "A" + ", " + "B" == "A, B";
    assert HeaderRoomId(["A", "B"]) == Some("A, B");
  }

  // ---------------------------------------------------------------------
  // The registry object
  // ---------------------------------------------------------------------

  /** `AIServerClass` with its `aiInstances` map. */
  class AIServer {
    var createdAt: map<RoomId, int>
    var order: seq<RoomId>

    function State(): Registry
      reads this
    {
      Registry(createdAt, order)
    }

    constructor ()
      ensures State() == EMPTY
    {
      createdAt := map[];
      order := [];
    }

    /** `createAIInstance`: returns the room's creation time. */
    method CreateAIInstance(r: RoomId, now: int) returns (created: int)
      modifies this
      ensures State() == Created(old(State()), r, now)
      ensures r in createdAt && created == createdAt[r]
    {
      if r in createdAt {
        return createdAt[r];
      }
      createdAt := createdAt[r := now];
      order := order + [r];
      created := now;
    }

    /** `removeAIInstance`. */
    method RemoveAIInstance(r: RoomId) returns (removed: bool)
      modifies this
      ensures removed == WasRemoved(old(State()), r)
      ensures State() == Removed(old(State()), r)
    {
      if r !in createdAt {
        return false;
      }
      createdAt := createdAt - {r};
      order := Erase(order, r);
      removed := true;
    }

    /** `cleanupOldInstances`: collects the rooms too old at `now` in one
        pass, then removes them one by one; answers how many. */
    method CleanupOldInstances(maxAgeMs: int, now: int) returns (count: nat)
      requires Valid(State())
      modifies this
      ensures count == |Expired(old(createdAt), old(order), now, maxAgeMs)|
      ensures State() == RemovedAll(old(State()), Expired(old(createdAt), old(order), now, maxAgeMs))
    {
      var toRemove: seq<RoomId> := [];
      for i := 0 to |order|
        invariant toRemove == Expired(createdAt, order[..i], now, maxAgeMs)
      {
        assert order[..i + 1][..i] == order[..i];
        if TooOld(createdAt[order[i]], now, maxAgeMs) {
          toRemove := toRemove + [order[i]];
        }
      }
      assert order[..|order|] == order;
      ghost var g0 := State();
      for i := 0 to |toRemove|
        invariant State() == RemovedAll(g0, toRemove[..i])
      {
        assert toRemove[..i + 1][..i] == toRemove[..i];
        var _ := RemoveAIInstance(toRemove[i]);
      }
      assert toRemove[..|toRemove|] == toRemove;
      count := |toRemove|;
    }

    /** `GET /api/ai`. */
    method HandleGetAi(h: seq<string>, now: int) returns (status: nat)
      modifies this
      ensures (State(), status) == GetAi(old(State()), h, now)
    {
      var roomId := HeaderValue(h);
      if roomId.None? || roomId.value == "" {
        return BAD_REQUEST;
      }
      var _ := CreateAIInstance(roomId.value, now);
      status := OK;
    }

    /** `DELETE /api/ai`. */
    method HandleDeleteAi(h: seq<string>) returns (status: nat)
      modifies this
      ensures (State(), status) == DeleteAi(old(State()), h)
    {
      var roomId := HeaderValue(h);
      if roomId.None? || roomId.value == "" {
        return BAD_REQUEST;
      }
      var removed := RemoveAIInstance(roomId.value);
      status := if removed then OK else NOT_FOUND;
    }
  }
}
