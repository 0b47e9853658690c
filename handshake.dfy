/** The two handshake schemas of the CLI's Socket.IO client: the Engine.IO
    open packet the server sends first, and the Socket.IO CONNECT request and
    reply. All parsed values are discarded by the client, so only whether a
    value fits the schema matters to it. */
module Handshake {
  import opened Wrappers
  import opened Digits
  import opened Json

  /** Engine.IO open packet `{sid, upgrades, pingInterval, pingTimeout, maxPayload}`. */
  datatype EngineIOHandshakeResponse = EngineIOHandshakeResponse(
    sid: string, upgrades: seq<string>, pingInterval: nat, pingTimeout: nat, maxPayload: nat)

  /** Socket.IO CONNECT payload the client sends: `{token}`. */
  datatype SocketIOHandshakeRequest = SocketIOHandshakeRequest(token: string)

  /** Socket.IO CONNECT reply: `{sid}`. */
  datatype SocketIOHandshakeResponse = SocketIOHandshakeResponse(sid: string)

  /** Deserializes the open packet: every one of the five fields must be
      present with its type; other members are ignored. */
  function DecodeEngineIOHandshake(j: Json): (r: Option<EngineIOHandshakeResponse>)
    ensures r.Some? <==>
      && Field(j, "sid").Some? && AsString(Field(j, "sid").value).Some?
      && Field(j, "upgrades").Some? && AsStringList(Field(j, "upgrades").value).Some?
      && Field(j, "pingInterval").Some? && AsUsize(Field(j, "pingInterval").value).Some?
      && Field(j, "pingTimeout").Some? && AsUsize(Field(j, "pingTimeout").value).Some?
      && Field(j, "maxPayload").Some? && AsUsize(Field(j, "maxPayload").value).Some?
    ensures r.Some? ==>
      && Field(j, "sid") == Some(JStr(r.value.sid))
      && AsStringList(Field(j, "upgrades").value) == Some(r.value.upgrades)
      && AsUsize(Field(j, "pingInterval").value) == Some(r.value.pingInterval)
      && AsUsize(Field(j, "pingTimeout").value) == Some(r.value.pingTimeout)
      && AsUsize(Field(j, "maxPayload").value) == Some(r.value.maxPayload)
  {
    var sid := Field(j, "sid");
    var upgrades := Field(j, "upgrades");
    var interval := Field(j, "pingInterval");
    var timeout := Field(j, "pingTimeout");
    var maxPayload := Field(j, "maxPayload");
    if sid.None? || upgrades.None? || interval.None? || timeout.None? || maxPayload.None? then None
    else
      var s := AsString(sid.value);
      var u := AsStringList(upgrades.value);
      var i := AsUsize(interval.value);
      var t := AsUsize(timeout.value);
      var m := AsUsize(maxPayload.value);
      if s.None? || u.None? || i.None? || t.None? || m.None? then None
      else Some(EngineIOHandshakeResponse(s.value, u.value, i.value, t.value, m.value))
  }

  /** The open packet as an Engine.IO v4 server writes it. */
  function EngineIOHandshakeJson(h: EngineIOHandshakeResponse): Json {
    JObj([
      Member("sid", JStr(h.sid)),
      Member("upgrades", StringListJson(h.upgrades)),
      Member("pingInterval", NatJson(h.pingInterval)),
      Member("pingTimeout", NatJson(h.pingTimeout)),
      Member("maxPayload", NatJson(h.maxPayload))
    ])
  }

  function SocketIOHandshakeRequestJson(req: SocketIOHandshakeRequest): Json {
    JObj([Member("token", JStr(req.token))])
  }

  function DecodeSocketIOHandshake(j: Json): (r: Option<SocketIOHandshakeResponse>)
    ensures r.Some? <==> Field(j, "sid").Some? && Field(j, "sid").value.JStr?
    ensures r.Some? ==> Field(j, "sid") == Some(JStr(r.value.sid))
  {
    match Field(j, "sid")
    case Some(JStr(sid)) => Some(SocketIOHandshakeResponse(sid))
    case _ => None
  }

  /** Where the five fields of a written open packet are found. */
  lemma EngineIOHandshakeFields(h: EngineIOHandshakeResponse)
    ensures var j := EngineIOHandshakeJson(h);
      && Field(j, "sid") == Some(JStr(h.sid))
      && Field(j, "upgrades") == Some(StringListJson(h.upgrades))
      && Field(j, "pingInterval") == Some(NatJson(h.pingInterval))
      && Field(j, "pingTimeout") == Some(NatJson(h.pingTimeout))
      && Field(j, "maxPayload") == Some(NatJson(h.maxPayload))
  {
    var ms := EngineIOHandshakeJson(h).members;
    FieldOfFirst(ms, "sid", 0);
    FieldOfFirst(ms, "upgrades", 1);
    FieldOfFirst(ms, "pingInterval", 2);
    FieldOfFirst(ms, "pingTimeout", 3);
    FieldOfFirst(ms, "maxPayload", 4);
  }

  /** The client accepts every open packet a server writes, and would read
      back its five fields unchanged. */
  lemma EngineIOHandshakeRoundTrip(h: EngineIOHandshakeResponse)
    requires h.pingInterval <= USIZE_MAX && h.pingTimeout <= USIZE_MAX && h.maxPayload <= USIZE_MAX
    ensures DecodeEngineIOHandshake(EngineIOHandshakeJson(h)) == Some(h)
  {
    EngineIOHandshakeFields(h);
    NatJsonAsUsize(h.pingInterval);
    NatJsonAsUsize(h.pingTimeout);
    NatJsonAsUsize(h.maxPayload);
    StringListRoundTrip(h.upgrades);
  }

  /** The CONNECT request carries the token, and nothing but the token. */
  lemma SocketIOHandshakeRequestCarriesToken(token: string)
    ensures var j := SocketIOHandshakeRequestJson(SocketIOHandshakeRequest(token));
      Field(j, "token") == Some(JStr(token)) && |j.members| == 1
  {
  }

  /** The client's own CONNECT payload would not pass as a CONNECT reply: it
      has no `sid`. */
  lemma RequestIsNotAReply(token: string)
    ensures DecodeSocketIOHandshake(SocketIOHandshakeRequestJson(SocketIOHandshakeRequest(token))).None?
  {
    var ms := SocketIOHandshakeRequestJson(SocketIOHandshakeRequest(token)).members;
    FieldOfFound(ms, "sid");
    assert ms[0].key[0] != "sid"[0];
  }
}
