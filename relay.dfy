/** The relay server of server.js: one stored configuration, the set of
    WebSocket clients, and the HTTP endpoints around them. */
module Relay {
  import opened Values
  import opened Protocol

  /** A member of `wss.clients`: an identity, its `readyState`, and every
      frame the server has sent to it, in order. */
  datatype Client = Client(id: nat, state: ReadyState, outbox: seq<Value>)

  /** An HTTP reply: a status code and a JSON body. */
  datatype Response = Response(status: nat, body: Value)

  function ErrorReply(status: nat, message: string): Response {
    Response(status, Object1("error", Str(message)))
  }

  /** Something that may set the stored configuration: a WebSocket frame as
      `JSON.parse` returned it (`None` when it threw), or a `POST /api/update`
      body. */
  datatype Update = FromSocket(parsed: Option<Value>) | FromRest(body: Value)

  /** The configuration an update stores, if it stores one: the `config` of a
      frame whose `type` is 'update', or a REST body, verbatim. */
  function Accepted(u: Update): (c: Option<Value>)
    ensures u.FromRest? ==> c == Some(u.body)
    ensures u.FromSocket? ==> (c.Some? <==> u.parsed.Some? && IsUpdate(u.parsed.value))
    ensures u.FromSocket? && c.Some? ==> c.value == Get(u.parsed.value, "config")
  {
    match u
    case FromRest(body) => Some(body)
    case FromSocket(parsed) =>
      if parsed.Some? && IsUpdate(parsed.value) then Some(Get(parsed.value, "config")) else None
  }

  /** `latestConfig` after a run of updates, one handler at a time. */
  function StoredAfter(init: Value, updates: seq<Update>): Value {
    if updates == [] then init
    else
      var before := StoredAfter(init, updates[..|updates| - 1]);
      match Accepted(updates[|updates| - 1])
      case Some(c) => c
      case None => before
  }

  /** The configuration of the most recent update that stored one. */
  function LastWrite(updates: seq<Update>): (w: Option<Value>)
    ensures w.Some? ==> exists i | 0 <= i < |updates| ::
      Accepted(updates[i]) == w && forall j | i < j < |updates| :: Accepted(updates[j]).None?
    ensures w.None? ==> forall i | 0 <= i < |updates| :: Accepted(updates[i]).None?
  {
    if updates == [] then None
    else if Accepted(updates[|updates| - 1]).Some? then Accepted(updates[|updates| - 1])
    else LastWrite(updates[..|updates| - 1])
  }

  /** Last write wins: the stored configuration is the one of the most recent
      update that stored anything, whichever path it came by; updates that
      stored nothing (unparsable frames, other types) leave no trace. */
  lemma {:induction false} LastWriteWins(init: Value, updates: seq<Update>)
    ensures StoredAfter(init, updates) == match LastWrite(updates) case Some(c) => c case None => init
    ensures forall i | 0 <= i < |updates| && Accepted(updates[i]).Some? ::
      (forall j | i < j < |updates| :: Accepted(updates[j]).None?) ==>
        StoredAfter(init, updates) == Accepted(updates[i]).value
    ensures (forall i | 0 <= i < |updates| :: Accepted(updates[i]).None?) ==> StoredAfter(init, updates) == init
  {
    if updates != [] {
      var n := |updates| - 1;
      var front := updates[..n];
      LastWriteWins(init, front);
      forall i | 0 <= i < |updates| && Accepted(updates[i]).Some? &&
                 (forall j | i < j < |updates| :: Accepted(updates[j]).None?)
        ensures StoredAfter(init, updates) == Accepted(updates[i]).value
      {
        if i < n {
          assert Accepted(updates[n]).None?;
          assert front[i] == updates[i];
          forall j | i < j < |front| ensures Accepted(front[j]).None? {
            assert front[j] == updates[j];
          }
        }
      }
      if forall i | 0 <= i < |updates| :: Accepted(updates[i]).None? {
        assert Accepted(updates[n]).None?;
        forall i | 0 <= i < |front| ensures Accepted(front[i]).None? {
          assert front[i] == updates[i];
        }
      }
    }
  }

  /** An 'update' frame without a `config` still assigns it: the stored
      configuration becomes undefined, whatever was stored before, so
      `GET /api/config` answers null and a new client is sent nothing. */
  lemma ConfiglessUpdateErases(init: Value, updates: seq<Update>)
    ensures var erased := StoredAfter(init, updates + [FromSocket(Some(Object1("type", Str("update"))))]);
      && erased == Undefined && Or(erased, Null) == Null && Replay(erased) == []
  {
    var frame := Object1("type", Str("update"));
    assert Get(frame, "type") == Str("update");
    assert Get(frame, "config") == Undefined;
    var all := updates + [FromSocket(Some(frame))];
    assert all[..|all| - 1] == updates;
  }

  /** The frames a client is sent when it connects: the stored configuration,
      once, if it is truthy. */
  function Replay(latest: Value): (frames: seq<Value>)
    ensures |frames| <= 1
    ensures frames != [] <==> Truthy(latest)
    ensures forall i | 0 <= i < |frames| :: frames[i] == UpdateFrame(latest)
  {
    if Truthy(latest) then [UpdateFrame(latest)] else []
  }

  function Deliver(c: Client, frame: Value): Client {
    if c.state == Open then c.(outbox := c.outbox + [frame]) else c
  }

  /** The `forEach` over `wss.clients`: every OPEN client is sent the frame
      once, every other client nothing. */
  function Broadcast(cs: seq<Client>, frame: Value): (r: seq<Client>)
    ensures |r| == |cs|
    ensures forall i | 0 <= i < |cs| :: r[i].id == cs[i].id && r[i].state == cs[i].state
    ensures forall i | 0 <= i < |cs| ::
      r[i].outbox == if cs[i].state == Open then cs[i].outbox + [frame] else cs[i].outbox
  {
    seq(|cs|, i requires 0 <= i < |cs| => Deliver(cs[i], frame))
  }

  function OpenCount(cs: seq<Client>): nat {
    if cs == [] then 0 else (if cs[0].state == Open then 1 else 0) + OpenCount(cs[1..])
  }

  function FramesSent(cs: seq<Client>): nat {
    if cs == [] then 0 else |cs[0].outbox| + FramesSent(cs[1..])
  }

  /** A broadcast sends exactly as many frames as there are OPEN clients. */
  lemma {:induction false} BroadcastSendsOnePerOpenClient(cs: seq<Client>, frame: Value)
    ensures FramesSent(Broadcast(cs, frame)) == FramesSent(cs) + OpenCount(cs)
  {
    if cs != [] {
      BroadcastSendsOnePerOpenClient(cs[1..], frame);
      assert Broadcast(cs, frame)[1..] == Broadcast(cs[1..], frame);
    }
  }

  /** Where the client with identity `id` sits in `cs`. */
  function Find(cs: seq<Client>, id: nat): (r: Option<nat>)
    ensures r.Some? ==> r.value < |cs| && cs[r.value].id == id
    ensures r.None? ==> forall i | 0 <= i < |cs| :: cs[i].id != id
  {
    if cs == [] then None
    else if cs[|cs| - 1].id == id then Some(|cs| - 1)
    else Find(cs[..|cs| - 1], id)
  }

  /** The API key validation of `POST /api/set-api-key`. */
  datatype KeyCheck = Accept(key: string) | Reject(resp: Response)

  /** A key is stored only when the body's `apiKey` is a string starting with
      "sk-"; a missing, empty or unprefixed key is refused with 400, and a
      body that cannot be destructured, or a truthy `apiKey` that is not a
      string (so has no `startsWith`), throws into the 500 reply. */
  function CheckKey(body: Value): (k: KeyCheck)
    ensures k.Accept? <==> !Nullish(body) && Get(body, "apiKey").Str? && StartsWith(Get(body, "apiKey").s, "sk-")
    ensures k.Accept? ==> k.key == Get(body, "apiKey").s && k.key != ""
    ensures k.Reject? ==> k.resp.status == 400 || k.resp.status == 500
    ensures k.Reject? ==>
      (k.resp.status == 400 <==> !Nullish(body) && (!Truthy(Get(body, "apiKey")) || Get(body, "apiKey").Str?))
  {
    match Field(body, "apiKey")
    case None => Reject(ErrorReply(500, "Failed to save API key"))
    case Some(key) =>
      if !Truthy(key) then Reject(ErrorReply(400, "Invalid API key format"))
      else if !key.Str? then Reject(ErrorReply(500, "Failed to save API key"))
      else if !StartsWith(key.s, "sk-") then Reject(ErrorReply(400, "Invalid API key format"))
      else Accept(key.s)
  }

  /** The outcome of the checks `POST /api/generate-image` makes before it calls
      the image API. */
  datatype ImageRequest =
    | Forward(key: string, prompt: Value)
    | Refuse(resp: Response)
    | Thrown   // a TypeError, answered with 500 and the runtime's message

  class RelayServer {
    /** `latestConfig` */
    var latestConfig: Value
    /** `openaiApiKey` */
    var apiKey: Option<string>
    /** `wss.clients` */
    var clients: seq<Client>
    var nextId: nat
    /** Every update handled so far. */
    ghost var updates: seq<Update>

    ghost predicate Valid()
      reads this
    {
      && latestConfig == StoredAfter(Null, updates)
      && (forall i | 0 <= i < |clients| :: clients[i].id < nextId)
      && (forall i, j | 0 <= i < j < |clients| :: clients[i].id != clients[j].id)
      && (apiKey.Some? ==> apiKey.value != "")
    }

    /** Server start: nothing stored, no clients, and the key from the
        environment when it is set and not empty. */
    constructor (envKey: Option<string>)
      ensures Valid()
      ensures latestConfig == Null && clients == [] && updates == []
      ensures apiKey == if envKey.Some? && envKey.value != "" then envKey else None
    {
      latestConfig := Null;
      apiKey := if envKey.Some? && envKey.value != "" then envKey else None;
      clients := [];
      nextId := 0;
      updates := [];
    }

    /** A new connection joins `wss.clients` and is sent the stored
        configuration if there is one. */
    method Connect() returns (id: nat)
      requires Valid()
      modifies this
      ensures Valid()
      ensures forall i | 0 <= i < |old(clients)| :: old(clients)[i].id != id
      ensures clients == old(clients) + [Client(id, Open, Replay(latestConfig))]
      ensures latestConfig == old(latestConfig) && apiKey == old(apiKey) && updates == old(updates)
    {
      id := nextId;
      nextId := nextId + 1;
      clients := clients + [Client(id, Open, Replay(latestConfig))];
    }

    /** The `ws` library moves a client to another `readyState` (a closing
        handshake, say); it stays in `wss.clients`. */
    method SetReadyState(id: nat, state: ReadyState)
      requires Valid()
      modifies this
      ensures Valid()
      ensures |clients| == |old(clients)|
      ensures forall i | 0 <= i < |clients| ::
        clients[i] == if old(clients)[i].id == id then old(clients)[i].(state := state) else old(clients)[i]
      ensures latestConfig == old(latestConfig) && apiKey == old(apiKey) && updates == old(updates)
    {
      match Find(clients, id)
      case None =>
      case Some(k) =>
        clients := clients[k := clients[k].(state := state)];
    }

    /** The `ws` library drops a closed connection from `wss.clients`. */
    method Disconnect(id: nat)
      requires Valid()
      modifies this
      ensures Valid()
      ensures forall i | 0 <= i < |clients| :: clients[i].id != id && clients[i] in old(clients)
      ensures forall i | 0 <= i < |old(clients)| && old(clients)[i].id != id :: old(clients)[i] in clients
      ensures latestConfig == old(latestConfig) && apiKey == old(apiKey) && updates == old(updates)
    {
      match Find(clients, id)
      case None =>
      case Some(k) =>
        ghost var before := clients;
        clients := clients[..k] + clients[k + 1..];
        forall i | 0 <= i < |clients| ensures clients[i] == before[if i < k then i else i + 1] {
        }
    }

    /** Sends `frame` to each OPEN client, one after the other. */
    method SendToOpenClients(frame: Value)
      requires Valid()
      modifies this
      ensures clients == Broadcast(old(clients), frame)
      ensures latestConfig == old(latestConfig) && apiKey == old(apiKey)
      ensures updates == old(updates) && nextId == old(nextId)
    {
      var cs := clients;
      var i := 0;
      while i < |cs|
        invariant 0 <= i <= |cs| == |clients|
        invariant forall k | 0 <= k < i :: cs[k] == Deliver(clients[k], frame)
        invariant forall k | i <= k < |cs| :: cs[k] == clients[k]
      {
        if cs[i].state == Open {
          cs := cs[i := cs[i].(outbox := cs[i].outbox + [frame])];
        }
        i := i + 1;
      }
      clients := cs;
    }

    /** A WebSocket message from `sender`. A frame of type 'update' stores its
        `config` verbatim and echoes it to every OPEN client, the sender
        included; anything else changes nothing and is answered with nothing. */
    method OnMessage(sender: nat, parsed: Option<Value>)
      requires Valid()
      modifies this
      ensures Valid()
      ensures updates == old(updates) + [FromSocket(parsed)]
      ensures apiKey == old(apiKey)
      ensures match Accepted(FromSocket(parsed))
        case None => latestConfig == old(latestConfig) && clients == old(clients)
        case Some(c) => latestConfig == c && clients == Broadcast(old(clients), UpdateFrame(c))
      ensures Accepted(FromSocket(parsed)).Some? ==>
        forall i | 0 <= i < |old(clients)| && old(clients)[i].id == sender && old(clients)[i].state == Open ::
          clients[i].outbox == old(clients)[i].outbox + [UpdateFrame(latestConfig)]
    {
      if parsed.Some? && IsUpdate(parsed.value) {
        var config := Get(parsed.value, "config");
        latestConfig := config;
        updates := updates + [FromSocket(parsed)];
        SendToOpenClients(UpdateFrame(config));
      } else {
        updates := updates + [FromSocket(parsed)];
      }
    }

    /** `POST /api/update`: stores the body, sends it to every OPEN client and
        answers `{success: true}`. */
    method PostUpdate(body: Value) returns (resp: Response)
      requires Valid()
      modifies this
      ensures Valid()
      ensures updates == old(updates) + [FromRest(body)]
      ensures latestConfig == body && clients == Broadcast(old(clients), UpdateFrame(body))
      ensures apiKey == old(apiKey)
      ensures resp == Response(200, Object1("success", Bool(true)))
    {
      latestConfig := body;
      updates := updates + [FromRest(body)];
      SendToOpenClients(UpdateFrame(body));
      resp := Response(200, Object1("success", Bool(true)));
    }

    /** `GET /api/config`: the configuration of the most recent update, or
        null when the most recently stored configuration is falsy (also when
        nothing was ever stored). */
    function GetConfig(): (r: Response)
      requires Valid()
      reads this
      ensures r.status == 200
      ensures Get(r.body, "config") == Or(latestConfig, Null)
      ensures Get(r.body, "config") == Or(match LastWrite(updates) case Some(c) => c case None => Null, Null)
    {
      LastWriteWins(Null, updates);
      Response(200, Object1("config", Or(latestConfig, Null)))
    }

    /** `POST /api/set-api-key` */
    method SetApiKey(body: Value) returns (resp: Response)
      requires Valid()
      modifies this
      ensures Valid()
      ensures apiKey == match CheckKey(body) case Accept(k) => Some(k) case Reject(_) => old(apiKey)
      ensures resp.status == 200 <==> CheckKey(body).Accept?
      ensures latestConfig == old(latestConfig) && clients == old(clients) && updates == old(updates)
    {
      match CheckKey(body)
      case Reject(r) =>
        resp := r;
      case Accept(k) =>
        apiKey := Some(k);
        resp := Response(200, Obj(map["success" := Bool(true), "message" := Str("API key saved on server")]));
    }

    /** `GET /api/check-api-key`: whether a key is stored, and at most its
        first ten characters followed by "...". */
    function CheckApiKey(): (r: Response)
      requires Valid()
      reads this
      ensures r.status == 200
      ensures Get(r.body, "hasKey") == Bool(apiKey.Some?)
      ensures apiKey.None? <==> Get(r.body, "keyPrefix") == Null
      ensures apiKey.Some? ==>
        var p := Get(r.body, "keyPrefix");
        && p.Str? && |p.s| == Min(10, |apiKey.value|) + 3
        && p.s[|p.s| - 3..] == "..." && StartsWith(apiKey.value, p.s[..|p.s| - 3])
    {
      var prefix := match apiKey case Some(k) => Str(k[..Min(10, |k|)] + "...") case None => Null;
      Response(200, Obj(map["hasKey" := Bool(apiKey.Some?), "keyPrefix" := prefix]))
    }

    /** The checks of `POST /api/generate-image`: a missing key is refused
        before the prompt is looked at, then a falsy prompt is refused. */
    function GenerateImage(body: Value): (r: ImageRequest)
      requires Valid()
      reads this
      ensures apiKey.None? ==> r == Refuse(ErrorReply(400, "OpenAI API key not configured on server"))
      ensures r.Thrown? <==> apiKey.Some? && Nullish(body)
      ensures r.Forward? <==> apiKey.Some? && !Nullish(body) && Truthy(Get(body, "prompt"))
      ensures r.Forward? ==> r.key == apiKey.value && r.prompt == Get(body, "prompt")
      ensures apiKey.Some? && r.Refuse? ==> r.resp == ErrorReply(400, "Image prompt is required")
    {
      match apiKey
      case None => Refuse(ErrorReply(400, "OpenAI API key not configured on server"))
      case Some(k) =>
        match Field(body, "prompt")
        case None => Thrown
        case Some(prompt) =>
          if !Truthy(prompt) then Refuse(ErrorReply(400, "Image prompt is required"))
          else Forward(k, prompt)
    }

    /** `GET /api/health`: the number of connections in `wss.clients`,
        whatever their state, and whether a key is stored. */
    function Health(): (r: Response)
      requires Valid()
      reads this
      ensures r.status == 200 && Get(r.body, "status") == Str("ok")
      ensures Get(r.body, "connections") == Num(|clients|)
      ensures Get(r.body, "hasApiKey") == Bool(apiKey.Some?)
    {
      Response(200, Obj(map["status" := Str("ok"), "connections" := Num(|clients|), "hasApiKey" := Bool(apiKey.Some?)]))
    }
  }

  /** A producer publishes while one consumer is connected; a second consumer
      joins later; a malformed frame follows. */
  method LateJoinScenario(doc: Value)
    requires Truthy(doc)
  {
    var relay := new RelayServer(None);
    var a := relay.Connect();
    assert relay.clients[0].outbox == [];
    var resp := relay.PostUpdate(doc);
    assert relay.clients[0].outbox == [UpdateFrame(doc)];
    var b := relay.Connect();
    assert relay.clients[1].outbox == [UpdateFrame(doc)];
    relay.OnMessage(b, None);
    assert relay.clients[0].outbox == [UpdateFrame(doc)];
    assert Get(relay.GetConfig().body, "config") == doc;
  }
}
