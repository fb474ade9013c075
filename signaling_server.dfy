/**
 * The signaling relay (server/src/server.js).
 *
 * A process-wide registry maps a room id to the connections that joined it. A `join`
 * envelope adds its connection to the named room, creating the room when it is absent;
 * a connection closing removes it from every room and deletes the rooms it leaves empty.
 * Every other envelope is sent, with `from` defaulted to "unknown", to every member of
 * the named room that is open and is not the sender. The relay does not read `to`.
 */
module SignalingServer {

  /** A WebSocket connection, identified abstractly. */
  type ConnId = nat

  /** A JSON scalar as the relay reads it; `Undefined` stands for a field that is missing. */
  datatype Value = Undefined | Null | Bool(b: bool) | Num(n: int) | Str(s: string)

  /** JavaScript truthiness of a scalar, as used by `from || "unknown"`. */
  predicate Truthy(v: Value)
    ensures v.Undefined? || v.Null? ==> !Truthy(v)
    ensures v.Str? ==> (Truthy(v) <==> v.s != "")
  {
    match v
    case Undefined => false
    case Null => false
    case Bool(b) => b
    case Num(n) => n != 0
    case Str(s) => s != ""
  }

  /** A parsed envelope: the top-level fields of the JSON object, by name. */
  type Envelope = map<string, Value>

  /** The outcome of `JSON.parse` plus destructuring: an object, or a thrown error. */
  datatype Incoming = Malformed | Parsed(env: Envelope)

  /** One `client.send(...)`: who receives it and the object that is stringified. */
  datatype Delivery = Delivery(recipient: ConnId, env: Envelope)

  /** The `rooms` map: room id to its members, in the insertion order of the JavaScript Set. */
  type Registry = map<Value, seq<ConnId>>

  function Field(env: Envelope, name: string): Value
  {
    if name in env then env[name] else Undefined
  }

  predicate IsJoin(env: Envelope)
  {
    Field(env, "type") == Str("join")
  }

  predicate Distinct(s: seq<ConnId>)
  {
    forall i, j :: 0 <= i < j < |s| ==> s[i] != s[j]
  }

  /** The registry invariant: every present room has at least one member, each listed once. */
  predicate WellFormed(r: Registry)
  {
    forall k :: k in r ==> r[k] != [] && Distinct(r[k])
  }

  /** The object that is relayed: the input, with `from` kept when truthy and "unknown" otherwise. */
  function Forwarded(env: Envelope): (out: Envelope)
    ensures "from" in out
    ensures Truthy(Field(env, "from")) ==> out["from"] == env["from"]
    ensures !Truthy(Field(env, "from")) ==> out["from"] == Str("unknown")
    ensures forall k :: k != "from" ==> (k in out <==> k in env)
    ensures forall k :: k != "from" && k in env ==> out[k] == env[k]
  {
    var from := Field(env, "from");
    env["from" := if Truthy(from) then from else Str("unknown")]
  }

  /** `Set.prototype.add`: appends a connection that is not yet present. */
  function Add(s: seq<ConnId>, c: ConnId): (r: seq<ConnId>)
    ensures forall x :: x in r <==> x in s || x == c
    ensures |s| <= |r| <= |s| + 1 && r[..|s|] == s
  {
    if c in s then s else s + [c]
  }

  /** `Set.prototype.delete`: drops the connection and keeps the order of the others. */
  function Without(s: seq<ConnId>, c: ConnId): (r: seq<ConnId>)
    ensures forall x :: x in r <==> x in s && x != c
  {
    if s == [] then []
    else if s[0] == c then Without(s[1..], c)
    else [s[0]] + Without(s[1..], c)
  }

  lemma {:induction false} WithoutDistinct(s: seq<ConnId>, c: ConnId)
    requires Distinct(s)
    ensures Distinct(Without(s, c))
  {
    if s != [] {
      assert Distinct(s[1..]);
      WithoutDistinct(s[1..], c);
      var rest := Without(s[1..], c);
      if s[0] != c {
        assert s[0] !in s[1..];
        var w := [s[0]] + rest;
        forall i, j | 0 <= i < j < |w| ensures w[i] != w[j] {
          if i == 0 {
            assert w[j] in rest;
          } else {
            assert w[i] == rest[i - 1] && w[j] == rest[j - 1];
          }
        }
      }
    }
  }

  /** The registry after `join` of connection `c` into `room`. */
  function Join(r: Registry, room: Value, c: ConnId): (r': Registry)
    ensures r'.Keys == r.Keys + {room}
    ensures c in r'[room]
  {
    var members := if room in r then r[room] else [];
    r[room := Add(members, c)]
  }

  /** The registry after `close` has visited the rooms in `visited`. */
  function CloseVisited(r: Registry, c: ConnId, visited: set<Value>): Registry
  {
    map k | k in r && !(k in visited && c in r[k] && Without(r[k], c) == []) ::
      if k in visited && c in r[k] then Without(r[k], c) else r[k]
  }

  /** The registry after connection `c` closed. */
  function Close(r: Registry, c: ConnId): (r': Registry)
    ensures r'.Keys <= r.Keys
  {
    CloseVisited(r, c, r.Keys)
  }

  /** The sends of the relay loop over `members`, in iteration order. */
  function Broadcast(members: seq<ConnId>, sender: ConnId, open: set<ConnId>, env: Envelope): (out: seq<Delivery>)
    ensures |out| <= |members|
    ensures forall d :: d in out ==> d.env == env
  {
    if members == [] then []
    else
      var last := members[|members| - 1];
      Broadcast(members[..|members| - 1], sender, open, env)
        + (if last != sender && last in open then [Delivery(last, env)] else [])
  }

  /** The registry after one incoming message from connection `c`. */
  function AfterMessage(r: Registry, c: ConnId, msg: Incoming): (r': Registry)
    ensures r.Keys <= r'.Keys
  {
    match msg
    case Malformed => r
    case Parsed(env) => if IsJoin(env) then Join(r, Field(env, "roomId"), c) else r
  }

  /** The sends caused by one incoming message from connection `c`. */
  function Outgoing(r: Registry, c: ConnId, msg: Incoming, open: set<ConnId>): (out: seq<Delivery>)
    ensures out != [] ==>
      msg.Parsed? && !IsJoin(msg.env) && Field(msg.env, "roomId") in r
      && forall d :: d in out ==> d.env == Forwarded(msg.env)
  {
    match msg
    case Malformed => []
    case Parsed(env) =>
      var room := Field(env, "roomId");
      if IsJoin(env) || room !in r then []
      else Broadcast(r[room], c, open, Forwarded(env))
  }

  // ---------------------------------------------------------------------------
  // Properties of the specification functions

  /** Joining puts exactly the joining connection into an absent room. */
  lemma JoinCreatesRoom(r: Registry, room: Value, c: ConnId)
    requires room !in r
    ensures Join(r, room, c)[room] == [c]
  {
  }

  /** Joining adds the connection to the room with set semantics and leaves other rooms alone. */
  lemma JoinAddsMember(r: Registry, room: Value, c: ConnId)
    ensures room in Join(r, room, c)
    ensures forall x :: x in Join(r, room, c)[room] <==> x == c || (room in r && x in r[room])
    ensures forall k :: k != room ==> (k in Join(r, room, c) <==> k in r)
    ensures forall k :: k != room && k in r ==> Join(r, room, c)[k] == r[k]
  {
  }

  /** Re-joining the same room is idempotent. */
  lemma JoinIdempotent(r: Registry, room: Value, c: ConnId)
    ensures Join(Join(r, room, c), room, c) == Join(r, room, c)
  {
  }

  lemma JoinPreservesWellFormed(r: Registry, room: Value, c: ConnId)
    requires WellFormed(r)
    ensures WellFormed(Join(r, room, c))
  {
    var members := if room in r then r[room] else [];
    if c !in members {
      var s := members + [c];
      forall i, j | 0 <= i < j < |s| ensures s[i] != s[j] {
        if j == |s| - 1 {
          assert s[i] in members;
        } else {
          assert s[i] == members[i] && s[j] == members[j];
        }
      }
    }
  }

  /** The relay loop sends to exactly the open members other than the sender, each the same object. */
  lemma {:induction false} BroadcastRecipients(members: seq<ConnId>, sender: ConnId, open: set<ConnId>, env: Envelope)
    ensures forall d :: d in Broadcast(members, sender, open, env) <==>
      d.recipient in members && d.recipient != sender && d.recipient in open && d.env == env
  {
    if members != [] {
      var init := members[..|members| - 1];
      BroadcastRecipients(init, sender, open, env);
      assert members == init + [members[|members| - 1]];
    }
  }

  /** No connection appears twice among the recipients of `out`. */
  predicate OncePerRecipient(out: seq<Delivery>)
  {
    forall i, j :: 0 <= i < j < |out| ==> out[i].recipient != out[j].recipient
  }

  /** With distinct members, no connection receives the same relayed message twice. */
  lemma {:induction false} BroadcastOnce(members: seq<ConnId>, sender: ConnId, open: set<ConnId>, env: Envelope)
    requires Distinct(members)
    ensures OncePerRecipient(Broadcast(members, sender, open, env))
  {
    if members != [] {
      var init := members[..|members| - 1];
      var last := members[|members| - 1];
      assert Distinct(init);
      BroadcastOnce(init, sender, open, env);
      BroadcastRecipients(init, sender, open, env);
      assert last !in init;
      var prev := Broadcast(init, sender, open, env);
      var out := Broadcast(members, sender, open, env);
      if last != sender && last in open {
        assert out == prev + [Delivery(last, env)];
        forall i, j | 0 <= i < j < |out| ensures out[i].recipient != out[j].recipient {
          assert out[i] == prev[i];
          assert out[i] in prev;
          if j < |out| - 1 {
            assert out[j] == prev[j];
          }
        }
      } else {
        assert out == prev;
      }
    }
  }

  /** A relayed envelope never reaches its sender. */
  lemma SenderNeverReceives(r: Registry, c: ConnId, msg: Incoming, open: set<ConnId>)
    ensures forall d :: d in Outgoing(r, c, msg, open) ==> d.recipient != c
  {
    if msg.Parsed? {
      var room := Field(msg.env, "roomId");
      if !IsJoin(msg.env) && room in r {
        BroadcastRecipients(r[room], c, open, Forwarded(msg.env));
      }
    }
  }

  /**
   * A non-join envelope for a known room reaches exactly the open members other than the sender,
   * each receiving the forwarded object; `to` plays no part in the choice.
   */
  lemma RelayReachesOpenMembers(r: Registry, c: ConnId, env: Envelope, open: set<ConnId>)
    requires !IsJoin(env)
    ensures var room := Field(env, "roomId");
      forall d :: d in Outgoing(r, c, Parsed(env), open) <==>
        room in r && d.recipient in r[room] && d.recipient != c && d.recipient in open && d.env == Forwarded(env)
  {
    var room := Field(env, "roomId");
    if room in r {
      BroadcastRecipients(r[room], c, open, Forwarded(env));
    }
  }

  /** Relaying never changes the registry: only `join` and `close` do. */
  lemma RelayKeepsRegistry(r: Registry, c: ConnId, msg: Incoming)
    requires msg.Malformed? || !IsJoin(msg.env)
    ensures AfterMessage(r, c, msg) == r
  {
  }

  /** An envelope for an unknown room, or one that fails to parse, is delivered to nobody. */
  lemma UnknownRoomIsDropped(r: Registry, c: ConnId, msg: Incoming, open: set<ConnId>)
    requires msg.Malformed? || (!IsJoin(msg.env) && Field(msg.env, "roomId") !in r)
    ensures Outgoing(r, c, msg, open) == []
    ensures AfterMessage(r, c, msg) == r
  {
  }

  /** After `close`, the connection is in no room. */
  lemma CloseRemovesConnection(r: Registry, c: ConnId)
    ensures forall k :: k in Close(r, c) ==> c !in Close(r, c)[k]
  {
  }

  /** `close` keeps every other membership: rooms and other members are unchanged. */
  lemma CloseKeepsOthers(r: Registry, c: ConnId)
    ensures forall k, x :: x != c ==> ((k in Close(r, c) && x in Close(r, c)[k]) <==> (k in r && x in r[k]))
    ensures forall k :: k in r && c !in r[k] ==> k in Close(r, c) && Close(r, c)[k] == r[k]
  {
    forall k, x | x != c && k in r && x in r[k]
      ensures k in Close(r, c) && x in Close(r, c)[k]
    {
      if c in r[k] {
        assert x in Without(r[k], c);
      }
    }
  }

  /** `close` deletes a room exactly when the closing connection was its only member. */
  lemma CloseDeletesEmptiedRooms(r: Registry, c: ConnId)
    ensures forall k :: k in r ==> (k !in Close(r, c) <==> c in r[k] && forall x :: x in r[k] ==> x == c)
  {
    forall k | k in r
      ensures k !in Close(r, c) <==> c in r[k] && forall x :: x in r[k] ==> x == c
    {
      if c in r[k] && Without(r[k], c) != [] {
        var y := Without(r[k], c)[0];
        assert y in Without(r[k], c);
      }
    }
  }

  /** `close` keeps the registry invariant: no room is left present and empty. */
  lemma ClosePreservesWellFormed(r: Registry, c: ConnId)
    requires WellFormed(r)
    ensures WellFormed(Close(r, c))
  {
    forall k | k in Close(r, c) ensures Distinct(Close(r, c)[k]) {
      WithoutDistinct(r[k], c);
    }
  }

  /** Visiting one more room `k` applies the body of the `forEach` callback to it. */
  lemma CloseVisitStep(r: Registry, c: ConnId, visited: set<Value>, k: Value)
    requires k in r && k !in visited
    ensures var cur := CloseVisited(r, c, visited);
      k in cur && cur[k] == r[k] &&
      CloseVisited(r, c, visited + {k}) ==
        if c in cur[k] then
          (if Without(cur[k], c) == [] then cur - {k} else cur[k := Without(cur[k], c)])
        else cur
  {
  }

  // ---------------------------------------------------------------------------
  // The relay loop and the server object

  /** `room.forEach(...)`: sends to each member that is not the sender and is open. */
  method Relay(members: seq<ConnId>, sender: ConnId, open: set<ConnId>, env: Envelope) returns (out: seq<Delivery>)
    ensures out == Broadcast(members, sender, open, env)
    ensures forall d :: d in out <==>
      d.recipient in members && d.recipient != sender && d.recipient in open && d.env == env
  {
    out := [];
    var i := 0;
    while i < |members|
      invariant 0 <= i <= |members|
      invariant out == Broadcast(members[..i], sender, open, env)
    {
      var client := members[i];
      assert members[..i + 1][..i] == members[..i];
      if client != sender && client in open {
        out := out + [Delivery(client, env)];
      }
      i := i + 1;
    }
    assert members[..i] == members;
    BroadcastRecipients(members, sender, open, env);
  }

  class Server {
    /** The process-wide `rooms` map. */
    var rooms: Registry

    ghost predicate Valid()
      reads this
    {
      WellFormed(rooms)
    }

    constructor ()
      ensures Valid() && rooms == map[]
    {
      rooms := map[];
    }

    /** The `message` handler of connection `ws`; `open` is the set of connections whose readyState is OPEN. */
    method OnMessage(ws: ConnId, msg: Incoming, open: set<ConnId>) returns (out: seq<Delivery>)
      requires Valid()
      modifies this
      ensures Valid()
      ensures rooms == AfterMessage(old(rooms), ws, msg)
      ensures out == Outgoing(old(rooms), ws, msg, open)
    {
      match msg {
        case Malformed =>
          // the parse error is caught and logged
          out := [];
        case Parsed(env) =>
          var roomId := Field(env, "roomId");
          if IsJoin(env) {
            JoinPreservesWellFormed(rooms, roomId, ws);
            if roomId !in rooms {
              rooms := rooms[roomId := []];
            }
            rooms := rooms[roomId := Add(rooms[roomId], ws)];
            out := [];
          } else if roomId in rooms {
            out := Relay(rooms[roomId], ws, open, Forwarded(env));
          } else {
            // room not found: logged, nothing sent
            out := [];
          }
      }
    }

    /** The `close` handler of connection `ws`: visits every room and removes `ws` from it. */
    method OnClose(ws: ConnId)
      requires Valid()
      modifies this
      ensures Valid()
      ensures rooms == Close(old(rooms), ws)
    {
      ghost var before := rooms;
      var todo := rooms.Keys;
      ghost var visited: set<Value> := {};
      while todo != {}
        invariant todo !! visited && todo + visited == before.Keys
        invariant rooms == CloseVisited(before, ws, visited)
        decreases todo
      {
        var k :| k in todo;
        CloseVisitStep(before, ws, visited, k);
        if ws in rooms[k] {
          var rest := Without(rooms[k], ws);
          if rest == [] {
            rooms := rooms - {k};
          } else {
            rooms := rooms[k := rest];
          }
        }
        todo := todo - {k};
        visited := visited + {k};
      }
      assert visited == before.Keys;
      ClosePreservesWellFormed(before, ws);
    }
  }
}
