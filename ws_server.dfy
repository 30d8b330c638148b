/** The real-time layer of src/ws/server.ts: the per-match subscriber
    registry `matchSubscribers`, the broadcast to a match's open
    subscribers, the connection handlers and the message router. A socket's
    delivered messages are its `sent` log; JSON encoding is not modelled, so
    a message is logged as the value that would be serialised. */
module WsServer {
  import opened PadelTypes

  datatype ReadyState = Connecting | Open | Closing | Closed

  /** The server-to-client messages the modelled handlers send. Update and
      commentary bodies are opaque strings. */
  datatype ServerMessage =
    | Welcome(payload: string)
    | ErrorReply(payload: string)
    | SubscribedReply(payload: string)
    | UnsubscribedReply(payload: string)
    | MatchUpdate(matchId: string, body: string)
    | Commentary(body: string)

  /** A client message after JSON parsing. `Unparseable` is text that is not
      JSON; `OtherType` is JSON whose `type` the router does not handle. A
      POINT_SCORED field is `None` when absent. */
  datatype ClientMessage =
    | Unparseable
    | Subscribe(matchId: string)
    | Unsubscribe(matchId: string)
    | PointScored(pointMatchId: Option<string>, playerId: Option<string>, actionType: Option<string>)
    | RequestStats(statsMatchId: string)
    | OtherType

  /** A point request handed on to the point controller. */
  datatype PointRequest = PointRequest(matchId: string, playerId: string, actionType: string)

  const WelcomeText: string := "Conectado a Padel Counters Real-Time API"
  const InvalidJsonText: string := "Invalid JSON"
  const MissingFieldsText: string := "Missing matchId, playerId or actionType"
  const GlobalTopic: string := "global"

  /** One client connection: its state, the pub/sub topics it is subscribed
      to, and the messages sent to it so far. */
  class Socket {
    var readyState: ReadyState
    var topics: set<string>
    var sent: seq<ServerMessage>

    constructor (state: ReadyState)
      ensures readyState == state && topics == {} && sent == []
    {
      readyState := state;
      topics := {};
      sent := [];
    }
  }

  /** `sendJson`: the message is handed to the socket. */
  method SendJson(ws: Socket, payload: ServerMessage)
    modifies ws
    ensures ws.sent == old(ws.sent) + [payload]
    ensures ws.readyState == old(ws.readyState) && ws.topics == old(ws.topics)
  {
    ws.sent := ws.sent + [payload];
  }

  /** A field counts as given when it is present and not the empty string. */
  predicate Truthy(field: Option<string>) {
    field.Some? && field.value != ""
  }

  // ---------------------------------------------------------------------
  // The registry as a value
  // ---------------------------------------------------------------------

  type Registry = map<string, set<Socket>>

  /** The registry keeps no match id with an empty subscriber set. */
  predicate NoEmptySets(r: Registry) {
    forall m :: m in r ==> r[m] != {}
  }

  /** Whether `s` is subscribed to `m`. */
  predicate Member(r: Registry, m: string, s: Socket) {
    m in r && s in r[m]
  }

  /** `subscribeToMatch`: create the set when missing, then add the socket. */
  function WithSubscriber(r: Registry, m: string, s: Socket): (r': Registry)
    ensures Member(r', m, s)
    ensures r'.Keys == r.Keys + {m}
    ensures forall k :: k in r && k != m ==> r'[k] == r[k]
  {
    r[m := (if m in r then r[m] else {}) + {s}]
  }

  /** `unsubscribeFromMatch`: remove the socket and drop the set once it is
      empty; an unknown match id changes nothing. */
  function WithoutSubscriber(r: Registry, m: string, s: Socket): (r': Registry)
    ensures m !in r ==> r' == r
    ensures !Member(r', m, s)
    ensures m in r' <==> m in r && r[m] - {s} != {}
    ensures forall k :: k != m ==> (k in r' <==> k in r)
    ensures forall k :: k in r && k != m ==> r'[k] == r[k]
  {
    if m !in r then r
    else
      var rest := r[m] - {s};
      if rest == {} then r - {m} else r[m := rest]
  }

  /** The registry after the sets with keys in `ks` have had `s` removed the
      way `unsubscribeFromMatch` removes it; other sets are untouched. */
  function PurgedOn(r: Registry, s: Socket, ks: set<string>): Registry {
    map k | k in r && (k !in ks || s !in r[k] || r[k] - {s} != {})
      :: if k in ks then r[k] - {s} else r[k]
  }

  /** `cleanUpMatchSubscriptions` as a value: every set has lost `s`. */
  function Purged(r: Registry, s: Socket): (r': Registry)
    ensures forall k :: k in r' ==> s !in r'[k]
    ensures forall k :: k in r' ==> k in r && r'[k] == r[k] - {s}
  {
    PurgedOn(r, s, r.Keys)
  }

  // ---------------------------------------------------------------------
  // The registry in place
  // ---------------------------------------------------------------------

  /** The module-level `matchSubscribers` map. */
  class SubscriptionRegistry {
    var matchSubscribers: Registry

    constructor ()
      ensures matchSubscribers == map[]
    {
      matchSubscribers := map[];
    }

    /** The subscribers of `m`, or none. */
    function Subscribers(m: string): set<Socket>
      reads this
    {
      if m in matchSubscribers then matchSubscribers[m] else {}
    }

    method SubscribeToMatch(matchId: string, socket: Socket)
      modifies this
      ensures matchSubscribers == WithSubscriber(old(matchSubscribers), matchId, socket)
    {
      if matchId !in matchSubscribers {
        matchSubscribers := matchSubscribers[matchId := {}];
      }
      matchSubscribers := matchSubscribers[matchId := matchSubscribers[matchId] + {socket}];
    }

    method UnsubscribeFromMatch(matchId: string, socket: Socket)
      modifies this
      ensures matchSubscribers == WithoutSubscriber(old(matchSubscribers), matchId, socket)
    {
      if matchId in matchSubscribers {
        var subscribers := matchSubscribers[matchId] - {socket};
        matchSubscribers := matchSubscribers[matchId := subscribers];
        if subscribers == {} {
          matchSubscribers := matchSubscribers - {matchId};
        }
      }
    }

    /** Visits every entry once and unsubscribes `socket` from each set that
        holds it. */
    method CleanUpMatchSubscriptions(socket: Socket)
      modifies this
      ensures matchSubscribers == Purged(old(matchSubscribers), socket)
    {
      ghost var initial := matchSubscribers;
      var remaining := matchSubscribers.Keys;
      while remaining != {}
        invariant remaining <= initial.Keys
        invariant matchSubscribers == PurgedOn(initial, socket, initial.Keys - remaining)
        decreases remaining
      {
        var matchId :| matchId in remaining;
        PurgeStep(initial, socket, initial.Keys - remaining, matchId);
        if socket in matchSubscribers[matchId] {
          UnsubscribeFromMatch(matchId, socket);
        }
        remaining := remaining - {matchId};
        assert initial.Keys - remaining == (initial.Keys - (remaining + {matchId})) + {matchId};
      }
      assert initial.Keys - remaining == initial.Keys;
    }

    /** Sends `payload` once to every subscriber of `matchId` whose state is
        open, and to nobody else; no socket changes state or topics. */
    method BroadcastToMatch(matchId: string, payload: ServerMessage)
      modifies Subscribers(matchId)
      ensures forall c :: c in old(Subscribers(matchId)) ==>
                c.sent == old(c.sent) + (if c.readyState == Open then [payload] else [])
      ensures forall c :: c in old(Subscribers(matchId)) ==>
                c.readyState == old(c.readyState) && c.topics == old(c.topics)
    {
      if matchId !in matchSubscribers || matchSubscribers[matchId] == {} {
        return;
      }
      var subscribers := matchSubscribers[matchId];
      var pending := subscribers;
      while pending != {}
        invariant pending <= subscribers
        invariant forall c :: c in subscribers - pending ==>
                    c.sent == old(c.sent) + (if c.readyState == Open then [payload] else [])
        invariant forall c :: c in pending ==> c.sent == old(c.sent)
        invariant forall c :: c in subscribers ==>
                    c.readyState == old(c.readyState) && c.topics == old(c.topics)
        decreases pending
      {
        var client :| client in pending;
        if client.readyState == Open {
          client.sent := client.sent + [payload];
        }
        pending := pending - {client};
      }
    }

    /** The `open` handler: join the global topic and greet the client. */
    method OnOpen(ws: Socket)
      modifies ws
      ensures ws.topics == old(ws.topics) + {GlobalTopic}
      ensures ws.sent == old(ws.sent) + [Welcome(WelcomeText)]
    {
      ws.topics := ws.topics + {GlobalTopic};
      SendJson(ws, Welcome(WelcomeText));
    }

    /** The `close` handler: leave the global topic and every match set. */
    method OnClose(ws: Socket)
      modifies this, ws
      ensures ws.topics == old(ws.topics) - {GlobalTopic}
      ensures matchSubscribers == Purged(old(matchSubscribers), ws)
      ensures ws.sent == old(ws.sent)
    {
      ws.topics := ws.topics - {GlobalTopic};
      CleanUpMatchSubscriptions(ws);
    }

    /** `handleMatchMessage` for the modelled message types. The result is
        the point request handed to the controller, if any. */
    method HandleMatchMessage(socket: Socket, message: ClientMessage) returns (request: Option<PointRequest>)
      modifies this, socket
      ensures request == (if message.PointScored? && Truthy(message.pointMatchId)
                             && Truthy(message.playerId) && Truthy(message.actionType)
                          then Some(PointRequest(message.pointMatchId.value, message.playerId.value,
                                                 message.actionType.value))
                          else None)
      ensures matchSubscribers == (match message
                                   case Subscribe(m) => WithSubscriber(old(matchSubscribers), m, socket)
                                   case Unsubscribe(m) => WithoutSubscriber(old(matchSubscribers), m, socket)
                                   case _ => old(matchSubscribers))
      ensures socket.topics == (match message
                                case Subscribe(m) => old(socket.topics) + {m}
                                case Unsubscribe(m) => old(socket.topics) - {m}
                                case _ => old(socket.topics))
      ensures socket.sent == old(socket.sent) + Reply(message)
      ensures socket.readyState == old(socket.readyState)
    {
      request := None;
      match message {
        case Unparseable =>
          SendJson(socket, ErrorReply(InvalidJsonText));
        case RequestStats(_) =>
        case Subscribe(matchId) =>
          SubscribeToMatch(matchId, socket);
          socket.topics := socket.topics + {matchId};
          SendJson(socket, SubscribedReply("Subscribed to match " + matchId));
        case Unsubscribe(matchId) =>
          UnsubscribeFromMatch(matchId, socket);
          socket.topics := socket.topics - {matchId};
          SendJson(socket, UnsubscribedReply("Unsubscribed from match " + matchId));
        case PointScored(matchId, playerId, actionType) =>
          if !Truthy(matchId) || !Truthy(playerId) || !Truthy(actionType) {
            SendJson(socket, ErrorReply(MissingFieldsText));
          } else {
            request := Some(PointRequest(matchId.value, playerId.value, actionType.value));
          }
        case OtherType =>
      }
    }
  }

  /** The reply the router sends at once for a message. */
  function Reply(message: ClientMessage): (out: seq<ServerMessage>)
    ensures |out| <= 1
    ensures message.PointScored? ==>
              (out == [] <==> Truthy(message.pointMatchId) && Truthy(message.playerId) && Truthy(message.actionType))
  {
    match message
    case Unparseable => [ErrorReply(InvalidJsonText)]
    case Subscribe(m) => [SubscribedReply("Subscribed to match " + m)]
    case Unsubscribe(m) => [UnsubscribedReply("Unsubscribed from match " + m)]
    case PointScored(m, p, a) =>
      if Truthy(m) && Truthy(p) && Truthy(a) then [] else [ErrorReply(MissingFieldsText)]
    case _ => []
  }

  // ---------------------------------------------------------------------
  // Properties of the registry
  // ---------------------------------------------------------------------

  /** Subscribing adds exactly the one membership. */
  lemma SubscribeAddsOnlyThatMembership(r: Registry, m: string, s: Socket, k: string, t: Socket)
    ensures Member(WithSubscriber(r, m, s), k, t) <==> (k == m && t == s) || Member(r, k, t)
  {
  }

  /** Subscribing twice is the same as subscribing once. */
  lemma SubscribeIdempotent(r: Registry, m: string, s: Socket)
    ensures WithSubscriber(WithSubscriber(r, m, s), m, s) == WithSubscriber(r, m, s)
  {
  }

  /** Unsubscribing removes exactly the one membership. */
  lemma UnsubscribeRemovesOnlyThatMembership(r: Registry, m: string, s: Socket, k: string, t: Socket)
    ensures Member(WithoutSubscriber(r, m, s), k, t) <==> !(k == m && t == s) && Member(r, k, t)
  {
    if k == m && t != s && Member(r, k, t) {
      assert t in r[m] - {s};
    }
  }

  /** Unsubscribing a socket that was just subscribed to a match it did not
      follow gives the registry back. */
  lemma SubscribeThenUnsubscribe(r: Registry, m: string, s: Socket)
    requires NoEmptySets(r) && !Member(r, m, s)
    ensures WithoutSubscriber(WithSubscriber(r, m, s), m, s) == r
  {
    var w := WithoutSubscriber(WithSubscriber(r, m, s), m, s);
    if m in r {
      assert r[m] + {s} - {s} == r[m];
    }
    assert w.Keys == r.Keys;
  }

  /** Clean-up removes the socket from every set and no other membership. */
  lemma PurgeRemovesOnlyThatSocket(r: Registry, s: Socket, k: string, t: Socket)
    ensures Member(Purged(r, s), k, t) <==> t != s && Member(r, k, t)
  {
    if t != s && Member(r, k, t) {
      assert t in r[k] - {s};
    }
  }

  /** Subscribing keeps the registry free of empty sets. */
  lemma SubscribeKeepsNoEmptySets(r: Registry, m: string, s: Socket)
    requires NoEmptySets(r)
    ensures NoEmptySets(WithSubscriber(r, m, s))
  {
  }

  /** Unsubscribing keeps the registry free of empty sets. */
  lemma UnsubscribeKeepsNoEmptySets(r: Registry, m: string, s: Socket)
    requires NoEmptySets(r)
    ensures NoEmptySets(WithoutSubscriber(r, m, s))
  {
  }

  /** Clean-up keeps the registry free of empty sets. */
  lemma PurgeKeepsNoEmptySets(r: Registry, s: Socket)
    requires NoEmptySets(r)
    ensures NoEmptySets(Purged(r, s))
  {
  }

  /** One step of the clean-up loop: visiting a key that is still as it was
      applies `unsubscribeFromMatch` to it when it holds the socket. */
  lemma PurgeStep(r: Registry, s: Socket, ks: set<string>, k: string)
    requires k in r && k !in ks
    ensures var p := PurgedOn(r, s, ks);
            && k in p && p[k] == r[k]
            && PurgedOn(r, s, ks + {k}) == (if s in r[k] then WithoutSubscriber(p, k, s) else p)
  {
    var p := PurgedOn(r, s, ks);
    var q := PurgedOn(r, s, ks + {k});
    if s in r[k] {
      var w := WithoutSubscriber(p, k, s);
      assert q.Keys == w.Keys;
      assert forall j :: j in q ==> q[j] == w[j];
    } else {
      assert r[k] - {s} == r[k];
      assert q.Keys == p.Keys;
      assert forall j :: j in q ==> q[j] == p[j];
    }
  }
}
