/**
 * The driver-station link: the per-client heartbeat table that the WebSocket
 * server's callbacks and two alarm callbacks update, and the pure dispatch of
 * incoming frames to replies.
 *
 * The WebSocket server, the alarm service and msgpack are outside the model.
 * The server is seen through the calls made to it (an outbox of Outbound
 * events); the alarm service through a counter that hands out fresh positive
 * ids and the set of alarms currently armed, each tagged with the callback it
 * will run; msgpack through the function values of a Codec.
 */
module Control {
  import opened Wrappers
  import Bringup

  type byte = x: int | 0 <= x < 256

  /** The server's opaque identity of a connected client. */
  type Guid = nat

  /** alarm_id_t.  The alarm service hands out positive ids; 0 marks "no alarm". */
  type AlarmId = int

  const NO_ALARM: AlarmId := 0

  // Opcodes of RFC 6455, section 5.2.
  const CONTINUATION_FRAME: nat := 0x0
  const TEXT_FRAME: nat := 0x1
  const BINARY_FRAME: nat := 0x2
  const CONNECTION_CLOSE: nat := 0x8
  const PING_FRAME: nat := 0x9
  const PONG_FRAME: nat := 0xA

  /** Packet tags, the first byte of a binary frame's payload. */
  const CLOCK_SYNC: byte := 0
  const ROBOT_PROPERTIES: byte := 1

  const TEXT_NOT_SUPPORTED: string := "Text frames are not supported by this protocol."
  const UNSUPPORTED_FRAME: string := "Unsupported frame received."
  const UNPACK_ERROR_PREFIX: string := "Error unpacking: "

  datatype WebSocketFrame = WebSocketFrame(isFragment: bool, opcode: nat, payload: seq<byte>)

  datatype ClockSyncRequestPacket = ClockSyncRequestPacket(clientTime: int)
  datatype ClockSyncPacket = ClockSyncPacket(clientTime: int, serverTime: nat)

  /**
   * msgpack as the link uses it: the request decoder (an error carries the
   * error code's message), the response encoder, and the encoding of the
   * robot's static properties.
   */
  datatype Codec = Codec(
    unpackClockSyncRequest: seq<byte> -> Result<ClockSyncRequestPacket>,
    packClockSync: ClockSyncPacket -> seq<byte>,
    packedRobotProperties: seq<byte>)

  datatype Reply = TextReply(text: string) | BinaryReply(data: seq<byte>)

  // ---------------------------------------------------------------------
  // Subprotocol negotiation

  /** std::find: the index of the first occurrence of name, or |names| when there is none. */
  function Find(names: seq<string>, name: string): (i: nat)
    ensures i <= |names|
    ensures i < |names| ==> names[i] == name
    ensures forall j :: 0 <= j < i ==> names[j] != name
  {
    if names == [] then 0
    else if names[0] == name then 0
    else 1 + Find(names[1..], name)
  }

  /** The server's protocol callback: accept the driver-station protocol if the client offers it, otherwise none. */
  function NegotiateProtocol(protocol: string, requested: seq<string>): (chosen: string)
    ensures protocol in requested ==> chosen == protocol
    ensures protocol !in requested ==> chosen == ""
  {
    if Find(requested, protocol) != |requested| then protocol else ""
  }

  // ---------------------------------------------------------------------
  // Frame dispatch

  /** handleFrame: the reply to a binary frame's payload, selected by its first byte. */
  function HandleFrame(codec: Codec, payload: seq<byte>, now: nat): (r: Option<Reply>)
    ensures r.None? <==> payload == []
    ensures r.Some? && r.value.BinaryReply? ==> |r.value.data| > 0 && r.value.data[0] == payload[0]
    ensures payload != [] && payload[0] != CLOCK_SYNC && payload[0] != ROBOT_PROPERTIES ==>
      r == Some(TextReply(UNSUPPORTED_FRAME))
    ensures payload != [] && payload[0] == ROBOT_PROPERTIES ==>
      r == Some(BinaryReply([ROBOT_PROPERTIES] + codec.packedRobotProperties))
    ensures payload != [] && payload[0] == CLOCK_SYNC ==>
      match codec.unpackClockSyncRequest(payload[1..])
      case Err(m) => r == Some(TextReply(UNPACK_ERROR_PREFIX + m))
      case Ok(request) => r == Some(BinaryReply([CLOCK_SYNC] + codec.packClockSync(ClockSyncPacket(request.clientTime, now))))
  {
    if |payload| == 0 then None
    else if payload[0] == CLOCK_SYNC then
      match codec.unpackClockSyncRequest(payload[1..])
      case Err(m) => Some(TextReply(UNPACK_ERROR_PREFIX + m))
      case Ok(request) =>
        var response := ClockSyncPacket(request.clientTime, now);
        Some(BinaryReply([CLOCK_SYNC] + codec.packClockSync(response)))
    else if payload[0] == ROBOT_PROPERTIES then
      Some(BinaryReply([ROBOT_PROPERTIES] + codec.packedRobotProperties))
    else
      Some(TextReply(UNSUPPORTED_FRAME))
  }

  /** The messageReceived handler: only whole text and binary frames are answered. */
  function MessageReceived(codec: Codec, frame: WebSocketFrame, now: nat): (r: Option<Reply>)
    ensures frame.isFragment ==> r.None?
    ensures !frame.isFragment && frame.opcode == TEXT_FRAME ==> r == Some(TextReply(TEXT_NOT_SUPPORTED))
    ensures !frame.isFragment && frame.opcode == BINARY_FRAME ==> r == HandleFrame(codec, frame.payload, now)
    ensures frame.opcode != TEXT_FRAME && frame.opcode != BINARY_FRAME ==> r.None?
  {
    if frame.isFragment then None
    else if frame.opcode == TEXT_FRAME then Some(TextReply(TEXT_NOT_SUPPORTED))
    else if frame.opcode == BINARY_FRAME then HandleFrame(codec, frame.payload, now)
    else None
  }

  /** Continuation frames and the control frames (close, ping, pong) of RFC 6455 are never answered by the link. */
  lemma ControlFramesUnanswered(codec: Codec, frame: WebSocketFrame, now: nat)
    requires frame.opcode == CONTINUATION_FRAME || frame.opcode == CONNECTION_CLOSE
          || frame.opcode == PING_FRAME || frame.opcode == PONG_FRAME
    ensures MessageReceived(codec, frame, now) == None
  {
  }

  /**
   * A clock-sync reply carries the request's own clientTime and the server time
   * at receipt: any decoder that inverts the response encoder reads them back.
   */
  lemma ClockSyncRoundTrip(codec: Codec, unpackResponse: seq<byte> -> ClockSyncPacket,
                           payload: seq<byte>, now: nat, request: ClockSyncRequestPacket)
    requires forall p :: unpackResponse(codec.packClockSync(p)) == p
    requires payload != [] && payload[0] == CLOCK_SYNC
    requires codec.unpackClockSyncRequest(payload[1..]) == Ok(request)
    ensures var r := HandleFrame(codec, payload, now);
      r.Some? && r.value.BinaryReply? &&
      unpackResponse(r.value.data[1..]) == ClockSyncPacket(request.clientTime, now)
  {
    var data := [CLOCK_SYNC] + codec.packClockSync(ClockSyncPacket(request.clientTime, now));
    assert data[1..] == codec.packClockSync(ClockSyncPacket(request.clientTime, now));
  }

  /** Unknown tags are never parsed: the reply depends on the tag alone, not on the bytes after it. */
  lemma UnknownTagIgnoresBody(codec: Codec, p: seq<byte>, q: seq<byte>, now: nat)
    requires p != [] && q != [] && p[0] == q[0]
    requires p[0] != CLOCK_SYNC && p[0] != ROBOT_PROPERTIES
    ensures HandleFrame(codec, p, now) == HandleFrame(codec, q, now) == Some(TextReply(UNSUPPORTED_FRAME))
  {
  }

  // ---------------------------------------------------------------------
  // The heartbeat table

  /** ClientData: the client's pending pong-timeout alarm and its ping-interval alarm. */
  datatype ClientData = ClientData(pongTimeoutAlarm: AlarmId, pingIntervalAlarm: AlarmId)

  /** Which callback an armed alarm runs when it fires. */
  datatype Purpose = PongTimeout | PingInterval

  datatype Alarm = Alarm(purpose: Purpose, delayMs: nat)

  /** Calls from the driver station into the WebSocket server. */
  datatype Outbound =
    | SendText(to: Guid, text: string)
    | SendBinary(to: Guid, data: seq<byte>)
    | SendPing(to: Guid)
    | DisconnectClient(to: Guid)

  /** The heartbeat state of a client, read off which of its alarms is armed. */
  datatype Session = AwaitingPong | Healthy | Expired

  /** clients[g] as operator[] reads it: a missing client reads as a value-initialised ClientData. */
  function Lookup(clients: map<Guid, ClientData>, g: Guid): ClientData
  {
    if g in clients then clients[g] else ClientData(NO_ALARM, NO_ALARM)
  }

  function AlarmOf(c: ClientData, purpose: Purpose): AlarmId
  {
    match purpose
    case PongTimeout => c.pongTimeoutAlarm
    case PingInterval => c.pingIntervalAlarm
  }

  /** The server call that sends a reply to client g, if there is a reply. */
  function ReplyCalls(g: Guid, r: Option<Reply>): seq<Outbound>
  {
    match r
    case None => []
    case Some(TextReply(t)) => [SendText(g, t)]
    case Some(BinaryReply(d)) => [SendBinary(g, d)]
  }

  /** Every slot of the table holds 0 or an id below bound. */
  ghost predicate IdsBelow(clients: map<Guid, ClientData>, bound: AlarmId)
  {
    forall g, p :: g in clients ==> 0 <= AlarmOf(clients[g], p) < bound
  }

  /** An armed alarm that a slot refers to runs the callback of that slot's purpose. */
  ghost predicate PurposesAgree(clients: map<Guid, ClientData>, armed: map<AlarmId, Alarm>)
  {
    forall g, p :: g in clients && AlarmOf(clients[g], p) in armed ==> armed[AlarmOf(clients[g], p)].purpose == p
  }

  /** A nonzero id sits in at most one slot of the table. */
  ghost predicate SlotsUnique(clients: map<Guid, ClientData>)
  {
    forall g, h, p, q :: g in clients && h in clients && AlarmOf(clients[g], p) == AlarmOf(clients[h], q) != NO_ALARM
      ==> g == h && p == q
  }

  /**
   * The alarm bookkeeping of the driver station: the service has handed out
   * exactly the ids below next, so armed ids and table ids are below it, each
   * nonzero id sits in one slot, and armed alarms agree with their slots.
   */
  ghost predicate AlarmsConsistent(clients: map<Guid, ClientData>, armed: map<AlarmId, Alarm>, next: AlarmId)
  {
    && next > 0
    && (forall id :: id in armed ==> 0 < id < next)
    && IdsBelow(clients, next)
    && PurposesAgree(clients, armed)
    && SlotsUnique(clients)
  }

  lemma OwnerUnique(clients: map<Guid, ClientData>, g: Guid, h: Guid, p: Purpose, q: Purpose)
    requires SlotsUnique(clients)
    requires g in clients && h in clients && AlarmOf(clients[g], p) == AlarmOf(clients[h], q) != NO_ALARM
    ensures g == h && p == q
  {
  }

  /** The pong timeout of g, the id that ping and pong may cancel, sits in no slot of another client; every slot of the table is below next. */
  lemma OthersAvoid(clients: map<Guid, ClientData>, next: AlarmId, g: Guid, x: AlarmId)
    requires IdsBelow(clients, next) && SlotsUnique(clients)
    requires x == NO_ALARM || x == Lookup(clients, g).pongTimeoutAlarm
    ensures forall h :: h in clients && h != g ==>
      && clients[h].pongTimeoutAlarm < next && clients[h].pingIntervalAlarm < next
      && (x == NO_ALARM || (clients[h].pongTimeoutAlarm != x && clients[h].pingIntervalAlarm != x))
  {
    forall h | h in clients && h != g
      ensures clients[h].pongTimeoutAlarm < next && clients[h].pingIntervalAlarm < next
      ensures x == NO_ALARM || (clients[h].pongTimeoutAlarm != x && clients[h].pingIntervalAlarm != x)
    {
      assert AlarmOf(clients[h], PongTimeout) < next && AlarmOf(clients[h], PingInterval) < next;
      if x != NO_ALARM {
        assert x == AlarmOf(clients[g], PongTimeout);
        if clients[h].pongTimeoutAlarm == x {
          OwnerUnique(clients, h, g, PongTimeout, PongTimeout);
        }
        if clients[h].pingIntervalAlarm == x {
          OwnerUnique(clients, h, g, PingInterval, PongTimeout);
        }
      }
    }
  }

  /**
   * Replacing g's entry by c, after cancelling x (0 or g's pong timeout) and
   * arming the fresh id next for purpose, keeps the bookkeeping consistent, as
   * long as every slot of c is 0, the slot g had, or next in the slot of purpose.
   * The slots of the other clients are armed exactly as before.
   */
  lemma ReplaceEntry(clients: map<Guid, ClientData>, armed: map<AlarmId, Alarm>, next: AlarmId,
                     g: Guid, c: ClientData, x: AlarmId, purpose: Purpose, delayMs: nat)
    requires AlarmsConsistent(clients, armed, next)
    requires x == NO_ALARM || x == Lookup(clients, g).pongTimeoutAlarm
    requires forall p :: AlarmOf(c, p) == NO_ALARM || AlarmOf(c, p) == AlarmOf(Lookup(clients, g), p) || (p == purpose && AlarmOf(c, p) == next)
    ensures var armed' := (armed - {x})[next := Alarm(purpose, delayMs)];
      && AlarmsConsistent(clients[g := c], armed', next + 1)
      && (forall h :: h in clients && h != g ==>
            && (clients[h].pongTimeoutAlarm in armed' <==> clients[h].pongTimeoutAlarm in armed)
            && (clients[h].pingIntervalAlarm in armed' <==> clients[h].pingIntervalAlarm in armed))
  {
    var m := clients[g := c];
    var armed' := (armed - {x})[next := Alarm(purpose, delayMs)];
    forall h, p | h in m
      ensures 0 <= AlarmOf(m[h], p) < next + 1
    {
      if h == g {
        assert AlarmOf(Lookup(clients, g), p) < next;
      }
    }
    forall h, p | h in m && AlarmOf(m[h], p) in armed'
      ensures armed'[AlarmOf(m[h], p)].purpose == p
    {
      var v := AlarmOf(m[h], p);
      if v == next {
        assert h == g && p == purpose;
      } else {
        assert h in clients && v == AlarmOf(clients[h], p) && v in armed;
      }
    }
    forall h, k, p, q | h in m && k in m && AlarmOf(m[h], p) == AlarmOf(m[k], q) != NO_ALARM
      ensures h == k && p == q
    {
      var v := AlarmOf(m[h], p);
      if v == next {
        assert h == g && k == g && p == purpose && q == purpose;
      } else {
        assert h in clients && v == AlarmOf(clients[h], p);
        assert k in clients && v == AlarmOf(clients[k], q);
        OwnerUnique(clients, h, k, p, q);
      }
    }
    OthersAvoid(clients, next, g, x);
  }

  /** Forgetting g after cancelling g's pong timeout keeps the bookkeeping consistent, and the other clients' alarms armed as before. */
  lemma RemoveEntry(clients: map<Guid, ClientData>, armed: map<AlarmId, Alarm>, next: AlarmId, g: Guid)
    requires AlarmsConsistent(clients, armed, next)
    ensures var armed' := armed - {Lookup(clients, g).pongTimeoutAlarm};
      && AlarmsConsistent(clients - {g}, armed', next)
      && (forall h :: h in clients && h != g ==>
            && (clients[h].pongTimeoutAlarm in armed' <==> clients[h].pongTimeoutAlarm in armed)
            && (clients[h].pingIntervalAlarm in armed' <==> clients[h].pingIntervalAlarm in armed))
  {
    OthersAvoid(clients, next, g, Lookup(clients, g).pongTimeoutAlarm);
  }

  /** std::find_if over the table: a client whose alarm for purpose is id, or None when there is none. */
  method FindByAlarm(clients: map<Guid, ClientData>, id: AlarmId, purpose: Purpose) returns (found: Option<Guid>)
    ensures found.Some? ==> found.value in clients && AlarmOf(clients[found.value], purpose) == id
    ensures found.None? ==> forall g :: g in clients ==> AlarmOf(clients[g], purpose) != id
  {
    var unseen := clients.Keys;
    while unseen != {}
      invariant unseen <= clients.Keys
      invariant forall g :: g in clients && g !in unseen ==> AlarmOf(clients[g], purpose) != id
      decreases |unseen|
    {
      var g :| g in unseen;
      if AlarmOf(clients[g], purpose) == id {
        return Some(g);
      }
      unseen := unseen - {g};
    }
    return None;
  }

  class Driverstation {
    /** DRIVERSTATION_TIMEOUT_MS, both the pong timeout and the ping interval. */
    const timeoutMs: nat
    const codec: Codec
    var clients: map<Guid, ClientData>
    /** The alarm service: the next id it hands out, and the alarms it has armed. */
    var nextAlarm: AlarmId
    var armed: map<AlarmId, Alarm>
    var outbox: seq<Outbound>

    ghost predicate Valid()
      reads this
    {
      AlarmsConsistent(clients, armed, nextAlarm)
    }

    /** No client has both a pong timeout and a ping interval pending. */
    ghost predicate OneDeadline()
      reads this
    {
      forall g :: g in clients ==> !(clients[g].pongTimeoutAlarm in armed && clients[g].pingIntervalAlarm in armed)
    }

    ghost function SessionOf(g: Guid): Session
      reads this
      requires g in clients
    {
      if clients[g].pongTimeoutAlarm in armed then AwaitingPong
      else if clients[g].pingIntervalAlarm in armed then Healthy
      else Expired
    }

    /** Driverstation(): an empty table; no alarm armed, nothing sent.  The creation is recorded in log. */
    constructor (timeoutMs: nat, codec: Codec, log: Bringup.StepLog)
      modifies log
      ensures log.steps == old(log.steps) + [Bringup.CreateDriverstation]
      ensures Valid() && OneDeadline()
      ensures this.timeoutMs == timeoutMs && this.codec == codec
      ensures clients == map[] && armed == map[] && outbox == []
    {
      this.timeoutMs := timeoutMs;
      this.codec := codec;
      clients := map[];
      nextAlarm := 1;
      armed := map[];
      outbox := [];
      new;
      log.Record(Bringup.CreateDriverstation);
    }

    /** add_alarm_in_ms: arms a fresh alarm; the service never fails to. */
    method AddAlarmInMs(delayMs: nat, purpose: Purpose) returns (id: AlarmId)
      modifies this`nextAlarm, this`armed
      ensures id == old(nextAlarm) && nextAlarm == old(nextAlarm) + 1
      ensures armed == old(armed)[id := Alarm(purpose, delayMs)]
    {
      id := nextAlarm;
      nextAlarm := nextAlarm + 1;
      armed := armed[id := Alarm(purpose, delayMs)];
    }

    /** cancel_alarm: disarms id; an id that is not armed (0, fired, cancelled) is a no-op. */
    method CancelAlarm(id: AlarmId)
      modifies this`armed
      ensures armed == old(armed) - {id}
    {
      armed := armed - {id};
    }

    /** ping(g): sends a ping and arms a fresh pong timeout for g, keeping g's ping-interval slot (0 for a new entry). */
    method Ping(g: Guid)
      requires Valid()
      modifies this
      ensures Valid()
      ensures outbox == old(outbox) + [SendPing(g)]
      ensures nextAlarm == old(nextAlarm) + 1
      ensures armed == old(armed)[old(nextAlarm) := Alarm(PongTimeout, timeoutMs)]
      ensures clients == old(clients)[g := ClientData(old(nextAlarm), Lookup(old(clients), g).pingIntervalAlarm)]
      ensures SessionOf(g) == AwaitingPong
      ensures forall h :: h in old(clients) && h != g ==> SessionOf(h) == old(SessionOf(h))
      ensures old(OneDeadline()) && Lookup(old(clients), g).pingIntervalAlarm !in old(armed) ==> OneDeadline()
    {
      if g in clients {
        assert AlarmOf(clients[g], PingInterval) < nextAlarm;
      }
      ReplaceEntry(clients, armed, nextAlarm, g, ClientData(nextAlarm, Lookup(clients, g).pingIntervalAlarm),
                   NO_ALARM, PongTimeout, timeoutMs);
      assert armed - {NO_ALARM} == armed;
      outbox := outbox + [SendPing(g)];
      var pongTimeout := AddAlarmInMs(timeoutMs, PongTimeout);
      clients := clients[g := ClientData(pongTimeout, Lookup(clients, g).pingIntervalAlarm)];
    }

    /** The server's clientConnected callback: the new client is pinged at once. */
    method ClientConnected(g: Guid)
      requires Valid()
      modifies this
      ensures Valid()
      ensures outbox == old(outbox) + [SendPing(g)]
      ensures nextAlarm == old(nextAlarm) + 1
      ensures armed == old(armed)[old(nextAlarm) := Alarm(PongTimeout, timeoutMs)]
      ensures clients == old(clients)[g := ClientData(old(nextAlarm), Lookup(old(clients), g).pingIntervalAlarm)]
      ensures SessionOf(g) == AwaitingPong
      ensures old(OneDeadline()) && g !in old(clients) ==> OneDeadline()
    {
      Ping(g);
    }

    /** The server's clientDisconnected callback: cancels g's pong timeout (not its ping interval) and forgets g. */
    method ClientDisconnected(g: Guid)
      requires Valid()
      modifies this
      ensures Valid()
      ensures clients == old(clients) - {g}
      ensures armed == old(armed) - {Lookup(old(clients), g).pongTimeoutAlarm}
      ensures outbox == old(outbox) && nextAlarm == old(nextAlarm)
      ensures forall h :: h in clients ==> SessionOf(h) == old(SessionOf(h))
      ensures old(OneDeadline()) ==> OneDeadline()
    {
      RemoveEntry(clients, armed, nextAlarm, g);
      CancelAlarm(Lookup(clients, g).pongTimeoutAlarm);
      clients := clients - {g};
    }

    /** The server's pong callback: cancels g's pong timeout and arms its next ping, creating the entry if g has none. */
    method PongReceived(g: Guid)
      requires Valid()
      modifies this
      ensures Valid()
      ensures outbox == old(outbox) && nextAlarm == old(nextAlarm) + 1
      ensures armed == (old(armed) - {Lookup(old(clients), g).pongTimeoutAlarm})[old(nextAlarm) := Alarm(PingInterval, timeoutMs)]
      ensures clients == old(clients)[g := ClientData(NO_ALARM, old(nextAlarm))]
      ensures SessionOf(g) == Healthy
      ensures forall h :: h in old(clients) && h != g ==> SessionOf(h) == old(SessionOf(h))
      ensures old(OneDeadline()) ==> OneDeadline()
    {
      ReplaceEntry(clients, armed, nextAlarm, g, ClientData(NO_ALARM, nextAlarm),
                   Lookup(clients, g).pongTimeoutAlarm, PingInterval, timeoutMs);
      CancelAlarm(Lookup(clients, g).pongTimeoutAlarm);
      var pingInterval := AddAlarmInMs(timeoutMs, PingInterval);
      clients := clients[g := ClientData(NO_ALARM, pingInterval)];
    }

    /** The server's messageReceived callback: at most one reply, to the sender. */
    method MessageReceivedFrom(g: Guid, frame: WebSocketFrame, now: nat)
      modifies this`outbox
      ensures outbox == old(outbox) + ReplyCalls(g, MessageReceived(codec, frame, now))
    {
      var r := MessageReceived(codec, frame, now);
      outbox := outbox + ReplyCalls(g, r);
    }

    /** TimeoutAlarmCallback: asks the server to drop the client whose pong timeout this is; returns 0. */
    method TimeoutAlarmCallback(id: AlarmId) returns (reschedule: int)
      requires Valid() && id != NO_ALARM
      modifies this`outbox
      ensures reschedule == 0
      ensures forall g :: g in clients && clients[g].pongTimeoutAlarm == id ==> outbox == old(outbox) + [DisconnectClient(g)]
      ensures (forall g :: g in clients ==> clients[g].pongTimeoutAlarm != id) ==> outbox == old(outbox)
    {
      var found := FindByAlarm(clients, id, PongTimeout);
      if found.Some? {
        outbox := outbox + [DisconnectClient(found.value)];
        forall g | g in clients && clients[g].pongTimeoutAlarm == id
          ensures g == found.value
        {
          OwnerUnique(clients, g, found.value, PongTimeout, PongTimeout);
        }
      }
      reschedule := 0;
    }

    /** PingIntervalCallback: pings the client whose ping interval this is; returns 0. */
    method PingIntervalCallback(id: AlarmId) returns (reschedule: int)
      requires Valid() && id != NO_ALARM
      modifies this
      ensures Valid() && reschedule == 0
      ensures forall g :: g in old(clients) && old(clients)[g].pingIntervalAlarm == id ==>
        && outbox == old(outbox) + [SendPing(g)]
        && nextAlarm == old(nextAlarm) + 1
        && armed == old(armed)[old(nextAlarm) := Alarm(PongTimeout, timeoutMs)]
        && clients == old(clients)[g := ClientData(old(nextAlarm), id)]
        && SessionOf(g) == AwaitingPong
      ensures (forall g :: g in old(clients) ==> old(clients)[g].pingIntervalAlarm != id) ==>
        outbox == old(outbox) && nextAlarm == old(nextAlarm) && armed == old(armed) && clients == old(clients)
      ensures forall h :: h in old(clients) && old(clients)[h].pingIntervalAlarm != id ==> h in clients && SessionOf(h) == old(SessionOf(h))
      ensures old(OneDeadline()) && id !in old(armed) ==> OneDeadline()
    {
      var found := FindByAlarm(clients, id, PingInterval);
      if found.Some? {
        forall g | g in clients && clients[g].pingIntervalAlarm == id
          ensures g == found.value
        {
          OwnerUnique(clients, g, found.value, PingInterval, PingInterval);
        }
        Ping(found.value);
      }
      reschedule := 0;
    }

    /**
     * The alarm service fires the armed alarm id: it is disarmed (the callbacks
     * return 0, so it is not rescheduled) and its callback runs.  An alarm that
     * no client refers to any more changes nothing else.
     */
    method Fire(id: AlarmId)
      requires Valid() && id in armed
      modifies this
      ensures Valid()
      ensures id !in armed
      ensures (forall g :: g in old(clients) ==> old(clients)[g].pongTimeoutAlarm != id && old(clients)[g].pingIntervalAlarm != id) ==>
        clients == old(clients) && outbox == old(outbox) && nextAlarm == old(nextAlarm) && armed == old(armed) - {id}
      ensures forall g :: g in old(clients) && old(clients)[g].pongTimeoutAlarm == id ==>
        && outbox == old(outbox) + [DisconnectClient(g)]
        && clients == old(clients) && nextAlarm == old(nextAlarm) && armed == old(armed) - {id}
        && (old(OneDeadline()) ==> SessionOf(g) == Expired)
      ensures forall g :: g in old(clients) && old(clients)[g].pingIntervalAlarm == id ==>
        && outbox == old(outbox) + [SendPing(g)]
        && clients == old(clients)[g := ClientData(old(nextAlarm), id)]
        && nextAlarm == old(nextAlarm) + 1
        && armed == (old(armed) - {id})[old(nextAlarm) := Alarm(PongTimeout, timeoutMs)]
        && SessionOf(g) == AwaitingPong
      ensures old(OneDeadline()) ==> OneDeadline()
    {
      var purpose := armed[id].purpose;
      forall g | g in clients
        ensures clients[g].pongTimeoutAlarm == id ==> purpose == PongTimeout
        ensures clients[g].pingIntervalAlarm == id ==> purpose == PingInterval
      {
        assert AlarmOf(clients[g], PongTimeout) == clients[g].pongTimeoutAlarm;
        assert AlarmOf(clients[g], PingInterval) == clients[g].pingIntervalAlarm;
      }
      armed := armed - {id};
      match purpose
      case PongTimeout =>
        var _ := TimeoutAlarmCallback(id);
      case PingInterval =>
        var _ := PingIntervalCallback(id);
    }
  }
}
