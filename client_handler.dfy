/**
 * The per-connection dispatcher (ClientHandler.java). A connection keeps four
 * session fields: floor, room, nickname and role. Each incoming message is
 * dispatched on its upper-cased type, has its unset fields filled from the
 * session, calls the services, and produces effects: messages broadcast
 * through the server, messages sent back to this client, and chat records
 * handed to the chat log. An exception ends the handling of the message;
 * effects produced before it stay, and the connection goes on.
 *
 * `Step` specifies one message on (session, services' state) as values;
 * the class `ClientHandler` holds the session fields, shares the service
 * objects, and its `Handle` method is proved equal to `Step`.
 */
module Dispatch {
  import opened Wrappers
  import opened JavaText
  import opened Entities
  import opened CheckinEntity
  import opened Occupancy
  import opened Messages
  import opened SensorCache
  import opened ChatLog

  /** A request to another service. */
  datatype Call = SaveChatRecord(record: ChatRecord)

  /** What handling a message does outside the handler. */
  datatype Effect =
    | Broadcast(message: SocketMessage)   // server.broadcast(message, …)
    | Unicast(message: SocketMessage)     // this.sendMessage(message)
    | ServiceCall(call: Call)

  /** The session fields of one connection. */
  datatype Session = Session(floor: Int32, room: Option<string>, nickname: Option<string>, role: Option<string>)

  /** A new connection: floor 0 and the rest null. */
  const Fresh := Session(0, None, None, None)

  /** The state of the shared services a message can change. */
  datatype World = World(table: Table, sensors: SensorState)

  /** The session, the services' state and the effects after one message. */
  datatype Outcome = Outcome(session: Session, world: World, effects: seq<Effect>)

  // ---------------------------------------------------------------------------
  // Rooms
  // ---------------------------------------------------------------------------

  /** No room: null, blank, or the text "null" in any case. */
  predicate NoRoom(room: Option<string>) {
    room.None? || IsBlank(room.value) || EqualsIgnoreCase("null", room.value)
  }

  /**
   * `isSameRoom(floor, room)` of a session: same floor, and either both
   * sides have no room or both have the same room text (case-sensitive).
   */
  predicate SameRoom(s: Session, floor: Int32, room: Option<string>) {
    if s.floor != floor then false
    else if NoRoom(s.room) && NoRoom(room) then true
    else if !NoRoom(s.room) && !NoRoom(room) then s.room.value == room.value
    else false
  }

  /** `isSameRoom` in full: both directions of its meaning, and its symmetry. */
  lemma SameRoomMeaning(s: Session, floor: Int32, room: Option<string>)
    ensures SameRoom(s, floor, room) <==>
      s.floor == floor && ((NoRoom(s.room) && NoRoom(room)) || (!NoRoom(s.room) && !NoRoom(room) && s.room == room))
    ensures SameRoom(s, floor, room) == SameRoom(s.(floor := floor, room := room), s.floor, s.room)
  {
  }

  /** "NULL", "Null" and the blank text all count as no room. */
  lemma NullTextIsNoRoom()
    ensures NoRoom(Some("NULL")) && NoRoom(Some("Null")) && NoRoom(Some(" ")) && NoRoom(Some(""))
    ensures !NoRoom(Some("A"))
  {
    assert UpperChar('l') == 'L' && UpperChar('u') == 'U';
    assert !IsBlank("A") by { assert !IsWhitespace("A"[0]); }
  }

  // ---------------------------------------------------------------------------
  // Backfill
  // ---------------------------------------------------------------------------

  function OrElse<T>(x: Option<T>, d: Option<T>): Option<T> {
    if x.Some? then x else d
  }

  /** Fill a null floor and room from the session. */
  function BackfillPlace(m: SocketMessage, s: Session): SocketMessage {
    m.(floor := Some(if m.floor.Some? then m.floor.value else s.floor), room := OrElse(m.room, s.room))
  }

  /** Also fill a null sender and role (CHAT, ADMIN_CHAT, SENSOR_DATA). */
  function BackfillSender(m: SocketMessage, s: Session): SocketMessage {
    BackfillPlace(m, s).(sender := OrElse(m.sender, s.nickname), role := OrElse(m.role, s.role))
  }

  /** Also fill a null userId from the nickname (the seat requests). */
  function BackfillUser(m: SocketMessage, s: Session): SocketMessage {
    BackfillPlace(m, s).(userId := OrElse(m.userId, s.nickname))
  }

  /**
   * Backfill replaces only null fields, with the session's value, and
   * leaves every other field alone; afterwards the floor is always set.
   */
  lemma BackfillOnlyNulls(m: SocketMessage, s: Session)
    ensures var b := BackfillSender(m, s);
      && b.floor.Some? && (m.floor.Some? ==> b.floor == m.floor) && (m.floor.None? ==> b.floor == Some(s.floor))
      && (m.room.Some? ==> b.room == m.room) && (m.room.None? ==> b.room == s.room)
      && (m.sender.Some? ==> b.sender == m.sender) && (m.sender.None? ==> b.sender == s.nickname)
      && (m.role.Some? ==> b.role == m.role) && (m.role.None? ==> b.role == s.role)
      && b.(floor := m.floor, room := m.room, sender := m.sender, role := m.role) == m
    ensures var b := BackfillUser(m, s);
      && b.floor.Some? && (m.floor.Some? ==> b.floor == m.floor) && (m.floor.None? ==> b.floor == Some(s.floor))
      && (m.room.Some? ==> b.room == m.room) && (m.room.None? ==> b.room == s.room)
      && (m.userId.Some? ==> b.userId == m.userId) && (m.userId.None? ==> b.userId == s.nickname)
      && b.(floor := m.floor, room := m.room, userId := m.userId) == m
  {
  }

  // ---------------------------------------------------------------------------
  // The specification of one message
  // ---------------------------------------------------------------------------

  /**
   * `sendSeatUpdateToRoom` / `sendSeatUpdateToOneClient`: the SEAT_UPDATE
   * for a room, or None when the seat list or a seat number's conversion
   * throws.
   */
  function SeatUpdate(rows: seq<Row>, floor: Int32, room: Option<string>, now: Time): Option<SocketMessage> {
    match SeatStatusesByRoom(rows, floor, room, now)
    case Err(_) => None
    case Ok(dtos) =>
      match SeatInfosOf(dtos)
      case None => None
      case Some(infos) => Some(SeatUpdateMessage(floor, room, infos))
  }

  function BroadcastOf(m: Option<SocketMessage>): seq<Effect> {
    if m.Some? then [Broadcast(m.value)] else []
  }

  function UnicastOf(m: Option<SocketMessage>): seq<Effect> {
    if m.Some? then [Unicast(m.value)] else []
  }

  /** JOIN and JOIN_ROOM. */
  function JoinStep(s: Session, w: World, m: SocketMessage, now: Time): (r: Outcome)
    ensures r.world == w
    ensures 1 <= |r.effects| <= 2 && r.effects[0].Broadcast?
    ensures forall k :: 1 <= k < |r.effects| ==> r.effects[k].Unicast?
  {
    var s' := Session(if m.floor.Some? then m.floor.value else -1, m.room, m.sender, m.role);
    var notice := SystemNotice(s'.floor, s'.room, NullableText(s'.nickname) + " 님이 입장했습니다.");
    var snapshot := if s'.floor > 0 then SeatUpdate(w.table.rows, s'.floor, s'.room, now) else None;
    Outcome(s', w, [Broadcast(notice)] + UnicastOf(snapshot))
  }

  /** CHAT and ADMIN_CHAT: log the backfilled message, then broadcast it. */
  function ChatStep(s: Session, w: World, m: SocketMessage, users: seq<User>): Outcome {
    var m' := BackfillSender(m, s);
    Outcome(s, w, [ServiceCall(SaveChatRecord(SaveChat(m', users))), Broadcast(m')])
  }

  /** CHECKIN: unboxing a null seat number throws before the service; a service failure is answered with ERROR. */
  function CheckinStep(s: Session, w: World, m: SocketMessage, users: seq<User>, seats: seq<Seat>, now: Time): (r: Outcome)
    ensures r.session == s && r.world.sensors == w.sensors
    ensures |r.effects| <= 1
    ensures forall e :: e in r.effects ==>
      (e.Unicast? && e.message.msgType == Some("ERROR") && r.world == w)
      || (e.Broadcast? && e.message.msgType == Some("SEAT_UPDATE"))
  {
    var m' := BackfillUser(m, s);
    if m'.seatNo.None? then Outcome(s, w, [])
    else
      match CheckinOp(w.table, users, seats, m'.floor.value, m'.room, m'.seatNo.value, m'.userId, now)
      case Err(e) => Outcome(s, w, [Unicast(ErrorReply(s.floor, s.room, e.Message()))])
      case Ok(t') => Outcome(s, w.(table := t'), BroadcastOf(SeatUpdate(t'.rows, m'.floor.value, m'.room, now)))
  }

  /** AWAY_START, AWAY_BACK and CHECKOUT: a failure propagates to the dispatch loop. */
  function OwnerStep(tr: Transition, s: Session, w: World, m: SocketMessage, seats: seq<Seat>, now: Time): (r: Outcome)
    ensures r.session == s && r.world.sensors == w.sensors && r.world.table.nextId == w.table.nextId
    ensures |r.effects| <= 1
    ensures forall e :: e in r.effects ==> e.Broadcast? && e.message.msgType == Some("SEAT_UPDATE")
  {
    var m' := BackfillUser(m, s);
    if m'.seatNo.None? then Outcome(s, w, [])
    else
      match OwnerOp(tr, w.table.rows, seats, m'.floor.value, m'.room, m'.seatNo.value, m'.userId, now)
      case Err(_) => Outcome(s, w, [])
      case Ok(rows') =>
        Outcome(s, w.(table := w.table.(rows := rows')), BroadcastOf(SeatUpdate(rows', m'.floor.value, m'.room, now)))
  }

  /** SENSOR_DATA: the service broadcasts its DASHBOARD_UPDATE, then the handler broadcasts its own. */
  function SensorStep(s: Session, w: World, m: SocketMessage, now: Time): (r: Outcome)
    ensures r.session == s && r.world.table == w.table
    ensures |r.effects| == 0 || |r.effects| == 2
    ensures forall e :: e in r.effects ==> e.Broadcast? && e.message.msgType == Some("DASHBOARD_UPDATE")
  {
    var m' := BackfillSender(m, s);
    match Ingest(w.sensors, m', now)
    case Err(_) => Outcome(s, w, [])
    case Ok(done) =>
      var dashboard := DashboardMessage(m'.floor.value, m'.room, done.snapshot);
      Outcome(s, w.(sensors := done.state), [Broadcast(done.dashboard), Broadcast(dashboard)])
  }

  /** SEAT_STATUS_REQUEST: the room's seat list, to this client only. */
  function SeatStatusStep(s: Session, w: World, m: SocketMessage, now: Time): Outcome {
    var m' := BackfillPlace(m, s);
    Outcome(s, w, UnicastOf(SeatUpdate(w.table.rows, m'.floor.value, m'.room, now)))
  }

  /** The branch of the read loop a message takes. */
  datatype Kind = JoinKind | ChatKind | CheckinKind | OwnerKind(tr: Transition) | SensorKind | SeatStatusKind | OtherKind

  /** The branch for an upper-cased type. */
  function KindOf(t: string): Kind {
    if t == "JOIN" || t == "JOIN_ROOM" then JoinKind
    else if t == "CHAT" || t == "ADMIN_CHAT" then ChatKind
    else if t == "CHECKIN" then CheckinKind
    else if t == "AWAY_START" then OwnerKind(StartAwayRequest)
    else if t == "AWAY_BACK" then OwnerKind(BackFromAwayRequest)
    else if t == "CHECKOUT" then OwnerKind(CheckoutRequest)
    else if t == "SENSOR_DATA" then SensorKind
    else if t == "SEAT_STATUS_REQUEST" then SeatStatusKind
    else OtherKind
  }

  /** One pass of the read loop for a parsed message (None is the JSON `null`). */
  function Step(s: Session, w: World, msg: Option<SocketMessage>, users: seq<User>, seats: seq<Seat>, now: Time): (r: Outcome)
    ensures r.session != s ==> msg.Some? && msg.value.msgType.Some? && KindOf(ToUpper(msg.value.msgType.value)).JoinKind?
    ensures r.world.table != w.table ==>
      (msg.Some? && msg.value.msgType.Some? &&
       (KindOf(ToUpper(msg.value.msgType.value)).CheckinKind? || KindOf(ToUpper(msg.value.msgType.value)).OwnerKind?))
    ensures r.world.sensors != w.sensors ==> msg.Some? && msg.value.msgType.Some? && KindOf(ToUpper(msg.value.msgType.value)).SensorKind?
  {
    if msg.None? || msg.value.msgType.None? then Outcome(s, w, [])
    else
      BranchStep(KindOf(ToUpper(msg.value.msgType.value)), s, w, msg.value, users, seats, now)
  }

  /** The branch `k` of the read loop on message `m`. */
  function BranchStep(k: Kind, s: Session, w: World, m: SocketMessage, users: seq<User>, seats: seq<Seat>, now: Time): Outcome {
    match k
    case JoinKind => JoinStep(s, w, m, now)
    case ChatKind => ChatStep(s, w, m, users)
    case CheckinKind => CheckinStep(s, w, m, users, seats, now)
    case OwnerKind(tr) => OwnerStep(tr, s, w, m, seats, now)
    case SensorKind => SensorStep(s, w, m, now)
    case SeatStatusKind => SeatStatusStep(s, w, m, now)
    case OtherKind => Outcome(s, w, [])
  }

  // ---------------------------------------------------------------------------
  // The handler object
  // ---------------------------------------------------------------------------

  class ClientHandler {
    var floor: Int32
    var room: Option<string>
    var nickname: Option<string>
    var role: Option<string>
    const checkins: CheckinService
    const sensors: SensorDataService

    function CurrentSession(): Session
      reads this
    {
      Session(floor, room, nickname, role)
    }

    function CurrentWorld(): World
      reads checkins, sensors
    {
      World(Table(checkins.rows, checkins.nextId), sensors.State())
    }

    constructor (checkins: CheckinService, sensors: SensorDataService)
      ensures CurrentSession() == Fresh
      ensures this.checkins == checkins && this.sensors == sensors
    {
      this.checkins := checkins;
      this.sensors := sensors;
      floor, room, nickname, role := 0, None, None, None;
    }

    /** `isSameRoom(floor, room)`. */
    predicate IsSameRoom(f: Int32, r: Option<string>)
      reads this
    {
      SameRoom(CurrentSession(), f, r)
    }

    /** `getRole()`. */
    function GetRole(): Option<string>
      reads this
    {
      role
    }

    /** One message of the read loop. */
    method Handle(msg: Option<SocketMessage>, users: seq<User>, seats: seq<Seat>, now: Time) returns (effects: seq<Effect>)
      requires Valid(checkins.rows, checkins.nextId)
      modifies this, checkins, sensors
      ensures Valid(checkins.rows, checkins.nextId)
      ensures Outcome(CurrentSession(), CurrentWorld(), effects) == Step(old(CurrentSession()), old(CurrentWorld()), msg, users, seats, now)
    {
      if msg.None? || msg.value.msgType.None? {
        return [];
      }
      var m := msg.value;
      match KindOf(ToUpper(m.msgType.value)) {
        case JoinKind =>
          effects := HandleJoin(m, now);
        case ChatKind =>
          var m' := BackfillSender(m, CurrentSession());
          effects := [ServiceCall(SaveChatRecord(SaveChat(m', users))), Broadcast(m')];
        case CheckinKind =>
          effects := HandleCheckin(m, users, seats, now);
        case OwnerKind(tr) =>
          effects := HandleOwnerRequest(tr, m, seats, now);
        case SensorKind =>
          effects := HandleSensorData(m, now);
        case SeatStatusKind =>
          effects := HandleSeatStatusRequest(m, now);
        case OtherKind =>
          effects := [];
      }
    }

    method HandleJoin(m: SocketMessage, now: Time) returns (effects: seq<Effect>)
      modifies this
      ensures Outcome(CurrentSession(), CurrentWorld(), effects) == JoinStep(old(CurrentSession()), CurrentWorld(), m, now)
    {
      floor := if m.floor.Some? then m.floor.value else -1;
      room := m.room;
      nickname := m.sender;
      role := m.role;
      var notice := SystemNotice(floor, room, NullableText(nickname) + " 님이 입장했습니다.");
      effects := [Broadcast(notice)];
      if floor > 0 {
        var update := SeatUpdateFor(floor, room, now);
        effects := effects + UnicastOf(update);
      }
    }

    method HandleCheckin(m: SocketMessage, users: seq<User>, seats: seq<Seat>, now: Time) returns (effects: seq<Effect>)
      requires Valid(checkins.rows, checkins.nextId)
      modifies checkins
      ensures Valid(checkins.rows, checkins.nextId)
      ensures Outcome(CurrentSession(), CurrentWorld(), effects) == CheckinStep(CurrentSession(), old(CurrentWorld()), m, users, seats, now)
    {
      var m' := BackfillUser(m, CurrentSession());
      if m'.seatNo.None? {
        return [];
      }
      var r := checkins.Checkin(users, seats, m'.floor.value, m'.room, m'.seatNo.value, m'.userId, now);
      if r.Err? {
        return [Unicast(ErrorReply(floor, room, r.error.Message()))];
      }
      var update := SeatUpdateFor(m'.floor.value, m'.room, now);
      effects := BroadcastOf(update);
    }

    method HandleOwnerRequest(tr: Transition, m: SocketMessage, seats: seq<Seat>, now: Time) returns (effects: seq<Effect>)
      requires Valid(checkins.rows, checkins.nextId)
      modifies checkins
      ensures Valid(checkins.rows, checkins.nextId)
      ensures Outcome(CurrentSession(), CurrentWorld(), effects) == OwnerStep(tr, CurrentSession(), old(CurrentWorld()), m, seats, now)
    {
      var m' := BackfillUser(m, CurrentSession());
      if m'.seatNo.None? {
        return [];
      }
      var r := checkins.Transit(tr, seats, m'.floor.value, m'.room, m'.seatNo.value, m'.userId, now);
      if r.Err? {
        return [];
      }
      var update := SeatUpdateFor(m'.floor.value, m'.room, now);
      effects := BroadcastOf(update);
    }

    method HandleSensorData(m: SocketMessage, now: Time) returns (effects: seq<Effect>)
      modifies sensors
      ensures Outcome(CurrentSession(), CurrentWorld(), effects) == SensorStep(CurrentSession(), old(CurrentWorld()), m, now)
    {
      var m' := BackfillSender(m, CurrentSession());
      var r := sensors.HandleSensorData(m', now);
      if r.Err? {
        return [];
      }
      var dashboard := DashboardMessage(m'.floor.value, m'.room, r.value.snapshot);
      effects := [Broadcast(r.value.dashboard), Broadcast(dashboard)];
    }

    /** `handleSeatStatusRequest`: reads the store and answers this client only. */
    method HandleSeatStatusRequest(m: SocketMessage, now: Time) returns (effects: seq<Effect>)
      ensures effects == SeatStatusStep(CurrentSession(), CurrentWorld(), m, now).effects
      ensures forall e :: e in effects ==> e.Unicast? && e.message.msgType == Some("SEAT_UPDATE")
    {
      var m' := BackfillPlace(m, CurrentSession());
      var update := SeatUpdateFor(m'.floor.value, m'.room, now);
      effects := UnicastOf(update);
    }

    /** The seat list of a room turned into a SEAT_UPDATE, or None when that throws. */
    method SeatUpdateFor(f: Int32, r: Option<string>, now: Time) returns (update: Option<SocketMessage>)
      ensures update == SeatUpdate(checkins.rows, f, r, now)
      ensures update.Some? ==> update.value.msgType == Some("SEAT_UPDATE") && update.value.floor == Some(f) && update.value.room == r
    {
      var dtoList := checkins.GetSeatStatusesByRoom(f, r, now);
      if dtoList.Err? {
        return None;
      }
      var seatInfos := SeatInfosOf(dtoList.value);
      if seatInfos.None? {
        return None;
      }
      update := Some(SeatUpdateMessage(f, r, seatInfos.value));
    }

    /** The leave notice of the `finally` block: broadcast only when both nickname and room are set. */
    method Leave() returns (effects: seq<Effect>)
      ensures |effects| <= 1
      ensures effects != [] <==> nickname.Some? && room.Some?
      ensures effects != [] ==>
        effects[0] == Broadcast(SystemNotice(floor, room, nickname.value + " 님이 퇴장했습니다."))
    {
      if nickname.Some? && room.Some? {
        var leaveMsg := SystemNotice(floor, room, nickname.value + " 님이 퇴장했습니다.");
        effects := [Broadcast(leaveMsg)];
      } else {
        effects := [];
      }
    }
  }

  // ---------------------------------------------------------------------------
  // Lemmas about one message
  // ---------------------------------------------------------------------------

  /** A JSON null or a message without a type is skipped: no effect, nothing changes. */
  lemma UntypedMessageSkipped(s: Session, w: World, msg: Option<SocketMessage>, users: seq<User>, seats: seq<Seat>, now: Time)
    requires msg.None? || msg.value.msgType.None?
    ensures Step(s, w, msg, users, seats, now) == Outcome(s, w, [])
  {
  }

  lemma {:induction false} ToUpperIdempotent(x: string)
    ensures ToUpper(ToUpper(x)) == ToUpper(x)
  {
    if x != [] {
      ToUpperIdempotent(x[1..]);
    }
  }

  /** Within a branch the message's type only matters as echoed text: state and effect count do not depend on it. */
  lemma BranchIgnoresType(k: Kind, s: Session, w: World, m: SocketMessage, t: Option<string>,
                          users: seq<User>, seats: seq<Seat>, now: Time)
    ensures var o1 := BranchStep(k, s, w, m, users, seats, now);
      var o2 := BranchStep(k, s, w, m.(msgType := t), users, seats, now);
      o1.session == o2.session && o1.world == o2.world && |o1.effects| == |o2.effects|
  {
    var m2 := m.(msgType := t);
    assert BackfillPlace(m2, s) == BackfillPlace(m, s).(msgType := t);
    assert BackfillSender(m2, s) == BackfillSender(m, s).(msgType := t);
    assert BackfillUser(m2, s) == BackfillUser(m, s).(msgType := t);
    match k
    case JoinKind =>
      assert JoinStep(s, w, m2, now) == JoinStep(s, w, m, now);
    case ChatKind =>
    case CheckinKind =>
      assert CheckinStep(s, w, m2, users, seats, now) == CheckinStep(s, w, m, users, seats, now);
    case OwnerKind(tr) =>
      assert OwnerStep(tr, s, w, m2, seats, now) == OwnerStep(tr, s, w, m, seats, now);
    case SensorKind =>
      assert Ingest(w.sensors, BackfillSender(m2, s), now) == Ingest(w.sensors, BackfillSender(m, s), now);
    case SeatStatusKind =>
      assert SeatStatusStep(s, w, m2, now) == SeatStatusStep(s, w, m, now);
    case OtherKind =>
  }

  /**
   * Types are matched regardless of case: a message and the same message
   * with its type upper-cased lead to the same session, the same state of
   * the services and as many effects.
   */
  lemma TypeMatchIgnoresCase(s: Session, w: World, m: SocketMessage, users: seq<User>, seats: seq<Seat>, now: Time)
    requires m.msgType.Some?
    ensures var o1 := Step(s, w, Some(m), users, seats, now);
      var o2 := Step(s, w, Some(m.(msgType := Some(ToUpper(m.msgType.value)))), users, seats, now);
      o1.session == o2.session && o1.world == o2.world && |o1.effects| == |o2.effects|
  {
    var t := ToUpper(m.msgType.value);
    ToUpperIdempotent(m.msgType.value);
    BranchIgnoresType(KindOf(t), s, w, m, Some(t), users, seats, now);
  }

  /** Only JOIN and JOIN_ROOM change the session. */
  lemma OnlyJoinChangesSession(s: Session, w: World, m: SocketMessage, users: seq<User>, seats: seq<Seat>, now: Time)
    requires m.msgType.Some? && ToUpper(m.msgType.value) != "JOIN" && ToUpper(m.msgType.value) != "JOIN_ROOM"
    ensures Step(s, w, Some(m), users, seats, now).session == s
  {
  }

  /**
   * JOIN takes the floor (or -1), room, sender and role from the message,
   * broadcasts one SYSTEM notice first, and sends the seat list to this
   * client only, and only when the floor is positive. The services are untouched.
   */
  lemma JoinEffects(s: Session, w: World, m: SocketMessage, users: seq<User>, seats: seq<Seat>, now: Time)
    requires m.msgType.Some? && (ToUpper(m.msgType.value) == "JOIN" || ToUpper(m.msgType.value) == "JOIN_ROOM")
    ensures var o := Step(s, w, Some(m), users, seats, now);
      && o.session == Session(if m.floor.Some? then m.floor.value else -1, m.room, m.sender, m.role)
      && o.world == w
      && 1 <= |o.effects| <= 2
      && o.effects[0] == Broadcast(SystemNotice(o.session.floor, m.room, NullableText(m.sender) + " 님이 입장했습니다."))
      && (|o.effects| == 2 ==> o.session.floor > 0 && o.effects[1].Unicast? && o.effects[1].message.msgType == Some("SEAT_UPDATE"))
      && (o.session.floor <= 0 ==> |o.effects| == 1)
  {
  }

  /**
   * CHAT and ADMIN_CHAT log one record of the backfilled message and
   * broadcast that message, which always has a floor and keeps the type as
   * the client wrote it.
   */
  lemma ChatEffects(s: Session, w: World, m: SocketMessage, users: seq<User>, seats: seq<Seat>, now: Time)
    requires m.msgType.Some? && (ToUpper(m.msgType.value) == "CHAT" || ToUpper(m.msgType.value) == "ADMIN_CHAT")
    ensures var o := Step(s, w, Some(m), users, seats, now);
      && o.world == w && o.session == s
      && o.effects == [ServiceCall(SaveChatRecord(SaveChat(BackfillSender(m, s), users))), Broadcast(BackfillSender(m, s))]
      && BackfillSender(m, s).floor.Some? && BackfillSender(m, s).msgType == m.msgType
  {
    assert ToUpper(m.msgType.value) != "JOIN" && ToUpper(m.msgType.value) != "JOIN_ROOM";
  }

  /** A failed check-in answers with exactly one ERROR, to this client, with the session's floor and room; nothing changes. */
  lemma CheckinFailureOnlyError(s: Session, w: World, m: SocketMessage, users: seq<User>, seats: seq<Seat>, now: Time)
    requires m.msgType.Some? && ToUpper(m.msgType.value) == "CHECKIN"
    requires m.seatNo.Some?
    requires var b := BackfillUser(m, s);
      CheckinOp(w.table, users, seats, b.floor.value, b.room, b.seatNo.value, b.userId, now).Err?
    ensures var b := BackfillUser(m, s);
      var e := CheckinOp(w.table, users, seats, b.floor.value, b.room, b.seatNo.value, b.userId, now).error;
      Step(s, w, Some(m), users, seats, now) == Outcome(s, w, [Unicast(ErrorReply(s.floor, s.room, e.Message()))])
  {
    assert KindOf(ToUpper(m.msgType.value)) == CheckinKind;
    assert Step(s, w, Some(m), users, seats, now) == CheckinStep(s, w, m, users, seats, now);
  }

  /** After a check-in the room's seat list can always be read: a room the check-in accepted is a zone or none. */
  lemma CheckinRoomListable(t: Table, users: seq<User>, seats: seq<Seat>, floor: Int32, room: Option<string>,
                            seatNo: Int32, userId: Option<string>, now: Time)
    requires CheckinOp(t, users, seats, floor, room, seatNo, userId, now).Ok?
    ensures SeatStatusesByRoom(CheckinOp(t, users, seats, floor, room, seatNo, userId, now).value.rows, floor, room, now).Ok?
  {
    assert GetSeat(seats, floor, room, seatNo).Ok?;
  }

  /**
   * A successful check-in broadcasts exactly one SEAT_UPDATE for the
   * message's floor and room whenever the room's seat numbers are numbers,
   * and never answers with ERROR.
   */
  lemma CheckinSuccessBroadcast(s: Session, w: World, m: SocketMessage, users: seq<User>, seats: seq<Seat>, now: Time)
    requires m.msgType.Some? && ToUpper(m.msgType.value) == "CHECKIN"
    requires m.seatNo.Some?
    requires var b := BackfillUser(m, s);
      CheckinOp(w.table, users, seats, b.floor.value, b.room, b.seatNo.value, b.userId, now).Ok?
    ensures var b := BackfillUser(m, s);
      var t' := CheckinOp(w.table, users, seats, b.floor.value, b.room, b.seatNo.value, b.userId, now).value;
      var o := Step(s, w, Some(m), users, seats, now);
      && o.world == w.(table := t')
      && |o.effects| <= 1
      && (forall e :: e in o.effects ==> e.Broadcast? && e.message.msgType == Some("SEAT_UPDATE")
                                         && e.message.floor == b.floor && e.message.room == b.room)
      && (SeatInfosOf(SeatStatusesByRoom(t'.rows, b.floor.value, b.room, now).value).Some? ==> |o.effects| == 1)
  {
    assert KindOf(ToUpper(m.msgType.value)) == CheckinKind;
    assert Step(s, w, Some(m), users, seats, now) == CheckinStep(s, w, m, users, seats, now);
    var b := BackfillUser(m, s);
    CheckinRoomListable(w.table, users, seats, b.floor.value, b.room, b.seatNo.value, b.userId, now);
  }

  /** A failed away-start, away-back or checkout sends nothing, not even ERROR, and changes nothing. */
  lemma OwnerFailureSilent(tr: Transition, s: Session, w: World, m: SocketMessage, seats: seq<Seat>, now: Time)
    requires m.seatNo.Some?
    requires var b := BackfillUser(m, s);
      OwnerOp(tr, w.table.rows, seats, b.floor.value, b.room, b.seatNo.value, b.userId, now).Err?
    ensures OwnerStep(tr, s, w, m, seats, now) == Outcome(s, w, [])
  {
  }

  /** A seat request without a seat number throws at unboxing: nothing is sent, nothing changes. */
  lemma MissingSeatNumberSilent(s: Session, w: World, m: SocketMessage, users: seq<User>, seats: seq<Seat>, now: Time)
    requires m.msgType.Some? && m.seatNo.None?
    requires ToUpper(m.msgType.value) in {"CHECKIN", "AWAY_START", "AWAY_BACK", "CHECKOUT"}
    ensures Step(s, w, Some(m), users, seats, now) == Outcome(s, w, [])
  {
  }

  /** SEAT_STATUS_REQUEST never broadcasts and never changes anything. */
  lemma SeatStatusRequestOnlyUnicasts(s: Session, w: World, m: SocketMessage, users: seq<User>, seats: seq<Seat>, now: Time)
    requires m.msgType.Some? && ToUpper(m.msgType.value) == "SEAT_STATUS_REQUEST"
    ensures var o := Step(s, w, Some(m), users, seats, now);
      o.session == s && o.world == w && |o.effects| <= 1 && forall e :: e in o.effects ==> e.Unicast?
  {
    assert KindOf(ToUpper(m.msgType.value)) == SeatStatusKind;
    assert Step(s, w, Some(m), users, seats, now) == SeatStatusStep(s, w, m, now);
    var u := SeatUpdate(w.table.rows, BackfillPlace(m, s).floor.value, BackfillPlace(m, s).room, now);
    assert SeatStatusStep(s, w, m, now).effects == UnicastOf(u);
  }

  /**
   * SENSOR_DATA either fails with nothing sent and nothing changed, or
   * stores the readings and broadcasts the same DASHBOARD_UPDATE twice: once
   * from the service and once from the handler.
   */
  lemma SensorEffects(s: Session, w: World, m: SocketMessage, users: seq<User>, seats: seq<Seat>, now: Time)
    requires m.msgType.Some? && ToUpper(m.msgType.value) == "SENSOR_DATA"
    ensures var o := Step(s, w, Some(m), users, seats, now);
      var b := BackfillSender(m, s);
      && o.session == s && o.world.table == w.table
      && (Ingest(w.sensors, b, now).Err? ==> o == Outcome(s, w, []))
      && (Ingest(w.sensors, b, now).Ok? ==>
            && o.world.sensors == Ingest(w.sensors, b, now).value.state
            && |o.effects| == 2 && o.effects[0] == o.effects[1]
            && o.effects[0] == Broadcast(Ingest(w.sensors, b, now).value.dashboard))
  {
    assert KindOf(ToUpper(m.msgType.value)) == SensorKind;
    assert Step(s, w, Some(m), users, seats, now) == SensorStep(s, w, m, now);
    var b := BackfillSender(m, s);
    var r := Ingest(w.sensors, b, now);
    if r.Ok? {
      assert b.floor.Some?;
      assert DashboardMessage(b.floor.value, b.room, r.value.snapshot) == r.value.dashboard;
    }
  }
}
