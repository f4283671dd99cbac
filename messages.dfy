/**
 * The wire message (SocketMessage.java) as a value, every field nullable as
 * in the JSON it is read from, and the messages the server builds: the
 * SYSTEM notices, the ERROR reply and SEAT_UPDATE. The conversion from the
 * store's `SeatInfoDto` to `SocketMessage.SeatInfo` is written once here; the
 * dispatcher and the scheduler both use it.
 */
module Messages {
  import opened Wrappers
  import opened JavaText
  import opened CheckinEntity
  import opened Occupancy

  /** A sensor number (`Double`). It is only stored and copied, never computed on. */
  datatype Reading = Reading(bits: bv64)

  /** `SocketMessage.SeatInfo`. */
  datatype SeatInfo = SeatInfo(seatNo: Option<Int32>, state: Option<string>, userId: Option<string>, remainSeconds: Option<Int32>)

  /** `SocketMessage`; the JSON field `type` is `msgType` here. */
  datatype SocketMessage = SocketMessage(
    msgType: Option<string>,
    floor: Option<Int32>,
    room: Option<string>,
    role: Option<string>,
    sender: Option<string>,
    msg: Option<string>,
    seatNo: Option<Int32>,
    userId: Option<string>,
    temp: Option<Reading>,
    co2: Option<Reading>,
    lux: Option<Reading>,
    seats: Option<seq<SeatInfo>>)

  /** `SocketMessage.builder().build()`: every field null. */
  const Blank := SocketMessage(None, None, None, None, None, None, None, None, None, None, None, None)

  /** A message the server itself sends: role and sender "SYSTEM". */
  function ServerMessage(msgType: string, floor: Int32, room: Option<string>): (m: SocketMessage)
    ensures m.msgType == Some(msgType) && m.floor == Some(floor) && m.room == room
    ensures m.role == Some("SYSTEM") && m.sender == Some("SYSTEM")
  {
    Blank.(msgType := Some(msgType), floor := Some(floor), room := room, role := Some("SYSTEM"), sender := Some("SYSTEM"))
  }

  /** A SYSTEM notice carrying `text`. */
  function SystemNotice(floor: Int32, room: Option<string>, text: string): SocketMessage {
    ServerMessage("SYSTEM", floor, room).(msg := Some(text))
  }

  /** The ERROR reply to a failed check-in, carrying the exception's message. */
  function ErrorReply(floor: Int32, room: Option<string>, text: string): SocketMessage {
    ServerMessage("ERROR", floor, room).(msg := Some(text))
  }

  /** A SEAT_UPDATE with its seat list. */
  function SeatUpdateMessage(floor: Int32, room: Option<string>, seats: seq<SeatInfo>): SocketMessage {
    ServerMessage("SEAT_UPDATE", floor, room).(seats := Some(seats))
  }

  /**
   * One element of the stream map: `Integer.parseInt(seatNo)`, the status
   * name, `String.valueOf(userId)` or null, and remainSeconds. None is the
   * NumberFormatException of a seat number that is not an `int`.
   */
  function ToSeatInfo(dto: SeatInfoDto): (r: Option<SeatInfo>)
    ensures r.Some? <==> ParseInt(Some(dto.seatNo)).Some?
    ensures r.Some? ==> r.value.seatNo == ParseInt(Some(dto.seatNo))
    ensures r.Some? ==> r.value.state == Some(dto.status.Name())
    ensures r.Some? ==> r.value.remainSeconds == Some(dto.remainSeconds)
    ensures r.Some? ==> (r.value.userId.None? <==> dto.userId.None?)
  {
    match ParseInt(Some(dto.seatNo))
    case None => None
    case Some(n) =>
      var userId := if dto.userId.Some? then Some(IntToString(dto.userId.value)) else None;
      Some(SeatInfo(Some(n), Some(dto.status.Name()), userId, Some(dto.remainSeconds)))
  }

  /** The whole stream map: the converted list, or None when some seat number does not parse. */
  function SeatInfosOf(dtos: seq<SeatInfoDto>): (r: Option<seq<SeatInfo>>)
    ensures r.Some? <==> forall k :: 0 <= k < |dtos| ==> ToSeatInfo(dtos[k]).Some?
    ensures r.Some? ==> |r.value| == |dtos| && forall k :: 0 <= k < |dtos| ==> Some(r.value[k]) == ToSeatInfo(dtos[k])
  {
    if dtos == [] then Some([])
    else
      match SeatInfosOf(dtos[..|dtos| - 1])
      case None => None
      case Some(init) =>
        match ToSeatInfo(dtos[|dtos| - 1])
        case None => None
        case Some(last) => Some(init + [last])
  }

  /** The user id's text reads back as the same id. */
  lemma SeatInfoUserIdRoundTrip(dto: SeatInfoDto)
    requires dto.userId.Some? && MinLong <= dto.userId.value <= MaxLong
    requires ToSeatInfo(dto).Some?
    ensures ParseLong(ToSeatInfo(dto).value.userId) == dto.userId
  {
    ParseLongOfIntToString(dto.userId.value);
  }

  /** Seat numbers written by `String.valueOf` always convert, keeping the number. */
  lemma CanonicalSeatNumbersConvert(dtos: seq<SeatInfoDto>, numbers: seq<Int32>)
    requires |numbers| == |dtos|
    requires forall k :: 0 <= k < |dtos| ==> dtos[k].seatNo == IntToString(numbers[k])
    ensures SeatInfosOf(dtos).Some?
    ensures forall k :: 0 <= k < |dtos| ==> SeatInfosOf(dtos).value[k].seatNo == Some(numbers[k])
  {
    forall k | 0 <= k < |dtos| ensures ToSeatInfo(dtos[k]).Some? && ToSeatInfo(dtos[k]).value.seatNo == Some(numbers[k]) {
      ParseIntOfIntToString(numbers[k]);
    }
  }
}
