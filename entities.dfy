/**
 * The persistent values the core reads but never changes (users and seats,
 * User.java and Seat.java), the enums they share, and the exceptions the core
 * raises. The enum parsers are `Enum.valueOf`: exact and case-sensitive.
 */
module Entities {
  import opened Wrappers
  import opened JavaText

  /** `User.RoomType`: the zones a floor may be divided into. */
  datatype RoomType = A | B {
    /** `Enum.name()`. */
    function Name(): string {
      match this
      case A => "A"
      case B => "B"
    }
  }

  /** `User.RoleType`. */
  datatype RoleType = USER | ADMIN {
    /** `Enum.name()`. */
    function Name(): string {
      match this
      case USER => "USER"
      case ADMIN => "ADMIN"
    }
  }

  /** `RoomType.valueOf(s)`; `None` is the IllegalArgumentException for an unknown name. */
  function RoomValueOf(s: string): (r: Option<RoomType>)
    ensures r.Some? <==> s == "A" || s == "B"
    ensures r.Some? ==> r.value.Name() == s
  {
    if s == "A" then Some(A) else if s == "B" then Some(B) else None
  }

  /** `RoleType.valueOf(s)`. */
  function RoleValueOf(s: string): (r: Option<RoleType>)
    ensures r.Some? <==> s == "USER" || s == "ADMIN"
    ensures r.Some? ==> r.value.Name() == s
  {
    if s == "USER" then Some(USER) else if s == "ADMIN" then Some(ADMIN) else None
  }

  /** The text string concatenation gives a possibly-null RoomType: its name, or "null". */
  function RoomText(r: Option<RoomType>): string {
    match r
    case None => "null"
    case Some(t) => t.Name()
  }

  /** `valueOf` inverts `name()`, and rejects the text of a missing room. */
  lemma RoomValueOfName(r: RoomType)
    ensures RoomValueOf(r.Name()) == Some(r)
    ensures RoomValueOf(RoomText(None)) == None
  {
  }

  /** A user as the core sees one: the id, the login name and the display name. */
  datatype User = User(id: int, loginId: string, username: string, role: RoleType)

  /** A seat: unique per (floor, room, seatNumber); `room` is absent on floors without zones. */
  datatype Seat = Seat(id: int, floor: Int32, room: Option<RoomType>, seatNumber: string)

  /** The exceptions the core can raise, with the message `getMessage()` returns. */
  datatype Failure =
    | NullReference               // NullPointerException: a null unboxed or passed to valueOf
    | NumberFormat(input: Option<string>)  // Integer.parseInt / Long.parseLong rejected the text
    | NoEnumConstant(name: string)          // RoomType.valueOf rejected the name
    | NonUniqueResult(count: nat)           // an Optional query matched more than one row
    | UserNotFound
    | SeatNotFound
    | AlreadyCheckedIn
    | SeatOccupied
    | NoActiveSession
    | NotOwner
  {
    function Message(): string {
      match this
      case NullReference => "null"
      case NumberFormat(input) =>
        if input.None? then "Cannot parse null string: null" else "For input string: \"" + input.value + "\""
      case NoEnumConstant(name) => "No enum constant com.entity.User.RoomType." + name
      case NonUniqueResult(count) => "query did not return a unique result: " + IntToString(count)
      case UserNotFound => "사용자를 찾을 수 없습니다."
      case SeatNotFound => "좌석을 찾을 수 없습니다."
      case AlreadyCheckedIn => "이미 이용중인 좌석이 있습니다."
      case SeatOccupied => "이미 사용중인 좌석입니다."
      case NoActiveSession => "현재 사용 중인 좌석이 아닙니다."
      case NotOwner => "이 좌석의 사용자가 아닙니다."
    }
  }
}
