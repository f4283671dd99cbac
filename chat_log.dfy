/**
 * The chat log record (ChatMessageService.saveChat): a straight-line mapping
 * from a chat message and the users table to the ChatMessage row that is
 * saved. Failed enum conversions are caught and leave the field null, so the
 * mapping itself never fails.
 */
module ChatLog {
  import opened Wrappers
  import opened JavaText
  import opened Entities
  import opened Messages

  /** The saved chat row: floor, zone, role, display name, author and text. */
  datatype ChatRecord = ChatRecord(
    floor: Int32,
    room: Option<RoomType>,
    role: Option<RoleType>,
    nickname: Option<string>,
    user: Option<User>,
    message: Option<string>)

  /** `userRepository.findByLoginId(loginId)`: the user with that login id, the first if several. */
  function FindByLoginId(users: seq<User>, loginId: string): (r: Option<User>)
    ensures r.None? <==> forall u :: u in users ==> u.loginId != loginId
    ensures r.Some? ==> r.value in users && r.value.loginId == loginId
  {
    if users == [] then None
    else if users[0].loginId == loginId then Some(users[0])
    else FindByLoginId(users[1..], loginId)
  }

  /** `RoomType.valueOf(s.toUpperCase())` with the exception caught: None when it does not name a zone. */
  function RoomOfText(s: Option<string>): (r: Option<RoomType>)
    ensures r.Some? <==> s.Some? && (ToUpper(s.value) == "A" || ToUpper(s.value) == "B")
    ensures r.Some? ==> r.value.Name() == ToUpper(s.value)
  {
    if s.None? then None else RoomValueOf(ToUpper(s.value))
  }

  /** `RoleType.valueOf(s.toUpperCase())` with the exception caught. */
  function RoleOfText(s: Option<string>): (r: Option<RoleType>)
    ensures r.Some? <==> s.Some? && (ToUpper(s.value) == "USER" || ToUpper(s.value) == "ADMIN")
    ensures r.Some? ==> r.value.Name() == ToUpper(s.value)
  {
    if s.None? then None else RoleValueOf(ToUpper(s.value))
  }

  /** `saveChat(msg)`: the record saved for a chat message. */
  function SaveChat(msg: SocketMessage, users: seq<User>): (rec: ChatRecord)
    ensures rec.floor == (if msg.floor.Some? then msg.floor.value else 0)
    ensures rec.message == msg.msg
    ensures msg.sender.None? ==> rec.user.None? && rec.nickname.None?
    ensures rec.user.Some? ==>
      msg.sender.Some? && rec.user.value in users && rec.user.value.loginId == msg.sender.value
      && rec.nickname == Some(rec.user.value.username)
    ensures rec.user.None? ==> rec.nickname == msg.sender
    ensures msg.sender.Some? && (exists u :: u in users && u.loginId == msg.sender.value) ==> rec.user.Some?
    ensures rec.room.Some? <==> msg.room.Some? && (ToUpper(msg.room.value) == "A" || ToUpper(msg.room.value) == "B")
    ensures rec.room.Some? ==> EqualsIgnoreCase(rec.room.value.Name(), msg.room.value)
    ensures rec.role.Some? <==> msg.role.Some? && (ToUpper(msg.role.value) == "USER" || ToUpper(msg.role.value) == "ADMIN")
    ensures rec.role.Some? ==> EqualsIgnoreCase(rec.role.value.Name(), msg.role.value)
  {
    var user := if msg.sender.Some? then FindByLoginId(users, msg.sender.value) else None;
    var roomType := RoomOfText(msg.room);
    var roleType := RoleOfText(msg.role);
    var nickname := if user.Some? then Some(user.value.username) else msg.sender;
    var floor := if msg.floor.Some? then msg.floor.value else 0;
    ChatRecord(floor, roomType, roleType, nickname, user, msg.msg)
  }

  /** The zone is read regardless of case: "a" and "A" both give zone A. */
  lemma RoomIgnoresCase(msg: SocketMessage, users: seq<User>)
    requires msg.room == Some("a") || msg.room == Some("A")
    ensures SaveChat(msg, users).room == Some(A)
  {
    assert ToUpper("a") == "A";
  }

  /** The session roles SENSOR and SYSTEM are not RoleType names and are logged as null. */
  lemma NonUserRolesDropped(msg: SocketMessage, users: seq<User>)
    requires msg.role == Some("SENSOR") || msg.role == Some("SYSTEM")
    ensures SaveChat(msg, users).role.None?
  {
    var r := msg.role.value;
    assert ToUpper(r) == r;
  }
}
