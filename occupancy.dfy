/**
 * The seat-occupancy store (CheckinService.java over CheckinRepository,
 * SeatRepository and UserRepository). The checkins table is a sequence of
 * rows held by the class `CheckinService`; users and seats are read-only
 * tables passed as parameters. Each repository query is a function named
 * after the derived query it stands for, each operation a function from the
 * old table to a `Result`, and the class methods are proved against those
 * functions. The lemmas state the store's rules: the order of the error
 * checks, the single-active-record invariants, the row-reuse policy, the
 * per-room seat list and the forced-expiry sweep.
 */
module Occupancy {
  import opened Wrappers
  import opened JavaText
  import opened Entities
  import opened CheckinEntity

  /** Length of a session: `plusHours(2)`. */
  const SessionLength: int := 2 * 3600
  /** Time allowed away from a seat: `plusHours(1)`. */
  const AwayAllowance: int := 3600
  /**
   * Age at which the sweep checks out an absence: `minusMinutes(1)`, the test
   * value in force. The one-hour production value (`minusHours(1)`, 3600) is
   * present in the source only as a comment.
   */
  const SweepThreshold: int := 60

  // ---------------------------------------------------------------------------
  // Rows
  // ---------------------------------------------------------------------------

  /**
   * A row of the checkins table: its id, the owning user's id, the seat, and
   * the four lifecycle fields, with the NOT NULL columns status and
   * checkinTime always present.
   */
  datatype Row = Row(
    id: nat,
    user: int,
    seat: Seat,
    status: CheckinStatus,
    checkinTime: Time,
    awayStartedAt: Option<Time>,
    checkoutTime: Option<Time>)
  {
    function State(): CheckinState {
      CheckinState(Some(status), Some(checkinTime), awayStartedAt, checkoutTime)
    }

    predicate Active() { checkoutTime.None? }

    /** The row after its entity's fields were set to `s` and flushed. */
    function With(s: CheckinState): (r: Row)
      requires s.Persisted()
      ensures r.State() == s && r.id == id && r.user == user && r.seat == seat
    {
      Row(id, user, seat, s.status.value, s.checkinTime.value, s.awayStartedAt, s.checkoutTime)
    }
  }

  /** At most one active row per seat. */
  predicate OneActivePerSeat(rows: seq<Row>) {
    forall i, j :: 0 <= i < j < |rows| && rows[i].Active() && rows[j].Active() ==> rows[i].seat.id != rows[j].seat.id
  }

  /** At most one active row per user. */
  predicate OneActivePerUser(rows: seq<Row>) {
    forall i, j :: 0 <= i < j < |rows| && rows[i].Active() && rows[j].Active() ==> rows[i].user != rows[j].user
  }

  /**
   * The invariant of the table: ids are distinct and below the next id to be
   * generated, every row keeps "away time iff AWAY", and no seat and no user
   * has two active rows.
   */
  predicate Valid(rows: seq<Row>, nextId: nat) {
    && (forall i :: 0 <= i < |rows| ==> rows[i].id < nextId && rows[i].State().AwayConsistent())
    && (forall i, j :: 0 <= i < j < |rows| ==> rows[i].id != rows[j].id)
    && OneActivePerSeat(rows)
    && OneActivePerUser(rows)
  }

  // ---------------------------------------------------------------------------
  // Queries, specified by the names of the derived query methods
  // ---------------------------------------------------------------------------

  /** Which rows a `findFirst…OrderByCheckinTimeDesc` query selects. */
  datatype Criteria =
    | ActiveAtSeat(seatId: int)          // BySeatAndCheckoutTimeIsNull
    | ActiveOfUser(userId: int)          // ByUserAndCheckoutTimeIsNull
    | OfUserAtSeat(userId: int, seatId: int)  // ByUserAndSeat

  predicate Matches(r: Row, c: Criteria) {
    match c
    case ActiveAtSeat(s) => r.seat.id == s && r.Active()
    case ActiveOfUser(u) => r.user == u && r.Active()
    case OfUserAtSeat(u, s) => r.user == u && r.seat.id == s
  }

  /**
   * `findFirst…OrderByCheckinTimeDesc` over `rows[..n]`: the position of a
   * matching row with the latest checkin time, the first such in table order,
   * or None when no row matches.
   */
  function FindFirstNewest(rows: seq<Row>, c: Criteria, n: nat): (r: Option<nat>)
    requires n <= |rows|
    ensures r.None? <==> forall i :: 0 <= i < n ==> !Matches(rows[i], c)
    ensures r.Some? ==> r.value < n && Matches(rows[r.value], c)
    ensures r.Some? ==> forall i :: 0 <= i < n && Matches(rows[i], c) ==> rows[i].checkinTime <= rows[r.value].checkinTime
    ensures r.Some? ==> forall i :: 0 <= i < r.value && Matches(rows[i], c) ==> rows[i].checkinTime < rows[r.value].checkinTime
  {
    if n == 0 then None
    else
      var best := FindFirstNewest(rows, c, n - 1);
      if Matches(rows[n - 1], c) && (best.None? || rows[best.value].checkinTime < rows[n - 1].checkinTime)
      then Some(n - 1)
      else best
  }

  /** `findFirstBySeatAndCheckoutTimeIsNullOrderByCheckinTimeDesc(seat)`. */
  function FindActiveBySeat(rows: seq<Row>, seat: Seat): Option<nat> {
    FindFirstNewest(rows, ActiveAtSeat(seat.id), |rows|)
  }

  /** `findFirstByUserAndCheckoutTimeIsNullOrderByCheckinTimeDesc(user)`. */
  function FindActiveByUser(rows: seq<Row>, userId: int): Option<nat> {
    FindFirstNewest(rows, ActiveOfUser(userId), |rows|)
  }

  /** `findFirstByUserAndSeatOrderByCheckinTimeDesc(user, seat)`. */
  function FindLastByUserAndSeat(rows: seq<Row>, userId: int, seat: Seat): Option<nat> {
    FindFirstNewest(rows, OfUserAtSeat(userId, seat.id), |rows|)
  }

  /** The two room-scoped list queries. */
  datatype Scope =
    | WholeFloor(floor: int)              // findBySeat_FloorAndCheckoutTimeIsNull(floor)
    | Zone(floor: int, room: RoomType)    // findBySeat_FloorAndSeat_RoomAndCheckoutTimeIsNull(floor, room)

  predicate InScope(r: Row, sc: Scope) {
    match sc
    case WholeFloor(f) => r.seat.floor == f
    case Zone(f, rt) => r.seat.floor == f && r.seat.room == Some(rt)
  }

  /** The active rows whose seat lies in the scope, in table order. */
  function FindActiveInScope(rows: seq<Row>, sc: Scope): (r: seq<Row>)
    ensures forall x :: x in r <==> x in rows && x.Active() && InScope(x, sc)
  {
    if rows == [] then []
    else
      var last := rows[|rows| - 1];
      FindActiveInScope(rows[..|rows| - 1], sc) + (if last.Active() && InScope(last, sc) then [last] else [])
  }

  /** `findById(id).isPresent()`. */
  predicate UserExists(users: seq<User>, id: int) {
    exists u :: u in users && u.id == id
  }

  /** The two seat queries: `findByFloorAndSeatNumber` (any room) and `findByFloorAndRoomAndSeatNumber`. */
  function FindSeats(seats: seq<Seat>, floor: int, room: Option<RoomType>, number: string): (r: seq<Seat>)
    ensures forall s :: s in r <==> s in seats && s.floor == floor && s.seatNumber == number && (room.Some? ==> s.room == room)
  {
    if seats == [] then []
    else
      var last := seats[|seats| - 1];
      var keep := last.floor == floor && last.seatNumber == number && (room.Some? ==> last.room == room);
      FindSeats(seats[..|seats| - 1], floor, room, number) + (if keep then [last] else [])
  }

  /** A query returning `Optional`: empty, the one match, or the non-unique-result exception. */
  function Single(found: seq<Seat>): Result<Seat, Failure> {
    if |found| == 0 then Err(SeatNotFound)
    else if |found| == 1 then Ok(found[0])
    else Err(NonUniqueResult(|found|))
  }

  /** The room text a request leaves out: null or blank. */
  predicate NoRoomGiven(room: Option<string>) {
    room.None? || IsBlank(room.value)
  }

  /**
   * `getSeat`: without a room, the seat with this floor and number in any
   * zone; with one, `RoomType.valueOf(room)` and the seat in that zone.
   */
  function GetSeat(seats: seq<Seat>, floor: Int32, room: Option<string>, seatNo: Int32): (r: Result<Seat, Failure>)
    ensures r.Ok? ==> r.value in seats && r.value.floor == floor && r.value.seatNumber == IntToString(seatNo)
    ensures r.Ok? && !NoRoomGiven(room) ==> r.value.room == RoomValueOf(room.value)
    ensures (r.Err? && r.error.NoEnumConstant?) <==> !NoRoomGiven(room) && RoomValueOf(room.value).None?
    ensures r == Err(SeatNotFound) ==>
      forall s :: s in seats && s.floor == floor && s.seatNumber == IntToString(seatNo) ==> !NoRoomGiven(room) && s.room != RoomValueOf(room.value)
    ensures NoRoomGiven(room) ==>
      var found := FindSeats(seats, floor, None, IntToString(seatNo));
      && (|found| == 1 ==> r == Ok(found[0]))
      && (|found| > 1 ==> r == Err(NonUniqueResult(|found|)))
    ensures !NoRoomGiven(room) && RoomValueOf(room.value).Some? ==>
      var found := FindSeats(seats, floor, RoomValueOf(room.value), IntToString(seatNo));
      && (|found| == 0 ==> r == Err(SeatNotFound))
      && (|found| == 1 ==> r == Ok(found[0]))
      && (|found| > 1 ==> r == Err(NonUniqueResult(|found|)))
  {
    var number := IntToString(seatNo);
    if NoRoomGiven(room) then Single(FindSeats(seats, floor, None, number))
    else
      match RoomValueOf(room.value)
      case None => Err(NoEnumConstant(room.value))
      case Some(rt) => Single(FindSeats(seats, floor, Some(rt), number))
  }

  // ---------------------------------------------------------------------------
  // Operations
  // ---------------------------------------------------------------------------

  /** The table together with the next id the IDENTITY column will hand out. */
  datatype Table = Table(rows: seq<Row>, nextId: nat)

  /** The row saved for a fresh record: built, given a new session, then `onCreate` on insert. */
  function NewRow(id: nat, userId: int, seat: Seat, now: Time): Row {
    TransitionsKeepPersisted(SessionStarted(Unset, now), now);
    var s := Created(SessionStarted(Unset, now), now);
    Row(id, userId, seat, s.status.value, s.checkinTime.value, s.awayStartedAt, s.checkoutTime)
  }

  /**
   * `checkin(floor, room, seatNo, userId)`: parse the user id, find the
   * user, find the seat, refuse a user who has any active row, refuse an
   * occupied seat, then restart the last row of this user at this seat or
   * insert a new one.
   */
  function CheckinOp(t: Table, users: seq<User>, seats: seq<Seat>, floor: Int32, room: Option<string>,
                     seatNo: Int32, userId: Option<string>, now: Time): (r: Result<Table, Failure>)
    ensures r.Ok? ==> ParseLong(userId).Some? && UserExists(users, ParseLong(userId).value)
                      && GetSeat(seats, floor, room, seatNo).Ok?
    ensures r.Ok? ==> (r.value.nextId == t.nextId && |r.value.rows| == |t.rows|)
                      || (r.value.nextId == t.nextId + 1 && |r.value.rows| == |t.rows| + 1)
    ensures r.Ok? ==> forall k :: 0 <= k < |t.rows| ==> r.value.rows[k].id == t.rows[k].id
  {
    match ParseLong(userId)
    case None => Err(NumberFormat(userId))
    case Some(uid) =>
      if !UserExists(users, uid) then Err(UserNotFound)
      else
        match GetSeat(seats, floor, room, seatNo)
        case Err(e) => Err(e)
        case Ok(seat) =>
          if FindActiveByUser(t.rows, uid).Some? then Err(AlreadyCheckedIn)
          else if FindActiveBySeat(t.rows, seat).Some? then Err(SeatOccupied)
          else
            match FindLastByUserAndSeat(t.rows, uid, seat)
            case Some(i) =>
              TransitionsKeepPersisted(t.rows[i].State(), now);
              Ok(Table(t.rows[i := t.rows[i].With(SessionStarted(t.rows[i].State(), now))], t.nextId))
            case None =>
              Ok(Table(t.rows + [NewRow(t.nextId, uid, seat, now)], t.nextId + 1))
  }

  /**
   * The common prelude of `startAway`, `backFromAway` and `checkout`: the
   * seat, its active row, and the check that the numeric user id owns it.
   */
  function OwnedActiveRow(rows: seq<Row>, seats: seq<Seat>, floor: Int32, room: Option<string>,
                          seatNo: Int32, userId: Option<string>): (r: Result<nat, Failure>)
    ensures r.Ok? ==> r.value < |rows| && rows[r.value].Active()
  {
    match GetSeat(seats, floor, room, seatNo)
    case Err(e) => Err(e)
    case Ok(seat) =>
      match FindActiveBySeat(rows, seat)
      case None => Err(NoActiveSession)
      case Some(i) =>
        match ParseLong(userId)
        case None => Err(NumberFormat(userId))
        case Some(uid) => if rows[i].user != uid then Err(NotOwner) else Ok(i)
  }

  /** The three owner-only transitions. */
  datatype Transition = StartAwayRequest | BackFromAwayRequest | CheckoutRequest

  function Apply(tr: Transition, r: Row, now: Time): Row {
    TransitionsKeepPersisted(r.State(), now);
    match tr
    case StartAwayRequest => r.With(AwayStarted(r.State(), now))
    case BackFromAwayRequest => r.With(AwayEnded(r.State()))
    case CheckoutRequest => r.With(CheckedOut(r.State(), now))
  }

  /** `startAway`, `backFromAway` and `checkout`. */
  function OwnerOp(tr: Transition, rows: seq<Row>, seats: seq<Seat>, floor: Int32, room: Option<string>,
                   seatNo: Int32, userId: Option<string>, now: Time): (r: Result<seq<Row>, Failure>)
    ensures r.Ok? ==> |r.value| == |rows|
    ensures r.Ok? ==> forall k :: 0 <= k < |rows| ==>
      r.value[k].id == rows[k].id && r.value[k].user == rows[k].user && r.value[k].seat == rows[k].seat
  {
    match OwnedActiveRow(rows, seats, floor, room, seatNo, userId)
    case Err(e) => Err(e)
    case Ok(i) => Ok(rows[i := Apply(tr, rows[i], now)])
  }

  // ---------------------------------------------------------------------------
  // Derived reads
  // ---------------------------------------------------------------------------

  /** `getSeatStatus(seat)`. */
  function SeatStatusOf(rows: seq<Row>, seat: Seat): SeatStatus {
    match FindActiveBySeat(rows, seat)
    case None => SeatStatus.EMPTY
    case Some(i) => if rows[i].status == CheckinStatus.AWAY then SeatStatus.AWAY else SeatStatus.IN_USE
  }

  /** `SeatInfoDto`. */
  datatype SeatInfoDto = SeatInfoDto(seatId: int, seatNo: string, status: SeatStatus, userId: Option<int>, remainSeconds: Int32)

  /** Seconds from `now` until `end`, cast to `int` and floored at zero. */
  function SecondsUntil(end: Time, now: Time): Int32 {
    var secs := ToInt32(end - now);
    if secs < 0 then 0 else secs
  }

  /** The remaining time of an active row: to the end of the session, or to the end of the allowed absence. */
  function RemainSeconds(r: Row, now: Time): Int32 {
    if r.status == CheckinStatus.IN_USE then SecondsUntil(r.checkinTime + SessionLength, now)
    else if r.awayStartedAt.Some? then SecondsUntil(r.awayStartedAt.value + AwayAllowance, now)
    else 0
  }

  function ToDto(r: Row, now: Time): SeatInfoDto {
    var status := if r.status == CheckinStatus.AWAY then SeatStatus.AWAY else SeatStatus.IN_USE;
    SeatInfoDto(r.seat.id, r.seat.seatNumber, status, Some(r.user), RemainSeconds(r, now))
  }

  /** `latestBySeatId` after the loop: per seat id, the first row seen with the latest checkin time. */
  function LatestBySeat(active: seq<Row>): map<int, Row> {
    if active == [] then map[]
    else
      var m := LatestBySeat(active[..|active| - 1]);
      var c := active[|active| - 1];
      if c.seat.id !in m || m[c.seat.id].checkinTime < c.checkinTime then m[c.seat.id := c] else m
  }

  /** The order in which the seat list enumerates the kept rows: each seat id where it first occurs. */
  function SeatOrder(active: seq<Row>): seq<int> {
    if active == [] then []
    else
      var o := SeatOrder(active[..|active| - 1]);
      var id := active[|active| - 1].seat.id;
      if id in o then o else o + [id]
  }

  /** The DTOs of the kept rows, in the given order of their seats. */
  function DtoList(m: map<int, Row>, order: seq<int>, now: Time): (r: seq<SeatInfoDto>)
    requires forall k :: 0 <= k < |order| ==> order[k] in m
  {
    seq(|order|, k requires 0 <= k < |order| => ToDto(m[order[k]], now))
  }

  /** The list query that `getSeatStatusesByRoom` runs for a room argument. */
  function ActiveForRoom(rows: seq<Row>, floor: Int32, room: Option<string>): Result<seq<Row>, Failure> {
    if NoRoomGiven(room) then Ok(FindActiveInScope(rows, WholeFloor(floor)))
    else
      match RoomValueOf(room.value)
      case None => Err(NoEnumConstant(room.value))
      case Some(rt) => Ok(FindActiveInScope(rows, Zone(floor, rt)))
  }

  /** `getSeatStatusesByRoom(floor, room)`. */
  function SeatStatusesByRoom(rows: seq<Row>, floor: Int32, room: Option<string>, now: Time): (r: Result<seq<SeatInfoDto>, Failure>)
    ensures r.Err? <==> !NoRoomGiven(room) && RoomValueOf(room.value).None?
    ensures r.Err? ==> r.error == NoEnumConstant(room.value)
  {
    match ActiveForRoom(rows, floor, room)
    case Err(e) => Err(e)
    case Ok(active) =>
      SeatOrderIsKeys(active);
      Ok(DtoList(LatestBySeat(active), SeatOrder(active), now))
  }

  // ---------------------------------------------------------------------------
  // The sweep
  // ---------------------------------------------------------------------------

  /** `findByStatusAndCheckoutTimeIsNullAndAwayStartedAtBefore(AWAY, before)`. */
  predicate IsExpiredAway(r: Row, before: Time) {
    r.status == CheckinStatus.AWAY && r.Active() && r.awayStartedAt.Some? && r.awayStartedAt.value < before
  }

  /** The table after the sweep checked out every expired absence. */
  function ExpireAway(rows: seq<Row>, now: Time): (r: seq<Row>)
    ensures |r| == |rows|
  {
    seq(|rows|, i requires 0 <= i < |rows| =>
      if IsExpiredAway(rows[i], now - SweepThreshold) then Apply(CheckoutRequest, rows[i], now) else rows[i])
  }

  /** `floor + "|" + room`, the key under which the sweep records an affected room. */
  function ScopeKey(seat: Seat): string {
    IntToString(seat.floor) + "|" + RoomText(seat.room)
  }

  /** `affectedRooms` after the first loop. */
  function AffectedKeys(rows: seq<Row>, now: Time): set<string> {
    ExpiredKeysBefore(rows, |rows|, now)
  }

  /** The keys of the expired absences among the first `n` rows. */
  function ExpiredKeysBefore(rows: seq<Row>, n: nat, now: Time): set<string>
    requires n <= |rows|
  {
    set i | 0 <= i < n && IsExpiredAway(rows[i], now - SweepThreshold) :: ScopeKey(rows[i].seat)
  }

  lemma ExpiredKeysStep(rows: seq<Row>, n: nat, now: Time)
    requires n < |rows|
    ensures ExpiredKeysBefore(rows, n + 1, now) ==
      ExpiredKeysBefore(rows, n, now) + (if IsExpiredAway(rows[n], now - SweepThreshold) then {ScopeKey(rows[n].seat)} else {})
  {
  }

  /** Some expired absence is at a seat without a zone. */
  predicate HasRoomlessExpired(rows: seq<Row>, now: Time) {
    exists i :: 0 <= i < |rows| && IsExpiredAway(rows[i], now - SweepThreshold) && rows[i].seat.room.None?
  }

  /** `SeatUpdateDto`. */
  datatype SeatUpdateDto = SeatUpdateDto(floor: Int32, room: Option<string>, seats: seq<SeatInfoDto>)

  /** The keys of a list of updates. */
  function UpdateKeys(us: seq<SeatUpdateDto>): set<string> {
    set u | u in us :: UpdateKey(u)
  }

  /** The key an update answers to: `floor + "|" + room` again. */
  function UpdateKey(u: SeatUpdateDto): string {
    IntToString(u.floor) + "|" + NullableText(u.room)
  }

  /** The loop of `getSeatStatusesByRoom` that fills `latestBySeatId`, with the order its keys are met in. */
  method IndexLatestBySeat(active: seq<Row>) returns (latestBySeatId: map<int, Row>, order: seq<int>)
    ensures latestBySeatId == LatestBySeat(active)
    ensures order == SeatOrder(active)
  {
    latestBySeatId := map[];
    order := [];
    for i := 0 to |active|
      invariant latestBySeatId == LatestBySeat(active[..i])
      invariant order == SeatOrder(active[..i])
    {
      assert active[..i + 1][..i] == active[..i];
      var c := active[i];
      var seatId := c.seat.id;
      var prev := if seatId in latestBySeatId then Some(latestBySeatId[seatId]) else None;
      if prev.None? || prev.value.checkinTime < c.checkinTime {
        latestBySeatId := latestBySeatId[seatId := c];
      }
      if seatId !in order {
        order := order + [seatId];
      }
    }
    assert active[..|active|] == active;
  }

  // ---------------------------------------------------------------------------
  // The store object
  // ---------------------------------------------------------------------------

  class CheckinService {
    /** The checkins table. */
    var rows: seq<Row>
    /** The next value of the IDENTITY column. */
    var nextId: nat

    constructor ()
      ensures rows == [] && nextId == 1
      ensures Valid(rows, nextId)
    {
      rows := [];
      nextId := 1;
    }

    method Checkin(users: seq<User>, seats: seq<Seat>, floor: Int32, room: Option<string>,
                   seatNo: Int32, userId: Option<string>, now: Time) returns (r: Result<(), Failure>)
      requires Valid(rows, nextId)
      modifies this
      ensures Valid(rows, nextId)
      ensures var op := CheckinOp(Table(old(rows), old(nextId)), users, seats, floor, room, seatNo, userId, now);
        (op.Err? ==> r == Err(op.error) && rows == old(rows) && nextId == old(nextId))
        && (op.Ok? ==> r.Ok? && Table(rows, nextId) == op.value)
    {
      var uid := ParseLong(userId);
      if uid.None? { return Err(NumberFormat(userId)); }
      if !UserExists(users, uid.value) { return Err(UserNotFound); }
      var seat := GetSeat(seats, floor, room, seatNo);
      if seat.Err? { return Err(seat.error); }
      var existing := FindActiveByUser(rows, uid.value);
      if existing.Some? { return Err(AlreadyCheckedIn); }
      var active := FindActiveBySeat(rows, seat.value);
      if active.Some? { return Err(SeatOccupied); }
      var last := FindLastByUserAndSeat(rows, uid.value, seat.value);
      if last.Some? {
        var i := last.value;
        TransitionsKeepPersisted(rows[i].State(), now);
        rows := rows[i := rows[i].With(SessionStarted(rows[i].State(), now))];
      } else {
        rows := rows + [NewRow(nextId, uid.value, seat.value, now)];
        nextId := nextId + 1;
      }
      CheckinKeepsValid(Table(old(rows), old(nextId)), users, seats, floor, room, seatNo, userId, now);
      r := Ok(());
    }

    /** `startAway`, `backFromAway` or `checkout`, chosen by `tr`. */
    method Transit(tr: Transition, seats: seq<Seat>, floor: Int32, room: Option<string>,
                   seatNo: Int32, userId: Option<string>, now: Time) returns (r: Result<(), Failure>)
      requires Valid(rows, nextId)
      modifies this
      ensures Valid(rows, nextId)
      ensures nextId == old(nextId)
      ensures var op := OwnerOp(tr, old(rows), seats, floor, room, seatNo, userId, now);
        (op.Err? ==> r == Err(op.error) && rows == old(rows))
        && (op.Ok? ==> r.Ok? && rows == op.value)
    {
      var seat := GetSeat(seats, floor, room, seatNo);
      if seat.Err? { return Err(seat.error); }
      var active := FindActiveBySeat(rows, seat.value);
      if active.None? { return Err(NoActiveSession); }
      var i := active.value;
      var uid := ParseLong(userId);
      if uid.None? { return Err(NumberFormat(userId)); }
      if rows[i].user != uid.value { return Err(NotOwner); }
      rows := rows[i := Apply(tr, rows[i], now)];
      OwnerOpKeepsValid(tr, old(rows), nextId, seats, floor, room, seatNo, userId, now);
      r := Ok(());
    }

    /** `getSeatStatus(seat)`: EMPTY without an active row, otherwise the active row's status. */
    function GetSeatStatus(seat: Seat): (s: SeatStatus)
      reads this
      requires Valid(rows, nextId)
      ensures s == SeatStatus.EMPTY <==> forall i :: 0 <= i < |rows| ==> !(rows[i].Active() && rows[i].seat.id == seat.id)
      ensures forall i :: 0 <= i < |rows| && rows[i].Active() && rows[i].seat.id == seat.id ==>
          s == (if rows[i].status == CheckinStatus.AWAY then SeatStatus.AWAY else SeatStatus.IN_USE)
    {
      var found := FindActiveBySeat(rows, seat);
      if found.Some? then ActiveAtSeatUnique(rows, seat.id, found.value); SeatStatusOf(rows, seat)
      else SeatStatusOf(rows, seat)
    }

    /** `getSeatStatusesByRoom(floor, room)`. */
    method GetSeatStatusesByRoom(floor: Int32, room: Option<string>, now: Time) returns (r: Result<seq<SeatInfoDto>, Failure>)
      ensures r == SeatStatusesByRoom(rows, floor, room, now)
    {
      var found := ActiveForRoom(rows, floor, room);
      if found.Err? { return Err(found.error); }
      var latestBySeatId, order := IndexLatestBySeat(found.value);
      SeatOrderIsKeys(found.value);
      var dtos: seq<SeatInfoDto> := [];
      for k := 0 to |order|
        invariant |dtos| == k
        invariant forall j :: 0 <= j < k ==> dtos[j] == ToDto(latestBySeatId[order[j]], now)
      {
        dtos := dtos + [ToDto(latestBySeatId[order[k]], now)];
      }
      assert dtos == DtoList(latestBySeatId, order, now);
      r := Ok(dtos);
    }

    /**
     * `autoCheckoutAndBuildSeatUpdates(now)`: check out every expired
     * absence, then build one seat list per affected `floor|room` key. The
     * key of a seat without a zone reads "null", which `RoomType.valueOf`
     * rejects; the exception rolls the whole transaction back.
     */
    method AutoCheckoutAndBuildSeatUpdates(now: Time) returns (r: Result<seq<SeatUpdateDto>, Failure>)
      requires Valid(rows, nextId)
      modifies this
      ensures Valid(rows, nextId)
      ensures nextId == old(nextId)
      ensures HasRoomlessExpired(old(rows), now) ==> r == Err(NoEnumConstant("null")) && rows == old(rows)
      ensures !HasRoomlessExpired(old(rows), now) ==> r.Ok? && rows == ExpireAway(old(rows), now)
      ensures r.Ok? ==> |r.value| == |AffectedKeys(old(rows), now)|
      ensures r.Ok? ==> UpdateKeys(r.value) == AffectedKeys(old(rows), now)
      ensures r.Ok? ==> forall a, b :: 0 <= a < b < |r.value| ==> UpdateKey(r.value[a]) != UpdateKey(r.value[b])
      ensures r.Ok? ==> forall u :: u in r.value ==> SeatStatusesByRoom(rows, u.floor, u.room, now) == Ok(u.seats)
    {
      var before := rows;
      var affectedRooms := CheckoutExpiredAway(now);
      r := BuildSeatUpdates(affectedRooms, before, now);
      if r.Err? {
        rows := before;
      }
      ExpireAwayKeepsValid(before, nextId, now);
    }

    /** The sweep's first loop: the checkouts, collecting the keys of the affected rooms. */
    method CheckoutExpiredAway(now: Time) returns (affectedRooms: set<string>)
      requires Valid(rows, nextId)
      modifies this
      ensures Valid(rows, nextId)
      ensures nextId == old(nextId)
      ensures rows == ExpireAway(old(rows), now)
      ensures affectedRooms == AffectedKeys(old(rows), now)
    {
      var threshold := now - SweepThreshold;
      var table := rows;
      affectedRooms := {};
      for i := 0 to |table|
        invariant unchanged(this)
        invariant |table| == |old(rows)|
        invariant forall k :: 0 <= k < i ==> table[k] == ExpireAway(old(rows), now)[k]
        invariant forall k :: i <= k < |table| ==> table[k] == old(rows)[k]
        invariant affectedRooms == ExpiredKeysBefore(old(rows), i, now)
      {
        ExpiredKeysStep(old(rows), i, now);
        if IsExpiredAway(table[i], threshold) {
          table := table[i := Apply(CheckoutRequest, table[i], now)];
          affectedRooms := affectedRooms + {ScopeKey(table[i].seat)};
        }
      }
      rows := table;
      ExpireAwayKeepsValid(old(rows), nextId, now);
    }

    /** The sweep's second loop: the seat list of every affected room, in the set's iteration order. */
    method BuildSeatUpdates(affectedRooms: set<string>, ghost before: seq<Row>, now: Time) returns (r: Result<seq<SeatUpdateDto>, Failure>)
      requires rows == ExpireAway(before, now)
      requires affectedRooms == AffectedKeys(before, now)
      ensures r.Err? <==> HasRoomlessExpired(before, now)
      ensures r.Err? ==> r.error == NoEnumConstant("null")
      ensures r.Ok? ==> |r.value| == |affectedRooms|
      ensures r.Ok? ==> UpdateKeys(r.value) == affectedRooms
      ensures r.Ok? ==> forall a, b :: 0 <= a < b < |r.value| ==> UpdateKey(r.value[a]) != UpdateKey(r.value[b])
      ensures r.Ok? ==> forall u :: u in r.value ==> u.room.Some? && RoomValueOf(u.room.value).Some?
      ensures r.Ok? ==> forall u :: u in r.value ==> SeatStatusesByRoom(rows, u.floor, u.room, now) == Ok(u.seats)
    {
      var result: seq<SeatUpdateDto> := [];
      var remaining := affectedRooms;
      BuildStart(before, rows, now, affectedRooms);
      while remaining != {}
        invariant BuildInv(before, rows, now, affectedRooms, remaining, result)
        decreases remaining
      {
        var key :| key in remaining;
        ghost var seat := AffectedKeyDecodes(before, now, key);
        var parts := Split(key, '|');
        var floor := ParseInt(Some(parts[0])).value;
        var room := parts[1];
        var seats := GetSeatStatusesByRoom(floor, Some(room), now);
        if seats.Err? {
          BuildFails(before, rows, now, key, seat);
          return Err(seats.error);
        }
        var update := SeatUpdateDto(floor, Some(room), seats.value);
        BuildStep(before, rows, now, affectedRooms, remaining, result, key, seat, update);
        result := result + [update];
        remaining := remaining - {key};
      }
      BuildDone(before, rows, now, affectedRooms, result);
      r := Ok(result);
    }
  }

  /** An update of the sweep names a zone and holds that room's current seat list. */
  predicate UpdateIsCurrent(rows: seq<Row>, u: SeatUpdateDto, now: Time) {
    u.room.Some? && RoomValueOf(u.room.value).Some? && SeatStatusesByRoom(rows, u.floor, u.room, now) == Ok(u.seats)
  }

  /** Every expired absence whose key is no longer pending is at a seat with a zone. */
  predicate DoneKeysHaveRooms(before: seq<Row>, remaining: set<string>, now: Time) {
    forall i :: (0 <= i < |before| && IsExpiredAway(before[i], now - SweepThreshold) && ScopeKey(before[i].seat) !in remaining ==>
                   before[i].seat.room.Some?)
  }

  /**
   * The sweep's second loop so far: one current update per key already
   * handled, no key twice, and every handled key at seats with a zone.
   */
  predicate BuildInv(before: seq<Row>, rows: seq<Row>, now: Time, all: set<string>, remaining: set<string>, result: seq<SeatUpdateDto>) {
    && remaining <= all
    && UpdateKeys(result) == all - remaining
    && |result| == |all - remaining|
    && (forall u :: u in result ==> UpdateIsCurrent(rows, u, now))
    && DoneKeysHaveRooms(before, remaining, now)
    && (forall a, b :: 0 <= a < b < |result| ==> UpdateKey(result[a]) != UpdateKey(result[b]))
  }

  lemma BuildStart(before: seq<Row>, rows: seq<Row>, now: Time, all: set<string>)
    requires all == AffectedKeys(before, now)
    ensures BuildInv(before, rows, now, all, all, [])
  {
    forall i | 0 <= i < |before| && IsExpiredAway(before[i], now - SweepThreshold)
      ensures ScopeKey(before[i].seat) in all
    {
    }
    assert UpdateKeys([]) == {};
  }

  lemma BuildStep(before: seq<Row>, rows: seq<Row>, now: Time, all: set<string>, remaining: set<string>,
                  result: seq<SeatUpdateDto>, key: string, seat: Seat, update: SeatUpdateDto)
    requires BuildInv(before, rows, now, all, remaining, result)
    requires key in remaining && key == IntToString(seat.floor) + "|" + RoomText(seat.room)
    requires forall j :: 0 <= j < |before| && IsExpiredAway(before[j], now - SweepThreshold) && ScopeKey(before[j].seat) == key ==>
      before[j].seat.room == seat.room
    requires update.floor == seat.floor && update.room == Some(RoomText(seat.room))
    requires SeatStatusesByRoom(rows, update.floor, update.room, now) == Ok(update.seats)
    ensures BuildInv(before, rows, now, all, remaining - {key}, result + [update])
  {
    RoomlessKeyFails(seat, rows, now);
    RoomValueOfName(seat.room.value);
    assert UpdateIsCurrent(rows, update, now);
    UpdateKeysGrow(result, update, all, remaining, key);
  }

  lemma BuildDone(before: seq<Row>, rows: seq<Row>, now: Time, all: set<string>, result: seq<SeatUpdateDto>)
    requires BuildInv(before, rows, now, all, {}, result)
    ensures !HasRoomlessExpired(before, now)
    ensures |result| == |all| && UpdateKeys(result) == all
    ensures forall a, b :: 0 <= a < b < |result| ==> UpdateKey(result[a]) != UpdateKey(result[b])
    ensures forall u :: u in result ==>
      u.room.Some? && RoomValueOf(u.room.value).Some? && SeatStatusesByRoom(rows, u.floor, u.room, now) == Ok(u.seats)
  {
    assert all - {} == all;
  }

  // ---------------------------------------------------------------------------
  // Lemmas: queries
  // ---------------------------------------------------------------------------

  /** Under one active row per seat, the active row a seat query finds is the only one. */
  lemma ActiveAtSeatUnique(rows: seq<Row>, seatId: int, k: nat)
    requires k < |rows| && rows[k].Active() && rows[k].seat.id == seatId
    ensures OneActivePerSeat(rows) ==>
      forall i :: 0 <= i < |rows| && rows[i].Active() && rows[i].seat.id == seatId ==> i == k
  {
  }

  /** `latestBySeatId` holds exactly the seats seen, mapped to the first of their latest rows. */
  lemma {:induction false} LatestBySeatIsLatest(active: seq<Row>, id: int)
    ensures id in LatestBySeat(active) <==> exists j :: 0 <= j < |active| && active[j].seat.id == id
    ensures id in LatestBySeat(active) ==>
      exists i :: 0 <= i < |active| && active[i] == LatestBySeat(active)[id] && active[i].seat.id == id
        && (forall j :: 0 <= j < |active| && active[j].seat.id == id ==> active[j].checkinTime <= active[i].checkinTime)
        && (forall j :: 0 <= j < i && active[j].seat.id == id ==> active[j].checkinTime < active[i].checkinTime)
  {
    if active != [] {
      var n := |active| - 1;
      var p := active[..n];
      var c := active[n];
      LatestBySeatIsLatest(p, id);
      var m := LatestBySeat(p);
      if c.seat.id == id && (id !in m || m[id].checkinTime < c.checkinTime) {
        assert LatestBySeat(active)[id] == c;
        if id in m {
          var i :| 0 <= i < |p| && p[i] == m[id] && p[i].seat.id == id
            && (forall j :: 0 <= j < |p| && p[j].seat.id == id ==> p[j].checkinTime <= p[i].checkinTime);
          assert forall j :: 0 <= j < n && active[j].seat.id == id ==> active[j].checkinTime < c.checkinTime by {
            forall j | 0 <= j < n && active[j].seat.id == id ensures active[j].checkinTime < c.checkinTime {
              assert p[j] == active[j];
            }
          }
        } else {
          assert forall j :: 0 <= j < n ==> active[j].seat.id != id by {
            forall j | 0 <= j < n ensures active[j].seat.id != id { assert p[j] == active[j]; }
          }
        }
        assert active[n] == LatestBySeat(active)[id];
      } else {
        assert LatestBySeat(active) == m || c.seat.id != id;
        if id in m {
          var i :| 0 <= i < |p| && p[i] == m[id] && p[i].seat.id == id
            && (forall j :: 0 <= j < |p| && p[j].seat.id == id ==> p[j].checkinTime <= p[i].checkinTime)
            && (forall j :: 0 <= j < i && p[j].seat.id == id ==> p[j].checkinTime < p[i].checkinTime);
          assert LatestBySeat(active)[id] == m[id];
          assert active[i] == p[i];
          forall j | 0 <= j < |active| && active[j].seat.id == id
            ensures active[j].checkinTime <= active[i].checkinTime
          {
            if j < n { assert p[j] == active[j]; }
          }
          forall j | 0 <= j < i && active[j].seat.id == id
            ensures active[j].checkinTime < active[i].checkinTime
          {
            assert p[j] == active[j];
          }
        } else {
          assert forall j :: 0 <= j < n ==> active[j].seat.id != id by {
            forall j | 0 <= j < n ensures active[j].seat.id != id { assert p[j] == active[j]; }
          }
        }
      }
    }
  }

  /** The seat order lists every key of `latestBySeatId` exactly once. */
  lemma {:induction false} SeatOrderIsKeys(active: seq<Row>)
    ensures forall id :: id in SeatOrder(active) <==> id in LatestBySeat(active)
    ensures forall k :: 0 <= k < |SeatOrder(active)| ==> SeatOrder(active)[k] in LatestBySeat(active)
    ensures forall a, b :: 0 <= a < b < |SeatOrder(active)| ==> SeatOrder(active)[a] != SeatOrder(active)[b]
  {
    if active != [] {
      SeatOrderIsKeys(active[..|active| - 1]);
    }
  }

  // ---------------------------------------------------------------------------
  // Lemmas: key encoding of the sweep
  // ---------------------------------------------------------------------------

  /** Splitting a seat's key at "|" gives back the floor's text and the room's text, and the floor parses. */
  lemma ScopeKeyDecodes(seat: Seat)
    ensures Split(ScopeKey(seat), '|') == [IntToString(seat.floor), RoomText(seat.room)]
    ensures ParseInt(Some(IntToString(seat.floor))) == Some(seat.floor)
  {
    IntToStringChars(seat.floor, '|');
    SplitPair(IntToString(seat.floor), RoomText(seat.room), '|');
    ParseIntOfIntToString(seat.floor);
  }

  /** The key of a zoned seat decodes to its own floor and zone; a zoneless seat's decodes to the room text "null". */
  lemma ScopeKeyRoundTrip(seat: Seat)
    ensures var parts := Split(ScopeKey(seat), '|');
      |parts| == 2 && ParseInt(Some(parts[0])) == Some(seat.floor)
      && (seat.room.Some? ==> RoomValueOf(parts[1]) == seat.room)
      && (seat.room.None? ==> parts[1] == "null" && RoomValueOf(parts[1]).None?)
  {
    ScopeKeyDecodes(seat);
  }

  /** Two seats share a key exactly when they share floor and zone. */
  lemma ScopeKeyInjective(s1: Seat, s2: Seat)
    ensures ScopeKey(s1) == ScopeKey(s2) <==> s1.floor == s2.floor && s1.room == s2.room
  {
    ScopeKeyDecodes(s1);
    ScopeKeyDecodes(s2);
    if ScopeKey(s1) == ScopeKey(s2) {
      ParseIntOfIntToString(s1.floor);
      ParseIntOfIntToString(s2.floor);
      assert RoomText(s1.room) == RoomText(s2.room);
    }
  }

  /** The seat list for a seat's floor and room text fails exactly when the seat has no zone, the text then being "null". */
  lemma RoomlessKeyFails(seat: Seat, rows: seq<Row>, now: Time)
    ensures SeatStatusesByRoom(rows, seat.floor, Some(RoomText(seat.room)), now).Err? <==> seat.room.None?
    ensures seat.room.None? ==> SeatStatusesByRoom(rows, seat.floor, Some(RoomText(seat.room)), now) == Err(NoEnumConstant("null"))
  {
    assert !IsBlank("null") by { assert !IsWhitespace("null"[0]); }
    if seat.room.Some? {
      assert !IsBlank(RoomText(seat.room)) by { assert !IsWhitespace(RoomText(seat.room)[0]); }
    }
  }

  /** An affected key splits into the floor and room text of the seats it came from, which all agree on the zone. */
  lemma AffectedKeyDecodes(before: seq<Row>, now: Time, key: string) returns (seat: Seat)
    requires key in AffectedKeys(before, now)
    ensures key == IntToString(seat.floor) + "|" + RoomText(seat.room)
    ensures Split(key, '|') == [IntToString(seat.floor), RoomText(seat.room)]
    ensures ParseInt(Some(IntToString(seat.floor))) == Some(seat.floor)
    ensures forall j :: 0 <= j < |before| && IsExpiredAway(before[j], now - SweepThreshold) && ScopeKey(before[j].seat) == key ==>
      before[j].seat.room == seat.room
  {
    var i :| 0 <= i < |before| && IsExpiredAway(before[i], now - SweepThreshold) && key == ScopeKey(before[i].seat);
    seat := before[i].seat;
    ScopeKeyDecodes(seat);
    forall j | 0 <= j < |before| && IsExpiredAway(before[j], now - SweepThreshold) && ScopeKey(before[j].seat) == key
      ensures before[j].seat.room == seat.room
    {
      ScopeKeyInjective(seat, before[j].seat);
    }
  }

  /** A key whose seat list cannot be read comes from an expired absence at a seat without a zone. */
  lemma BuildFails(before: seq<Row>, rows: seq<Row>, now: Time, key: string, seat: Seat)
    requires key in AffectedKeys(before, now) && key == IntToString(seat.floor) + "|" + RoomText(seat.room)
    requires forall j :: 0 <= j < |before| && IsExpiredAway(before[j], now - SweepThreshold) && ScopeKey(before[j].seat) == key ==>
      before[j].seat.room == seat.room
    requires SeatStatusesByRoom(rows, seat.floor, Some(RoomText(seat.room)), now).Err?
    ensures HasRoomlessExpired(before, now)
    ensures SeatStatusesByRoom(rows, seat.floor, Some(RoomText(seat.room)), now) == Err(NoEnumConstant("null"))
  {
    RoomlessKeyFails(seat, rows, now);
    var i :| 0 <= i < |before| && IsExpiredAway(before[i], now - SweepThreshold) && key == ScopeKey(before[i].seat);
    assert before[i].seat.room.None?;
  }

  lemma UpdateKeysAppend(us: seq<SeatUpdateDto>, u: SeatUpdateDto)
    ensures UpdateKeys(us + [u]) == UpdateKeys(us) + {UpdateKey(u)}
  {
    assert forall x :: x in us + [u] <==> x in us || x == u;
  }

  lemma UpdateKeysGrow(result: seq<SeatUpdateDto>, update: SeatUpdateDto, all: set<string>, remaining: set<string>, key: string)
    requires remaining <= all && key in remaining && UpdateKey(update) == key
    requires UpdateKeys(result) == all - remaining
    requires |result| == |all - remaining|
    requires forall a, b :: 0 <= a < b < |result| ==> UpdateKey(result[a]) != UpdateKey(result[b])
    ensures UpdateKeys(result + [update]) == all - (remaining - {key})
    ensures |result + [update]| == |all - (remaining - {key})|
    ensures var r := result + [update]; forall a, b :: 0 <= a < b < |r| ==> UpdateKey(r[a]) != UpdateKey(r[b])
  {
    var done := all - remaining;
    assert all - (remaining - {key}) == done + {key};
    assert key !in done;
    UpdateKeysAppend(result, update);
    UpdateKeysStayDistinct(result, update);
  }

  lemma UpdateKeysStayDistinct(result: seq<SeatUpdateDto>, update: SeatUpdateDto)
    requires UpdateKey(update) !in UpdateKeys(result)
    requires forall a, b :: 0 <= a < b < |result| ==> UpdateKey(result[a]) != UpdateKey(result[b])
    ensures var r := result + [update]; forall a, b :: 0 <= a < b < |r| ==> UpdateKey(r[a]) != UpdateKey(r[b])
  {
    var r := result + [update];
    forall a, b | 0 <= a < b < |r| ensures UpdateKey(r[a]) != UpdateKey(r[b]) {
      if b == |result| {
        assert r[a] == result[a] && result[a] in result;
      } else {
        assert r[a] == result[a] && r[b] == result[b];
      }
    }
  }

  // ---------------------------------------------------------------------------
  // Lemmas: check-in
  // ---------------------------------------------------------------------------

  /** One active row per seat and per user means a query by seat or by user finds the only such row. */
  lemma FoundTheActiveRow(rows: seq<Row>, c: Criteria)
    requires OneActivePerSeat(rows) && OneActivePerUser(rows)
    requires c.ActiveAtSeat? || c.ActiveOfUser?
    ensures var r := FindFirstNewest(rows, c, |rows|);
      r.Some? ==> forall i :: 0 <= i < |rows| && Matches(rows[i], c) ==> i == r.value
  {
  }

  /** Check-in tests, in order: the user id's text, the user, the seat, the user's active row, the seat's active row. */
  lemma CheckinErrorOrder(t: Table, users: seq<User>, seats: seq<Seat>, floor: Int32, room: Option<string>,
                          seatNo: Int32, userId: Option<string>, now: Time)
    ensures var r := CheckinOp(t, users, seats, floor, room, seatNo, userId, now);
      && (ParseLong(userId).None? ==> r == Err(NumberFormat(userId)))
      && (ParseLong(userId).Some? && !UserExists(users, ParseLong(userId).value) ==> r == Err(UserNotFound))
      && (ParseLong(userId).Some? && UserExists(users, ParseLong(userId).value) && GetSeat(seats, floor, room, seatNo).Err? ==>
            r == Err(GetSeat(seats, floor, room, seatNo).error))
      && (ParseLong(userId).Some? && UserExists(users, ParseLong(userId).value) && GetSeat(seats, floor, room, seatNo).Ok?
            && (exists i :: 0 <= i < |t.rows| && t.rows[i].Active() && t.rows[i].user == ParseLong(userId).value) ==>
            r == Err(AlreadyCheckedIn))
      && (ParseLong(userId).Some? && UserExists(users, ParseLong(userId).value) && GetSeat(seats, floor, room, seatNo).Ok?
            && (forall i :: 0 <= i < |t.rows| && t.rows[i].Active() ==> t.rows[i].user != ParseLong(userId).value)
            && (exists i :: 0 <= i < |t.rows| && t.rows[i].Active() && t.rows[i].seat.id == GetSeat(seats, floor, room, seatNo).value.id) ==>
            r == Err(SeatOccupied))
  {
    var uid := ParseLong(userId);
    if uid.Some? && UserExists(users, uid.value) && GetSeat(seats, floor, room, seatNo).Ok? {
      var seat := GetSeat(seats, floor, room, seatNo).value;
      if exists i :: 0 <= i < |t.rows| && t.rows[i].Active() && t.rows[i].user == uid.value {
        var i :| 0 <= i < |t.rows| && t.rows[i].Active() && t.rows[i].user == uid.value;
        assert Matches(t.rows[i], ActiveOfUser(uid.value));
      } else if exists i :: 0 <= i < |t.rows| && t.rows[i].Active() && t.rows[i].seat.id == seat.id {
        var i :| 0 <= i < |t.rows| && t.rows[i].Active() && t.rows[i].seat.id == seat.id;
        assert Matches(t.rows[i], ActiveAtSeat(seat.id));
      }
    }
  }

  /**
   * A check-in succeeds exactly when every test passes: the user id parses,
   * the user exists, the seat resolves, the user has no active row and the
   * seat has none.
   */
  lemma CheckinOkIffChecksPass(t: Table, users: seq<User>, seats: seq<Seat>, floor: Int32, room: Option<string>,
                               seatNo: Int32, userId: Option<string>, now: Time)
    ensures CheckinOp(t, users, seats, floor, room, seatNo, userId, now).Ok? <==>
      && ParseLong(userId).Some? && UserExists(users, ParseLong(userId).value)
      && GetSeat(seats, floor, room, seatNo).Ok?
      && (forall i :: 0 <= i < |t.rows| && t.rows[i].Active() ==> t.rows[i].user != ParseLong(userId).value)
      && (forall i :: 0 <= i < |t.rows| && t.rows[i].Active() ==> t.rows[i].seat.id != GetSeat(seats, floor, room, seatNo).value.id)
  {
    CheckinErrorOrder(t, users, seats, floor, room, seatNo, userId, now);
    var uid := ParseLong(userId);
    if uid.Some? && UserExists(users, uid.value) && GetSeat(seats, floor, room, seatNo).Ok? {
      var seat := GetSeat(seats, floor, room, seatNo).value;
      if (forall i :: 0 <= i < |t.rows| && t.rows[i].Active() ==> t.rows[i].user != uid.value)
         && (forall i :: 0 <= i < |t.rows| && t.rows[i].Active() ==> t.rows[i].seat.id != seat.id) {
        assert FindActiveByUser(t.rows, uid.value).None?;
        assert FindActiveBySeat(t.rows, seat).None?;
      }
    }
  }

  /** A user holding an active row is refused even at that very seat: the user check comes before the seat check. */
  lemma RecheckinSameSeatRefused(t: Table, users: seq<User>, seats: seq<Seat>, floor: Int32, room: Option<string>,
                                 seatNo: Int32, userId: Option<string>, now: Time, k: nat)
    requires ParseLong(userId).Some? && UserExists(users, ParseLong(userId).value)
    requires GetSeat(seats, floor, room, seatNo).Ok?
    requires k < |t.rows| && t.rows[k].Active() && t.rows[k].user == ParseLong(userId).value
    requires t.rows[k].seat == GetSeat(seats, floor, room, seatNo).value
    ensures CheckinOp(t, users, seats, floor, room, seatNo, userId, now) == Err(AlreadyCheckedIn)
  {
    CheckinErrorOrder(t, users, seats, floor, room, seatNo, userId, now);
  }

  /**
   * A successful check-in leaves exactly one active row at the seat: IN_USE,
   * owned by the user, starting now, not away. Either the last row of this user
   * at this seat was reused (same id, and it was inactive, so no active
   * session was overwritten) or exactly one row was added with the next id.
   */
  lemma CheckinSuccess(t: Table, users: seq<User>, seats: seq<Seat>, floor: Int32, room: Option<string>,
                       seatNo: Int32, userId: Option<string>, now: Time) returns (k: nat)
    requires Valid(t.rows, t.nextId)
    requires CheckinOp(t, users, seats, floor, room, seatNo, userId, now).Ok?
    ensures var t' := CheckinOp(t, users, seats, floor, room, seatNo, userId, now).value;
      var uid := ParseLong(userId).value;
      var seat := GetSeat(seats, floor, room, seatNo).value;
      && k < |t'.rows|
      && t'.rows[k].Active() && t'.rows[k].seat.id == seat.id && t'.rows[k].user == uid
      && t'.rows[k].status == CheckinStatus.IN_USE && t'.rows[k].checkinTime == now && t'.rows[k].awayStartedAt.None?
      && (forall j :: 0 <= j < |t'.rows| && j != k && t'.rows[j].Active() ==> t'.rows[j].seat.id != seat.id)
      && (forall j :: 0 <= j < |t'.rows| && j != k ==> j < |t.rows| && t'.rows[j] == t.rows[j])
      && (k < |t.rows| ==> |t'.rows| == |t.rows| && t'.nextId == t.nextId && t'.rows[k].id == t.rows[k].id
                           && !t.rows[k].Active() && t.rows[k].user == uid && t.rows[k].seat.id == seat.id)
      && (k == |t.rows| ==> |t'.rows| == |t.rows| + 1 && t'.rows[k].id == t.nextId && t'.nextId == t.nextId + 1
                            && FindLastByUserAndSeat(t.rows, uid, seat).None?)
  {
    var uid := ParseLong(userId).value;
    var seat := GetSeat(seats, floor, room, seatNo).value;
    assert FindActiveBySeat(t.rows, seat).None?;
    match FindLastByUserAndSeat(t.rows, uid, seat)
    case Some(i) =>
      k := i;
    case None =>
      k := |t.rows|;
  }

  /** Check-in keeps the table's invariant. */
  lemma CheckinKeepsValid(t: Table, users: seq<User>, seats: seq<Seat>, floor: Int32, room: Option<string>,
                          seatNo: Int32, userId: Option<string>, now: Time)
    requires Valid(t.rows, t.nextId)
    requires CheckinOp(t, users, seats, floor, room, seatNo, userId, now).Ok?
    ensures var t' := CheckinOp(t, users, seats, floor, room, seatNo, userId, now).value; Valid(t'.rows, t'.nextId)
  {
    var t' := CheckinOp(t, users, seats, floor, room, seatNo, userId, now).value;
    var uid := ParseLong(userId).value;
    var seat := GetSeat(seats, floor, room, seatNo).value;
    var k := CheckinSuccess(t, users, seats, floor, room, seatNo, userId, now);
    assert FindActiveByUser(t.rows, uid).None?;
    assert forall j :: 0 <= j < |t.rows| && t.rows[j].Active() ==> t.rows[j].user != uid by {
      forall j | 0 <= j < |t.rows| && t.rows[j].Active() ensures t.rows[j].user != uid {
        assert !Matches(t.rows[j], ActiveOfUser(uid));
      }
    }
    TransitionsKeepAwayConsistent(Unset, now);
    if k < |t.rows| {
      TransitionsKeepAwayConsistent(t.rows[k].State(), now);
    }
    StartedRowKeepsValid(t.rows, t.nextId, t'.rows, t'.nextId, k);
  }

  /** Starting one row, in place or appended with the next id, keeps the table's invariant when nothing else at its seat or of its user is active. */
  lemma StartedRowKeepsValid(rows: seq<Row>, nextId: nat, rows': seq<Row>, nextId': nat, k: nat)
    requires Valid(rows, nextId)
    requires k < |rows'| && (|rows'| == |rows| || (|rows'| == |rows| + 1 && k == |rows|))
    requires forall j :: 0 <= j < |rows'| && j != k ==> j < |rows| && rows'[j] == rows[j]
    requires forall j :: 0 <= j < |rows'| && j != k && rows'[j].Active() ==>
      rows'[j].seat.id != rows'[k].seat.id && rows'[j].user != rows'[k].user
    requires rows'[k].State().AwayConsistent() && nextId <= nextId' && rows'[k].id < nextId'
    requires k < |rows| ==> rows'[k].id == rows[k].id
    requires k == |rows| ==> rows'[k].id == nextId
    ensures Valid(rows', nextId')
  {
    forall i, j | 0 <= i < j < |rows'| ensures rows'[i].id != rows'[j].id {
      if i != k && j != k {
        assert rows'[i] == rows[i] && rows'[j] == rows[j];
      } else if k == |rows| {
        assert rows'[i] == rows[i];
      }
    }
  }

  /**
   * The identity-reuse policy: after check-in and checkout by the same user at
   * the same seat, checking in again restarts the very same row instead of
   * adding one.
   */
  lemma CheckinCheckoutCheckinReusesRow(t: Table, users: seq<User>, seats: seq<Seat>, floor: Int32, room: Option<string>,
                                        seatNo: Int32, userId: Option<string>, now1: Time, now2: Time, now3: Time)
    requires Valid(t.rows, t.nextId)
    requires CheckinOp(t, users, seats, floor, room, seatNo, userId, now1).Ok?
    ensures var t1 := CheckinOp(t, users, seats, floor, room, seatNo, userId, now1).value;
      var r2 := OwnerOp(CheckoutRequest, t1.rows, seats, floor, room, seatNo, userId, now2);
      r2.Ok? && CheckinOp(Table(r2.value, t1.nextId), users, seats, floor, room, seatNo, userId, now3).Ok?
      && var t3 := CheckinOp(Table(r2.value, t1.nextId), users, seats, floor, room, seatNo, userId, now3).value;
      |t3.rows| == |t1.rows| && t3.nextId == t1.nextId
      && exists k :: (0 <= k < |t3.rows| && t3.rows[k].id == t1.rows[k].id && t3.rows[k].Active()
                      && t3.rows[k].checkinTime == now3 && t3.rows[k].status == CheckinStatus.IN_USE
                      && t3.rows[k].awayStartedAt.None?)
  {
    var t1 := CheckinOp(t, users, seats, floor, room, seatNo, userId, now1).value;
    var k := CheckoutOwnCheckin(t, users, seats, floor, room, seatNo, userId, now1, now2);
    var rows2 := OwnerOp(CheckoutRequest, t1.rows, seats, floor, room, seatNo, userId, now2).value;
    var j := RecheckinReuses(Table(rows2, t1.nextId), users, seats, floor, room, seatNo, userId, now3, k);
    assert rows2[j].id == t1.rows[j].id;
  }

  /** Checking out right after a check-in ends exactly the row it started, and leaves every row's id. */
  lemma CheckoutOwnCheckin(t: Table, users: seq<User>, seats: seq<Seat>, floor: Int32, room: Option<string>,
                           seatNo: Int32, userId: Option<string>, now1: Time, now2: Time) returns (k: nat)
    requires Valid(t.rows, t.nextId)
    requires CheckinOp(t, users, seats, floor, room, seatNo, userId, now1).Ok?
    ensures var t1 := CheckinOp(t, users, seats, floor, room, seatNo, userId, now1).value;
      var uid := ParseLong(userId).value;
      var seat := GetSeat(seats, floor, room, seatNo).value;
      var r2 := OwnerOp(CheckoutRequest, t1.rows, seats, floor, room, seatNo, userId, now2);
      && r2.Ok? && |r2.value| == |t1.rows| && k < |r2.value|
      && (forall j :: 0 <= j < |r2.value| ==> r2.value[j].id == t1.rows[j].id)
      && (forall j :: 0 <= j < |r2.value| && r2.value[j].Active() ==> r2.value[j].user != uid && r2.value[j].seat.id != seat.id)
      && Matches(r2.value[k], OfUserAtSeat(uid, seat.id))
  {
    var t1 := CheckinOp(t, users, seats, floor, room, seatNo, userId, now1).value;
    var seat := GetSeat(seats, floor, room, seatNo).value;
    k := CheckinSuccess(t, users, seats, floor, room, seatNo, userId, now1);
    CheckinKeepsValid(t, users, seats, floor, room, seatNo, userId, now1);
    OwnerRequestApplied(CheckoutRequest, t1.rows, seats, floor, room, seatNo, userId, now2, k);
  }

  /**
   * With nothing of the user and nothing at the seat active, and an old row
   * of that user at that seat, a check-in restarts an old row of theirs in
   * place: no row is added and the id counter does not move.
   */
  lemma RecheckinReuses(t: Table, users: seq<User>, seats: seq<Seat>, floor: Int32, room: Option<string>,
                        seatNo: Int32, userId: Option<string>, now: Time, k: nat) returns (j: nat)
    requires ParseLong(userId).Some? && UserExists(users, ParseLong(userId).value)
    requires GetSeat(seats, floor, room, seatNo).Ok?
    requires var uid := ParseLong(userId).value;
      var seat := GetSeat(seats, floor, room, seatNo).value;
      forall i :: 0 <= i < |t.rows| && t.rows[i].Active() ==> t.rows[i].user != uid && t.rows[i].seat.id != seat.id
    requires k < |t.rows| && Matches(t.rows[k], OfUserAtSeat(ParseLong(userId).value, GetSeat(seats, floor, room, seatNo).value.id))
    ensures CheckinOp(t, users, seats, floor, room, seatNo, userId, now).Ok?
    ensures var t3 := CheckinOp(t, users, seats, floor, room, seatNo, userId, now).value;
      && |t3.rows| == |t.rows| && t3.nextId == t.nextId && j < |t3.rows|
      && t3.rows[j].id == t.rows[j].id && t3.rows[j].Active()
      && t3.rows[j].checkinTime == now && t3.rows[j].status == CheckinStatus.IN_USE && t3.rows[j].awayStartedAt.None?
  {
    var uid := ParseLong(userId).value;
    var seat := GetSeat(seats, floor, room, seatNo).value;
    assert FindActiveByUser(t.rows, uid).None?;
    assert FindActiveBySeat(t.rows, seat).None?;
    var last := FindLastByUserAndSeat(t.rows, uid, seat);
    assert last.Some?;
    j := last.value;
    var t3 := CheckinOp(t, users, seats, floor, room, seatNo, userId, now).value;
    assert t3.rows == t.rows[j := t.rows[j].With(SessionStarted(t.rows[j].State(), now))];
  }

  // ---------------------------------------------------------------------------
  // Lemmas: the owner-only transitions
  // ---------------------------------------------------------------------------

  /**
   * `startAway`, `backFromAway` and `checkout` succeed exactly when the seat
   * resolves, it has an active row, and the user id parses to that row's
   * owner; success changes that row alone, with the entity's transition.
   */
  lemma OwnerOpSucceedsIffOwner(tr: Transition, rows: seq<Row>, seats: seq<Seat>, floor: Int32, room: Option<string>,
                                seatNo: Int32, userId: Option<string>, now: Time)
    requires OneActivePerSeat(rows)
    ensures var r := OwnerOp(tr, rows, seats, floor, room, seatNo, userId, now);
      r.Ok? <==>
        GetSeat(seats, floor, room, seatNo).Ok?
        && exists k :: 0 <= k < |rows| && rows[k].Active() && rows[k].seat.id == GetSeat(seats, floor, room, seatNo).value.id
             && ParseLong(userId) == Some(rows[k].user)
    ensures var r := OwnerOp(tr, rows, seats, floor, room, seatNo, userId, now);
      r.Ok? ==> exists k :: 0 <= k < |rows| && rows[k].Active() && r.value == rows[k := Apply(tr, rows[k], now)]
  {
    var g := GetSeat(seats, floor, room, seatNo);
    if g.Ok? {
      var found := FindActiveBySeat(rows, g.value);
      if found.Some? {
        FoundTheActiveRowAtSeat(rows, g.value.id);
      }
    }
  }

  lemma FoundTheActiveRowAtSeat(rows: seq<Row>, seatId: int)
    requires OneActivePerSeat(rows)
    ensures var r := FindFirstNewest(rows, ActiveAtSeat(seatId), |rows|);
      r.Some? ==> forall i :: 0 <= i < |rows| && rows[i].Active() && rows[i].seat.id == seatId ==> i == r.value
  {
  }

  /** A request for a seat whose active row someone else owns fails with NotOwner and changes nothing. */
  lemma NotOwnerRefused(tr: Transition, rows: seq<Row>, seats: seq<Seat>, floor: Int32, room: Option<string>,
                        seatNo: Int32, userId: Option<string>, now: Time, k: nat)
    requires OneActivePerSeat(rows)
    requires GetSeat(seats, floor, room, seatNo).Ok?
    requires k < |rows| && rows[k].Active() && rows[k].seat.id == GetSeat(seats, floor, room, seatNo).value.id
    requires ParseLong(userId).Some? && ParseLong(userId).value != rows[k].user
    ensures OwnerOp(tr, rows, seats, floor, room, seatNo, userId, now) == Err(NotOwner)
  {
    FoundTheActiveRowAtSeat(rows, rows[k].seat.id);
    assert Matches(rows[k], ActiveAtSeat(rows[k].seat.id));
  }

  /** A request by the owner of a seat's active row transitions exactly that row. */
  lemma OwnerRequestApplied(tr: Transition, rows: seq<Row>, seats: seq<Seat>, floor: Int32, room: Option<string>,
                            seatNo: Int32, userId: Option<string>, now: Time, k: nat)
    requires OneActivePerSeat(rows)
    requires GetSeat(seats, floor, room, seatNo).Ok?
    requires k < |rows| && rows[k].Active() && rows[k].seat.id == GetSeat(seats, floor, room, seatNo).value.id
    requires ParseLong(userId) == Some(rows[k].user)
    ensures OwnerOp(tr, rows, seats, floor, room, seatNo, userId, now) == Ok(rows[k := Apply(tr, rows[k], now)])
  {
    FoundTheActiveRowAtSeat(rows, rows[k].seat.id);
    assert Matches(rows[k], ActiveAtSeat(rows[k].seat.id));
  }

  /** The owner-only transitions keep the table's invariant. */
  lemma OwnerOpKeepsValid(tr: Transition, rows: seq<Row>, nextId: nat, seats: seq<Seat>, floor: Int32, room: Option<string>,
                          seatNo: Int32, userId: Option<string>, now: Time)
    requires Valid(rows, nextId)
    requires OwnerOp(tr, rows, seats, floor, room, seatNo, userId, now).Ok?
    ensures Valid(OwnerOp(tr, rows, seats, floor, room, seatNo, userId, now).value, nextId)
  {
    var i := OwnedActiveRow(rows, seats, floor, room, seatNo, userId).value;
    TransitionsKeepAwayConsistent(rows[i].State(), now);
  }

  // ---------------------------------------------------------------------------
  // Lemmas: derived reads
  // ---------------------------------------------------------------------------

  /** The remaining time is what is left of the session (IN_USE) or of the absence (AWAY), floored at zero, when it fits an `int`. */
  lemma RemainSecondsMeaning(r: Row, now: Time)
    ensures r.status == CheckinStatus.IN_USE && MinInt <= r.checkinTime + SessionLength - now <= MaxInt ==>
      RemainSeconds(r, now) == if r.checkinTime + SessionLength - now < 0 then 0 else r.checkinTime + SessionLength - now
    ensures r.status == CheckinStatus.AWAY && r.awayStartedAt.Some? && MinInt <= r.awayStartedAt.value + AwayAllowance - now <= MaxInt ==>
      RemainSeconds(r, now) == if r.awayStartedAt.value + AwayAllowance - now < 0 then 0 else r.awayStartedAt.value + AwayAllowance - now
    ensures r.status == CheckinStatus.AWAY && r.awayStartedAt.None? ==> RemainSeconds(r, now) == 0
    ensures RemainSeconds(r, now) >= 0
  {
    if MinInt <= r.checkinTime + SessionLength - now <= MaxInt {
      ToInt32InRange(r.checkinTime + SessionLength - now);
    }
    if r.awayStartedAt.Some? && MinInt <= r.awayStartedAt.value + AwayAllowance - now <= MaxInt {
      ToInt32InRange(r.awayStartedAt.value + AwayAllowance - now);
    }
  }

  /** Position `k` of the seat list describes the kept row of the `k`-th seat in the seat order. */
  lemma SeatListEntry(rows: seq<Row>, floor: Int32, room: Option<string>, now: Time, k: nat)
    requires SeatStatusesByRoom(rows, floor, room, now).Ok?
    requires k < |SeatStatusesByRoom(rows, floor, room, now).value|
    ensures var active := ActiveForRoom(rows, floor, room).value;
      && k < |SeatOrder(active)|
      && SeatOrder(active)[k] in LatestBySeat(active)
      && SeatStatusesByRoom(rows, floor, room, now).value[k] == ToDto(LatestBySeat(active)[SeatOrder(active)[k]], now)
      && LatestBySeat(active)[SeatOrder(active)[k]].seat.id == SeatOrder(active)[k]
  {
    var active := ActiveForRoom(rows, floor, room).value;
    SeatOrderIsKeys(active);
    LatestBySeatIsLatest(active, SeatOrder(active)[k]);
  }

  /** The seat list names each seat at most once and never reports EMPTY. */
  lemma SeatListDistinct(rows: seq<Row>, floor: Int32, room: Option<string>, now: Time)
    requires SeatStatusesByRoom(rows, floor, room, now).Ok?
    ensures var list := SeatStatusesByRoom(rows, floor, room, now).value;
      && (forall a, b :: 0 <= a < b < |list| ==> list[a].seatId != list[b].seatId)
      && (forall e :: e in list ==> e.status != SeatStatus.EMPTY)
  {
    var list := SeatStatusesByRoom(rows, floor, room, now).value;
    SeatOrderIsKeys(ActiveForRoom(rows, floor, room).value);
    forall a, b | 0 <= a < b < |list| ensures list[a].seatId != list[b].seatId {
      SeatListEntry(rows, floor, room, now, a);
      SeatListEntry(rows, floor, room, now, b);
    }
  }

  /** Each entry of the seat list reports, for its seat, the first of its active in-scope rows with the latest checkin time. */
  lemma SeatListLatest(rows: seq<Row>, floor: Int32, room: Option<string>, now: Time, e: SeatInfoDto)
    requires SeatStatusesByRoom(rows, floor, room, now).Ok?
    requires e in SeatStatusesByRoom(rows, floor, room, now).value
    ensures var active := ActiveForRoom(rows, floor, room).value;
      exists i :: (0 <= i < |active| && e == ToDto(active[i], now) && active[i].seat.id == e.seatId
                 && (forall j :: 0 <= j < |active| && active[j].seat.id == e.seatId ==> active[j].checkinTime <= active[i].checkinTime)
                 && (forall j :: 0 <= j < i && active[j].seat.id == e.seatId ==> active[j].checkinTime < active[i].checkinTime))
  {
    var list := SeatStatusesByRoom(rows, floor, room, now).value;
    var active := ActiveForRoom(rows, floor, room).value;
    var k :| 0 <= k < |list| && list[k] == e;
    SeatListEntry(rows, floor, room, now, k);
    LatestBySeatIsLatest(active, SeatOrder(active)[k]);
  }

  /** Every active row in scope has its seat in the seat list. */
  lemma SeatListCovers(rows: seq<Row>, floor: Int32, room: Option<string>, now: Time, r: Row)
    requires SeatStatusesByRoom(rows, floor, room, now).Ok?
    requires r in ActiveForRoom(rows, floor, room).value
    ensures exists e :: e in SeatStatusesByRoom(rows, floor, room, now).value && e.seatId == r.seat.id
  {
    var list := SeatStatusesByRoom(rows, floor, room, now).value;
    var active := ActiveForRoom(rows, floor, room).value;
    var j :| 0 <= j < |active| && active[j] == r;
    LatestBySeatIsLatest(active, r.seat.id);
    SeatOrderIsKeys(active);
    var k :| 0 <= k < |SeatOrder(active)| && SeatOrder(active)[k] == r.seat.id;
    SeatListEntry(rows, floor, room, now, k);
    assert list[k] in list;
  }

  // ---------------------------------------------------------------------------
  // Lemmas: the sweep
  // ---------------------------------------------------------------------------

  /**
   * The sweep checks out exactly the active AWAY rows whose absence began
   * strictly before `now - SweepThreshold`, at time `now`; every other row is
   * unchanged.
   */
  lemma ExpireAwayMeaning(rows: seq<Row>, now: Time, i: nat)
    requires i < |rows|
    ensures IsExpiredAway(rows[i], now - SweepThreshold) ==>
      ExpireAway(rows, now)[i] == rows[i].(checkoutTime := Some(now))
    ensures !IsExpiredAway(rows[i], now - SweepThreshold) ==> ExpireAway(rows, now)[i] == rows[i]
  {
  }

  /** Nothing expired means no affected room, so the sweep returns an empty list. */
  lemma NothingExpiredNoKeys(rows: seq<Row>, now: Time)
    ensures AffectedKeys(rows, now) == {} <==> forall i :: 0 <= i < |rows| ==> !IsExpiredAway(rows[i], now - SweepThreshold)
  {
    if exists i :: 0 <= i < |rows| && IsExpiredAway(rows[i], now - SweepThreshold) {
      var i :| 0 <= i < |rows| && IsExpiredAway(rows[i], now - SweepThreshold);
      assert ScopeKey(rows[i].seat) in AffectedKeys(rows, now);
    }
  }

  /** The sweep keeps the table's invariant. */
  lemma ExpireAwayKeepsValid(rows: seq<Row>, nextId: nat, now: Time)
    requires Valid(rows, nextId)
    ensures Valid(ExpireAway(rows, now), nextId)
  {
    var r := ExpireAway(rows, now);
    forall i | 0 <= i < |rows| ensures r[i].State().AwayConsistent() {
      TransitionsKeepAwayConsistent(rows[i].State(), now);
    }
  }

  /** Each key the sweep reports names the floor and zone of an expired absence, and no two reports share a scope. */
  lemma SweepScopesMeaning(rows: seq<Row>, now: Time, updates: seq<SeatUpdateDto>)
    requires UpdateKeys(updates) == AffectedKeys(rows, now)
    requires forall a, b :: 0 <= a < b < |updates| ==> UpdateKey(updates[a]) != UpdateKey(updates[b])
    requires forall u :: u in updates ==> u.room.Some? && RoomValueOf(u.room.value).Some?
    ensures forall u :: u in updates ==>
      exists i :: 0 <= i < |rows| && IsExpiredAway(rows[i], now - SweepThreshold)
        && u.floor == rows[i].seat.floor && u.room == Some(RoomText(rows[i].seat.room))
    ensures forall a, b :: 0 <= a < b < |updates| ==> (updates[a].floor, updates[a].room) != (updates[b].floor, updates[b].room)
  {
    forall u | u in updates
      ensures exists i :: (0 <= i < |rows| && IsExpiredAway(rows[i], now - SweepThreshold)
                 && u.floor == rows[i].seat.floor && u.room == Some(RoomText(rows[i].seat.room)))
    {
      assert UpdateKey(u) in AffectedKeys(rows, now);
      var i :| 0 <= i < |rows| && IsExpiredAway(rows[i], now - SweepThreshold) && UpdateKey(u) == ScopeKey(rows[i].seat);
      ScopeKeyDecodes(rows[i].seat);
      assert u.room.value == "A" || u.room.value == "B";
      IntToStringChars(u.floor, '|');
      SplitPair(IntToString(u.floor), u.room.value, '|');
      ParseIntOfIntToString(u.floor);
    }
  }
}
