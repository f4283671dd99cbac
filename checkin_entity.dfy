/**
 * One occupancy record (Checkin.java). Its four mutable fields are status,
 * checkinTime, awayStartedAt and checkoutTime; each lifecycle method assigns
 * some of them. The transitions are written once, as functions on the value
 * `CheckinState`; the class `Checkin` applies them in place, and the store
 * (module Occupancy) applies them to the rows it holds.
 */
module CheckinEntity {
  import opened Wrappers

  /** Times are whole seconds; `now` is always a parameter. */
  type Time = int

  /** `Checkin.CheckinStatus`. */
  datatype CheckinStatus = IN_USE | AWAY

  /** `Checkin.SeatStatus`: the status of a seat derived from its active record. */
  datatype SeatStatus = EMPTY | IN_USE | AWAY {
    /** `Enum.name()`. */
    function Name(): string {
      match this
      case EMPTY => "EMPTY"
      case IN_USE => "IN_USE"
      case AWAY => "AWAY"
    }
  }

  /** The mutable fields of a record; each is null until assigned. */
  datatype CheckinState = CheckinState(
    status: Option<CheckinStatus>,
    checkinTime: Option<Time>,
    awayStartedAt: Option<Time>,
    checkoutTime: Option<Time>)
  {
    /** A record is active while it has no checkout time. */
    predicate Active() { checkoutTime.None? }

    /** The NOT NULL columns are set, so the record can be stored. */
    predicate Persisted() { status.Some? && checkinTime.Some? }

    /** The away time is present exactly when the status is AWAY. */
    predicate AwayConsistent() { awayStartedAt.Some? <==> status == Some(CheckinStatus.AWAY) }
  }

  /** What `Checkin.builder().user(u).seat(s).build()` leaves in the four fields. */
  const Unset := CheckinState(None, None, None, None)

  /** `onCreate` (the @PrePersist hook): fill in checkinTime and status only where they are null. */
  function Created(s: CheckinState, now: Time): CheckinState {
    s.(checkinTime := if s.checkinTime.None? then Some(now) else s.checkinTime,
       status := if s.status.None? then Some(CheckinStatus.IN_USE) else s.status)
  }

  /** `startNewSession` and `markCheckin`: a fresh IN_USE session starting now. */
  function SessionStarted(s: CheckinState, now: Time): CheckinState {
    CheckinState(Some(CheckinStatus.IN_USE), Some(now), None, None)
  }

  /** `startAway`. */
  function AwayStarted(s: CheckinState, now: Time): CheckinState {
    s.(status := Some(CheckinStatus.AWAY), awayStartedAt := Some(now))
  }

  /** `backFromAway`. */
  function AwayEnded(s: CheckinState): CheckinState {
    s.(status := Some(CheckinStatus.IN_USE), awayStartedAt := None)
  }

  /** `checkout`. */
  function CheckedOut(s: CheckinState, now: Time): CheckinState {
    s.(checkoutTime := Some(now))
  }

  /**
   * "awayStartedAt is present iff status is AWAY" is established by starting a
   * session or an absence, and kept by returning and by checking out.
   */
  lemma TransitionsKeepAwayConsistent(s: CheckinState, now: Time)
    ensures SessionStarted(s, now).AwayConsistent()
    ensures AwayStarted(s, now).AwayConsistent()
    ensures AwayEnded(s).AwayConsistent()
    ensures s.AwayConsistent() ==> CheckedOut(s, now).AwayConsistent()
    ensures s.AwayConsistent() ==> Created(s, now).AwayConsistent()
  {
  }

  /** Every transition leaves a stored record storable, and `onCreate` makes any record storable. */
  lemma TransitionsKeepPersisted(s: CheckinState, now: Time)
    ensures Created(s, now).Persisted()
    ensures SessionStarted(s, now).Persisted()
    ensures s.Persisted() ==> AwayStarted(s, now).Persisted() && AwayEnded(s).Persisted() && CheckedOut(s, now).Persisted()
  {
  }

  /** `onCreate` after `startNewSession` changes nothing: the hook only fills nulls. */
  lemma CreatedAfterSessionStarted(s: CheckinState, now: Time, later: Time)
    ensures Created(SessionStarted(s, now), later) == SessionStarted(s, now)
  {
  }

  /** The entity object, whose methods assign its fields in place. */
  class Checkin {
    var id: Option<int>
    const user: int
    const seat: int
    var status: Option<CheckinStatus>
    var checkinTime: Option<Time>
    var awayStartedAt: Option<Time>
    var checkoutTime: Option<Time>

    function State(): CheckinState
      reads this
    {
      CheckinState(status, checkinTime, awayStartedAt, checkoutTime)
    }

    /** `Checkin.builder().user(user).seat(seat).build()`: no id and every field null. */
    constructor (user: int, seat: int)
      ensures this.user == user && this.seat == seat && id == None
      ensures State() == Unset
    {
      this.user := user;
      this.seat := seat;
      id := None;
      status, checkinTime, awayStartedAt, checkoutTime := None, None, None, None;
    }

    method OnCreate(now: Time)
      modifies this
      ensures checkinTime == (if old(checkinTime).None? then Some(now) else old(checkinTime))
      ensures status == (if old(status).None? then Some(CheckinStatus.IN_USE) else old(status))
      ensures awayStartedAt == old(awayStartedAt) && checkoutTime == old(checkoutTime) && id == old(id)
      ensures State() == Created(old(State()), now)
    {
      if checkinTime.None? { checkinTime := Some(now); }
      if status.None? { status := Some(CheckinStatus.IN_USE); }
    }

    method MarkCheckin(now: Time)
      modifies this
      ensures status == Some(CheckinStatus.IN_USE) && checkinTime == Some(now)
      ensures awayStartedAt == None && checkoutTime == None && id == old(id)
      ensures State() == SessionStarted(old(State()), now)
    {
      status := Some(CheckinStatus.IN_USE);
      checkinTime := Some(now);
      awayStartedAt := None;
      checkoutTime := None;
    }

    method StartAway(now: Time)
      modifies this
      ensures status == Some(CheckinStatus.AWAY) && awayStartedAt == Some(now)
      ensures checkinTime == old(checkinTime) && checkoutTime == old(checkoutTime) && id == old(id)
      ensures State() == AwayStarted(old(State()), now)
    {
      status := Some(CheckinStatus.AWAY);
      awayStartedAt := Some(now);
    }

    method BackFromAway()
      modifies this
      ensures status == Some(CheckinStatus.IN_USE) && awayStartedAt == None
      ensures checkinTime == old(checkinTime) && checkoutTime == old(checkoutTime) && id == old(id)
      ensures State() == AwayEnded(old(State()))
    {
      status := Some(CheckinStatus.IN_USE);
      awayStartedAt := None;
    }

    method Checkout(now: Time)
      modifies this
      ensures checkoutTime == Some(now)
      ensures status == old(status) && checkinTime == old(checkinTime)
      ensures awayStartedAt == old(awayStartedAt) && id == old(id)
      ensures State() == CheckedOut(old(State()), now)
    {
      checkoutTime := Some(now);
    }

    method StartNewSession(now: Time)
      modifies this
      ensures status == Some(CheckinStatus.IN_USE) && checkinTime == Some(now)
      ensures awayStartedAt == None && checkoutTime == None && id == old(id)
      ensures State() == SessionStarted(old(State()), now)
    {
      status := Some(CheckinStatus.IN_USE);
      checkinTime := Some(now);
      awayStartedAt := None;
      checkoutTime := None;
    }
  }
}
