/**
 * The sensor service (SensorDataService.java): each SENSOR_DATA message is
 * stored as three rows (TEMP, CO2, LUX), becomes the latest snapshot of its
 * (floor, room) key, and yields a DASHBOARD_UPDATE. The readings are opaque.
 * `Ingest` specifies one call on the service's state as a value; the class
 * method is proved against it.
 */
module SensorCache {
  import opened Wrappers
  import opened JavaText
  import opened Entities
  import opened CheckinEntity
  import opened Messages

  /** `RoomKey(int floor, String room)`: the room text as the message gave it. */
  datatype RoomKey = RoomKey(floor: Int32, room: Option<string>)

  /** `SensorSnapshot(temp, co2, lux, updatedAt)`. */
  datatype SensorSnapshot = SensorSnapshot(temp: Reading, co2: Reading, lux: Reading, updatedAt: Time)

  /** `SensorData.SensorType`. */
  datatype SensorType = TEMP | CO2 | LUX

  /** A saved sensor_data row, with the sender the service passes to its builder. */
  datatype SensorRow = SensorRow(floor: Int32, room: RoomType, sensorType: SensorType, value: Reading, sender: Option<string>)

  /** The service's state: the snapshot cache and the rows saved so far. */
  datatype SensorState = SensorState(latest: map<RoomKey, SensorSnapshot>, saved: seq<SensorRow>)

  /** The result of a successful call: the new state, the snapshot and the dashboard message. */
  datatype Ingested = Ingested(state: SensorState, snapshot: SensorSnapshot, dashboard: SocketMessage)

  /** The DASHBOARD_UPDATE carrying a snapshot's readings. */
  function DashboardMessage(floor: Int32, room: Option<string>, snap: SensorSnapshot): SocketMessage {
    ServerMessage("DASHBOARD_UPDATE", floor, room).(temp := Some(snap.temp), co2 := Some(snap.co2), lux := Some(snap.lux))
  }

  /**
   * `handleSensorData(msg)` on a state: unbox the floor, convert the room
   * with `RoomType.valueOf`, read the three numbers, save three rows, put the
   * snapshot, build the dashboard message. A null floor, a null room or a
   * null reading is a NullPointerException; an unknown room name is rejected
   * by `valueOf`.
   */
  function Ingest(st: SensorState, msg: SocketMessage, now: Time): (r: Result<Ingested, Failure>)
    ensures r.Err? ==> r.error == NullReference || (msg.room.Some? && r.error == NoEnumConstant(msg.room.value))
    ensures r.Ok? ==> |r.value.state.saved| == |st.saved| + 3 && r.value.state.saved[..|st.saved|] == st.saved
    ensures r.Ok? ==> msg.floor.Some? && r.value.state.latest.Keys == st.latest.Keys + {RoomKey(msg.floor.value, msg.room)}
  {
    if msg.floor.None? || msg.room.None? then Err(NullReference)
    else
      match RoomValueOf(msg.room.value)
      case None => Err(NoEnumConstant(msg.room.value))
      case Some(rt) =>
        if msg.temp.None? || msg.co2.None? || msg.lux.None? then Err(NullReference)
        else
          var floor := msg.floor.value;
          var rows := [SensorRow(floor, rt, TEMP, msg.temp.value, msg.sender),
                       SensorRow(floor, rt, CO2, msg.co2.value, msg.sender),
                       SensorRow(floor, rt, LUX, msg.lux.value, msg.sender)];
          var snap := SensorSnapshot(msg.temp.value, msg.co2.value, msg.lux.value, now);
          var latest := st.latest[RoomKey(floor, msg.room) := snap];
          Ok(Ingested(SensorState(latest, st.saved + rows), snap, DashboardMessage(floor, msg.room, snap)))
  }

  /** `latestSnapshotMap.get(new RoomKey(floor, room))`; None is the null of a key never written. */
  function Lookup(latest: map<RoomKey, SensorSnapshot>, floor: Int32, room: Option<string>): (r: Option<SensorSnapshot>)
    ensures r.Some? <==> RoomKey(floor, room) in latest
    ensures r.Some? ==> r.value == latest[RoomKey(floor, room)]
  {
    if RoomKey(floor, room) in latest then Some(latest[RoomKey(floor, room)]) else None
  }

  class SensorDataService {
    /** `latestSnapshotMap`. */
    var latest: map<RoomKey, SensorSnapshot>
    /** The rows `sensorDataRepository.saveAll` has stored. */
    var saved: seq<SensorRow>

    function State(): SensorState
      reads this
    {
      SensorState(latest, saved)
    }

    constructor ()
      ensures latest == map[] && saved == []
    {
      latest := map[];
      saved := [];
    }

    /**
     * `handleSensorData(msg)`, returning the snapshot and the dashboard
     * message it broadcasts; on failure nothing is saved or cached.
     */
    method HandleSensorData(msg: SocketMessage, now: Time) returns (r: Result<Ingested, Failure>)
      modifies this
      ensures r == Ingest(old(State()), msg, now)
      ensures r.Err? ==> latest == old(latest) && saved == old(saved)
      ensures r.Ok? ==> State() == r.value.state
    {
      if msg.floor.None? { return Err(NullReference); }
      var floor := msg.floor.value;
      if msg.room.None? { return Err(NullReference); }
      var roomEnum := RoomValueOf(msg.room.value);
      if roomEnum.None? { return Err(NoEnumConstant(msg.room.value)); }
      if msg.temp.None? || msg.co2.None? || msg.lux.None? { return Err(NullReference); }
      var tempRow := SensorRow(floor, roomEnum.value, TEMP, msg.temp.value, msg.sender);
      var co2Row := SensorRow(floor, roomEnum.value, CO2, msg.co2.value, msg.sender);
      var luxRow := SensorRow(floor, roomEnum.value, LUX, msg.lux.value, msg.sender);
      saved := saved + [tempRow, co2Row, luxRow];
      var key := RoomKey(floor, msg.room);
      var snapshot := SensorSnapshot(msg.temp.value, msg.co2.value, msg.lux.value, now);
      latest := latest[key := snapshot];
      r := Ok(Ingested(State(), snapshot, DashboardMessage(floor, msg.room, snapshot)));
    }

    /** `getLatestSnapshot(floor, room)`. */
    function GetLatestSnapshot(floor: Int32, room: Option<string>): (r: Option<SensorSnapshot>)
      reads this
      ensures r.Some? <==> RoomKey(floor, room) in latest
      ensures r.Some? ==> r.value == latest[RoomKey(floor, room)]
    {
      Lookup(latest, floor, room)
    }
  }

  /**
   * A call fails exactly when the floor or room is null, the room is not a
   * zone name, or a reading is null. The room is checked first: an unknown
   * zone is reported as such even when readings are missing.
   */
  lemma IngestFailure(st: SensorState, msg: SocketMessage, now: Time)
    ensures Ingest(st, msg, now).Err? <==>
      msg.floor.None? || msg.room.None? || RoomValueOf(msg.room.value).None?
      || msg.temp.None? || msg.co2.None? || msg.lux.None?
    ensures msg.floor.Some? && msg.room.Some? && msg.room.value != "A" && msg.room.value != "B" ==>
      Ingest(st, msg, now) == Err(NoEnumConstant(msg.room.value))
    ensures msg.room.None? ==> Ingest(st, msg, now) == Err(NullReference)
  {
  }

  /**
   * A successful call saves exactly three rows, TEMP, CO2 and LUX in that
   * order, each with the message's floor, zone and sender and its own reading.
   */
  lemma IngestSavesThreeRows(st: SensorState, msg: SocketMessage, now: Time)
    requires Ingest(st, msg, now).Ok?
    ensures var saved := Ingest(st, msg, now).value.state.saved;
      && |saved| == |st.saved| + 3
      && saved[..|st.saved|] == st.saved
      && saved[|st.saved|].sensorType == TEMP && saved[|st.saved|].value == msg.temp.value
      && saved[|st.saved| + 1].sensorType == CO2 && saved[|st.saved| + 1].value == msg.co2.value
      && saved[|st.saved| + 2].sensorType == LUX && saved[|st.saved| + 2].value == msg.lux.value
      && forall k :: |st.saved| <= k < |saved| ==>
           saved[k].floor == msg.floor.value && Some(saved[k].room.Name()) == msg.room && saved[k].sender == msg.sender
  {
    var rt := RoomValueOf(msg.room.value).value;
    assert rt.Name() == msg.room.value;
  }

  /**
   * After a successful call the snapshot of its (floor, room) is the new one,
   * stamped `now`, and every other key reads as before.
   */
  lemma IngestOverwritesKey(st: SensorState, msg: SocketMessage, now: Time, floor: Int32, room: Option<string>)
    requires Ingest(st, msg, now).Ok?
    ensures var after := Ingest(st, msg, now).value;
      && Lookup(after.state.latest, msg.floor.value, msg.room)
           == Some(SensorSnapshot(msg.temp.value, msg.co2.value, msg.lux.value, now))
      && (RoomKey(floor, room) != RoomKey(msg.floor.value, msg.room) ==>
           Lookup(after.state.latest, floor, room) == Lookup(st.latest, floor, room))
  {
  }

  /** The dashboard message carries the snapshot's readings and the message's floor and room text. */
  lemma IngestDashboard(st: SensorState, msg: SocketMessage, now: Time)
    requires Ingest(st, msg, now).Ok?
    ensures var d := Ingest(st, msg, now).value.dashboard;
      && d.msgType == Some("DASHBOARD_UPDATE") && d.floor == msg.floor && d.room == msg.room
      && d.temp == msg.temp && d.co2 == msg.co2 && d.lux == msg.lux
      && d.role == Some("SYSTEM") && d.sender == Some("SYSTEM")
  {
  }
}
