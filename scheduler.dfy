/**
 * The periodic sweep (CheckinScheduler.java): run the store's expiry sweep,
 * then turn each room's update into a SEAT_UPDATE and broadcast them one by
 * one, in the order the store returned them. A seat number that is not an
 * `int` throws out of the scheduled method: the rooms before it have been
 * broadcast, the rest are not, and the sweep itself stays committed.
 */
module Scheduling {
  import opened Wrappers
  import opened JavaText
  import opened Entities
  import opened CheckinEntity
  import opened Occupancy
  import opened Messages
  import opened Broadcasting

  /** The SEAT_UPDATE of one room update, or None when `parseInt` throws on one of its seat numbers. */
  function UpdateMessage(u: SeatUpdateDto): (r: Option<SocketMessage>)
    ensures r.Some? <==> SeatInfosOf(u.seats).Some?
    ensures r.Some? ==>
      && r.value.msgType == Some("SEAT_UPDATE") && r.value.floor == Some(u.floor) && r.value.room == u.room
      && r.value.role == Some("SYSTEM") && r.value.sender == Some("SYSTEM")
      && r.value.seats == SeatInfosOf(u.seats)
  {
    match SeatInfosOf(u.seats)
    case None => None
    case Some(infos) => Some(SeatUpdateMessage(u.floor, u.room, infos))
  }

  /** The messages broadcast, and whether an exception ended the loop early. */
  datatype FanOut = FanOut(sent: seq<SocketMessage>, failed: bool)

  /** The broadcast loop over the updates. */
  function Fan(updates: seq<SeatUpdateDto>): (r: FanOut)
    ensures |r.sent| <= |updates|
    ensures forall m :: m in r.sent ==> m.msgType == Some("SEAT_UPDATE") && m.sender == Some("SYSTEM")
  {
    if updates == [] then FanOut([], false)
    else
      var before := Fan(updates[..|updates| - 1]);
      if before.failed then before
      else
        match UpdateMessage(updates[|updates| - 1])
        case None => FanOut(before.sent, true)
        case Some(m) => FanOut(before.sent + [m], false)
  }

  /**
   * Without a failure every update is broadcast once, in order. With one,
   * exactly the updates before the first that cannot be converted are.
   */
  lemma {:induction false} FanMeaning(updates: seq<SeatUpdateDto>)
    ensures var f := Fan(updates);
      && |f.sent| <= |updates|
      && (forall k :: 0 <= k < |f.sent| ==> Some(f.sent[k]) == UpdateMessage(updates[k]))
      && (!f.failed <==> forall k :: 0 <= k < |updates| ==> UpdateMessage(updates[k]).Some?)
      && (!f.failed ==> |f.sent| == |updates|)
      && (f.failed ==> |f.sent| < |updates| && UpdateMessage(updates[|f.sent|]).None?)
  {
    if updates != [] {
      var init := updates[..|updates| - 1];
      FanMeaning(init);
      assert forall k :: 0 <= k < |init| ==> init[k] == updates[k];
    }
  }

  /** Each broadcast carries its room's floor, room text and full seat list, from SYSTEM. */
  lemma FanMessages(updates: seq<SeatUpdateDto>, k: nat)
    requires k < |Fan(updates).sent|
    ensures k < |updates|
    ensures var m := Fan(updates).sent[k];
      && m.msgType == Some("SEAT_UPDATE") && m.floor == Some(updates[k].floor) && m.room == updates[k].room
      && m.role == Some("SYSTEM") && m.sender == Some("SYSTEM")
      && m.seats.Some? && |m.seats.value| == |updates[k].seats|
  {
    FanMeaning(updates);
    assert Some(Fan(updates).sent[k]) == UpdateMessage(updates[k]);
  }

  /** A list of updates answering to no key is empty. */
  lemma NoKeysNoUpdates(updates: seq<SeatUpdateDto>)
    ensures UpdateKeys(updates) == {} <==> updates == []
  {
    if updates != [] {
      assert UpdateKey(updates[0]) in UpdateKeys(updates);
    }
  }

  /**
   * A sweep that finds no expired absence leaves the table as it is and, the
   * updates answering to no key, broadcasts nothing.
   */
  lemma NothingToFanOut(rows: seq<Row>, now: Time, updates: seq<SeatUpdateDto>)
    requires forall i :: 0 <= i < |rows| ==> !IsExpiredAway(rows[i], now - SweepThreshold)
    requires UpdateKeys(updates) == AffectedKeys(rows, now)
    ensures ExpireAway(rows, now) == rows
    ensures updates == [] && Fan(updates) == FanOut([], false)
  {
    NothingExpiredNoKeys(rows, now);
    NoKeysNoUpdates(updates);
    forall i | 0 <= i < |rows| ensures ExpireAway(rows, now)[i] == rows[i] {
      ExpireAwayMeaning(rows, now, i);
    }
  }

  class CheckinScheduler {
    const checkins: CheckinService
    const server: ChatServer

    constructor (checkins: CheckinService, server: ChatServer)
      ensures this.checkins == checkins && this.server == server
    {
      this.checkins := checkins;
      this.server := server;
    }

    /**
     * `autoCheckoutAwaySeats()`: the sweep's result, the messages broadcast,
     * whether the loop ended on an exception, and each broadcast's recipients.
     */
    method AutoCheckoutAwaySeats(now: Time)
      returns (updates: Result<seq<SeatUpdateDto>, Failure>, sent: seq<SocketMessage>, failed: bool, audiences: seq<seq<nat>>)
      requires Valid(checkins.rows, checkins.nextId)
      modifies checkins
      ensures Valid(checkins.rows, checkins.nextId)
      ensures checkins.nextId == old(checkins.nextId)
      ensures HasRoomlessExpired(old(checkins.rows), now) ==>
        updates == Err(NoEnumConstant("null")) && checkins.rows == old(checkins.rows) && sent == [] && !failed
      ensures !HasRoomlessExpired(old(checkins.rows), now) ==>
        && updates.Ok? && checkins.rows == ExpireAway(old(checkins.rows), now)
        && FanOut(sent, failed) == Fan(updates.value)
      ensures (forall i :: 0 <= i < |old(checkins.rows)| ==> !IsExpiredAway(old(checkins.rows)[i], now - SweepThreshold)) ==>
        updates == Ok([]) && checkins.rows == old(checkins.rows) && sent == [] && !failed
      ensures |audiences| == |sent|
      ensures forall k :: 0 <= k < |sent| ==> audiences[k] == Recipients(SessionsOf(server.clients), sent[k])
    {
      ghost var before := checkins.rows;
      updates := checkins.AutoCheckoutAndBuildSeatUpdates(now);
      if updates.Err? {
        return updates, [], false, [];
      }
      if forall i :: 0 <= i < |before| ==> !IsExpiredAway(before[i], now - SweepThreshold) {
        NothingToFanOut(before, now, updates.value);
      }
      sent, failed, audiences := BroadcastUpdates(updates.value);
    }

    /** The broadcast loop: one SEAT_UPDATE per room, in order, until a conversion throws. */
    method BroadcastUpdates(list: seq<SeatUpdateDto>) returns (sent: seq<SocketMessage>, failed: bool, audiences: seq<seq<nat>>)
      ensures FanOut(sent, failed) == Fan(list)
      ensures |audiences| == |sent|
      ensures forall k :: 0 <= k < |sent| ==> audiences[k] == Recipients(SessionsOf(server.clients), sent[k])
    {
      sent, failed, audiences := [], false, [];
      var i := 0;
      while i < |list|
        invariant 0 <= i <= |list|
        invariant !failed && FanOut(sent, failed) == Fan(list[..i])
        invariant |audiences| == |sent|
        invariant forall k :: 0 <= k < |sent| ==> audiences[k] == Recipients(SessionsOf(server.clients), sent[k])
      {
        assert list[..i + 1][..i] == list[..i];
        var seatInfos := SeatInfosOf(list[i].seats);
        if seatInfos.None? {
          failed := true;
          assert FanOut(sent, failed) == Fan(list[..i + 1]);
          FailureEndsFan(list, i + 1);
          return;
        }
        var msg := SeatUpdateMessage(list[i].floor, list[i].room, seatInfos.value);
        var recipients, _ := server.Broadcast(msg);
        sent := sent + [msg];
        audiences := audiences + [recipients];
        i := i + 1;
      }
      assert list[..i] == list;
    }
  }

  /** Once the loop has failed on a prefix, the whole list fails with the same messages. */
  lemma {:induction false} FailureEndsFan(updates: seq<SeatUpdateDto>, n: nat)
    requires n <= |updates|
    requires Fan(updates[..n]).failed
    ensures Fan(updates) == Fan(updates[..n])
    decreases |updates| - n
  {
    if n < |updates| {
      assert updates[..n + 1][..n] == updates[..n];
      assert Fan(updates[..n + 1]) == Fan(updates[..n]);
      FailureEndsFan(updates, n + 1);
    } else {
      assert updates[..n] == updates;
    }
  }
}
