# Library seat server: a Dafny model

This project models the core of a library's socket server. The library has floors, and some floors are divided into zones A and B. Clients connect over a line-based JSON socket, join a floor and zone, and then:

- chat with their room;
- check in to a seat, step away from it, come back, or check out;
- receive seat-status lists (SEAT_UPDATE).

Sensor publishers send temperature, CO2 and light readings, which are stored and re-broadcast as DASHBOARD_UPDATE. A scheduled job checks out seats whose absence has gone on too long and re-broadcasts the affected rooms' seat lists.

Each module and the source it models:

| module | what it holds | source |
|---|---|---|
| `CheckinEntity` | One occupancy record. The lifecycle transitions are functions on its four mutable fields. The class `Checkin` applies them in place. | `Checkin.java` |
| `Occupancy` | The store. Its table of records is a value held by the class `CheckinService`. It contains the repository queries, check-in, the owner-only away/back/checkout transitions, the seat status, the per-room seat list and the expiry sweep, with the table invariant (one active record per seat and per user) and the rules the store keeps. | `CheckinService.java` |
| `Messages` | The wire message and the messages the server builds, plus the conversion of store DTOs into wire seat entries. | — |
| `SensorCache` | The sensor service: its snapshot cache and saved rows. `Ingest` specifies one call, and the class method is proved against it. | `SensorDataService.java` |
| `ChatLog` | The chat-log record `saveChat` builds, as a pure function. | `ChatMessageService.java` |
| `Dispatch` | The per-connection handler. `Step` specifies one incoming message as a function of the session and the services' state, producing effects (broadcasts, replies to this client, chat records). The class `ClientHandler` holds the session fields, and `Handle` is proved equal to `Step`. | `ClientHandler.java` |
| `Broadcasting` | The server's registry of handlers and its broadcast, specified by `Recipients`. | `ChatServer.java` |
| `Scheduling` | The scheduled sweep and its fan-out of SEAT_UPDATE messages, specified by `Fan`. | `CheckinScheduler.java` |
| `Entities`, `JavaText`, `Wrappers` | The read-only users and seats, the enums, the exceptions, and the Java library behaviour the logic depends on. The Java library behaviour covered is `parseInt`, `parseLong`, `String.valueOf`, `split`, `toUpperCase`, `isBlank`, `equalsIgnoreCase` and the `(int)` cast. | — |

Modelling conventions:

- **Time.** Times are whole seconds. `LocalDateTime.now()` is a `now` parameter.
- **Read-only tables.** The users and seats tables are parameters.
- **Exceptions.** Exceptions are `Result` errors carrying the message `getMessage()` would return.
- **Partial effects.** An exception in the handler ends the handling of the message. Effects produced before it are kept.
- **Java types.** Java `int` and `long` are the subset types `Int32` and `Int64`. The `(int)` cast of a `Duration`'s seconds keeps the low 32 bits, written out in `ToInt32`.
- **Where the code is followed over its comments:**
  - The sweep threshold is the one minute in force (`minusMinutes(1)`), not the one hour in the comment.
  - The lower-case type `admin_chat` takes the ADMIN_CHAT branch of the handler, but the server's exact `"ADMIN_CHAT".equals` check sends it to the sender's room. `Broadcasting.LowerCaseAdminChatGoesToRoom` states this.
- **Calls the repository does not declare.** The check-in service calls three repository methods whose declarations in `CheckinRepository` do not support the calls:
  - `findBySeat_FloorAndCheckoutTimeIsNull`, called by `getSeatStatusesByRoom`, is not declared at all;
  - `findBySeat_FloorAndSeat_RoomAndCheckoutTimeIsNull`, called by `getSeatStatusesByRoom`, is declared with a `String` room but called with a `RoomType`;
  - `findFirstByUserAndSeatOrderByCheckinTimeDesc(user, seat)`, called by `checkin`, is not declared at all.

  All three are modelled as the derived queries their names describe: the first two as `Occupancy.FindActiveInScope`, the third as `Occupancy.FindLastByUserAndSeat` (the newest row of that user at that seat, active or not).

## Model

| member | source | states |
|---|---|---|
| CheckinEntity.TransitionsKeepAwayConsistent | src/main/java/com/entity/Checkin.java:58-95 | Starting a session or an absence establishes "away time present iff AWAY". Returning and checking out keep it, as does `onCreate`. |
| CheckinEntity.TransitionsKeepPersisted | src/main/java/com/entity/Checkin.java:41-62 | `onCreate` always fills the NOT NULL columns status and checkinTime. Every later transition keeps them filled. |
| CheckinEntity.CreatedAfterSessionStarted | src/main/java/com/entity/Checkin.java:58-62 | The insert hook after `startNewSession` changes nothing, because it only fills nulls. |
| CheckinEntity.Checkin.constructor | src/main/java/com/entity/Checkin.java:12-52 | The builder gives no id and all four lifecycle fields null. |
| CheckinEntity.Checkin.OnCreate | src/main/java/com/entity/Checkin.java:58-62 | Fills checkinTime with now and status with IN_USE only where they are null. The other fields are unchanged. |
| CheckinEntity.Checkin.MarkCheckin | src/main/java/com/entity/Checkin.java:65-70 | IN_USE from now, with no away time and no checkout time. |
| CheckinEntity.Checkin.StartAway | src/main/java/com/entity/Checkin.java:73-76 | AWAY with the away time now. Checkin and checkout times are unchanged. |
| CheckinEntity.Checkin.BackFromAway | src/main/java/com/entity/Checkin.java:79-82 | IN_USE with the away time cleared. The times are unchanged. |
| CheckinEntity.Checkin.Checkout | src/main/java/com/entity/Checkin.java:85-87 | Only the checkout time changes, to now. |
| CheckinEntity.Checkin.StartNewSession | src/main/java/com/entity/Checkin.java:90-95 | A fresh IN_USE session from now, with the id kept: the row-reuse reset. |
| Entities.RoomValueOf | src/main/java/com/entity/User.java:20-22 | `RoomType.valueOf` accepts exactly "A" and "B" (case-sensitive), and the result's name is the input. |
| Entities.RoleValueOf | src/main/java/com/entity/User.java:16-18 | `RoleType.valueOf` accepts exactly "USER" and "ADMIN", and the constant it returns is the one whose `name()` is the input. |
| Entities.RoomValueOfName | src/main/java/com/entity/User.java:20-22 | `valueOf(name())` is the identity, and the text "null" of a missing room is rejected. |
| JavaText.ParseIntOfIntToString | src/main/java/com/scheduler/CheckinScheduler.java:41 | `Integer.parseInt(String.valueOf(n)) == n` for every `int`. |
| JavaText.ParseLongOfIntToString | src/main/java/com/service/CheckinService.java:65 | `Long.parseLong(String.valueOf(n)) == n` for every `long`. |
| JavaText.SplitPair | src/main/java/com/service/CheckinService.java:257 | `split("\\|")` of `a + "\|" + b` gives back `[a, b]` when neither part holds the separator and `b` is not empty. |
| JavaText.ToUpper | src/main/java/com/socket/server/ClientHandler.java:100 | `toUpperCase` keeps the length and upper-cases each letter. |
| JavaText.ToInt32InRange | src/main/java/com/service/CheckinService.java:202-204 | The `(int)` cast of the seconds is exact when they fit in an `int`. |
| JavaText.ToInt32Congruent | src/main/java/com/service/CheckinService.java:202-204 | Otherwise the cast differs from the seconds by a multiple of 2^32. |
| Messages.ToSeatInfo | src/main/java/com/socket/server/ClientHandler.java:439-446 | A DTO converts exactly when its seat number parses as an `int`. The entry then has that number, the status name and remainSeconds, and a user id present iff the DTO has one. |
| Messages.SeatInfosOf | src/main/java/com/scheduler/CheckinScheduler.java:39-47 | The list converts iff every element converts, and it is then the element-wise conversion, in order. |
| Messages.SeatInfoUserIdRoundTrip | src/main/java/com/socket/server/ClientHandler.java:442 | The user id's text reads back as the same `long`. |
| Messages.CanonicalSeatNumbersConvert | src/main/java/com/socket/server/ClientHandler.java:440 | Seat numbers written by `String.valueOf` always convert, keeping their numbers. |
| Occupancy.Row.With | src/main/java/com/entity/Checkin.java:29-52 | A row after a transition has the new field values and the same id, user and seat. |
| Occupancy.FindFirstNewest | src/main/java/com/repository/CheckinRepository.java:14-17 | A `findFirst…OrderByCheckinTimeDesc` query finds nothing iff no row matches. Otherwise it finds a matching row with the greatest checkin time, the first such in table order. |
| Occupancy.FindActiveInScope | src/main/java/com/repository/CheckinRepository.java:20 | The room-scoped query returns exactly the active rows on that floor (and in that zone). |
| Occupancy.FindSeats | src/main/java/com/repository/SeatRepository.java:12-22 | The seat queries return exactly the seats with the floor, the number and, when given, the zone. |
| Occupancy.GetSeat | src/main/java/com/service/CheckinService.java:35-53 | A found seat has the requested floor and `String.valueOf(seatNo)`, and has the named zone when a room is given. The enum error occurs iff a non-blank room is not a zone name. "Not found" means no seat matches. Exactly one matching seat (by floor and number, and by zone when a room is given) is returned; several give the non-unique error with their count. |
| Occupancy.OwnedActiveRow | src/main/java/com/service/CheckinService.java:109-118 | The prelude of the owner-only requests yields an active row of the table. |
| Occupancy.CheckinOp | src/main/java/com/service/CheckinService.java:63-104 | A check-in succeeds only for a parsable, existing user at a resolvable seat. It never removes or renumbers a row, and it either keeps the row count and counter or adds one row and advances the counter by one. CheckinErrorOrder, CheckinOkIffChecksPass, CheckinSuccess and CheckinKeepsValid state the rest. |
| Occupancy.OwnerOp | src/main/java/com/service/CheckinService.java:107-153 | An owner-only request keeps the number of rows and every row's id, user and seat. OwnerOpSucceedsIffOwner, OwnerRequestApplied and OwnerOpKeepsValid state which row changes and when. |
| Occupancy.SeatStatusesByRoom | src/main/java/com/service/CheckinService.java:167-223 | The seat list fails iff a non-blank room is not exactly a zone name, and then with the enum error for that text. SeatListEntry, SeatListDistinct, SeatListLatest and SeatListCovers state its contents. |
| Occupancy.ExpireAway | src/main/java/com/service/CheckinService.java:248-252 | The sweep keeps the table's length. |
| Occupancy.IndexLatestBySeat | src/main/java/com/service/CheckinService.java:181-188 | The loop's map is, per seat id, the first row seen with the latest checkin time, and its keys are met in first-occurrence order. |
| Occupancy.CheckinService.constructor | src/main/java/com/repository/CheckinRepository.java:12 | An empty table, which satisfies the table invariant. |
| Occupancy.CheckinService.Checkin | src/main/java/com/service/CheckinService.java:63-104 | `checkin` keeps the table invariant. It either fails with `CheckinOp`'s error and an unchanged table, or leaves exactly `CheckinOp`'s new table. |
| Occupancy.CheckinService.Transit | src/main/java/com/service/CheckinService.java:107-153 | `startAway`, `backFromAway` and `checkout` keep the table invariant. Each either fails with an unchanged table or leaves exactly `OwnerOp`'s table. The id counter never moves. |
| Occupancy.CheckinService.GetSeatStatus | src/main/java/com/service/CheckinService.java:158-163 | On a table that keeps its invariant: EMPTY iff the seat has no active row, and otherwise AWAY or IN_USE after that row's status. |
| Occupancy.CheckinService.GetSeatStatusesByRoom | src/main/java/com/service/CheckinService.java:167-223 | The method's result is the seat-list function. |
| Occupancy.CheckinService.AutoCheckoutAndBuildSeatUpdates | src/main/java/com/service/CheckinService.java:232-272 | The sweep keeps the table invariant. With an expired absence at a zoneless seat, it fails with the enum error for "null" and the table is restored. Otherwise every expired absence is checked out, and one update per affected floor and room comes back. The update keys are exactly the affected keys, each once, and each update holds its room's current seat list. |
| Occupancy.CheckinService.CheckoutExpiredAway | src/main/java/com/service/CheckinService.java:240-252 | The first loop keeps the table invariant, checks out exactly the expired absences and collects exactly their `floor\|room` keys. |
| Occupancy.CheckinService.BuildSeatUpdates | src/main/java/com/service/CheckinService.java:255-271 | The second loop fails iff some affected key is zoneless. Otherwise it gives one update per key, no key twice, each naming a zone, with that room's seat list. |
| Occupancy.ActiveAtSeatUnique | src/main/java/com/service/CheckinService.java:56-60 | Under one active row per seat, a seat's active row is the only one. |
| Occupancy.LatestBySeatIsLatest | src/main/java/com/service/CheckinService.java:181-188 | The map holds exactly the seats seen, each mapped to the first of its rows with the latest checkin time. |
| Occupancy.SeatOrderIsKeys | src/main/java/com/service/CheckinService.java:190 | The enumeration order lists every key of the map exactly once. |
| Occupancy.ScopeKeyDecodes | src/main/java/com/service/CheckinService.java:250-258 | Splitting a seat's key gives its floor text and room text, and the floor parses back. |
| Occupancy.ScopeKeyRoundTrip | src/main/java/com/service/CheckinService.java:250-259 | A zoned seat's key decodes to its own floor and zone. A zoneless seat's key decodes to the room text "null", which `valueOf` rejects. |
| Occupancy.ScopeKeyInjective | src/main/java/com/service/CheckinService.java:250 | Two seats share a key iff they share floor and zone. |
| Occupancy.RoomlessKeyFails | src/main/java/com/service/CheckinService.java:172-177 | Reading the seat list for a key's room text fails iff the seat has no zone, and then with the enum error for "null". |
| Occupancy.AffectedKeyDecodes | src/main/java/com/service/CheckinService.java:256-259 | An affected key is the key of an expired seat, decodes to that seat's floor and room text, and every expired seat with that key has the same zone. |
| Occupancy.FoundTheActiveRow | src/main/java/com/service/CheckinService.java:71-83 | With one active row per seat and per user, the active row a query finds is the only match. |
| Occupancy.CheckinErrorOrder | src/main/java/com/service/CheckinService.java:63-83 | Check-in tests, in order: the user id text, the user, the seat, the user's active row, the seat's active row. Each failure gives its own error. |
| Occupancy.CheckinOkIffChecksPass | src/main/java/com/service/CheckinService.java:63-104 | A check-in succeeds exactly when the user id parses, the user exists, the seat resolves, the user has no active row and the seat has no active row. |
| Occupancy.RecheckinSameSeatRefused | src/main/java/com/service/CheckinService.java:71-76 | A user with an active row is refused as already checked in, even at that same seat. |
| Occupancy.CheckinSuccess | src/main/java/com/service/CheckinService.java:85-103 | A success leaves exactly one active row at the seat: IN_USE, owned by the user, from now, not away. Either the user's last row at that seat, which was inactive, is reused with its id, or one row is added with the next id. Nothing else changes. |
| Occupancy.CheckinKeepsValid | src/main/java/com/service/CheckinService.java:63-104 | Check-in keeps the table invariant: distinct ids below the counter, away time iff AWAY, one active row per seat and per user. |
| Occupancy.CheckinCheckoutCheckinReusesRow | src/main/java/com/service/CheckinService.java:85-103 | Check-in, checkout, then check-in again by the same user at the same seat restarts the same row, with no row added and the counter unchanged. |
| Occupancy.CheckoutOwnCheckin | src/main/java/com/service/CheckinService.java:140-153 | Checking out right after a check-in succeeds and keeps every id. It leaves nothing of that user or seat active, and the user's row at that seat remains. |
| Occupancy.RecheckinReuses | src/main/java/com/service/CheckinService.java:86-94 | With nothing of the user or seat active and an old row of theirs at the seat, a check-in succeeds by restarting an old row in place. |
| Occupancy.OwnerOpSucceedsIffOwner | src/main/java/com/service/CheckinService.java:107-153 | An owner-only request succeeds iff three things hold: the seat resolves, it has an active row, and the user id parses to that row's owner. Success transitions that one row. |
| Occupancy.NotOwnerRefused | src/main/java/com/service/CheckinService.java:116-118 | A request by anyone but the active row's owner fails with "not the user of this seat". |
| Occupancy.OwnerRequestApplied | src/main/java/com/service/CheckinService.java:107-153 | The owner's request changes exactly the seat's active row, by the entity's transition. |
| Occupancy.OwnerOpKeepsValid | src/main/java/com/service/CheckinService.java:107-153 | The owner-only transitions keep the table invariant. |
| Occupancy.RemainSecondsMeaning | src/main/java/com/service/CheckinService.java:198-212 | The remaining time is what is left of the two-hour session (IN_USE) or of the one-hour absence (AWAY), floored at zero. It is 0 for an AWAY row without an away time, and never negative. |
| Occupancy.SeatListEntry | src/main/java/com/service/CheckinService.java:190-222 | Entry k of the seat list describes the kept row of the k-th seat in enumeration order. |
| Occupancy.SeatListDistinct | src/main/java/com/service/CheckinService.java:181-222 | The seat list names each seat at most once and never says EMPTY. |
| Occupancy.SeatListLatest | src/main/java/com/service/CheckinService.java:181-188 | Each entry reports the first of its seat's active in-scope rows with the latest checkin time. |
| Occupancy.SeatListCovers | src/main/java/com/service/CheckinService.java:169-190 | Every active row in scope has its seat in the list. |
| Occupancy.ExpireAwayMeaning | src/main/java/com/service/CheckinService.java:235-252 | The sweep sets the checkout time to now on exactly the active AWAY rows whose absence began more than a minute ago. Every other row is unchanged. |
| Occupancy.NothingExpiredNoKeys | src/main/java/com/service/CheckinService.java:247-256 | There are no affected rooms iff nothing expired. |
| Occupancy.ExpireAwayKeepsValid | src/main/java/com/service/CheckinService.java:248-252 | The sweep keeps the table invariant. |
| Occupancy.SweepScopesMeaning | src/main/java/com/service/CheckinService.java:255-271 | Each reported update names the floor and zone of an expired absence, and no two share one. |
| SensorCache.Lookup | src/main/java/com/service/SensorDataService.java:97-99 | A cache lookup finds a snapshot iff the (floor, room) key was written, and then the one stored. |
| SensorCache.Ingest | src/main/java/com/service/SensorDataService.java:28-94 | A failure is the null unboxing or the enum error for the room. A success appends three rows to the saved ones and adds exactly the message's key to the cache. IngestFailure, IngestSavesThreeRows, IngestOverwritesKey and IngestDashboard state the rest. |
| SensorCache.SensorDataService.constructor | src/main/java/com/service/SensorDataService.java:26 | An empty cache and no saved rows. |
| SensorCache.SensorDataService.HandleSensorData | src/main/java/com/service/SensorDataService.java:28-94 | The call is `Ingest` on the service's state. On failure nothing is saved or cached. |
| SensorCache.SensorDataService.GetLatestSnapshot | src/main/java/com/service/SensorDataService.java:97-99 | The snapshot under the exact (floor, room text) key, or null. |
| SensorCache.IngestFailure | src/main/java/com/service/SensorDataService.java:30-43 | A call fails iff the floor or room is null, the room is not exactly "A" or "B", or a reading is null. An unknown zone is reported before missing readings. |
| SensorCache.IngestSavesThreeRows | src/main/java/com/service/SensorDataService.java:39-63 | A success appends exactly three rows, TEMP, CO2 and LUX in order, with the message's floor, zone and sender. |
| SensorCache.IngestOverwritesKey | src/main/java/com/service/SensorDataService.java:68-75 | A success leaves the new snapshot, stamped now, under its key. Every other key reads as before. |
| SensorCache.IngestDashboard | src/main/java/com/service/SensorDataService.java:80-89 | The DASHBOARD_UPDATE carries the readings and the message's floor and room, from SYSTEM. |
| ChatLog.FindByLoginId | src/main/java/com/Repository/UserRepository.java:15 | `findByLoginId` finds nothing iff no user has that login id. Otherwise it finds a user with that login id. |
| ChatLog.RoomOfText | src/main/java/com/service/ChatMessageService.java:29-37 | A zone is set iff the upper-cased room text is "A" or "B", and it is the zone of that name. The exception is caught and leaves null. |
| ChatLog.RoleOfText | src/main/java/com/service/ChatMessageService.java:39-47 | A role is set iff the upper-cased role text is "USER" or "ADMIN", and it is the role of that name. |
| ChatLog.SaveChat | src/main/java/com/service/ChatMessageService.java:20-66 | The record has the message's floor (0 when null) and text. The user is linked iff one has the sender as login id, and the display name is then theirs, otherwise the sender. Zone and role are set exactly when their upper-cased texts name a constant, and each is the constant whose name equals the text regardless of case. |
| ChatLog.RoomIgnoresCase | src/main/java/com/service/ChatMessageService.java:33 | "a" and "A" both log zone A. |
| ChatLog.NonUserRolesDropped | src/main/java/com/service/ChatMessageService.java:43 | The session roles SENSOR and SYSTEM are logged as null. |
| Dispatch.SameRoomMeaning | src/main/java/com/socket/server/ClientHandler.java:53-78 | `isSameRoom` holds iff the floors match and either both sides have no room (null, blank or any-case "null") or both have the same room text. The relation is symmetric. |
| Dispatch.NullTextIsNoRoom | src/main/java/com/socket/server/ClientHandler.java:59-64 | "NULL", "Null", blank and empty count as no room, and "A" does not. |
| Dispatch.BackfillOnlyNulls | src/main/java/com/socket/server/ClientHandler.java:136-147 | Backfill replaces only null fields, each with the session's value, and leaves every other field alone. The floor is always set afterwards. |
| Dispatch.Step | src/main/java/com/socket/server/ClientHandler.java:83-252 | Only the JOIN branch changes the session, only CHECKIN and the owner-only branches change the store, and only SENSOR_DATA changes the sensor cache. The per-branch lemmas below state each branch's effects. |
| Dispatch.JoinStep | src/main/java/com/socket/server/ClientHandler.java:103-130 | JOIN never changes the services. It broadcasts one notice first, and anything after it goes to this client only. JoinEffects states the fields. |
| Dispatch.CheckinStep | src/main/java/com/socket/server/ClientHandler.java:181-183 | CHECKIN changes at most the store and keeps the session. It answers with at most one message, either an ERROR to this client with nothing changed or a SEAT_UPDATE broadcast. See also CheckinFailureOnlyError and CheckinSuccessBroadcast. |
| Dispatch.OwnerStep | src/main/java/com/socket/server/ClientHandler.java:186-198 | AWAY_START, AWAY_BACK and CHECKOUT keep the session, the sensors and the id counter. At most one SEAT_UPDATE broadcast follows. See also OwnerFailureSilent. |
| Dispatch.SensorStep | src/main/java/com/socket/server/ClientHandler.java:201-234 | SENSOR_DATA keeps the session and the store. It sends nothing or two DASHBOARD_UPDATE broadcasts. See also SensorEffects. |
| Dispatch.ClientHandler.constructor | src/main/java/com/socket/server/ClientHandler.java:29-43 | A new connection has floor 0 and no room, nickname or role. |
| Dispatch.ClientHandler.Handle | src/main/java/com/socket/server/ClientHandler.java:83-252 | One pass of the read loop keeps the store's table invariant. The new session, the new service state and the effects are exactly `Step`'s. |
| Dispatch.ClientHandler.HandleJoin | src/main/java/com/socket/server/ClientHandler.java:103-130 | JOIN is `JoinStep`: the session is set from the message, the notice is broadcast, and the seat list is sent to this client when the floor is positive. |
| Dispatch.ClientHandler.HandleCheckin | src/main/java/com/socket/server/ClientHandler.java:288-320 | CHECKIN is `CheckinStep`. |
| Dispatch.ClientHandler.HandleOwnerRequest | src/main/java/com/socket/server/ClientHandler.java:327-381 | AWAY_START, AWAY_BACK and CHECKOUT are `OwnerStep`. |
| Dispatch.ClientHandler.HandleSensorData | src/main/java/com/socket/server/ClientHandler.java:201-234 | SENSOR_DATA is `SensorStep`. |
| Dispatch.ClientHandler.HandleSeatStatusRequest | src/main/java/com/socket/server/ClientHandler.java:462-473 | The result is `SeatStatusStep`'s effects, all SEAT_UPDATE replies to this client. |
| Dispatch.ClientHandler.SeatUpdateFor | src/main/java/com/socket/server/ClientHandler.java:386-460 | The SEAT_UPDATE for the room, from the store's current seat list, or none when the list or a seat number's conversion throws. |
| Dispatch.ClientHandler.Leave | src/main/java/com/socket/server/ClientHandler.java:257-270 | The leave notice is broadcast iff nickname and room are both set, at most once, with the session's floor and room. |
| Dispatch.UntypedMessageSkipped | src/main/java/com/socket/server/ClientHandler.java:95-98 | A JSON null or an untyped message changes nothing and sends nothing. |
| Dispatch.TypeMatchIgnoresCase | src/main/java/com/socket/server/ClientHandler.java:100 | A message and its upper-cased-type twin give the same session, the same service state and as many effects. |
| Dispatch.BranchIgnoresType | src/main/java/com/socket/server/ClientHandler.java:103-238 | Within every branch, the type only matters as echoed text. |
| Dispatch.OnlyJoinChangesSession | src/main/java/com/socket/server/ClientHandler.java:103-243 | Only JOIN and JOIN_ROOM change the session fields. |
| Dispatch.JoinEffects | src/main/java/com/socket/server/ClientHandler.java:103-130 | JOIN sets floor (or -1), room, nickname and role from the message, and first broadcasts the entry notice. It sends a SEAT_UPDATE to this client only, and only when the floor is positive. The services are untouched. |
| Dispatch.ChatEffects | src/main/java/com/socket/server/ClientHandler.java:133-178 | CHAT and ADMIN_CHAT log one record of the backfilled message, then broadcast that message, whose type is as written and whose floor is set. |
| Dispatch.CheckinFailureOnlyError | src/main/java/com/socket/server/ClientHandler.java:299-316 | A failed check-in sends exactly one ERROR, to this client, with the session's floor and room and the exception's message. Nothing changes. |
| Dispatch.CheckinRoomListable | src/main/java/com/socket/server/ClientHandler.java:319 | After a successful check-in, the room's seat list can always be read. |
| Dispatch.CheckinSuccessBroadcast | src/main/java/com/socket/server/ClientHandler.java:318-320 | A successful check-in stores the new table and broadcasts at most one SEAT_UPDATE, for the request's floor and room. It broadcasts exactly one when the seat numbers convert, and never sends ERROR. |
| Dispatch.OwnerFailureSilent | src/main/java/com/socket/server/ClientHandler.java:327-341 | A failed away-start, away-back or checkout sends nothing, not even ERROR, and changes nothing. |
| Dispatch.MissingSeatNumberSilent | src/main/java/com/socket/server/ClientHandler.java:296 | A seat request without a seat number throws at unboxing, so nothing is sent and nothing changes. |
| Dispatch.SeatStatusRequestOnlyUnicasts | src/main/java/com/socket/server/ClientHandler.java:462-473 | SEAT_STATUS_REQUEST never broadcasts and never changes anything. |
| Dispatch.SensorEffects | src/main/java/com/socket/server/ClientHandler.java:201-234 | SENSOR_DATA either fails with nothing sent or changed, or stores the readings and broadcasts the same DASHBOARD_UPDATE twice: once from the service, once from the handler. |
| Broadcasting.RecipientsMeaning | src/main/java/com/socket/server/ChatServer.java:67-104 | A broadcast reaches exactly the registered connections that should receive it, each once, in registry order. |
| Broadcasting.Recipients | src/main/java/com/socket/server/ChatServer.java:67-104 | The recipients are registry positions, no more of them than connections. RecipientsMeaning states exactly which positions they are. |
| Broadcasting.AdminChatByRole | src/main/java/com/socket/server/ChatServer.java:71-83 | An ADMIN_CHAT broadcast reaches exactly the ADMIN connections of the registry, whatever their floor and room, each once and in registry order. |
| Broadcasting.NoFloorNoRecipients | src/main/java/com/socket/server/ChatServer.java:89-93 | Any other message without a floor reaches no one. |
| Broadcasting.LowerCaseAdminChatGoesToRoom | src/main/java/com/socket/server/ChatServer.java:71 | "admin_chat" is logged and broadcast like a chat, so it goes to the sender's room rather than to the administrators. |
| Broadcasting.SessionsOf | src/main/java/com/socket/server/ChatServer.java:27 | The sessions of the registry, in order. |
| Broadcasting.ChatServer.constructor | src/main/java/com/socket/server/ChatServer.java:27-34 | An empty registry. |
| Broadcasting.ChatServer.Register | src/main/java/com/socket/server/ChatServer.java:47-50 | `clients.add` appends the handler. |
| Broadcasting.ChatServer.Broadcast | src/main/java/com/socket/server/ChatServer.java:67-104 | The loop sends to exactly `Recipients`, and the logged count is their number. |
| Scheduling.UpdateMessage | src/main/java/com/scheduler/CheckinScheduler.java:39-56 | An update converts iff its seat numbers parse, into a SEAT_UPDATE from SYSTEM with the update's floor, room and converted seats. |
| Scheduling.Fan | src/main/java/com/scheduler/CheckinScheduler.java:36-61 | The loop sends at most one message per update, each a SEAT_UPDATE from SYSTEM. FanMeaning and FanMessages state which messages, and FailureEndsFan where the loop stops. |
| Scheduling.FanMeaning | src/main/java/com/scheduler/CheckinScheduler.java:36-61 | Without a failure, every update is broadcast once, in order. With one, exactly the updates before the first unconvertible one are broadcast. |
| Scheduling.FanMessages | src/main/java/com/scheduler/CheckinScheduler.java:49-56 | Each broadcast carries its update's floor, room and full seat list, from SYSTEM. |
| Scheduling.NothingToFanOut | src/main/java/com/service/CheckinService.java:247-256 | A sweep that finds no expired absence leaves the table exactly as it was, returns no update and broadcasts nothing. |
| Scheduling.FailureEndsFan | src/main/java/com/scheduler/CheckinScheduler.java:41 | After the first conversion failure, nothing more is broadcast. |
| Scheduling.CheckinScheduler.constructor | src/main/java/com/scheduler/CheckinScheduler.java:29-30 | The scheduler shares the store and the server. |
| Scheduling.CheckinScheduler.AutoCheckoutAwaySeats | src/main/java/com/scheduler/CheckinScheduler.java:29-62 | The sweep keeps the table invariant. Either it fails with the table restored and nothing sent, or the table is the swept one and the messages sent are `Fan` of the updates. When nothing expired, nothing changes and nothing is sent. Each message goes to `Recipients` of the registry. |
| Scheduling.CheckinScheduler.BroadcastUpdates | src/main/java/com/scheduler/CheckinScheduler.java:36-61 | The loop sends exactly `Fan`'s messages, and stops at the first failure. |

## Left out

- Socket I/O, JSON parsing, threads, the `CopyOnWriteArrayList` and `ConcurrentHashMap` concurrency guarantees, logging, and the `@Scheduled` timer are not modelled. Messages arrive already parsed (None is the JSON `null`). What the handler sends is returned as effects.
- Broadcast effects are not delivered inside `Handle`. Delivery is `Broadcasting.ChatServer.Broadcast`, applied to those effects by the caller.
- `Broadcasting.ChatServer.Broadcast` ignores the `from` argument, as the source does.
- Connections are never removed from the registry: `removeClient` is commented out in the source.
- Text operations (`toUpperCase`, `equalsIgnoreCase`, `isBlank`) are modelled on ASCII letters and ASCII whitespace only. Unicode case mapping and whitespace are not modelled.
- `Integer.parseInt` and `Long.parseLong` (`JavaText.ParseDecimal`) accept ASCII digits only. Java also accepts every other Unicode decimal digit (`Character.digit`), so a seat number or user id written in such digits is rejected by the model but parsed by the source.
- Sensor readings (`Double`) are opaque values that are stored and copied. The `floatValue()` narrowing into the saved rows is not modelled.
- `SensorCache.SensorDataService.HandleSensorData` returns the snapshot, although the Java method is `void`. The handler's use of its result is modelled as intended.
- The source's `SensorData` entity has no `sender` field, although the service calls `.sender(...)`. The model stores the sender on the row.
- Iteration order of `HashMap.values()` and `HashSet` is not Java's. The order of the seat list is the model's choice: the first-occurrence order of seat ids, which `Occupancy.SeatListEntry` and `Occupancy.IndexLatestBySeat` fix. Java's order follows the hash table and is not modelled. The sweep iterates its key set in an unspecified order, and no contract depends on that order.
- `Occupancy.FindFirstNewest` breaks ties between rows with the same checkin time by table order. The `OrderByCheckinTimeDesc` query leaves that order unspecified.
- JPA object identity and aliasing are not modelled. The store holds rows as values and writes each change back.
- The rollback of the sweep's checkouts, when building a seat list throws, is as `@Transactional` promises: `Occupancy.CheckinService.AutoCheckoutAndBuildSeatUpdates` restores the table.
- The message of the non-unique-result exception is approximate (`Failure.Message` of `NonUniqueResult`).
- `Occupancy.CheckinSuccess` compares seats by id, as the queries do.
- com/entity/ChatMessage.java is not part of this model. The chat log row is `ChatLog.ChatRecord`, with the fields `saveChat` sets.
- `UserRepository.existsByUsername` and `findByUsername`, the console client, the sensor publisher and the application entry point are outside the modelled core.
