/**
 * The server's registry of connections and its broadcast (ChatServer.java).
 * Connections are appended on accept and never removed. A broadcast goes to
 * the administrators when the type is exactly ADMIN_CHAT. Otherwise a message
 * without a floor goes to no one, and any other message goes to every
 * connection whose session is in the same room, the sender's own connection
 * included.
 */
module Broadcasting {
  import opened Wrappers
  import opened JavaText
  import opened Entities
  import opened CheckinEntity
  import opened Messages
  import opened ChatLog
  import opened Dispatch

  /** Whether a connection with session `s` is sent message `m`. */
  predicate Receives(s: Session, m: SocketMessage) {
    if m.msgType == Some("ADMIN_CHAT") then s.role == Some("ADMIN")
    else m.floor.Some? && SameRoom(s, m.floor.value, m.room)
  }

  /** The positions in the registry that a broadcast of `m` reaches, in registry order. */
  function Recipients(sessions: seq<Session>, m: SocketMessage): (r: seq<nat>)
    ensures |r| <= |sessions|
    ensures forall k :: k in r ==> k < |sessions|
  {
    if sessions == [] then []
    else
      var last := |sessions| - 1;
      Recipients(sessions[..last], m) + (if Receives(sessions[last], m) then [last] else [])
  }

  /**
   * A broadcast reaches exactly the registered connections that receive it,
   * each once, in registry order.
   */
  lemma {:induction false} RecipientsMeaning(sessions: seq<Session>, m: SocketMessage)
    ensures forall k :: k in Recipients(sessions, m) ==> k < |sessions| && Receives(sessions[k], m)
    ensures forall k :: 0 <= k < |sessions| && Receives(sessions[k], m) ==> k in Recipients(sessions, m)
    ensures forall i, j :: 0 <= i < j < |Recipients(sessions, m)| ==> Recipients(sessions, m)[i] < Recipients(sessions, m)[j]
  {
    if sessions != [] {
      var last := |sessions| - 1;
      RecipientsMeaning(sessions[..last], m);
      var earlier := Recipients(sessions[..last], m);
      assert forall i :: 0 <= i < |earlier| ==> earlier[i] in earlier;
    }
  }

  /**
   * An ADMIN_CHAT broadcast reaches exactly the ADMIN connections of the
   * registry, whatever their floor and room, each once, in registry order.
   */
  lemma AdminChatByRole(sessions: seq<Session>, m: SocketMessage)
    requires m.msgType == Some("ADMIN_CHAT")
    ensures forall k: nat :: k in Recipients(sessions, m) <==> k < |sessions| && sessions[k].role == Some("ADMIN")
    ensures forall i, j :: 0 <= i < j < |Recipients(sessions, m)| ==> Recipients(sessions, m)[i] < Recipients(sessions, m)[j]
  {
    RecipientsMeaning(sessions, m);
  }

  /** Any other message without a floor reaches no one. */
  lemma {:induction false} NoFloorNoRecipients(sessions: seq<Session>, m: SocketMessage)
    requires m.msgType != Some("ADMIN_CHAT") && m.floor.None?
    ensures Recipients(sessions, m) == []
  {
    if sessions != [] {
      NoFloorNoRecipients(sessions[..|sessions| - 1], m);
    }
  }

  /**
   * The ADMIN_CHAT check is exact. A client that writes "admin_chat" takes
   * the ADMIN_CHAT branch of the dispatcher, but the message is broadcast
   * with the type as written, so it goes to the sender's room like a chat.
   */
  lemma LowerCaseAdminChatGoesToRoom(s: Session, w: World, m: SocketMessage, users: seq<User>, seats: seq<Seat>,
                                     now: Time, other: Session)
    requires m.msgType == Some("admin_chat")
    ensures var b := BackfillSender(m, s);
      && Step(s, w, Some(m), users, seats, now).effects == [ServiceCall(SaveChatRecord(SaveChat(b, users))), Broadcast(b)]
      && (Receives(other, b) <==> SameRoom(other, b.floor.value, b.room))
  {
    assert ToUpper("admin_chat") == "ADMIN_CHAT";
    ChatEffects(s, w, m, users, seats, now);
  }

  /** The sessions of the registered handlers, in registry order. */
  function SessionsOf(clients: seq<ClientHandler>): (r: seq<Session>)
    reads clients
    ensures |r| == |clients|
    ensures forall k :: 0 <= k < |clients| ==> r[k] == clients[k].CurrentSession()
  {
    if clients == [] then [] else SessionsOf(clients[..|clients| - 1]) + [clients[|clients| - 1].CurrentSession()]
  }

  class ChatServer {
    /** `clients`: the handlers in the order they connected. */
    var clients: seq<ClientHandler>

    constructor ()
      ensures clients == []
    {
      clients := [];
    }

    /** `clients.add(handler)` on accept. */
    method Register(handler: ClientHandler)
      modifies this
      ensures clients == old(clients) + [handler]
    {
      clients := clients + [handler];
    }

    /**
     * `broadcast(message, from)`: the registry positions that are sent the
     * message, and the count that is logged. `from` plays no part.
     */
    method Broadcast(message: SocketMessage) returns (recipients: seq<nat>, count: int)
      ensures recipients == Recipients(SessionsOf(clients), message)
      ensures count == |recipients|
    {
      ghost var sessions := SessionsOf(clients);
      recipients := [];
      count := 0;
      if message.msgType == Some("ADMIN_CHAT") {
        for i := 0 to |clients|
          invariant recipients == Recipients(sessions[..i], message)
          invariant count == |recipients|
        {
          assert sessions[..i + 1][..i] == sessions[..i];
          if clients[i].GetRole() == Some("ADMIN") {
            recipients := recipients + [i];
            count := count + 1;
          }
        }
        assert sessions[..|clients|] == sessions;
        return;
      }
      if message.floor.None? {
        assert Recipients(sessions, message) == [] by { NoFloorNoRecipients(sessions, message); }
        return;
      }
      var msgFloor := message.floor.value;
      var msgRoom := message.room;
      for i := 0 to |clients|
        invariant recipients == Recipients(sessions[..i], message)
        invariant count == |recipients|
      {
        assert sessions[..i + 1][..i] == sessions[..i];
        if clients[i].IsSameRoom(msgFloor, msgRoom) {
          recipients := recipients + [i];
          count := count + 1;
        }
      }
      assert sessions[..|clients|] == sessions;
    }
  }
}
