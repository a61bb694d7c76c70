/** The vocabulary exchanged with the chat relay, as already-decoded values:
    the events the session receives, the commands it sends, and the
    notification each event raises. */
module Protocol {
  import opened Wrappers

  /** An inbound frame, after `JSON.parse`. The payload is untyped in the
      source, so every payload field may be absent (`undefined`). A frame whose
      `type` is none of the eight known tags is still appended to the log; it
      is `Unknown`, carrying that tag. */
  datatype Event =
    | CreatedRoom(roomId: Option<string>)
    | JoinedRoom(roomId: Option<string>)
    | Message(roomId: Option<string>, username: Option<string>, message: Option<string>)
    | UsernameError
    | RoomIdError
    | RoomNoExist
    | UserJoined(username: Option<string>)
    | UserLeft(username: Option<string>)
    | Unknown(tag: string)

  /** An outbound command, before `JSON.stringify`. The chat command carries
      the session's current room id and username, which may be `undefined`. */
  datatype Command =
    | Create(username: string)
    | Join(roomId: string, username: string)
    | ChatMessage(message: string, sessionRoomId: Option<string>, sessionUsername: Option<string>)
    | NoUsernameError
    | NoRoomIdError

  datatype Severity = Success | Error | Info

  /** A toast: its severity and its text. Placement, duration and theme are
      presentation and are not part of the value. */
  datatype Notice = Notice(severity: Severity, text: string)

  /** A template literal's rendering of an optional string. */
  function Show(x: Option<string>): (s: string)
    ensures x.Some? ==> s == x.value
    ensures x.None? ==> s == "undefined"
  {
    match x
    case Some(s) => s
    case None => "undefined"
  }

  /** The toast the inbound handler raises for an event: success for joining,
      error for the three relay-reported errors, info for members joining or
      leaving, and none for a created room, a chat message or an unknown tag. */
  function NoticeFor(e: Event): (n: Option<Notice>)
    ensures n.None? <==> e.CreatedRoom? || e.Message? || e.Unknown?
    ensures n.Some? && n.value.severity == Success <==> e.JoinedRoom?
    ensures n.Some? && n.value.severity == Error <==> e.UsernameError? || e.RoomIdError? || e.RoomNoExist?
    ensures n.Some? && n.value.severity == Info <==> e.UserJoined? || e.UserLeft?
    ensures e.JoinedRoom? ==> n == Some(Notice(Success, "Joined Room - " + Show(e.roomId)))
  {
    match e
    case CreatedRoom(_) => None
    case JoinedRoom(r) => Some(Notice(Success, "Joined Room - " + Show(r)))
    case Message(_, _, _) => None
    case UsernameError => Some(Notice(Error, "Missing Username Value!"))
    case RoomIdError => Some(Notice(Error, "Missing Room ID Value"))
    case RoomNoExist => Some(Notice(Error, "Invalid Room ID Entered"))
    case UserJoined(u) => Some(Notice(Info, "User: " + Show(u) + " has joined the Room"))
    case UserLeft(u) => Some(Notice(Info, "User: " + Show(u) + " has left the Room"))
    case Unknown(_) => None
  }
}
