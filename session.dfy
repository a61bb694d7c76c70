/** The client chat session: the state the `App` component keeps and the
    handlers that change it. Each handler runs to completion before the next
    one starts, and every state update it makes takes effect directly. */
module ChatSession {
  import opened Wrappers
  import opened Text
  import opened Protocol
  import opened ChatView

  /** What every command the session sends satisfies: a create carries a
      username that is not blank, a join a username and a room id that are
      not blank, a chat message a text that is not blank. */
  predicate Guarded(c: Command) {
    match c
    case Create(u) => !IsBlank(u)
    case Join(r, u) => !IsBlank(r) && !IsBlank(u)
    case ChatMessage(m, _, _) => !IsBlank(m)
    case NoUsernameError => true
    case NoRoomIdError => true
  }

  /** Every command of `sent` is `Guarded`. Stated from the end, so that
      sending one more command unfolds it exactly once. */
  predicate AllGuarded(sent: seq<Command>) {
    sent == [] || (AllGuarded(sent[..|sent| - 1]) && Guarded(sent[|sent| - 1]))
  }

  lemma AllGuardedSnoc(sent: seq<Command>, c: Command)
    requires AllGuarded(sent) && Guarded(c)
    ensures AllGuarded(sent + [c])
  {
    assert (sent + [c])[..|sent|] == sent;
  }

  /** Every single command of a guarded outbox is guarded: no `create` with a
      blank name, no `join` with a blank name or room id, and no blank chat
      message is ever handed to the socket. */
  lemma {:induction false} AllGuardedAt(sent: seq<Command>, i: nat)
    requires AllGuarded(sent) && i < |sent|
    ensures Guarded(sent[i])
  {
    if i < |sent| - 1 {
      AllGuardedAt(sent[..|sent| - 1], i);
    }
  }

  class Session {
    /** The socket's ready state is OPEN. */
    var open: bool
    var roomId: Option<string>
    var username: Option<string>
    var inChat: bool
    var loading: bool
    /** `response`: the events received since the last create or join. */
    var log: seq<Event>
    /** The commands handed to the socket, oldest first. */
    var outbox: seq<Command>
    /** The toasts raised, oldest first. */
    var notices: seq<Notice>
    /** The text of the send input, which exists only while the chat view is
        rendered; a newly mounted input is empty. */
    var draft: string

    /** Every event ever received, and where the current log starts in it. */
    ghost var received: seq<Event>
    ghost var since: nat

    ghost predicate Valid()
      reads this
    {
      && since <= |received|
      && log == received[since..]
      && AllGuarded(outbox)
      && (Screen() != ChatScreen ==> draft == "")
    }

    /** The view the component renders. */
    function Screen(): Screen
      reads this
    {
      SelectScreen(loading, inChat)
    }

    /** The send input is mounted, so `SendInputRef.current` is not null. */
    predicate InputMounted()
      reads this
      ensures InputMounted() <==> !loading && inChat
    {
      Screen() == ChatScreen
    }

    /** The initial state: no open socket, nothing typed, nothing received. */
    constructor ()
      ensures Valid()
      ensures !open && roomId == None && username == None && !inChat && !loading
      ensures log == [] && outbox == [] && notices == [] && draft == ""
      ensures received == []
    {
      open, roomId, username, inChat, loading := false, None, None, false, false;
      log, outbox, notices, draft := [], [], [], "";
      received, since := [], 0;
    }

    /** The socket reaches the OPEN ready state. */
    method TransportOpened()
      requires Valid()
      modifies this`open
      ensures Valid() && open
    {
      open := true;
    }

    /** The socket closes; no command can be sent afterwards. */
    method TransportClosed()
      requires Valid()
      modifies this`open
      ensures Valid() && !open
    {
      open := false;
    }

    /** The lobby's name field changes. */
    method SetUsername(value: string)
      requires Valid()
      modifies this`username
      ensures Valid() && username == Some(value)
    {
      username := Some(value);
    }

    /** The lobby's room-code field changes. */
    method SetRoomId(value: string)
      requires Valid()
      modifies this`roomId
      ensures Valid() && roomId == Some(value)
    {
      roomId := Some(value);
    }

    /** The user types into the send input; without a mounted input there is
        nothing to type into. */
    method TypeDraft(text: string)
      requires Valid()
      modifies this`draft
      ensures Valid()
      ensures draft == if InputMounted() then text else old(draft)
    {
      if InputMounted() {
        draft := text;
      }
    }

    /** `ws.send`: a command that passed its guard goes to the socket, behind
        those sent before. */
    method Send(c: Command)
      requires Valid() && Guarded(c)
      modifies this`outbox
      ensures Valid() && outbox == old(outbox) + [c]
    {
      AllGuardedSnoc(outbox, c);
      outbox := outbox + [c];
    }

    /** `setResponse([])`: the log restarts empty at the current point of the
        event stream. */
    method ClearLog()
      requires Valid()
      modifies this`log, this`since
      ensures Valid() && log == []
    {
      log := [];
      since := |received|;
    }

    /** The inbound handler `onmessage`, given the parsed frame: dispatch on
        the event's type, raise its toast, and append the event to the log. */
    method OnMessage(e: Event)
      requires Valid()
      modifies this`roomId, this`inChat, this`loading, this`log, this`notices, this`draft, this`received
      ensures Valid()
      // whatever its type, the event is appended behind the earlier entries
      ensures log == old(log) + [e] && received == old(received) + [e]
      // the chat list gains the event exactly when it is a message
      ensures ChatMessages(log) == ChatMessages(old(log)) + (if e.Message? then [e] else [])
      ensures notices == old(notices) + (if NoticeFor(e).Some? then [NoticeFor(e).value] else [])
      ensures e.CreatedRoom? || e.JoinedRoom? ==> roomId == e.roomId
      ensures e.RoomNoExist? ==> roomId == Some("")
      ensures !(e.CreatedRoom? || e.JoinedRoom? || e.RoomNoExist?) ==> roomId == old(roomId)
      ensures inChat == if e.JoinedRoom? then true else if e.RoomNoExist? then false else old(inChat)
      ensures loading == if e.JoinedRoom? then false else old(loading)
      ensures draft == if InputMounted() then old(draft) else ""
    {
      Dispatch(e);
      if !InputMounted() {
        draft := "";
      }
      Notify(e);
      Append(e);
    }

    /** The toast, if any, that the event's branch raises. */
    method Notify(e: Event)
      modifies this`notices
      ensures notices == old(notices) + (if NoticeFor(e).Some? then [NoticeFor(e).value] else [])
    {
      var notice := NoticeFor(e);
      if notice.Some? {
        notices := notices + [notice.value];
      }
    }

    /** `setResponse((prev) => [...prev, data])`. */
    method Append(e: Event)
      requires since <= |received| && log == received[since..]
      modifies this`log, this`received
      ensures since <= |received| && log == received[since..]
      ensures log == old(log) + [e] && received == old(received) + [e]
      ensures ChatMessages(log) == ChatMessages(old(log)) + (if e.Message? then [e] else [])
    {
      ChatMessagesSnoc(log, e);
      log := log + [e];
      received := received + [e];
    }

    /** The per-type branches of `onmessage`: createdRoom and joinedRoom take
        the payload's room id, roomnoexist clears it; joinedRoom enters the
        chat and ends the loading view, roomnoexist leaves the chat. No other
        type touches these three fields. */
    method Dispatch(e: Event)
      modifies this`roomId, this`inChat, this`loading
      ensures e.CreatedRoom? || e.JoinedRoom? ==> roomId == e.roomId
      ensures e.RoomNoExist? ==> roomId == Some("")
      ensures !(e.CreatedRoom? || e.JoinedRoom? || e.RoomNoExist?) ==> roomId == old(roomId)
      ensures inChat == if e.JoinedRoom? then true else if e.RoomNoExist? then false else old(inChat)
      ensures loading == if e.JoinedRoom? then false else old(loading)
    {
      match e {
        case CreatedRoom(r) =>
          roomId := r;
        case JoinedRoom(r) =>
          roomId := r;
          loading := false;
          inChat := true;
        case RoomNoExist =>
          roomId := Some("");
          inChat := false;
        case _ =>
      }
    }

    /** `createRoom`: with an open socket it shows the loading view at once,
        then sends `NoUsernameError` for a blank username, and otherwise sends
        `create`, clears the log and marks the session as in a chat. */
    method CreateRoom()
      requires Valid()
      modifies this`loading, this`inChat, this`log, this`outbox, this`draft, this`since
      ensures Valid()
      ensures !open ==>
        && loading == old(loading) && inChat == old(inChat) && draft == old(draft)
        && log == old(log) && outbox == old(outbox)
      ensures open && IsMissingOrBlank(username) ==>
        && outbox == old(outbox) + [NoUsernameError]
        && loading
        && log == old(log) && inChat == old(inChat)
      ensures open && !IsMissingOrBlank(username) ==>
        && outbox == old(outbox) + [Create(username.value)]
        && loading
        && log == [] && inChat
      ensures draft == if InputMounted() then old(draft) else ""
    {
      if !open {
        return;
      } else if IsMissingOrBlank(username) {
        // the loading view replaces the chat view, unmounting the send input
        loading, draft := true, "";
        Send(NoUsernameError);
        return;
      }
      loading, draft := true, "";
      Send(Create(username.value));
      ClearLog();
      inChat := true;
    }

    /** `joinRoom`: with an open socket it checks the username, then the
        room id, and sends the first error found or else `join` and clears
        the log. It leaves the view flags alone. */
    method JoinRoom()
      requires Valid()
      modifies this`log, this`outbox, this`since
      ensures Valid()
      ensures !open ==> outbox == old(outbox) && log == old(log)
      ensures open && IsMissingOrBlank(username) ==>
        outbox == old(outbox) + [NoUsernameError] && log == old(log)
      ensures open && !IsMissingOrBlank(username) && IsMissingOrBlank(roomId) ==>
        outbox == old(outbox) + [NoRoomIdError] && log == old(log)
      ensures open && !IsMissingOrBlank(username) && !IsMissingOrBlank(roomId) ==>
        outbox == old(outbox) + [Join(roomId.value, username.value)] && log == []
    {
      if !open {
        return;
      }
      if IsMissingOrBlank(username) {
        Send(NoUsernameError);
        return;
      }
      if IsMissingOrBlank(roomId) {
        Send(NoRoomIdError);
        return;
      }
      Send(Join(roomId.value, username.value));
      ClearLog();
    }

    /** `sendMessage`: with an open socket, a mounted send input and a text
        that is not blank, it sends the untrimmed text with the current room
        id and username, whatever they are, and empties the input. */
    method SendMessage()
      requires Valid()
      modifies this`outbox, this`draft
      ensures Valid()
      ensures !open || !InputMounted() || IsBlank(old(draft)) ==> outbox == old(outbox) && draft == old(draft)
      ensures open && InputMounted() && !IsBlank(old(draft)) ==>
        && outbox == old(outbox) + [ChatMessage(old(draft), roomId, username)]
        && draft == ""
    {
      if !open || !InputMounted() || IsBlank(draft) {
        return;
      }
      var text := draft;
      Send(ChatMessage(text, roomId, username));
      draft := "";
    }
  }

  /** A user who presses "Create Room" with a blank name is answered with
      `NoUsernameError` and stays on the loading view: neither that branch nor
      the relay's `username_error` reply clears `loading`. */
  method BlankCreateStaysLoading(s: Session)
    requires s.Valid() && s.open && IsMissingOrBlank(s.username)
    modifies s
    ensures s.Valid()
    ensures s.outbox == old(s.outbox) + [NoUsernameError]
    ensures s.log == old(s.log) + [UsernameError]
    ensures s.Screen() == LoadingScreen
  {
    s.CreateRoom();
    s.OnMessage(UsernameError);
  }

  /** `sendMessage` does not look at the room id: after a `joinedRoom` event
      whose payload has no room id, a typed text goes out with none. */
  method MessageWithoutRoomId(s: Session, text: string)
    requires s.Valid() && s.open && !IsBlank(text)
    modifies s
    ensures s.Valid()
    ensures s.outbox == old(s.outbox) + [ChatMessage(text, None, old(s.username))]
    ensures s.draft == ""
  {
    s.OnMessage(JoinedRoom(None));
    s.TypeDraft(text);
    s.SendMessage();
  }
}
