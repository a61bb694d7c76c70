# Chat session model

A Dafny model of the client chat session kept by the `App` component of
chat-app-frontend (`src/App.tsx`). One browser tab holds one WebSocket to a chat relay. Through it the
user creates a room, joins a room by its code, and sends chat messages. The
relay answers with events (`createdRoom`, `joinedRoom`, `message`,
`username_error`, `roomid_error`, `roomnoexist`, `userJoined`, `userLeft`).

Modules:

- `Wrappers`: `Option`. It stands for the session's `string | undefined`
  state and for payload fields the relay may leave out.
- `Text`: JavaScript's `String.prototype.trim` over the ECMAScript whitespace
  and line-terminator code points. Also the guard `!x?.trim()`, read as
  "absent, or empty once trimmed".
- `Protocol`: the decoded inbound `Event`, with an `Unknown` variant. The
  type union is not checked at run time, so a frame with any other `type` is
  still appended to the log. Also the outbound `Command` and the toast each
  event raises.
- `ChatView`: the pure rendering decisions. The view selector lets `loading`
  win over `inChat`. The chat list is the log filtered to `message` entries,
  with a "No messages yet" placeholder.
- `ChatSession`: class `Session` with the component's state as fields. Its
  methods are the four handlers (`onmessage`, `createRoom`, `joinRoom`,
  `sendMessage`), the two lobby setters, typing into the send input, and the
  socket reaching or leaving the OPEN state. `Valid()` carries three
  invariants. The log is exactly the events received since the last create or
  join, in arrival order. Every command sent passed its guard. The send input
  is empty whenever the chat view is not rendered.

Behaviour of the code worth knowing, which the model keeps as written:

- `sendMessage` does not check the room id. A message can go out with none
  (`MessageWithoutRoomId`).
- `createRoom` sets `inChat` as soon as it sends `create`.
- A `createdRoom` event only sets the room id.
- The blank-username branch of `createRoom` sets `loading` and nothing ever
  clears it except a `joinedRoom` event (`BlankCreateStaysLoading`).
- `roomnoexist` sets the room id to `""` (not `undefined`) and leaves
  `loading` as it was.
- The log keeps every event type; only the view filters it.
- Nothing checks an event's type at run time, so unknown types are logged too
  (`Event.Unknown`).

## Model

| member | source | states |
|---|---|---|
| `Text.SkipLeading` | src/App.tsx:209 | the position where the trimmed text starts: everything before it (from the start position) is whitespace, and the character at it is not |
| `Text.SkipTrailing` | src/App.tsx:209 | the position where the trimmed text ends: everything from it on is whitespace, and the character before it is not |
| `Text.Trim` | src/App.tsx:209 | `trim()` removes exactly the leading and trailing whitespace: the input is whitespace, then the result, then whitespace; the result is empty exactly when the input is all whitespace, and otherwise it neither starts nor ends with whitespace |
| `Text.BlankIffTrimEmpty` | src/App.tsx:209 | `IsBlank`, the test `value.trim() === ""`, holds exactly when trimming leaves the empty string |
| `Text.MissingOrBlankIffFalsyTrim` | src/App.tsx:149 | `IsMissingOrBlank`, the guard `!x?.trim()`, holds exactly when the value is `undefined` or trimming it leaves the empty string |
| `Protocol.Show` | src/App.tsx:53 | a template literal renders a present payload string as itself and a missing one as "undefined" |
| `Protocol.NoticeFor` | src/App.tsx:51-134 | joinedRoom raises a success toast naming the room; the three relay errors raise error toasts; userJoined/userLeft raise info toasts; createdRoom, message and unknown types raise none |
| `ChatView.SelectScreen` | src/App.tsx:228-249 | loading shows the loading view whatever inChat is; otherwise inChat picks the chat view over the lobby |
| `ChatView.ChatMessages` | src/App.tsx:454-455 | the filtered list holds only message events and is never longer than the log |
| `ChatView.ChatMessagesKeepsMessages` | src/App.tsx:454-455 | an event is in the chat list exactly when it is a message event of the log, and the list is a subsequence of the log (order kept) |
| `ChatView.ChatMessagesAppend` | src/App.tsx:454-455 | filtering the concatenation of two logs is the concatenation of the filtered logs |
| `ChatView.ChatMessagesSnoc` | src/App.tsx:136 | appending one event adds it to the chat list exactly when it is a message |
| `ChatView.ChatMessagesCount` | src/App.tsx:440 | the chat list is as long as the number of message events in the log |
| `ChatView.ChatMessagesOfMessageRun` | src/App.tsx:440-455 | after any run of message events the chat list is the old list followed by that run in arrival order, and the count grows by the run's length |
| `ChatView.Pane` | src/App.tsx:440-455 | "No messages yet" is shown exactly when the log holds no message event; otherwise the bubbles are the filtered log |
| `ChatSession.AllGuardedSnoc` | src/App.tsx:146-226 | sending a command that passed its guard keeps the whole outbox guarded |
| `ChatSession.AllGuardedAt` | src/App.tsx:146-226 | every command in a guarded outbox is guarded: no create or join with a blank username, no join with a blank room id, no blank chat message |
| `ChatSession.Session.constructor` | src/App.tsx:21-27 | the initial state: socket not open, no room id or username, not loading, not in a chat, empty log and outbox |
| `ChatSession.Session.TransportOpened` | src/App.tsx:32-34 | the socket becomes OPEN and nothing else changes |
| `ChatSession.Session.TransportClosed` | src/App.tsx:36-38 | the socket stops being OPEN and nothing else changes |
| `ChatSession.Session.SetUsername` | src/App.tsx:330 | the name field sets the username and nothing else |
| `ChatSession.Session.SetRoomId` | src/App.tsx:355 | the room-code field sets the room id and nothing else |
| `ChatSession.Session.InputMounted` | src/App.tsx:207 | `SendInputRef.current` is set exactly when the chat view is rendered: not loading and in a chat |
| `ChatSession.Session.TypeDraft` | src/App.tsx:511-515 | typing changes the send input only while the chat view renders it |
| `ChatSession.Session.Send` | src/App.tsx:214-223 | a guarded command is handed to the socket behind those sent before, keeping every sent command guarded |
| `ChatSession.Session.ClearLog` | src/App.tsx:201 | the log restarts empty while the received-events history is kept |
| `ChatSession.Session.Notify` | src/App.tsx:53-133 | the event's toast, if it has one, is raised after those raised before |
| `ChatSession.Session.Append` | src/App.tsx:136 | the event goes at the end of the log and of the received history, earlier entries unchanged, and the chat list gains it exactly when it is a message |
| `ChatSession.Session.OnMessage` | src/App.tsx:44-137 | any event, whatever its type, is appended at the end of the log with earlier entries unchanged; the chat list gains it exactly when it is a message; its toast is raised; room id, inChat and loading change as `Dispatch` states |
| `ChatSession.Session.Dispatch` | src/App.tsx:47-108 | createdRoom changes only the room id; joinedRoom sets the payload's room id, clears loading and enters the chat; roomnoexist sets the room id to "" and leaves the chat without touching loading; every other type changes none of the three |
| `ChatSession.Session.CreateRoom` | src/App.tsx:146-169 | socket not open: nothing changes; blank username: exactly one NoUsernameError is sent and loading is set, with log and inChat untouched; otherwise exactly one create with the username is sent, loading is set, the log is cleared and inChat is set |
| `ChatSession.Session.JoinRoom` | src/App.tsx:171-202 | socket not open: nothing is sent and the log is kept; otherwise the username is checked before the room id and exactly one of NoUsernameError, NoRoomIDError or join is sent; only join clears the log; inChat and loading never change |
| `ChatSession.Session.SendMessage` | src/App.tsx:204-226 | socket not open, input not mounted or text blank after trimming: nothing is sent and the input keeps its text; otherwise exactly one message carrying the untrimmed text and the current room id and username is sent and the input is emptied; the log never changes |
| `ChatSession.BlankCreateStaysLoading` | src/App.tsx:146-156 | after a blank-username create and the relay's username_error reply, the loading view is still shown |
| `ChatSession.MessageWithoutRoomId` | src/App.tsx:204-226 | after a joinedRoom event with no room id, a typed message is still sent, with no room id |

## Left out

- The WebSocket itself is reduced to the `open` flag. Left out: its
  construction, the relay address, the `onopen`/`onclose`/`onerror` console
  logging, and closing the socket on unmount (src/App.tsx:29-43, 139-143).
- `JSON.parse` and `JSON.stringify` are library code and are not modelled.
  Inbound frames are already-decoded `Event` values and outbound frames are
  `Command` values. A frame that fails to parse, or that has no `payload`
  object where one is read, throws inside the handler. Those cases are not
  modelled.
- Toasts are recorded as severity and text only. Position, duration, theme
  and transition belong to the toast library.
- The JSX layout, styling, icons and the own-message colouring in `Lobby` and
  `Chat` are presentation and are not modelled.
- React's batching of state updates and its effect scheduling are not
  modelled. Each handler runs to completion, and each field update takes
  effect at once.
- The Enter-key handler and the Send button both just call `sendMessage`.
  They are not separate members.
- Payload fields are `Option<string>`: a string or `undefined`. A relay may
  also send `null`, a number or an object there. The model does not capture
  what the code then does. With `null` the toast reads "Joined Room - null".
  With a number as room id, `roomId?.trim()` in `joinRoom`
  (src/App.tsx:183) throws.
- The socket's ready state is one flag that can go from closed back to open.
  A real WebSocket never leaves CLOSED, so the model admits traces the
  browser does not.
- `CreateRoom`, `JoinRoom`, `SetUsername` and `SetRoomId` can run on any
  screen in the model. In the code their controls exist only in the lobby
  view (src/App.tsx:241-248), so the model admits more call orders than the
  page offers.
- JavaScript strings are sequences of UTF-16 code units. A Dafny `string`
  holds Unicode scalar values and cannot hold a lone surrogate, so such input
  text is not modelled.
