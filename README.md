# Teleparty chat front-end: session and composer state

This project models the state logic of a small React chat client built on an
external websocket library. There are two stateful parts.

- **Session** (the root `App` component) holds the connection flag, the room
  id, the nickname, the avatar, the lobby's create/join mode, the message list,
  the typing roster and the "has joined" flag. Library callbacks (`onMessage`,
  `onClose`, `onError`, `onConnectionReady`) and user handlers (create room,
  join room, leave, avatar upload and reset, the form inputs) update it.
- **Composer** (the `ChatRoom` component) holds the draft text and the local
  typing flag. It hands chat and typing-presence calls to the library.

The model works in two layers. Each handler is a pure step function on a state
value: `App.Dispatch`, `App.CreateRoom`, `ChatRoom.Send`, and so on. Their
`ensures` clauses state what the handler does. The classes `App.Session` and
`ChatRoom.Composer` keep the same state in fields. Their methods run the
handler's statements in the source's order. Each method's `ensures` ties the
new field values to the step function applied to the old ones. The
`Composer.outbound` ghost log records every call handed to
`client.sendMessage`, including a call that threw. The `Session.requests`
ghost log records every `createChatRoom` and `joinChatRoom` call with the
arguments passed. Both classes log their toasts in a ghost `notices` sequence.

Things the source does not compute itself become parameters:

- how `createChatRoom` and `joinChatRoom` settle (`Reply`);
- the chosen file and how reading it settled;
- the timestamp `Date.now()`;
- which `sendMessage` call throws.

Three JavaScript built-ins are modelled in `Text`: `trim` (over the ECMAScript
white-space and line-terminator characters), `startsWith` and `join`.

Modules: `Text` (text.dfy), `Messages` (messages.dfy, the shared values),
`App` (app.dfy), `ChatRoom` (chat_room.dfy) and `Scenario` (scenario.dfy, one
session walked through both layers).

Where the code departs from what its UI appears to intend, the model follows the code:

- Leaving a room (`handleDisconnect`) does not reset `hasJoinedRoom`. The room
  view stays on screen with an empty room id and nickname. `App.LeaveStaysOnScreen`
  states this. The intended flow would return to the lobby.
- Chat messages are appended in any state.
- The typing indicator compares only the first typing name with the local
  nickname.
- A failed create changes nothing. The "joined" flag is not cleared.

## Model

| member | source | states |
|---|---|---|
| `App.Dispatch` | src/App.tsx:45-57 | A chat event appends exactly one message at the end and keeps the earlier ones. A typing-presence event replaces the roster wholesale. Any other event changes nothing. Fields other than the one updated stay unchanged. None of this depends on having joined. |
| `App.DispatchAllAppendsInOrder` | src/App.tsx:47-56 | Deliver any sequence of events in order. The message list becomes the old list followed by exactly the chat payloads, in arrival order. Only the messages and the roster can change. |
| `App.Closed` | src/App.tsx:58-61 | `onClose` clears `isConnected`, changes nothing else and shows the connection-lost notice. |
| `App.Ready` | src/App.tsx:66-69 | `onConnectionReady` sets `isConnected`, changes nothing else and shows the connected notice. With a client present, the state stays consistent. |
| `App.ClosedShowsConnecting` | src/App.tsx:58-59 | After a close, the connecting screen shows whatever the prior state. A ready that follows gives the same screen as a ready without the close. |
| `App.CreateRoom` | src/App.tsx:86-98 | Without a client or with an empty nickname it is a no-op and asks the library nothing. Otherwise exactly one create request is made, carrying the current nickname and avatar. On success the room id is the returned id, the messages are empty, `hasJoinedRoom` is true and nothing else changes. On failure only the failure notice appears. Consistency is kept. |
| `App.JoinRoom` | src/App.tsx:100-123 | Without a client, room id or nickname it is a no-op and asks the library nothing. Otherwise exactly one join request is made, carrying the current nickname, room id and avatar. On success the messages become the returned history if it is well-formed, otherwise empty. `hasJoinedRoom` becomes true and nothing else changes. On failure only the room id is cleared. |
| `App.Leave` | src/App.tsx:125-134 | Room id, nickname, messages and typing roster become empty. `hasJoinedRoom`, `isConnected`, the avatar, the client and the mode are unchanged. |
| `App.LeaveStaysOnScreen` | src/App.tsx:125-134 | Leaving keeps the current screen (the room view stays up). Afterwards the submit button is disabled and both create and join are no-ops. |
| `App.StepsPreserveConsistency` | src/App.tsx:45-168 | Every step keeps "connected or joined implies the client exists". For `onConnectionReady` this needs the client to be present. |
| `App.JoinedShowsRoom` | src/App.tsx:178 | In a consistent state, connected and joined always gives the room screen, so the client check never fails. |
| `App.Upload` | src/App.tsx:136-160 | Only the avatar can change. No file is a no-op. A non-image MIME type and a size over 5 MiB are each rejected with their notice and leave the avatar alone. An accepted file that was read successfully becomes the avatar. A read failure shows a notice only. |
| `App.AcceptsUpload` | src/App.tsx:140-149 | A file passes both checks iff its MIME type begins with the six characters "image/" and its size is at most 5 * 1024 * 1024 bytes. |
| `App.AcceptsUploadIff` | src/App.tsx:140-149 | `AcceptsUpload` holds iff the MIME type is "image/" followed by anything and the size is at most 5 * 1024 * 1024. |
| `App.UploadLimitInclusive` | src/App.tsx:145 | An image of exactly 5242880 bytes is accepted and one of 5242881 bytes is not. |
| `App.ResetIcon` | src/App.tsx:166-168 | The avatar becomes `DefaultIcons[0]` and every other field is unchanged. |
| `App.ResetRestoresDefault` | src/App.tsx:166-168 | Reset sets the avatar to `DefaultIcons[0]`, the avatar of the first render, and nothing else. A rejected upload leaves the state as it was. |
| `App.SelectScreen` | src/App.tsx:170-194 | "Connecting" iff not connected. Otherwise "room" iff joined and the client is present. Otherwise "lobby". |
| `App.SubmitDisabled` | src/App.tsx:293 | In create mode the button is disabled iff the nickname is empty. In join mode it is disabled iff the nickname or the room id is empty. |
| `App.SubmitEnabledIffGuardPasses` | src/App.tsx:291-293 | `SubmitDisabled` holds iff the nickname is empty, or the mode is join and the room id is empty. With a client present, the button is enabled exactly when the selected handler passes its guard. |
| `App.Session.constructor` | src/App.tsx:31-39 | The first render: no client, not connected, empty fields, default avatar, create mode, not joined, no notices and no requests. |
| `App.Session.SetupClient` | src/App.tsx:42-77 | The mount effect marks the client present and changes nothing else. |
| `App.Session.OnMessage` | src/App.tsx:45-57 | The fields become `Dispatch` of the old fields. No notice appears. |
| `App.Session.OnClose` | src/App.tsx:58-61 | The fields become `Closed` of the old fields and its notice is logged. |
| `App.Session.OnError` | src/App.tsx:62-65 | Only the socket-error notice is logged. The state is unchanged. |
| `App.Session.OnConnectionReady` | src/App.tsx:66-69 | The fields become `Ready` of the old fields and its notice is logged. |
| `App.Session.HandleCreateRoom` | src/App.tsx:86-98 | The fields, notices and requests follow `CreateRoom`. |
| `App.Session.HandleJoinRoom` | src/App.tsx:100-123 | The fields, notices and requests follow `JoinRoom`. |
| `App.Session.HandleDisconnect` | src/App.tsx:125-134 | The fields become `Leave` of the old fields. |
| `App.Session.HandleImageUpload` | src/App.tsx:136-160 | The fields and notices follow `Upload`. |
| `App.Session.ResetToDefaultIcon` | src/App.tsx:166-168 | Only the avatar changes, to `DefaultIcons[0]`. |
| `App.Session.EditNickname` | src/App.tsx:245 | Only the nickname changes, to the typed value. |
| `App.Session.EditRoomId` | src/App.tsx:284 | Only the room id changes, to the typed value. |
| `App.Session.SelectJoinMode` | src/App.tsx:251-274 | Only the create/join mode changes. |
| `ChatRoom.Send` | src/components/ChatRoom.tsx:55-72 | A blank draft makes zero calls and changes nothing. A successful send makes exactly `[ChatCall(untrimmed draft, now), TypingCall(false)]` in that order and ends with an empty draft and the flag cleared. If the chat call throws, the draft and flag are kept, no typing=false call follows and a notice is shown. If only the presence call throws, the clearing stands. |
| `ChatRoom.NotifyTyping` | src/components/ChatRoom.tsx:74-85 | The flag is always true afterwards, with the draft kept, whether or not the call throws. Exactly one typing=true call is made iff the flag was false, otherwise none. |
| `ChatRoom.TypingTwiceSendsOnce` | src/components/ChatRoom.tsx:74-85 | Two keystrokes in a row make exactly one typing=true call when the flag started false, else none. |
| `ChatRoom.KeyPress` | src/components/ChatRoom.tsx:177-180 | A non-Enter key, or Enter on a blank draft, is exactly `NotifyTyping`. The first call is typing=true iff the flag was false. Enter on a non-blank draft makes exactly: typing=true if the flag was false, then the chat call with the untrimmed draft, then typing=false unless the chat call threw. A notice appears iff the chat call or the typing=false call threw; a throwing typing=true call only reaches the console. The flag ends false, and the draft empty, iff that was Enter on a non-blank draft and the chat call did not throw; otherwise the draft is kept. |
| `ChatRoom.EnterWhileTypingIsSend` | src/components/ChatRoom.tsx:177-180 | With the flag already set by earlier keystrokes, Enter is exactly `sendMessage`: no typing=true update comes first. |
| `ChatRoom.EnterSendsInOrder` | src/components/ChatRoom.tsx:177-180 | Enter on a non-blank draft with the flag cleared makes typing=true, the chat call and typing=false in that order. It ends with an empty draft and the flag cleared. |
| `ChatRoom.EnterOnBlankSendsNoChat` | src/components/ChatRoom.tsx:177-180 | Enter on a blank draft keeps the draft and makes no chat call. At most the typing=true call is made. |
| `ChatRoom.SendFailureAndRestart` | src/components/ChatRoom.tsx:58-71 | A thrown chat call is never followed by typing=false. After a send that cleared the flag, the next keystroke announces typing again. |
| `ChatRoom.AlignmentOf` | src/components/ChatRoom.tsx:110-112 | A message is right-aligned iff its sender nickname is present and equals the local nickname. |
| `ChatRoom.BubbleOf` | src/components/ChatRoom.tsx:115-121 | The system style iff it is a system message. Otherwise the self style iff the sender is the local nickname, else the other style. |
| `ChatRoom.HeaderOf` | src/components/ChatRoom.tsx:123-148 | The sender header is shown iff the message is not a system message. In it, the avatar and the name appear iff they are present and non-empty. |
| `ChatRoom.StyleMatchesAlignment` | src/components/ChatRoom.tsx:110-123 | For a user message, the self style and right alignment coincide. A system message carrying the local nickname is right-aligned, system-styled and has no header. |
| `ChatRoom.RenderMessage` | src/components/ChatRoom.tsx:108-160 | The body and timestamp are shown verbatim. The own-message style is only ever right-aligned. There is no sender header iff the message has the system style. |
| `ChatRoom.RenderMessages` | src/components/ChatRoom.tsx:107-161 | One view per message, in the list's order. |
| `ChatRoom.TypingIndicator` | src/components/ChatRoom.tsx:162-166 | Shown iff the roster is non-empty and its first name differs from the local nickname. For one name the text is "<name> is typing...". For more, it is the names joined by ", " followed by " are typing...". |
| `ChatRoom.IndicatorChecksOnlyFirst` | src/components/ChatRoom.tsx:162 | With the local user ("Ann") first the line is hidden. With Ann second it shows "Bob, Ann are typing...". |
| `ChatRoom.IndicatorWithOneMore` | src/components/ChatRoom.tsx:164 | One more typing name adds ", " and that name before " are typing...". |
| `ChatRoom.Composer.constructor` | src/components/ChatRoom.tsx:43-44 | On mount the draft is empty, the flag is false, and no calls or notices have been logged. |
| `ChatRoom.Composer.Edit` | src/components/ChatRoom.tsx:176 | Only the draft changes, to the typed value. |
| `ChatRoom.Composer.SendMessage` | src/components/ChatRoom.tsx:55-72 | The fields, the calls made and the notices follow `Send`. |
| `ChatRoom.Composer.HandleTyping` | src/components/ChatRoom.tsx:74-85 | The fields and the calls made follow `NotifyTyping`. No notice appears. |
| `ChatRoom.Composer.OnKeyPress` | src/components/ChatRoom.tsx:177-180 | `HandleTyping` runs, then `SendMessage` for Enter. Fields, calls and notices follow `KeyPress`, which composes the two steps. |
| `Text.TrimStart` | src/components/ChatRoom.tsx:56 | The result is a suffix of the input with only white space removed before it, and it does not start with white space. |
| `Text.TrimEnd` | src/components/ChatRoom.tsx:56 | The result is a prefix of the input with only white space removed after it, and it does not end with white space. |
| `Text.Trim` | src/components/ChatRoom.tsx:56 | The result is a contiguous piece of the input with only white space before and after it. When non-empty, it neither starts nor ends with white space. |
| `Text.TrimEmptyIffBlank` | src/components/ChatRoom.tsx:56 | `trim()` gives the empty string iff every character is white space. |
| `Text.TrimmedEmpty` | src/components/ChatRoom.tsx:56 | `!s.trim()` is true iff every character of `s` is white space. |
| `Text.StartsWith` | src/App.tsx:140 | Holds iff the prefix is no longer than the string and matches its first characters one by one. |
| `Text.StartsWithIffConcat` | src/App.tsx:140 | `startsWith(prefix)` holds iff the string is the prefix followed by something. |
| `Text.Join` | src/components/ChatRoom.tsx:164 | No names give the empty string and one name gives that name. Otherwise the result begins with the first name and ends with the last. |
| `Text.JoinAppend` | src/components/ChatRoom.tsx:164 | Joining two non-empty lists gives the two joins with one separator between them. |
| `Text.JoinSnoc` | src/components/ChatRoom.tsx:164 | Appending a name to a non-empty list appends the separator and the name to the join. |
| `Scenario.CreateReceiveAndIndicate` | src/App.tsx:86-98 | Ann creates room "R1": the list is empty and she has joined. Bob's "hi" becomes the whole list. His typing update shows "Bob is typing..." on the room screen. |

## Left out

- The `TelepartyClient` transport is an external library and is not modelled. Its `sendMessage` calls become entries in `Composer.outbound`, its `createChatRoom` and `joinChatRoom` calls become entries in `Session.requests`, and how those two settle becomes a parameter.
- Toasts are recorded only as ghost notices. `console` output is not modelled.
- `FileReader` is browser I/O. The model takes the read's outcome as a parameter. The case where the read result is not a string is not represented.
- `async` interleaving, React batching and stale closures are not modelled. Each handler is one atomic step, so events arriving while a create or join is pending are not interleaved with it.
- `Date.now()` is a parameter. The `toLocaleTimeString` formatting of message times is not modelled.
- Pure DOM effects are not modelled: scroll-to-bottom, the avatar image's `onError` fallback, the empty effect cleanup and `triggerFileInput`.
- JSX markup, CSS classes and the React list key (`messageId || index`) are presentation only and are not modelled.
- The `message.data as ...` casts are unchecked in the source. The model types each event's payload by its declared kind, so a payload of the wrong shape is not representable.
- The `anyoneTyping` flag of a presence event is carried but ignored, as in the source.
- Whether a presence call of `handleTyping` threw is not observable, because it is only logged to the console. That call is always recorded as made.
- The composer's lifetime is not linked to the room screen. It starts fresh when the room view mounts, and the model does not state when that happens.
- The mount effect is modelled as running once.
- src/types.ts declares an unused `ChatState` interface with no behaviour. It is not part of this model.
