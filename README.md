# WebSocket Terminal — a Dafny model

WebSocket Terminal is a browser console for talking to a WebSocket server.
Its main parts are:

- **The session controller** (`AppContent` in `App.tsx`). It runs the
  connection state machine: DISCONNECTED, CONNECTING, CONNECTED and ERROR.
  It also keeps the message log with its in/out counters, the 20-point
  traffic chart, and the heartbeat. It routes outbound frames to a real
  socket or, when the address names it or the socket cannot be built, to an
  in-page simulated Netty peer.
- **The simulated peer** (`MockNettyServer`). It greets, answers PING with
  PONG, acknowledges AUTH, echoes MESSAGE/BROADCAST envelopes, and
  broadcasts random load alerts.
- **The log view.** It filters the log by content or type, shows a
  shown/total badge and an empty view, and decides auto-scroll.
- **The protocol cheat-sheet.** An editable, persisted list of protocol
  lines.
- **The composer.** It submits messages and keeps presets ("macros") that
  can be saved, edited, loaded and deleted. It runs a stress test that
  sends one message per tick, and formats XML.

The model has these modules:

| module | file | what it holds |
|---|---|---|
| `Wrappers` | `wrappers.dfy` | `Option`. |
| `Seqs` | `seqs.dfy` | `Array.prototype.filter`, with its order and completeness proved. |
| `Text` | `text.dfy` | `trim`, blank tests, `toLowerCase`, `includes` and `substring(0, n)`. |
| `Json` | `json.dfy` | Flat string-valued JSON objects: `JSON.stringify`, `JSON.parse` (whitespace allowed around every token) and property assignment, with `parse(stringify(o)) == o` proved. |
| `Types` | `types.dfy` | The shared records and enumerations. |
| `MockServer` | `mock_server.dfy` | The simulated peer: a class with its listeners, pending timeouts and interval timers. |
| `App` | `app.dfy` | The session controller: a class whose methods are the React callbacks and socket event handlers. |
| `TerminalLog` | `terminal_log.dfy` | The log view, as functions. |
| `ProtocolSpec` | `protocol_spec.dfy` | The cheat-sheet, as functions over its state. |
| `CommandCenter` | `command_center.dfy` | The composer: state transitions as functions, the stress test as a class, and the XML formatter as loops proved against a layout function. |

Timers, random draws, socket events and storage contents are inputs.
Each timer or socket callback is a method call, and each random draw or
clock reading is a parameter.

Two behaviours of the source are kept as written:

- A one-letter tag such as `<a>` does not raise the XML formatter's indent
  (`CommandCenter.OneLetterTagIsPlain`).
- The simulated peer's PONG is logged with the JSON kind, not the
  HEARTBEAT_PONG kind (`App.PongLoggedAsJson`).

## Model

| member | source | states |
|---|---|---|
| `Types.KindOfTag` | types.ts:9-22 | A kind found for a string has that string as its tag. |
| `Types.TagsDistinct` | types.ts:9-22 | Every message type's tag leads back to that type, so no two types share a tag. |
| `Text.TrimStart` | components/CommandCenter.tsx:117 | The result is a suffix of the input. Everything removed is whitespace, and the result does not start with whitespace. |
| `Text.TrimEnd` | components/CommandCenter.tsx:117 | The result is a prefix of the input. Everything removed is whitespace, and the result does not end with whitespace. |
| `Text.Trim` | components/CommandCenter.tsx:60 | `s.trim()` is no longer than `s`, and it neither starts nor ends with whitespace. |
| `Text.TrimKeepsHead` | App.tsx:121 | Trimming the end as well leaves the text non-empty exactly when trimming the start does, with the same first character. |
| `Text.StartsWithChar` | App.tsx:121 | `startsWith('{')` holds exactly when the first character is `{`. |
| `Text.ToLower` | components/TerminalLog.tsx:21-24 | `toLowerCase` keeps the length, leaves no upper-case letter, and changes only the upper-case letters. |
| `Text.Includes` | components/TerminalLog.tsx:23-24 | The empty string is included in every string, and nothing longer than a string is included in it. |
| `Text.BlankIffAllSpace` | components/CommandCenter.tsx:60 | `!s.trim()` holds exactly when every character of `s` is whitespace. |
| `Text.TrimmedHead` | App.tsx:121 | The trimmed text is non-empty exactly when some character is not whitespace. Its first character is the first non-whitespace one. |
| `Text.IncludesIff` | components/TerminalLog.tsx:21-24 | `includes` holds exactly when the substring occurs at some position. |
| `Text.Prefix` | App.tsx:111 | `substring(0, n)` is a prefix whose length is the smaller of `n` and the length of `s`. |
| `Seqs.Filter` | components/TerminalLog.tsx:21-24 | Only elements of the input that satisfy the predicate are kept, and every one that does is kept. When all satisfy it, nothing is dropped. |
| `Seqs.FilterKeepsOrder` | components/TerminalLog.tsx:21-24 | The kept elements sit at strictly increasing positions of the input, and every satisfying position is among them. |
| `Seqs.FilterConcat` | components/TerminalLog.tsx:21-24 | Filtering a concatenation is the concatenation of the filtered parts. |
| `Json.Get` | services/mockServer.ts:38-54 | A property read is `undefined` exactly when no property has that name. |
| `Json.Put` | services/mockServer.ts:54-56 | The assigned property reads back the new value and every other property reads as before. A new property goes after the existing ones; an existing one keeps its place. |
| `Json.PutKeepsDistinct` | services/mockServer.ts:54-56 | Assignment never gives an object a second property of the same name. |
| `Json.Encode` | services/mockServer.ts:71 | `JSON.stringify` of an object has at least two characters, and exactly two for the object without properties. |
| `Json.EncodeBraces` | services/mockServer.ts:71 | `JSON.stringify` of an object opens with `{` and closes with `}`. |
| `Json.SkipSpaceShape` | services/mockServer.ts:35 | Skipping JSON whitespace drops a prefix made only of spaces, tabs, line feeds and carriage returns, and stops at a character that is none of these. |
| `Json.Decode` | services/mockServer.ts:35 | A parsed object never has two properties of the same name. |
| `Json.DecodeMembersDistinct` | services/mockServer.ts:35 | Reading members into an object with distinct names keeps the names distinct. |
| `Json.DecodeSpacedMember` | services/mockServer.ts:35 | A one-property object parses to that property whatever JSON whitespace stands around its tokens. |
| `Json.DecodedStartsWithBrace` | App.tsx:164 | Only text whose first character other than JSON whitespace is `{` parses as an envelope. |
| `Json.EncodeDecode` | services/mockServer.ts:70-73 | Parsing what `JSON.stringify` wrote gives back the same object, for any object with distinct property names and any string contents (escapes included). |
| `MockServer.AuthAckShape` | services/mockServer.ts:46-51 | The acknowledgement is a SYSTEM envelope with distinct properties. It shows at most the first five characters of the credential. |
| `MockServer.Echo` | services/mockServer.ts:54-58 | The echo's sender is ECHO_SERVICE, and every other property is as received. |
| `MockServer.Reply` | services/mockServer.ts:33-63 | A reply is scheduled only for text that parses, and only after 100, 200 or 300 ms. |
| `MockServer.Scheduled` | services/mockServer.ts:33-63 | A send schedules at most one emission, and none exactly when there is no reply. |
| `MockServer.NodeOf` | services/mockServer.ts:26 | `Math.floor(Math.random() * 10)` is a node number from 0 to 9 inside the draw's tenth. |
| `MockServer.ReplyToPing` | services/mockServer.ts:38-43 | A serialised PING envelope is answered 100 ms later with exactly `{type: PONG, content: ack}`. |
| `MockServer.SpacedPingAnswered` | services/mockServer.ts:35-43 | A PING envelope typed with any whitespace around its tokens, as in `{"type": "PING"}`, is answered 100 ms later with PONG. |
| `MockServer.ReplyToAuth` | services/mockServer.ts:46-51 | A serialised AUTH envelope carrying a credential is acknowledged 300 ms later. |
| `MockServer.ReplyToChat` | services/mockServer.ts:54-58 | A serialised MESSAGE or BROADCAST envelope comes back 200 ms later as its echo. |
| `MockServer.ReplyToOther` | services/mockServer.ts:33-63 | An envelope of any other type gets no reply. |
| `MockServer.MockNettyServer.constructor` | services/mockServer.ts:6-11 | There are no listeners, no pending timeouts and no intervals. |
| `MockServer.MockNettyServer.Connect` | services/mockServer.ts:13-31 | The listener is appended and the greeting is scheduled for 500 ms. One more broadcast interval runs, and it is the tracked one. |
| `MockServer.MockNettyServer.Send` | services/mockServer.ts:33-63 | Exactly the reply for the text is scheduled. Listeners and intervals are unchanged. |
| `MockServer.MockNettyServer.Disconnect` | services/mockServer.ts:65-68 | Listeners are dropped and only the tracked interval is cleared. Pending timeouts stay. |
| `MockServer.MockNettyServer.Emit` | services/mockServer.ts:70-73 | Each listener, in registration order, receives the serialised object. |
| `MockServer.MockNettyServer.Fire` | services/mockServer.ts:17-19 | The fired timeout leaves the pending list, and its envelope goes to the current listeners. |
| `MockServer.MockNettyServer.Tick` | services/mockServer.ts:22-30 | Above 0.7 the draw broadcasts one alert naming the drawn node to every listener. Otherwise nothing is delivered. |
| `MockServer.FireAfterDisconnect` | services/mockServer.ts:65-73 | A timeout that fires after `disconnect` reaches nobody. |
| `App.AppendShape` | App.tsx:67-81 | Logging appends. Earlier entries are unchanged, new entries get consecutive ids, and each frame is counted once, in its own direction. |
| `App.AppendAppend` | App.tsx:67-81 | Logging two batches one after the other equals logging them together. |
| `App.WantsMock` | App.tsx:97 | The address forces the simulated peer exactly when `mock` occurs at some position of it. |
| `App.OpensStructure` | App.tsx:121 | A socket frame opens a structure exactly when its first character other than whitespace is `{` or `[`. |
| `App.SkipSpaceTrims` | App.tsx:121 | Where JSON whitespace ends before a character that is not whitespace of any kind, `trim` stops at the same place. |
| `App.ParsedOpensStructure` | App.tsx:121-133 | Text that parses as an envelope opens with `{` once trimmed. |
| `App.SocketFrameKind` | App.tsx:118-123 | A socket frame is logged as JSON or TEXT, never as another kind. |
| `App.SocketFrameKindIff` | App.tsx:118-133 | A socket frame is JSON exactly when its trimmed text opens with `{` or `[`. The envelope check never changes the kind. |
| `App.MockFrame` | App.tsx:161-182 | A frame from the peer is logged as incoming. |
| `App.MockFrameKinds` | App.tsx:161-182 | A delivery is logged as TEXT, shown raw, exactly when it does not parse. It is SYSTEM or AUTH exactly for envelopes of those types, and JSON otherwise. |
| `App.MockEnvelopeFrame` | App.tsx:166-174 | A serialised envelope with `content` shows that content and is classified by its own `type`. |
| `App.WelcomeLoggedAsSystem` | services/mockServer.ts:17-19 | The peer's greeting is logged as an incoming SYSTEM frame with its text. |
| `App.PongLoggedAsJson` | services/mockServer.ts:38-43 | The peer's PONG is logged as an incoming JSON frame showing "ack". |
| `App.AuthAckLoggedAsSystem` | services/mockServer.ts:46-51 | The peer's acknowledgement is logged as SYSTEM. |
| `App.MaskedToken` | App.tsx:111 | The logged credential is "Bearer ", then the credential's first five characters (all of it when shorter), then "...": `10 + min(5, length)` characters. |
| `App.MaskedTokenShape` | App.tsx:111 | The logged credential is "Bearer " followed by at most its first five characters and "...". |
| `App.MockAuthAcknowledged` | App.tsx:185-187 | The credential envelope sent to the peer is acknowledged 300 ms later. |
| `App.SocketAuthCarriesToken` | App.tsx:108-112 | The socket credential envelope parses back to itself. It has type AUTH and the token under `token`, and no `content`. |
| `App.Slide` | App.tsx:49-59 | A chart of at most 20 points grows by one point per tick until it holds 20, then stays at 20. |
| `App.SlideShape` | App.tsx:56-57 | The new point comes last, after a suffix of the old chart, so only the oldest points ever leave. |
| `App.ReplayKeepsNewest` | App.tsx:44-65 | After any sequence of ticks, the chart holds exactly the newest 20 points, oldest first. |
| `App.WithEdit` | App.tsx:83-84 | A settings edit sets its own field and leaves every other field as it was. |
| `App.EditIdempotent` | App.tsx:83-87 | Applying a settings edit twice is the same as applying it once. |
| `App.CredentialFrames` | App.tsx:108-112 | An empty token logs nothing. Any other token logs one outgoing AUTH frame. |
| `App.CredentialSends` | App.tsx:108-112 | An empty token sends nothing. Any other token sends one envelope. |
| `App.AppContent.constructor` | App.tsx:22-41 | Mounting loads the stored settings, or the defaults without them. Everything else is empty and DISCONNECTED, and the invariant holds. |
| `App.AppContent.AddMessage` | App.tsx:67-81 | The log becomes `Append(old, [f])`: one entry with the next id, counted in its direction. |
| `App.AppContent.StartHeartbeat` | App.tsx:199-220 | Any earlier interval is cleared and exactly one runs. |
| `App.AppContent.StopHeartbeat` | App.tsx:222-224 | No heartbeat interval runs. |
| `App.AppContent.GateHeartbeat` | App.tsx:226-232 | The heartbeat runs exactly when it is enabled and the session is CONNECTED. |
| `App.AppContent.Configure` | App.tsx:83-87 | The settings take the edit and are stored, and the heartbeat gate is re-established. |
| `App.AppContent.CloseTransports` | App.tsx:93-94 | The socket is no longer open. The peer, if any, loses its listeners and its tracked interval, and its pending timeouts stay. |
| `App.AppContent.BeginConnect` | App.tsx:90-94 | The session is CONNECTING, the attempt is logged, and the old transports are closed. |
| `App.AppContent.OpenMock` | App.tsx:158-182 | A fresh peer has the session as its only listener and one tracked interval. It has the greeting and any credential acknowledgement pending. |
| `App.AppContent.InstallMock` | App.tsx:184-188 | The session is CONNECTED with the fresh peer referenced, and the heartbeat gate holds. |
| `App.AppContent.ConnectSocket` | App.tsx:101-102 | A new socket is referenced and not yet open. |
| `App.AppContent.LogCredential` | App.tsx:186-187 | The masked credential is logged when there is one. |
| `App.AppContent.SendCredential` | App.tsx:108-112 | On the socket, the credential envelope is written and logged masked when there is a token. |
| `App.AppContent.AnnounceOpen` | App.tsx:104-112 | "Connection Established" is logged, then the credential is sent and logged. |
| `App.AppContent.Connect` | App.tsx:89-190 | The attempt is logged and the old socket and peer are closed. A mock address, or a socket constructor that throws, gives a fresh peer with the session as its only listener: CONNECTED at once, with the greeting and acknowledgement pending and the credential logged. Any other address gives a new socket that is CONNECTING. The invariant holds. |
| `App.AppContent.SocketOpen` | App.tsx:104-113 | The session is CONNECTED with the socket open. The credential is written and logged after "Connection Established", and the heartbeat is gated. |
| `App.AppContent.SocketMessage` | App.tsx:115-143 | One incoming frame is logged, with `SocketFrameKind` of its text and the text unchanged. |
| `App.AppContent.SocketClose` | App.tsx:145-149 | The session is DISCONNECTED, "Connection Closed" is logged, and the heartbeat is stopped. |
| `App.AppContent.SocketError` | App.tsx:151-154 | The session is ERROR, "Network Error" is logged, and the heartbeat gate stops the heartbeat. |
| `App.AppContent.MockDeliver` | App.tsx:161-182 | One frame, `MockFrame` of the delivered text, is logged. |
| `App.AppContent.MockFire` | App.tsx:161-182 | A pending peer timeout fires. It leaves the pending list, and its envelope is logged only when the session still listens. |
| `App.AppContent.MockTick` | services/mockServer.ts:22-30 | A peer alert is logged only when the draw exceeds 0.7 and the session still listens. |
| `App.AppContent.Disconnect` | App.tsx:192-197 | Both transports are closed without being dropped: the peer loses its listeners and its tracked broadcast interval, and its pending timeouts stay. The session is DISCONNECTED, the heartbeat is stopped, and nothing is logged. |
| `App.AppContent.Send` | App.tsx:235-248 | The text goes verbatim to the open socket, else to the peer, and is then logged outgoing. With no transport, nothing is sent, and only a CONNECTED session logs the failure. |
| `App.AppContent.HeartbeatTick` | App.tsx:202-219 | A tick happens only while CONNECTED. It sends the configured message by the same route as `Send` and always logs one outgoing PING frame. |
| `App.AppContent.MetricsTick` | App.tsx:44-65 | The chart slides by one point that carries the counts since the last tick and a latency of 5 to 14. The counts restart at zero, and the chart stays within 20 points. |
| `App.AppContent.ClearLogs` | App.tsx:312 | The log is emptied and nothing else changes. |
| `TerminalLog.Matches` | components/TerminalLog.tsx:23-24 | An empty filter keeps every message, and the lower-cased tag of a message's own type keeps that message. |
| `TerminalLog.FilteredMessages` | components/TerminalLog.tsx:18-26 | An empty filter shows the whole log. Otherwise a message is shown exactly when its lower-cased content or type includes the lower-cased filter. |
| `TerminalLog.FilteredIsSubsequence` | components/TerminalLog.tsx:18-26 | The shown messages are a subsequence of the log, in log order, and contain every match. |
| `TerminalLog.TagSearchFindsKind` | components/TerminalLog.tsx:21-24 | Searching for a type's tag in any letter case (any query whose lower-cased form is the lower-cased tag) finds every message of that type. |
| `TerminalLog.Badge` | components/TerminalLog.tsx:75-79 | The badge appears exactly for a non-empty log. It shows shown/total with shown no greater than total, and the two are equal without a filter. |
| `TerminalLog.EmptyView` | components/TerminalLog.tsx:117-121 | The empty view appears exactly when nothing is shown. It says "no logs" exactly when the log is empty. |
| `TerminalLog.NoMatchesOnlyWhenFiltered` | components/TerminalLog.tsx:117-121 | "No matches" appears exactly when a non-empty filter hides every message of a non-empty log. |
| `TerminalLog.AutoScroll` | components/TerminalLog.tsx:57-64 | At or past the bottom, auto-scroll is on. More than 50 pixels above it, auto-scroll is off. |
| `TerminalLog.AutoScrollThreshold` | components/TerminalLog.tsx:57-64 | At the bottom, auto-scroll is on. It turns off exactly past 50 pixels from the bottom, and moving closer never turns it off. |
| `ProtocolSpec.Mount` | components/ProtocolSpec.tsx:19-23 | The list is the stored one, or the three defaults without one, and the sheet is not in edit mode. |
| `ProtocolSpec.WithField` | components/ProtocolSpec.tsx:31 | The named field holds the new value, and every other field is unchanged. |
| `ProtocolSpec.UpdateSpec` | components/ProtocolSpec.tsx:30-32 | Lines with the id take the field's new value. Other lines and their order are unchanged. |
| `ProtocolSpec.UpdateKeepsIds` | components/ProtocolSpec.tsx:30-32 | Editing a field other than the id keeps every line's id. |
| `ProtocolSpec.UpdateIdempotent` | components/ProtocolSpec.tsx:30-32 | Repeating an edit to a field other than the id changes nothing more. |
| `ProtocolSpec.AddSpec` | components/ProtocolSpec.tsx:34-42 | One "New" line is appended after the unchanged old list. |
| `ProtocolSpec.RemoveSpec` | components/ProtocolSpec.tsx:44-46 | Exactly the lines with other ids remain. |
| `ProtocolSpec.RemoveUndoesAdd` | components/ProtocolSpec.tsx:34-46 | Removing a line just added under a fresh id restores the sheet. |
| `ProtocolSpec.HandleSave` | components/ProtocolSpec.tsx:25-28 | The list is stored as shown, and edit mode is left. |
| `ProtocolSpec.ToggleEdit` | components/ProtocolSpec.tsx:55 | In edit mode the button saves. Otherwise it enters edit mode and changes nothing else. |
| `ProtocolSpec.EditsPersistOnlyOnSave` | components/ProtocolSpec.tsx:25-46 | Edits never touch the stored list. The next save stores exactly what is shown. |
| `CommandCenter.UpdateMacro` | components/CommandCenter.tsx:140-146 | The preset with the id takes the new name, type and content. The others and their order are unchanged. |
| `CommandCenter.UnchangedEditKeepsList` | components/CommandCenter.tsx:140-146 | Saving a preset's own values over it leaves the list as it was. |
| `CommandCenter.RemoveMacro` | components/CommandCenter.tsx:166 | Exactly the presets with other ids remain, and an absent id changes nothing. |
| `CommandCenter.RemoveAfterAppend` | components/CommandCenter.tsx:148-166 | Removing a preset just appended under a fresh id restores the list. |
| `CommandCenter.Mount` | components/CommandCenter.tsx:27-51 | The presets are the stored ones, or the two defaults. The message is empty and of JSON type, the preset name is empty, the save form is hidden, and no edit is in progress. |
| `CommandCenter.Submit` | components/CommandCenter.tsx:58-63 | A blank message is not sent. Any other is sent once with its type, and the box is cleared unless a stress test runs. |
| `CommandCenter.SubmitClearsForNext` | components/CommandCenter.tsx:58-63 | Submitting twice without typing in between sends once. |
| `CommandCenter.SaveMacro` | components/CommandCenter.tsx:136-162 | A blank name or message changes nothing. In edit mode the edited preset takes the values; otherwise one preset is appended. Either way the list is stored and the form closed. |
| `CommandCenter.DeleteMacro` | components/CommandCenter.tsx:164-175 | The presets with the id are removed and the list stored. The form is reset only when the deleted preset was being edited. |
| `CommandCenter.DeleteUndoesSave` | components/CommandCenter.tsx:136-175 | Deleting a preset just saved under a fresh id restores the list. |
| `CommandCenter.StartEditMacro` | components/CommandCenter.tsx:177-184 | The preset's type, content and name are loaded, it is marked as edited, and the form is shown. |
| `CommandCenter.SaveUnmodifiedEdit` | components/CommandCenter.tsx:136-184 | Opening a preset and saving it untouched leaves the list as it was. |
| `CommandCenter.ToggleSaveForm` | components/CommandCenter.tsx:186-196 | The form is shown or hidden. Both ways the edit is cancelled and the name cleared. |
| `CommandCenter.LoadMacro` | components/CommandCenter.tsx:198-202 | Loading the preset being edited does nothing. Any other preset fills the composer with its type and content. The presets, the stored list, the preset name, the save form and the edit in progress are unchanged. |
| `CommandCenter.LoadEditedIsNoOp` | components/CommandCenter.tsx:177-202 | Clicking the preset being edited never overwrites the message being typed. |
| `CommandCenter.StressTest.constructor` | components/CommandCenter.tsx:41-45 | The test is not running, progress is 0, and nothing has been sent. |
| `CommandCenter.StressTest.Start` | components/CommandCenter.tsx:205-210 | A blank message does nothing. Otherwise the test runs from zero with that message, type and count. |
| `CommandCenter.StressTest.Stop` | components/CommandCenter.tsx:222-226 | The test is stopped and progress is 100. |
| `CommandCenter.StressTest.Tick` | components/CommandCenter.tsx:211-219 | Once `sent >= count`, the tick stops the test. Otherwise it sends the payload once more. |
| `CommandCenter.Ceil0` | components/CommandCenter.tsx:212 | Sending while `sent < x` and stopping once `sent >= x` allows exactly the least natural number at least `x`: `x <= n`, and `n - 1 < x` when `n > 0`. |
| `CommandCenter.StressTest.Blast` | components/CommandCenter.tsx:205-226 | A whole run sends a non-blank message exactly `max(ceil(count), 0)` times with its type, then stops at 100. The count is a real number, as `Number(value)` of the count field may be fractional (components/CommandCenter.tsx:328). |
| `CommandCenter.Classify` | components/CommandCenter.tsx:102-106 | A closing line starts with `</`. An opening line has at least four characters and starts with `<` not followed by `/`. An inline element has at least five characters and ends with `>`. |
| `CommandCenter.PadsStep` | components/CommandCenter.tsx:101-115 | The first line has no indent. After an opening line the level rises by one unless the next line is closing, in which case it stays. After any other line a closing line lowers the level by one, never below zero, and anything else keeps it. |
| `CommandCenter.OneLetterTagIsPlain` | components/CommandCenter.tsx:102-110 | `<a>` is not an opening line, while `<ab>` is one and `</ab>` is a closing one. |
| `CommandCenter.InsertBreaks` | components/CommandCenter.tsx:97-98 | No `>` is directly followed by `<` afterwards, and nothing is removed from the front. |
| `CommandCenter.InsertBreaksAppend` | components/CommandCenter.tsx:97-98 | Breaking a concatenation breaks each part and inserts one CRLF exactly where the first part ends with `>` and the second starts with `<`. With `InsertBreaksIdle` on single characters, CRLF goes in at every `><` pair and every character is kept. |
| `CommandCenter.InsertBreaksIdle` | components/CommandCenter.tsx:97-98 | Text without a `><` pair is left as it is. |
| `CommandCenter.SplitCrLf` | components/CommandCenter.tsx:100 | There is at least one piece, and no piece contains a CRLF. |
| `CommandCenter.JoinSplit` | components/CommandCenter.tsx:100 | Joining the pieces with CRLF gives back the text. |
| `CommandCenter.Indent` | components/CommandCenter.tsx:112-113 | The indent is `2n` spaces. |
| `CommandCenter.Pads` | components/CommandCenter.tsx:100-116 | There is one indent level per line. |
| `CommandCenter.Padding` | components/CommandCenter.tsx:112-113 | The loop builds exactly `Indent(n)`. |
| `CommandCenter.FormatLine` | components/CommandCenter.tsx:101-115 | One line is written with its indent and CRLF, and the next level follows its class. |
| `CommandCenter.LayoutLines` | components/CommandCenter.tsx:100-116 | The loop builds exactly `Layout` of the lines from level 0. |
| `CommandCenter.FormatXml` | components/CommandCenter.tsx:65-118 | A blank message is unchanged. Any other becomes the trimmed layout of its lines after the breaks are inserted. |

## Left out

- The JSON model covers objects whose properties all hold strings. Numbers, booleans, `null`, arrays and nested objects parse to `None`. An envelope such as `{"type":"PING","n":1}`, which the peer would answer, gets no reply in the model.
- Message ids are a counter, not random base-36 strings, and timestamps are not modelled. The log's behaviour depends on neither.
- `Text.ToLower`: `toLowerCase` is modelled for ASCII letters only. Other scripts' case mappings are left as they are.
- `Text.Prefix`: strings are sequences of Unicode scalar values, so `substring(0, 5)` is modelled as the first five characters. JavaScript counts UTF-16 code units, so a credential with a character outside the Basic Multilingual Plane among its first five is cut at a different place, and a cut through a surrogate pair cannot be represented. `App.MaskedToken`, `App.MaskedTokenShape` and `MockServer.AuthAckShape` inherit this.
- `Json.Put`: JavaScript lists properties whose names are array indices (such as `"1"`) first, in ascending numeric order, whatever the order of assignment. The model keeps insertion order for every name. For such names the position of a new property, and so the order in which `Json.Encode` writes the properties, differ from the source. Reading a property with `Json.Get` is not affected.
- `Json.Decode`: a `\u` escape that denotes half of a UTF-16 surrogate pair is rejected, as the model's strings hold no lone surrogates, so a pair written as two `\u` escapes does not parse. For the strings the model holds, `JSON.stringify` writes no such escape.
- React effects run synchronously at the end of each method. Re-renders, stale closures and batched state updates are not modelled. The heartbeat tick's stale `status` check is captured by `HeartbeatTick` requiring a running interval, which the gate allows only while CONNECTED.
- Socket events (open, message, close, error) are method calls on the session. Late events from a socket that a later `connect` replaced are not modelled.
- Socket writes are `Outbound` values, either raw text or a stringified object. The browser's socket buffer and binary frames are not modelled.
- The outer `try`/`catch` of the socket message handler is left out. No modelled step in it throws.
- Settings, presets and the cheat-sheet are stored as the snapshot last saved. Storage failures and quota are not modelled, and nor is the storage service.
- A delivery from the peer that parses to a non-object is not modelled. The peer only emits objects.
- `MockServer.Reply`: an AUTH envelope without a string `content` schedules nothing. In the source the timeout fires and then throws before emitting, so nothing is delivered either way.
- The JSON branch of the format button (`JSON.stringify(obj, null, 2)` pretty printing) and its error flash are not modelled. Only the XML branch is.
- The first pass of the XML formatter (the `split(/>\s*</)` loop) has no effect on the result and is left out.
- `CommandCenter.StressTest`: the count is a finite real. A count field holding a number too large for a double gives `Infinity`, and that run never stops by itself; this case is not modelled.
- `CommandCenter.StressTest.Tick`: the progress percentage `Math.round(sent / count * 100)` after each send is not modelled. Only the 0 at start and the 100 at stop are.
- The stress interval's period and the heartbeat's period are not modelled. Ticks are method calls.
- Pixel quantities in the auto-scroll rule are integers.
- `ProtocolSpec.UpdateKeepsIds` and `ProtocolSpec.UpdateIdempotent` hold only for fields other than `id`. An edit of the `id` field renames a line, so a repeated edit then finds no line with the old id.
- `console.log` output, the theme and language settings, the connection panel and the chart component are not modelled.
- The session's `Disconnect` keeps references to the closed socket and peer, as the source does. Later peer timeouts are then modelled by `MockFire`.
