# cl-chat-reborn: the relay server, its encryption gate, the client and the terminal UI, in Dafny

This project models the core of a small terminal chat system. Several clients
connect to one relay server over TCP. Each client sends a username. The server
refuses names already in use and welcomes the others, telling them whether
messages are encrypted and with which salt. It then relays every line a client
sends to all the other clients, and announces joins and departures.

The model has one module per source file:

- `Server` (`server.dfy`): `ChatServer`. It holds the registry of named
  connections, registration, the relay loop, broadcast with eviction of broken
  connections, teardown, the message history that `auto_clear_history` clears,
  and `stop`.
- `Encryption` (`encryption.dfy`): `ChatEncryption` and `EncryptionManager`.
  Fernet, PBKDF2, base64 and UTF-8 are functions passed in as a `Primitives`
  value. Lemmas take the predicate `Lawful` (decoders undo encoders) as a
  precondition wherever they need those facts.
- `Client` (`client.dfy`): `EnhancedChatClient` and `get_username`. It reads
  the server's first reply, installs the shared salt, decides whether to send
  and dispatches received envelopes.
- `TerminalUi` (`terminal_ui.dfy`): `ChatMessage`, `TerminalUI`,
  `SimpleTerminalUI` and `create_ui`. It keeps the 100-message history, the
  display queue, the command words and input routing.
- Support modules:
  - `Wire` (`wire.dfy`) holds the JSON envelopes as records.
  - `Text` (`text.dfy`) holds Python's `strip`, `split()[0]` and `lower` over
    strings.
  - `Wrappers` (`wrappers.dfy`) holds `Option`.

## How stateful code is modelled

- **Classes over pure snapshots.** Every class whose fields change in the
  source is a Dafny class with those fields. Each also has a snapshot datatype:
  `Room` for the server, `Screen` and `Plain` for the two UIs, and `Link` and
  `Peer` for the client.
- **Methods proved against spec functions.** Each method's contract ties the
  new snapshot to a pure function of the old one. For example, `HandleClient`
  ensures `Model() == Serve(...)` and `InputLoop` ensures `Model() == Session(...)`.
  The lemmas then state what the source promises about those functions.
- **Loops keep their source shape.** The source's loops (`broadcast_message`,
  the relay loop, `_input_loop`, `_listen_for_messages`, `_send_messages`,
  `get_username`) stay `while` loops. Their invariants say the remaining input
  leads to the same final state.

### Connections, failures and finite input

- **Connections and outboxes.** Connections are numbers. What the server
  writes to a connection is appended to that connection's outbox.
- **Send failures.** The set `dead` (connections whose socket is broken)
  decides which sends raise.
- **Reads are events.** Socket reads and keyboard input are finite sequences
  of events.
- **When events run out.** The server's relay loop treats the end of the
  events as the peer closing. The client and UI loops instead report that they
  are still waiting.

### Python behaviour followed exactly

- A whitespace-only username is accepted and registers as the empty name.
  Its departure is then silent: no "left" notice and no history check.
- If the welcome cannot be sent, the connection stays registered and is
  then torn down, so the others see a "left" notice without a "joined" one.
- If the "name taken" reply cannot be sent, the socket is not closed.
- Eviction inside a broadcast sends no "left" notice.
- The relayed text is the stripped text as received, not its decryption.
- `SimpleTerminalUI` has no `add_system_message` or `add_chat_message`.
  So when the client runs with that UI, the first system or chat envelope
  received raises inside the listen loop, and the loop ends.
- `/clear-all` is unknown to `SimpleTerminalUI`, so it is forwarded as chat.
- Basic mode compares the whole lower-cased line with the quit words. So
  `/quit now` is sent to the server.

## Model

| member | source | states |
|---|---|---|
| `Text.StripCutsBorder` | server.py:69 | `strip()` removes exactly the blank prefix and suffix: the result is a slice of the input with blank borders, has no border whitespace, and is empty exactly when the input is blank |
| `Text.StripIdempotent` | server.py:105 | stripping an already stripped line changes nothing |
| `Encryption.Initial` | encryption.py:16-29 | the initial fields: the key is derived from the password and salt, the salt is the random one, and the password is the UTF-8 of a non-empty password or else the random bytes |
| `Encryption.ChatEncryption.constructor` | encryption.py:15-29 | the password is the UTF-8 of a non-empty password, else the random bytes; the salt is the random salt; the key is derived from both |
| `Encryption.ChatEncryption.SetSharedKey` | encryption.py:80-87 | the new fields are the decoded salt and the key derived from it and the unchanged password; a salt that does not decode changes nothing |
| `Encryption.EncryptionManager.constructor` | encryption.py:92-97 | a `ChatEncryption` object exists exactly when encryption is enabled |
| `Encryption.EncryptionManager.SetSharedKey` | encryption.py:117-120 | forwards to the object only when encryption is on; otherwise nothing changes |
| `Encryption.DisabledIsIdentity` | encryption.py:99-109 | with encryption off, `encrypt` and `decrypt` return their argument |
| `Encryption.InfoByMode` | encryption.py:111-115 | off: exactly `{"encrypted": False}`; on: `encrypted` true and the base64 of the salt |
| `Encryption.DecryptFallsBack` | encryption.py:51-71 | input that is not base64, or whose token does not open, comes back unchanged |
| `Encryption.EncryptFallsBack` | encryption.py:42-49 | when the cipher raises, the plaintext is returned |
| `Encryption.DecryptOutcomes` | encryption.py:51-63 | decryption returns its input or the UTF-8 plaintext of a token that decoded and opened |
| `Encryption.RoundTrip` | encryption.py:42-60 | `decrypt_message(encrypt_message(m)) == m` under one key |
| `Encryption.ManagerRoundTrip` | encryption.py:99-109 | the same round trip through the manager, enabled or not |
| `Encryption.RekeyedRederives` | encryption.py:80-85 | re-keying keeps the password, installs the decoded salt and keeps the key derived from password and salt |
| `Encryption.SharedSaltSharesKey` | encryption.py:73-85 | a party with the same password that adopts the published salt derives the same key, and what it encrypts the other side decrypts |
| `Server.EvictionKeepsConsistent` | server.py:158-166 | dropping and closing connections keeps names unique and no registered socket closed |
| `Server.ChatServer.constructor` | server.py:15-24 | empty registry, history and outboxes, not running; the manager's mode is the argument |
| `Server.ChatServer.Start` | server.py:33 | only `running` becomes true |
| `Server.ChatServer.BroadcastMessage` | server.py:136-168 | the new state is `Broadcast` of the old: delivery to working recipients, then eviction of the failed ones |
| `Server.ChatServer.SendToEach` | server.py:149-156 | every registered connection but the excluded one is tried once; the failures collected are exactly the broken recipients, the rest get the envelope |
| `Server.ChatServer.EvictAll` | server.py:158-168 | the failed connections leave the registry and those still registered are closed |
| `Server.ChatServer.AddToHistory` | server.py:195-203 | the entry is appended only with `auto_clear_history` |
| `Server.ChatServer.ClearAllTraces` | server.py:205-221 | the history becomes empty and nothing else changes |
| `Server.ChatServer.CheckAndClearIfEmpty` | server.py:223-227 | the history is cleared exactly when the registry is empty and auto-clear is on |
| `Server.ChatServer.HandleClient` | server.py:61-134 | the new state is `Serve`: registration, the relay loop until an empty read or error, then teardown |
| `Server.ChatServer.ReceiveLine` | server.py:101-114 | one read of the relay loop is `Relay` |
| `Server.ChatServer.Stop` | server.py:170-184 | the new state is `Shutdown`: not running, history cleared with auto-clear, every client closed, registry empty |
| `Server.TakenNameRejected` | server.py:72-79 | a name already held is refused: the error reply goes to the requester alone, which is closed when that reply is sent, and the registry is unchanged |
| `Server.EmptyNameDataIgnored` | server.py:67-68 | an empty first read registers nothing, sends nothing and closes nothing |
| `Server.AdmitKeepsConsistent` | server.py:67-93 | registration keeps names pairwise distinct and no registered socket closed; the registered name is the stripped received text |
| `Server.BroadcastDelivers` | server.py:150-156 | exactly the registered, non-excluded connections whose socket works receive one more envelope; the excluded one receives nothing |
| `Server.BroadcastEvicts` | server.py:150-166 | afterwards exactly the recipients whose send failed are gone and closed; every other entry is present with its name |
| `Server.BroadcastMessageField` | server.py:138-147 | the message is `[<sender>]: <text>` for chat and `[SYSTEM]: <text>` otherwise; type and sender pass through |
| `Server.BlankLineDropped` | server.py:105-106 | a blank or whitespace-only line changes nothing |
| `Server.LineRelayed` | server.py:105-114 | a non-blank line reaches every other working client as chat from the registered name, carrying the raw stripped text; the speaker gets nothing |
| `Server.HistoryOnlyWithAutoClear` | server.py:195-203 | a history entry is appended if and only if auto-clear is on |
| `Server.DepartAbsentIsNoop` | server.py:121-123 | teardown of a connection already evicted does nothing |
| `Server.DepartIdempotent` | server.py:121-134 | teardown removes the connection and a second teardown changes nothing |
| `Server.DepartNotifiesRemaining` | server.py:122-130 | the "left" notice reaches exactly the remaining working clients; the departing socket is closed and gets nothing |
| `Server.EmptyRoomForgetsHistory` | server.py:223-227 | with auto-clear on, a named client leaving an empty room leaves an empty history |
| `Server.ShutdownEmpties` | server.py:170-184 | after `stop` the registry is empty, the server not running, every client closed, and with auto-clear the history empty |
| `Server.RelayStep` | server.py:99-114 | one read keeps the invariant and the speaker registered and gives a working bystander exactly the chat for that line |
| `Server.ConverseTranscript` | server.py:99-117 | over the whole relay loop a working bystander hears each relayed line once, in order, and the speaker hears nothing |
| `Server.ConverseConsistent` | server.py:99-117 | the relay loop keeps the invariant |
| `Server.BystanderTranscript` | server.py:61-134 | a working bystander hears the join notice, every relayed line and the leave notice; the newcomer hears only its welcome and ends closed |
| `Server.ServeKeepsConsistent` | server.py:61-134 | a handled connection leaves the invariant intact and ends unregistered |
| `Server.TwoPartyChat` | server.py:85-130 | with one peer connected, a newcomer with a different name who sends one line gives that peer the join notice, the line as chat from the newcomer and the leave notice, and gives the newcomer only its welcome |
| `TerminalUi.LabelByType` | terminal_ui.py:53-60 | system and error messages are tagged `[SYSTEM]`/`[ERROR]` whatever their sender; others show the sender between brackets, so different senders get different tags; the rendered line ends with the content |
| `TerminalUi.RecentKeepsLatest` | terminal_ui.py:143-144 | the cap keeps min(n, 100) messages, the latest ones in arrival order |
| `TerminalUi.RecentAbsorbs` | terminal_ui.py:140-144 | trimming before appending keeps what trimming afterwards would keep |
| `TerminalUi.HistoryIsLatestDisplayed` | terminal_ui.py:137-151 | after any run of displays the history is the latest 100 of everything displayed, in order |
| `TerminalUi.EnqueueOnlyWhileRunning` | terminal_ui.py:254-257 | a running UI queues the message; a stopped one leaves the queue unchanged |
| `TerminalUi.ConnectionStatus` | terminal_ui.py:278-282 | losing the connection clears `connected` and, on a running UI, queues the error "Lost connection to server" |
| `TerminalUi.CommandIgnoresArguments` | terminal_ui.py:193-194 | only the first whitespace-separated word picks the command |
| `TerminalUi.CommandIgnoresCase` | terminal_ui.py:194 | commands are recognised in any letter case |
| `TerminalUi.QuitStops` | terminal_ui.py:204-206 | `/quit`, `/exit`, `/q` leave `running` and `connected` false and forward nothing |
| `TerminalUi.UnknownForwarded` | terminal_ui.py:207-210 | an unknown command goes to the callback exactly as typed, when one is set, and nothing else changes |
| `TerminalUi.ClearEmptiesHistory` | terminal_ui.py:198-201 | `/clear` and `/clear-all` empty the history and change nothing else |
| `TerminalUi.OnlyUnknownForwarded` | terminal_ui.py:191-210 | no known command reaches the callback |
| `TerminalUi.RoutedCases` | terminal_ui.py:167-179 | blank input is ignored, input starting with `/` is a command, anything else goes to the callback stripped |
| `TerminalUi.RoutedForwardsTrimmed` | terminal_ui.py:167-179 | one line forwards at most a non-empty stripped string |
| `TerminalUi.SessionForwardsTrimmed` | terminal_ui.py:159-189 | over the input loop the callback only ever receives non-empty stripped strings, appended in order |
| `TerminalUi.SessionEnds` | terminal_ui.py:159-189 | the loop either still waits with the UI up or ended with both flags false |
| `TerminalUi.QuitEndsSession` | terminal_ui.py:174-206 | a quit command ends the session with the UI stopped; later input is ignored |
| `TerminalUi.TerminalUI.constructor` | terminal_ui.py:65-73 | the UI starts with an empty history and queue, stopped, disconnected and with no input callback |
| `TerminalUi.TerminalUI.Open` | terminal_ui.py:90-93 | `start` sets both `running` and `connected` and changes nothing else |
| `TerminalUi.TerminalUI.SetInputCallback` | terminal_ui.py:274-276 | a callback is installed and nothing else changes |
| `TerminalUi.TerminalUI.DisplayMessage` | terminal_ui.py:137-151 | the history is `Recent(history + [m])`, never over 100 |
| `TerminalUi.TerminalUI.AddMessage` | terminal_ui.py:254-257 | the new state is `Enqueued` |
| `TerminalUi.TerminalUI.AddSystemMessage` | terminal_ui.py:259-262 | queues a `system` message from "SYSTEM" |
| `TerminalUi.TerminalUI.AddErrorMessage` | terminal_ui.py:264-267 | queues an `error` message from "SYSTEM" |
| `TerminalUi.TerminalUI.AddChatMessage` | terminal_ui.py:269-272 | queues a `chat` message from the sender |
| `TerminalUi.TerminalUI.SetConnectionStatus` | terminal_ui.py:278-282 | the new state is `StatusSet` |
| `TerminalUi.TerminalUI.Stop` | terminal_ui.py:284-288 | both flags false |
| `TerminalUi.TerminalUI.ClearChat` | terminal_ui.py:226-231 | the history becomes empty |
| `TerminalUi.TerminalUI.ClearAllTraces` | terminal_ui.py:233-243 | the history becomes empty |
| `TerminalUi.TerminalUI.HandleCommand` | terminal_ui.py:191-210 | the new state is `Commanded` of the old |
| `TerminalUi.TerminalUI.Route` | terminal_ui.py:167-179 | one input line as `Routed` |
| `TerminalUi.TerminalUI.InputLoop` | terminal_ui.py:159-189 | the new state is `Session` of the inputs; it reports having ended exactly when the UI is stopped |
| `TerminalUi.SimpleTerminalUI.constructor` | terminal_ui.py:293-299 | the plain UI starts stopped, disconnected, with no input callback and nothing forwarded |
| `TerminalUi.SimpleTerminalUI.Open` | terminal_ui.py:301-304 | `start` sets both `running` and `connected` and changes nothing else |
| `TerminalUi.SimpleTerminalUI.SetInputCallback` | terminal_ui.py:374-376 | a callback is installed and nothing else changes |
| `TerminalUi.SimpleTerminalUI.HandleCommand` | terminal_ui.py:342-362 | the new state is `PlainCommanded`: only quit words and unknown commands change anything |
| `TerminalUi.SimpleTerminalUI.Stop` | terminal_ui.py:384-388 | both flags false |
| `TerminalUi.PlainForwardsClearAll` | terminal_ui.py:342-362 | `/clear-all` (with or without arguments) is forwarded to the callback by the plain UI |
| `TerminalUi.FrontEndsAgree` | terminal_ui.py:191-210 | apart from `/clear-all`, both UIs stop on the same words and forward the same commands |
| `TerminalUi.CreateUi` | terminal_ui.py:390-395 | a `TerminalUI` exactly when colours are wanted and available, else a `SimpleTerminalUI` |
| `Client.ErrorReplyRefuses` | client_enhanced.py:44-48 | an `error` reply makes `connect` close the socket and fail, key unchanged |
| `Client.SystemReplyAccepts` | client_enhanced.py:49-57 | a `system` reply with an `encryption` object runs the setup on it; an empty or non-JSON reply still connects; failure only on a refusing reply |
| `Client.SaltInstalledOnlyWhen` | client_enhanced.py:108-113 | the key changes only when the info says encrypted, encryption is on and the salt is non-empty, and then the salt is adopted |
| `Client.HandshakeAgrees` | client_enhanced.py:44-53 | the server's "name taken" reply is read as a refusal that closes the socket, its welcome as acceptance carrying its encryption info |
| `Client.WelcomeKeysDiffer` | client_enhanced.py:25 | both ends build their manager without a password, as the program does: the welcomed client adopts the server's salt but, when the random passwords differ and derivation is injective, ends with a different key, and the server side gets a client's ciphertext back unchanged |
| `Client.WelcomeSharesKey` | client_enhanced.py:49-53 | when both ends build their manager from the same non-empty password, a client welcomed by an encrypting server ends with its key, and the server decrypts what the client encrypts |
| `Client.SendGate` | client_enhanced.py:116-125 | something is sent if and only if the message is non-empty, the client connected and the send succeeds; a failed send clears `connected` |
| `Client.PlainLineArrivesAsSent` | server.py:105-114 | with encryption off, a typed line the client sends stripped reaches every other working peer exactly as sent: the server's own strip changes nothing more |
| `Client.QuitSendsNothing` | client_enhanced.py:186-188 | a quit word in any case ends basic mode without sending |
| `Client.QuitWithArgumentsIsSent` | client_enhanced.py:181-194 | `/quit now` is sent as a message |
| `Client.SpokenSendsTrimmedLines` | client_enhanced.py:176-208 | basic mode only appends encryptions of non-empty stripped lines that are not quit words |
| `Client.SpokenEnds` | client_enhanced.py:176-208 | basic mode keeps `connected` only while still waiting for input; `running` is untouched |
| `Client.DispatchByType` | client_enhanced.py:137-149 | a missing type is chat; system and chat go to the UI, chat with sender "Unknown" when missing; other types show nothing; the plain UI raises |
| `Client.RelayedChatShown` | client_enhanced.py:137-149 | a relayed chat reaches the UI under the speaker's name with the whole labelled field decrypted |
| `Client.HangupDisconnects` | client_enhanced.py:127-174 | an empty or failed read ends the listen loop with `connected` false; listening sends nothing |
| `Client.GetUsername` | client_enhanced.py:226-232 | returns the first non-blank line stripped, never empty, or nothing while all lines are blank |
| `Client.EnhancedChatClient.constructor` | client_enhanced.py:17-27 | disconnected, not running, no socket, no UI; the manager has the requested mode |
| `Client.EnhancedChatClient.SetupEncryption` | client_enhanced.py:108-114 | the manager's view becomes `SetupView` |
| `Client.EnhancedChatClient.Connect` | client_enhanced.py:29-61 | the new state, key and result are `Connecting` of the old |
| `Client.EnhancedChatClient.Start` | client_enhanced.py:63-73 | connect; on success running, with a UI made by `create_ui` when asked for |
| `Client.EnhancedChatClient.SendMessage` | client_enhanced.py:116-125 | the new state is `Transmitted` |
| `Client.EnhancedChatClient.SendMessages` | client_enhanced.py:176-208 | the new state is `Spoken` of the inputs; it reports having ended exactly when disconnected |
| `Client.EnhancedChatClient.ListenForMessages` | client_enhanced.py:127-174 | client and UI state are `Listened` of the reads; it reports having ended exactly when disconnected |
| `Client.EnhancedChatClient.Stop` | client_enhanced.py:210-224 | both flags false, the UI stopped, the socket closed if one was made |

## Left out

- Threads and their interleavings. Operations run one after another; `start`'s accept loop, the UI display thread (`_message_display_loop`) and the client's thread set-up are not modelled, and no thread-safety claim is made (the broadcast loop iterates the live registry while other handlers may change it).
- A line typed while another thread changes `connected`: the check after `input()` in `_input_loop` and `_send_messages` is redundant in a sequential model and is not modelled separately.
- Sockets, JSON text and framing: envelopes are records, each read yields one already-decoded event, and a first read that raises behaves like an empty one (nothing registered, nothing closed). JSON values of unexpected types (a non-string `message`, a non-object `encryption`, a `null` `type` or `message`) are not modelled.
- Printing, colours, terminal width, screen clearing, `gc.collect()`, timestamps (`datetime.now()` and `time.time()` are arguments or left out) and the welcome banners; `ChatMessage.__str__` is rendered without colour codes.
- The cryptography itself: PBKDF2, Fernet, base64 and UTF-8 are functions given as arguments, with `Lawful` stating their inverse laws; random passwords and salts are arguments. `Fernet(key)` construction failures are not modelled.
- `Client.RelayedChatShown`: it proves the client decrypts the whole labelled field `[<name>]: <text>` rather than the text the speaker encrypted; whether such a field decrypts depends on the cipher and is not claimed.
- `lower()` is modelled on ASCII letters only; it is compared only with ASCII command words, where the full Unicode mapping gives the same answers.
- Dictionary iteration order in `broadcast_message`: outboxes are per connection, so the order of sends across connections is not recorded.
- `SimpleTerminalUI._input_loop`, `add_message` and `set_connection_status`, the banners `SimpleTerminalUI.start` prints (its two flags are modelled by `Open`), the `TerminalUI` welcome screen and prompt, `trace_clearance.py`, `test_chat.py`, `demo.py` and every `main`: printing or start-up glue with no state worth stating.
- `Client.GetUsername`: end of input raising `EOFError` is not modelled; when every given line is blank the prompt is still waiting.

## Findings

| source | as written | input that shows it | evidently intended | confidence | as-written member | corrected member |
|---|---|---|---|---|---|---|
| server.py:22, client_enhanced.py:25, encryption.py:91-97 | both ends call `EncryptionManager(enable_encryption)` with no password, so each `ChatEncryption` draws its own random password; the client adopts the server's salt but derives its key from its own password | any two distinct random passwords, with PBKDF2 injective in the password: the client's key differs from the server's, and a token the client seals does not open under the server's key, so decryption falls back to the ciphertext | a password shared out of band by both ends, from which both derive the same key once the salt is shared | medium (not executed) | `Client.WelcomeKeysDiffer` | `Client.WelcomeSharesKey` |
