# MultiClientChatAppDefinitive in Dafny

A model of the WPF chat application MultiClientChatAppDefinitive: one window
that is either a broadcasting TCP chat server or a client of such a server.

- The **server** (`ChatServer`) accepts connections, reads a user name from
  each, and runs one receive loop per client. It relays every non-empty line
  as `"<name>: <line>"` to all other clients and to its own chat list. "exit"
  from a client removes that client. "exit" typed by the operator broadcasts
  `"Server: exit"` and starts a drain: when the last client has left, the
  server closes everything.
- The **client** (`ChatClient`) connects, sends its user name, and shows
  every line it receives. It answers the shutdown sentinel `"Server: exit"`
  with "exit" and closes.
- The **window** (`MainWindow`) checks the three settings fields (IP, port,
  buffer size). It enables Listen and Connect only when all three are valid,
  and routes a typed message to the server first, then to the client.

Each source class has two parts in the model:

- a pure state-machine module (`ServerModel`, `ClientModel`) with one
  function per step, and lemmas about those functions (`ServerProperties`,
  and `ClientModel` itself);
- an imperative class (`ChatServer.Server`, `ChatClient.Client`,
  `MainWindow.Window`) whose fields the methods update in place. Each
  server and client method is proved to perform exactly the matching step
  on its `State()`. The public ones also keep the class invariant. The
  window has no step function: each `Window` method states its effect on
  the window's fields, on the server and on the client.

The network is replaced by data:

- what each connection has been sent is an `outbox` (server) or a `sent`
  list (client);
- each `ReadLine` becomes a `ReadResult` argument: a line, the end of the
  stream (null), or a read that threw;
- a connection whose remote end is gone is in the `broken` set, and every
  write to it throws.

The window's chat list is a shared `Display.Log` object, which the server,
the client and the window all append to. `Scenarios` holds value-level
lemmas: each composes the step functions into a short conversation and
states what every party ends up with.

The model follows the code as written, including these behaviours:

- A handshake that reads the end of the stream registers a client with the
  empty name (`ServerModel.HandshakeName`).
- A null line (end of stream) does not end either receive loop; only a read
  that throws does.
- A failed write during a broadcast aborts the broadcast. The remaining
  clients miss the line, and the sender's own loop tears the sender down as
  "disconnected unexpectedly" (`ServerProperties.WriteFailureDropsSender`).
- A failed bind leaves `isServerActive` true (`ServerModel.ListenStep`).
- The port field accepts any digit string, for example "70000". The
  `TcpListener` constructor then throws before a listener exists, so the
  server is active without a listener, and `CloseConnections()` throws on
  the missing listener (`Scenarios.PortAboveRange`).
- "exit" typed at a server without clients only sets `disconnecting`. No
  receive loop is left to notice the empty list, so nothing closes
  (`ServerProperties.DrainWithoutClientsWaits`).
- `disconnecting` is true again after `CloseConnections()`, because its
  `SendMessage("exit")` sets it once more.
- A client that types "exit" has `disconnecting` back at false when its next
  read fails. That read therefore reports "Server disconnected unexpectedly!"
  and shows "Disconnected." a second time
  (`ClientModel.ExitThenLoopReportsLoss`).

## Model

| member | source | states |
|---|---|---|
| Protocol.ServerLineIsShutdown | MultiClientChatAppDefinitive/ChatServer.cs:218 | the server's broadcast of a message is the shutdown sentinel "Server: exit" exactly when the message is "exit" |
| Protocol.PrefixedIsShutdown | MultiClientChatAppDefinitive/ChatClient.cs:130 | a relayed line `"<name>: <message>"` is the sentinel only for sender "Server" and message "exit" |
| Protocol.AnnouncementsAreNotShutdown | MultiClientChatAppDefinitive/ChatServer.cs:133-168 | the joined, left and disconnected announcements are never the shutdown sentinel, whatever the names |
| Lists.RemoveFirstIsWithout | MultiClientChatAppDefinitive/ChatServer.cs:154-155 | on a list without repetitions, `Remove(c)` equals `Where(x => x != c)`; the result has no repetitions, lacks `c`, and is one shorter exactly when `c` was there |
| Lists.RemovePresent | MultiClientChatAppDefinitive/ChatServer.cs:154-155 | on a list without repetitions that holds `c`, `Remove(c)` equals the filter and is exactly one shorter |
| Lists.WithoutMembers | MultiClientChatAppDefinitive/ChatServer.cs:196 | `Where(c => c != sender)` keeps exactly the elements other than the sender |
| Lists.WithoutSplit | MultiClientChatAppDefinitive/ChatServer.cs:196 | the filter distributes over concatenation |
| Lists.WithoutKeepsDistinct | MultiClientChatAppDefinitive/ChatServer.cs:196 | filtering keeps a list free of repetitions |
| Lists.WithoutAbsent | MultiClientChatAppDefinitive/ChatServer.cs:196 | filtering out an element that is absent returns the list unchanged |
| Display.Log.constructor | MultiClientChatAppDefinitive/MainWindow.xaml.cs:53-56 | the chat list starts empty |
| Display.Log.Add | MultiClientChatAppDefinitive/MainWindow.xaml.cs:53-56 | `AddMessage` appends exactly one line at the end of the chat list |
| ServerProperties.WriteAllDelivers | MultiClientChatAppDefinitive/ChatServer.cs:214-219 | a write loop over distinct recipients, none of them broken, succeeds; each recipient gets the line exactly once, every other connection nothing |
| ServerProperties.WriteAllAtMostOnce | MultiClientChatAppDefinitive/ChatServer.cs:196-201 | whatever fails, a connection gets the line at most once, and only if it is an unbroken recipient |
| ServerProperties.RelayReachesOthers | MultiClientChatAppDefinitive/ChatServer.cs:193-205 | with every other client writable, `"<sender>: m"` reaches each registered client except the sender exactly once, is added to the display, and nothing else changes |
| ServerProperties.RelayFailureIsSilent | MultiClientChatAppDefinitive/ChatServer.cs:193-205 | when some other client is broken, the relay fails, the display is unchanged, and each connection gets the line at most once, a broken one never |
| ServerProperties.RelaySkipsSender | MultiClientChatAppDefinitive/ChatServer.cs:196 | the sender is never written to, and only outbox and display can change |
| ServerProperties.SendReachesEveryone | MultiClientChatAppDefinitive/ChatServer.cs:211-231 | with no broken client, every registered client gets `"Server: m"` exactly once; "exit" sets `disconnecting` and shows "Disconnecting...", any other message shows `"You: m"` |
| ServerProperties.DrainWithoutClientsWaits | MultiClientChatAppDefinitive/ChatServer.cs:221-230 | "exit" with no clients only sets `disconnecting` and shows "Disconnecting..."; nothing is closed |
| ServerProperties.CloseDrains | MultiClientChatAppDefinitive/ChatServer.cs:246-258 | with a listener and writable clients, every client gets the sentinel once, the list is emptied, the listener stops, the server is inactive, and `disconnecting` ends true |
| ServerProperties.CloseWithoutListenerThrows | MultiClientChatAppDefinitive/ChatServer.cs:255 | with no listener, `CloseConnections()` throws after the goodbye and leaves the list as it was |
| ServerProperties.CloseWithoutClients | MultiClientChatAppDefinitive/ChatServer.cs:246-258 | with an empty list, `CloseConnections()` writes nothing, shows the two drain lines, leaves `disconnecting` true and the server inactive, and succeeds exactly when a listener exists, which it then stops |
| ServerProperties.BlankLinesIgnored | MultiClientChatAppDefinitive/ChatServer.cs:149 | an empty line and the end of the stream change nothing, and the loop goes on |
| ServerProperties.ChatLineRelayed | MultiClientChatAppDefinitive/ChatServer.cs:148-150 | any other non-"exit" line is relayed to every other client and the display, and the loop goes on |
| ServerProperties.LeaveStepRemoves | MultiClientChatAppDefinitive/ChatServer.cs:154-160 | the client is removed and closed with the others in order; `CloseConnections()` runs exactly when the list is then empty and a drain is pending; nobody is written to |
| ServerProperties.DropStepRemoves | MultiClientChatAppDefinitive/ChatServer.cs:162-173 | a failed client is removed before the "disconnected unexpectedly" announcement, so only the others get it; then the drain runs as after "exit" |
| ServerProperties.DropAnnounces | MultiClientChatAppDefinitive/ChatServer.cs:165-168 | after the removal, the "disconnected unexpectedly!" announcement succeeds, reaches each remaining client once and the display, and changes nothing else |
| ServerProperties.DropThenDrain | MultiClientChatAppDefinitive/ChatServer.cs:162-173 | a failed last client during a drain is removed and nobody is written to; then `CloseConnections()` runs, and the outcome is `Dropped` exactly when a listener existed |
| ServerProperties.DropWithoutDrain | MultiClientChatAppDefinitive/ChatServer.cs:162-173 | a failed client with no drain pending: it is removed, the others are told once, and flags and listener are untouched |
| ServerProperties.ExitLeavesChat | MultiClientChatAppDefinitive/ChatServer.cs:142-160 | "exit" from a registered client: the others get "left the chat!" once, the client is removed and closed, the drain runs exactly when due, and the invariant holds |
| ServerProperties.FailureDropsClient | MultiClientChatAppDefinitive/ChatServer.cs:162-173 | a read failure removes and closes the client, which gets nothing more |
| ServerProperties.WriteFailureDropsSender | MultiClientChatAppDefinitive/ChatServer.cs:142-173 | when relaying the client's own line fails on another client's broken connection, the client is removed and closed, it and the display get nothing, and the loop aborts |
| ServerProperties.AcceptRefused | MultiClientChatAppDefinitive/ChatServer.cs:80-103 | an inactive server, or a user name that cannot be read, registers nobody and does not re-arm the accept |
| ServerProperties.AcceptRegisters | MultiClientChatAppDefinitive/ChatServer.cs:88-97 | a read user name appends the new client, re-arms the accept, and tells every other client and the display that it joined; the newcomer gets nothing |
| ServerProperties.RemovalKeepsInv | MultiClientChatAppDefinitive/ChatServer.cs:154-156 | removing and closing one client keeps the registry invariant |
| ServerProperties.ReadStepKeepsInv | MultiClientChatAppDefinitive/ChatServer.cs:136-173 | every iteration of a receive loop keeps the registry invariant |
| ServerProperties.DropStepKeepsInv | MultiClientChatAppDefinitive/ChatServer.cs:162-173 | the `catch` restores the registry invariant |
| ServerProperties.LeaveStepKeepsInv | MultiClientChatAppDefinitive/ChatServer.cs:154-160 | leaving restores the registry invariant |
| ServerProperties.AcceptStepKeepsInv | MultiClientChatAppDefinitive/ChatServer.cs:77-106 | accepting a new connection object keeps the registry invariant |
| ServerProperties.RelayKeepsInv | MultiClientChatAppDefinitive/ChatServer.cs:193-205 | relaying keeps the registry invariant |
| ServerProperties.SendKeepsInv | MultiClientChatAppDefinitive/ChatServer.cs:211-231 | `SendMessage` keeps the registry invariant |
| ServerProperties.CloseKeepsInv | MultiClientChatAppDefinitive/ChatServer.cs:246-258 | `CloseConnections` keeps the registry invariant |
| ServerProperties.ListenKeepsInv | MultiClientChatAppDefinitive/ChatServer.cs:55-71 | listening keeps the registry invariant |
| ServerProperties.ListenOutcome | MultiClientChatAppDefinitive/ChatServer.cs:55-71 | listening always marks the server active; a listener exists exactly when the port is in 0..65535 (or one already did); accepts are armed exactly when it is also bound; otherwise the "Another Server is already running" line is shown; nothing else changes |
| ServerProperties.OutOfRangePortCannotClose | MultiClientChatAppDefinitive/ChatServer.cs:246-258 | a fresh server listening on a port outside 0..65535 (where the `TcpListener` constructor throws) is active, has no listener and arms no accept, and `CloseConnections()` then throws at `Listener.Stop()` |
| ChatServer.Server.constructor | MultiClientChatAppDefinitive/ChatServer.cs:40-50 | a new server is inactive, with no clients, not disconnecting and without a listener |
| ChatServer.Server.SetPort | MultiClientChatAppDefinitive/ChatServer.cs:17 | the `PORT` setter changes the port only; the registry and the invariant are untouched |
| ChatServer.Server.SetBufferSize | MultiClientChatAppDefinitive/ChatServer.cs:18 | the `BUFFER_SIZE` setter changes the buffer size only; the registry and the invariant are untouched |
| ChatServer.Server.Listen | MultiClientChatAppDefinitive/ChatServer.cs:55-71 | performs `ListenStep` for its own port in place and keeps the invariant, port and buffer size |
| ChatServer.Server.WriteToEach | MultiClientChatAppDefinitive/ChatServer.cs:214-219 | the `foreach` write loop performs `WriteAll` on the outbox and changes nothing else, port and buffer size included |
| ChatServer.Server.Relay | MultiClientChatAppDefinitive/ChatServer.cs:193-205 | performs `RelayStep` in place; port and buffer size are kept |
| ChatServer.Server.SendMessage | MultiClientChatAppDefinitive/ChatServer.cs:211-231 | performs `SendStep` in place and keeps the invariant; port and buffer size are kept |
| ChatServer.Server.CloseConnections | MultiClientChatAppDefinitive/ChatServer.cs:246-258 | performs `CloseStep` in place and keeps the invariant; port and buffer size are kept |
| ChatServer.Server.FinishClose | MultiClientChatAppDefinitive/ChatServer.cs:253-257 | performs `StopListening` in place: the closing line is shown; with no listener `Stop()` throws and nothing else changes, otherwise the listener is stopped, accepts are no longer armed and the client list is emptied; port and buffer size are kept |
| ChatServer.Server.Unregister | MultiClientChatAppDefinitive/ChatServer.cs:154-156 | removes the first occurrence of the client from the list and closes it; port and buffer size are kept |
| ChatServer.Server.StopReceiving | MultiClientChatAppDefinitive/ChatServer.cs:127 | the end of the `using` block: the loop stops and the connection is disposed; port and buffer size are kept |
| ChatServer.Server.Drop | MultiClientChatAppDefinitive/ChatServer.cs:162-173 | performs `DropStep` in place; port and buffer size are kept |
| ChatServer.Server.Leave | MultiClientChatAppDefinitive/ChatServer.cs:154-160 | performs `LeaveStep` in place; port and buffer size are kept |
| ChatServer.Server.OnRead | MultiClientChatAppDefinitive/ChatServer.cs:136-151 | performs one receive-loop iteration (`ReadStep`) in place and keeps the invariant; port and buffer size are kept |
| ChatServer.Server.OnAccept | MultiClientChatAppDefinitive/ChatServer.cs:77-106 | creates a client object exactly when the server is active and the name was read, then performs `AcceptStep`; otherwise only the accept is used up; port and buffer size are kept |
| ChatServer.Server.Register | MultiClientChatAppDefinitive/ChatServer.cs:93-94 | the accept is re-armed and the new client appended to the list, with an empty connection, and its loop receiving; port and buffer size are kept |
| ClientModel.FreshIsIdle | MultiClientChatAppDefinitive/ChatClient.cs:44-55 | a new client is inactive, not disconnecting, unconnected, has sent nothing, and satisfies the session invariant |
| ClientModel.ConnectHandshake | MultiClientChatAppDefinitive/ChatClient.cs:86-118 | a successful connect sends exactly the user name, shows the three status lines and starts the active loop |
| ClientModel.ConnectRefused | MultiClientChatAppDefinitive/ChatClient.cs:86-104 | a failed connect sends nothing and shows "Connecting.." then "Connection refused." |
| ClientModel.ShutdownAcknowledged | MultiClientChatAppDefinitive/ChatClient.cs:130-148 | the sentinel is answered by one "exit"; the loop ends and the connection closes with "Server has closed the connection." and "Disconnected." |
| ClientModel.OtherLinesDisplayed | MultiClientChatAppDefinitive/ChatClient.cs:140-142 | any other non-empty line is shown verbatim; empty and null lines change nothing |
| ClientModel.FailureReported | MultiClientChatAppDefinitive/ChatClient.cs:150-160 | a failed read, or a read on a closed connection, reports the loss, closes, and ends the loop without sending |
| ClientModel.LoopEndsOnlyOnShutdownOrFailure | MultiClientChatAppDefinitive/ChatClient.cs:124-160 | the loop ends exactly on the sentinel or a failure; the client is active exactly while it runs |
| ClientModel.RelayedLineDisplayed | MultiClientChatAppDefinitive/ChatClient.cs:130-142 | a relayed `"<name>: <message>"` line is shown and keeps the loop going, unless it is "Server"'s "exit" |
| ClientModel.SendEchoes | MultiClientChatAppDefinitive/ChatClient.cs:180-197 | an ordinary message is written once and echoed as `"You: m"` |
| ClientModel.SendExitCloses | MultiClientChatAppDefinitive/ChatClient.cs:188-193 | "exit" is written once and closes the connection; `disconnecting` is false again and "You: exit" is never shown |
| ClientModel.SendWithoutLinkFails | MultiClientChatAppDefinitive/ChatClient.cs:183 | without an open connection the write throws and nothing changes |
| ClientModel.ExitThenLoopReportsLoss | MultiClientChatAppDefinitive/ChatClient.cs:145-160 | after the client's own "exit", the next read reports the server as lost and shows "Disconnected." a second time |
| ClientModel.ConnectKeepsInv | MultiClientChatAppDefinitive/ChatClient.cs:81-118 | connecting keeps the session invariant |
| ClientModel.ReadKeepsInv | MultiClientChatAppDefinitive/ChatClient.cs:124-160 | every loop iteration keeps the session invariant |
| ClientModel.SendKeepsInv | MultiClientChatAppDefinitive/ChatClient.cs:180-198 | sending keeps the session invariant |
| ChatClient.Client.constructor | MultiClientChatAppDefinitive/ChatClient.cs:44-55 | defaults 127.0.0.1, port 8000, buffer size 1024; inactive, not disconnecting, no display yet |
| ChatClient.Client.SetIp | MultiClientChatAppDefinitive/ChatClient.cs:19 | the `IP` setter changes the address only; the session and the invariant are untouched |
| ChatClient.Client.SetPort | MultiClientChatAppDefinitive/ChatClient.cs:20 | the `PORT` setter changes the port only; the session and the invariant are untouched |
| ChatClient.Client.SetBufferSize | MultiClientChatAppDefinitive/ChatClient.cs:21 | the `BUFFER_SIZE` setter changes the buffer size only; the session and the invariant are untouched |
| ChatClient.Client.SetDependencies | MultiClientChatAppDefinitive/ChatClient.cs:66-76 | stores the settings and the display, and leaves the session untouched |
| ChatClient.Client.CloseConnection | MultiClientChatAppDefinitive/ChatClient.cs:203-212 | performs `CloseLink` in place: inactive, closed, "Disconnected." shown; address, port and buffer size are kept |
| ChatClient.Client.Connect | MultiClientChatAppDefinitive/ChatClient.cs:81-118 | performs `ConnectStep` in place and keeps the invariant and the settings |
| ChatClient.Client.Receive | MultiClientChatAppDefinitive/ChatClient.cs:124-160 | performs one loop iteration (`ReadStep`) in place and keeps the invariant; address, port and buffer size are kept |
| ChatClient.Client.SendMessage | MultiClientChatAppDefinitive/ChatClient.cs:180-198 | performs `SendStep` in place and keeps the invariant; address, port and buffer size are kept |
| Settings.PortCheck | MultiClientChatAppDefinitive/MainWindow.xaml.cs:301-303 | a port text is valid exactly when it is a non-empty string of digits |
| Settings.ValueBound | MultiClientChatAppDefinitive/MainWindow.xaml.cs:336 | the value of an n-digit string is below 10^n |
| Settings.BufferSizeCheck | MultiClientChatAppDefinitive/MainWindow.xaml.cs:332-337 | a buffer-size text is valid exactly when it is a non-empty digit string whose value is at most 1024; the `< 0` test never decides |
| Settings.ShortBufferSizes | MultiClientChatAppDefinitive/MainWindow.xaml.cs:332-337 | every one- to three-digit string is a valid buffer size |
| Settings.BufferSizeIsPort | MultiClientChatAppDefinitive/MainWindow.xaml.cs:301-337 | a valid buffer size is a valid port; "1025" is a valid port but not a valid buffer size |
| Settings.NoRangeCheck | MultiClientChatAppDefinitive/MainWindow.xaml.cs:274 | "999.999.999.999" is accepted as an IP address: the pattern checks no group range |
| Settings.PlainAddressAccepted | MultiClientChatAppDefinitive/MainWindow.xaml.cs:274 | "1.2.3.4" is accepted as an IP address |
| Settings.PlainQuad | MultiClientChatAppDefinitive/MainWindow.xaml.cs:274 | "1.2.3.4" matches the four groups of the pattern |
| Settings.QuadEnds | MultiClientChatAppDefinitive/MainWindow.xaml.cs:274 | a dotted quad has at least seven characters and starts and ends with a digit |
| Settings.Unanchored | MultiClientChatAppDefinitive/MainWindow.xaml.cs:274-276 | a dotted quad set off by non-word characters is found anywhere in the text |
| Settings.ShortTextIsNoIp | MultiClientChatAppDefinitive/MainWindow.xaml.cs:274-276 | text shorter than seven characters is never a valid IP address |
| Settings.LetterBeforeBlocks | MultiClientChatAppDefinitive/MainWindow.xaml.cs:274 | "a1.2.3.4" is rejected: a word character before the first group leaves no boundary |
| Settings.TrailingGroupAccepted | MultiClientChatAppDefinitive/MainWindow.xaml.cs:274 | "1.2.3.4.5" is accepted, because only the stretch between the boundaries must match |
| MainWindow.SendRoute | MultiClientChatAppDefinitive/MainWindow.xaml.cs:132-146 | nothing is sent exactly when the text is empty |
| MainWindow.ClientName | MultiClientChatAppDefinitive/MainWindow.xaml.cs:91 | the user name is never empty; it is the typed text when that is non-empty and "Anonymous Client" when it is empty |
| MainWindow.EnabledSendIsRouted | MultiClientChatAppDefinitive/MainWindow.xaml.cs:363-396 | with sending enabled, a non-empty message reaches the server or the client; the error line appears exactly when neither is active; an active server with no clients routes to itself with sending disabled |
| MainWindow.ServerFirst | MultiClientChatAppDefinitive/MainWindow.xaml.cs:135-146 | when both are active the server gets the message; otherwise the client does, else the error line is shown |
| MainWindow.Window.constructor | MultiClientChatAppDefinitive/MainWindow.xaml.cs:38-47 | with empty fields, Listen, Connect and Send start disabled |
| MainWindow.Window.CheckValidity | MultiClientChatAppDefinitive/MainWindow.xaml.cs:217-236 | while busy the buttons keep their state; otherwise Listen and Connect are enabled exactly when all three fields are valid |
| MainWindow.Window.OnIpChanged | MultiClientChatAppDefinitive/MainWindow.xaml.cs:271-291 | the IP flag becomes the pattern check; unless busy, Listen and Connect are enabled exactly when all three fields are valid; a valid address is copied to the client, whose session and other settings are kept; every other window field is unchanged |
| MainWindow.Window.PushIp | MultiClientChatAppDefinitive/MainWindow.xaml.cs:288-289 | a valid address reaches the client when there is one; its session, port and buffer size are kept, and every invariant holds |
| MainWindow.Window.OnPortChanged | MultiClientChatAppDefinitive/MainWindow.xaml.cs:298-322 | the port flag becomes the port check; unless busy, Listen and Connect are enabled exactly when all three fields are valid; a valid value is copied to the server and the client, whose sessions and other settings are kept; every other window field is unchanged |
| MainWindow.Window.PushPort | MultiClientChatAppDefinitive/MainWindow.xaml.cs:315-320 | a valid port reaches the server and the client where they exist; their sessions and other settings are kept, and every invariant holds |
| MainWindow.Window.OnBufferSizeChanged | MultiClientChatAppDefinitive/MainWindow.xaml.cs:329-356 | the buffer-size flag becomes its check; unless busy, Listen and Connect are enabled exactly when all three fields are valid; a valid value is copied to the server and the client, whose sessions and other settings are kept; every other window field is unchanged |
| MainWindow.Window.PushBufferSize | MultiClientChatAppDefinitive/MainWindow.xaml.cs:349-354 | a valid buffer size reaches the server and the client where they exist; their sessions and other settings are kept, and every invariant holds |
| MainWindow.Window.GetPort | MultiClientChatAppDefinitive/MainWindow.xaml.cs:242-250 | the parsed port when the flag is set, 0 otherwise |
| MainWindow.Window.GetBufferSize | MultiClientChatAppDefinitive/MainWindow.xaml.cs:256-264 | the parsed buffer size when the flag is set, 0 otherwise; never above 1024 |
| MainWindow.Window.OnMessageChanged | MultiClientChatAppDefinitive/MainWindow.xaml.cs:385-396 | the text is stored and Send is enabled exactly for an active server with clients or an active client; no other window field changes |
| MainWindow.Window.Show | MultiClientChatAppDefinitive/MainWindow.xaml.cs:53-56 | appends one line to the chat list; the server and the client see only their display grow; every invariant is kept |
| MainWindow.Window.SendViaServer | MultiClientChatAppDefinitive/MainWindow.xaml.cs:137 | performs the server's `SendStep` and keeps the server's settings; the client sees only its display grow |
| MainWindow.Window.SendViaClient | MultiClientChatAppDefinitive/MainWindow.xaml.cs:141 | performs the client's `SendStep` and keeps the client's settings; the server sees only its display grow |
| MainWindow.Window.HandleSendingMessage | MultiClientChatAppDefinitive/MainWindow.xaml.cs:129-152 | empty text changes nothing; otherwise routes by `SendRoute`, performs the chosen send step (the other party sees only its display grow) or shows the error line; when nothing threw the text is cleared and the cleared text re-runs the Send-enable rule, and when a send threw the text and the Send button are kept; the window's settings fields, the Listen and Connect buttons, and the server's and client's settings never change |
| MainWindow.Window.OnKeyPressed | MultiClientChatAppDefinitive/MainWindow.xaml.cs:363-378 | any other key, or Enter with sending disabled, changes nothing; Enter with sending enabled routes by `SendRoute`, never to the error line, performs the chosen send step and clears the text as `HandleSendingMessage` does, keeping the text and the Send button when a send threw; the window's settings fields, the Listen and Connect buttons, and the server's and client's settings never change |
| MainWindow.Window.ListenClick | MultiClientChatAppDefinitive/MainWindow.xaml.cs:63-78 | with valid fields, shows the three banner lines and a new server with the parsed port and buffer size performs `ListenStep` on the lengthened chat list; otherwise only the faulty-settings line is shown and the old server, if any, is kept; the client sees only its display grow, and no modelled field changes (the `Toggle*` button updates are left out) |
| MainWindow.Window.StartServer | MultiClientChatAppDefinitive/MainWindow.xaml.cs:68-72 | the banner is shown, then a new server with the parsed port and buffer size listens on the window's chat list |
| MainWindow.Window.ShowBanner | MultiClientChatAppDefinitive/MainWindow.xaml.cs:68-70 | the three banner lines are appended in order, and every invariant is kept |
| MainWindow.Window.ListenOnServer | MultiClientChatAppDefinitive/MainWindow.xaml.cs:72 | performs `ListenStep` for the server's port on the window's server; the client sees only its display grow |
| MainWindow.Window.ConnectClick | MultiClientChatAppDefinitive/MainWindow.xaml.cs:85-103 | with valid fields, a new client named by `ClientName` gets the field values and performs `ConnectStep` on the current chat list; otherwise only the faulty-settings line is shown and the old client, if any, is kept; the server sees only its display grow, and no modelled field changes (the `Toggle*` button updates are left out) |
| Scenarios.AliceJoins | MultiClientChatAppDefinitive/ChatServer.cs:77-106 | the first client to connect to a listening server is its only client, has been sent nothing, and the invariant holds |
| Scenarios.AliceThenBob | MultiClientChatAppDefinitive/ChatServer.cs:77-106 | two accepted clients are registered in order, and only the first hears the second join |
| Scenarios.AliceSaysHi | MultiClientChatAppDefinitive/ChatServer.cs:146-150 | "hi" from Alice reaches Bob as "Alice: hi" and not Alice, and both stay registered |
| Scenarios.AliceAndBob | MultiClientChatAppDefinitive/ChatServer.cs:136-160 | after "hi" from Alice and "exit" from Bob, Bob has heard "Alice: hi", Alice has heard Bob join and leave, and one client remains |
| Scenarios.DrainWithOneClient | MultiClientChatAppDefinitive/ChatServer.cs:158-160 | after the operator's "exit" and the last client's "exit", that client has heard only "Server: exit", no client remains, and the server is inactive |
| Scenarios.PortAboveRange | MultiClientChatAppDefinitive/MainWindow.xaml.cs:301-303 | the port text "70000" passes the window's check, yet the server started with it has no listener and cannot be closed |
| Scenarios.CarolSession | MultiClientChatAppDefinitive/ChatClient.cs:110-162 | a client that hears one chat line and then the sentinel has sent its name and one "exit", and shows the whole session in order |

## Left out

- Sockets, streams and `Task`/`async` scheduling are not modelled. Every
  read is a `ReadResult` argument. A lost connection is the `broken` set
  (`ChatServer.Server.Break`). Bind and connect success are the boolean
  arguments `bindOk` and `ok`.
- Concurrency is not modelled: each receive loop iteration, accept callback
  and button handler is one atomic step. Races are out of scope, for example
  between a client's `SendMessage("exit")` and its own receive loop, or
  between two server loops removing clients.
- The UTF-32 encoding, the `StreamReader` buffer size, and the data lost by
  making a new reader per line are not modelled. Lines are whole strings.
- The `Guid` and `TcpClient` fields of the server-side `ChatClient` are
  dropped: every `Guid` is the same all-zero value, so only reference
  identity (`ServerModel.Peer`) matters.
- A client-side write to a server that has gone away is not modelled;
  writes fail only when no connection is open.
- `ToggleServerActiveUI`, `ToggleButtonsConnected`/`ToggleButtonsDisconnected`,
  `ToggleConnect`/`ToggleDisconnect`, the border colours, focus and the
  `Dispatcher` are not modelled; they only flip control states.
- `BtnStop_Click` calls a `CloseConnections(true)` overload, and line 71
  passes five arguments to a four-parameter constructor. Neither exists in
  ChatServer.cs, so the stop button is not modelled (the model of
  `CloseConnections()` is), and `ListenClick` uses the constructor of
  ChatServer.cs:40.
- The initial texts of the XAML fields are not part of this model.
  `MainWindow.Window.constructor` starts with empty fields.
- MainWindow.Window.OnPortChanged, MainWindow.Window.OnBufferSizeChanged:
  `int.Parse` overflow on digit strings above 2147483647 is a precondition,
  not a modelled exception.
- MainWindow.Window.OnKeyPressed: `e.Handled` is not modelled.
- Settings.IsValidIp: `\d` and `\w` are taken as ASCII digits and ASCII
  word characters, although .NET also accepts other Unicode digits and
  letters.
- Settings.IsValidPort: .NET's `$` also matches before a final newline, so
  "80\n" passes the pattern; the model requires the whole text to be digits.
- MainWindow.Window.FieldsValid does not include the IP flag. `OnIpChanged`
  ensures it directly instead.
- ChatServer.Server.OnRead and ChatServer.Server.OnAccept require the event
  to be possible: the client's loop is still running, and an accept is
  outstanding.
- A port outside 0 to 65535 makes the `TcpListener` constructor throw,
  and `ListenStep` models that branch explicitly. Any other bind failure is
  the argument `bindOk`.
