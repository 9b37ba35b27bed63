/** The broadcasting server of ChatServer.cs as a state and one function per
    step. Sockets are replaced by what has been written to each connection
    (`outbox`), reads become the `ReadResult` a step is given, and the
    `AddMessage` callback becomes the `display` list. The class in
    chat_server.dfy performs these steps in place and is proved against them. */
module ServerModel {
  import opened Protocol
  import opened Lists

  /** The lines the server shows in its own window. */
  const DisconnectingLine: string := "Disconnecting..."
  const ClosedLine: string := "You have disconnected succesfully."
  const BindFailedLine: string := "Another Server is already running on this IP Address and Port."

  /** A `ChatClient` as the server creates it for an accepted connection
      (ChatServer.cs:114-118). Every one gets the same all-zero `Guid`, so the
      server can tell two of them apart only by reference; the model keeps no
      identifier at all. */
  class Peer {
    const username: string

    constructor (username: string)
      ensures this.username == username
    {
      this.username := username;
    }
  }

  datatype ServerState = ServerState(
    clients: seq<Peer>,              // the `clients` list, in insertion order
    outbox: map<Peer, seq<string>>,  // every line written so far to each accepted connection
    closed: set<Peer>,               // connections the server has closed or disposed
    broken: set<Peer>,               // connections whose writes fail: the remote end is gone
    receiving: set<Peer>,            // connections whose receive loop is running
    isServerActive: bool,
    disconnecting: bool,
    acceptArmed: bool,               // a `BeginAcceptTcpClient` is outstanding
    hasListener: bool,               // `Listener != null`
    display: seq<string>)            // the window's chat list

  /** How one receive loop, or one accept callback, ended up. */
  datatype Outcome =
    | NotRegistered  // the accept callback added no client
    | Running        // the receive loop goes on reading
    | Left           // the client said "exit" and was removed (lines 154-160)
    | Dropped        // the client failed and was removed (lines 162-173)
    | Aborted        // an exception left the receive loop; line 100 swallows it

  /** The state of a new server (ChatServer.cs:40-50); `display` is whatever the window already shows. */
  function Initial(display: seq<string>): ServerState
  {
    ServerState([], map[], {}, {}, {}, false, false, false, false, display)
  }

  /** The registry invariant: the list has no repetitions; every registered
      client still has its receive loop running, and so has not been closed;
      a listener exists while an accept is outstanding. */
  ghost predicate Inv(s: ServerState)
  {
    && Distinct(s.clients)
    && (forall p :: p in s.clients ==> p in s.receiving)
    && s.receiving !! s.closed
    && s.receiving <= s.outbox.Keys
    && (s.acceptArmed ==> s.hasListener)
  }

  /** What the window shows plays no part in the registry invariant. */
  lemma DisplayIrrelevant(s: ServerState, display: seq<string>)
    requires Inv(s)
    ensures Inv(s.(display := display))
  {
  }

  /** Every line written so far to `p`'s connection. */
  function Written(outbox: map<Peer, seq<string>>, p: Peer): seq<string>
  {
    if p in outbox then outbox[p] else []
  }

  /** A `foreach` over `rs` that writes `line` to each connection in turn. A
      write to a broken connection throws, which ends the loop there: the
      recipients before it have the line, the rest do not. */
  function WriteAll(outbox: map<Peer, seq<string>>, broken: set<Peer>, rs: seq<Peer>, line: string)
    : (r: (map<Peer, seq<string>>, bool))
    ensures r.1 <==> forall i :: 0 <= i < |rs| ==> rs[i] !in broken
    ensures outbox.Keys <= r.0.Keys
    decreases |rs|
  {
    if rs == [] then (outbox, true)
    else if rs[0] in broken then (outbox, false)
    else
      var r := WriteAll(outbox[rs[0] := Written(outbox, rs[0]) + [line]], broken, rs[1..], line);
      assert forall i :: 1 <= i < |rs| ==> rs[i] == rs[1..][i - 1];
      r
  }

  /** `SendMessageToAllClients(message, sender)` (ChatServer.cs:193-205):
      `"<sender>: <message>"` to every registered client except the sender,
      then to the display. The boolean is false when a write threw; the
      display line is then never added. */
  function RelayStep(s: ServerState, message: string, sender: Peer): (ServerState, bool)
  {
    var line := Prefixed(sender.username, message);
    var (outbox, ok) := WriteAll(s.outbox, s.broken, Without(s.clients, sender), line);
    (s.(outbox := outbox, display := if ok then s.display + [line] else s.display), ok)
  }

  /** `SendMessage(message)` (ChatServer.cs:211-231): `"Server: <message>"` to
      every registered client; "exit" starts the drain. False when a write threw. */
  function SendStep(s: ServerState, message: string): (ServerState, bool)
  {
    var (outbox, ok) := WriteAll(s.outbox, s.broken, s.clients, ServerLine(message));
    var s1 := s.(outbox := outbox);
    if !ok then (s1, false)
    else if message != LeaveSentinel then (s1.(display := s1.display + ["You: " + message]), true)
    else (s1.(display := s1.display + [DisconnectingLine], disconnecting := true), true)
  }

  /** `CloseConnections()` (ChatServer.cs:246-258). False when it threw: a
      write failed inside `SendMessage("exit")`, or `Listener` was null. */
  function CloseStep(s: ServerState): (ServerState, bool)
  {
    var (s1, ok) := SendStep(s.(isServerActive := false, disconnecting := false), LeaveSentinel);
    if !ok then (s1, false) else StopListening(s1)
  }

  /** The rest of `CloseConnections()` once the goodbye has gone out
      (ChatServer.cs:253-257): the closing line, then `Listener.Stop()`,
      which throws on a null listener, then a new empty client list. */
  function StopListening(s: ServerState): (ServerState, bool)
  {
    var s2 := s.(display := s.display + [ClosedLine]);
    if !s2.hasListener then (s2, false)
    else (s2.(hasListener := false, acceptArmed := false, clients := []), true)
  }

  /** `clients.Remove(c)` followed by `CloseConnectionToClient(c)`. */
  function Retire(s: ServerState, c: Peer): ServerState
  {
    s.(clients := RemoveFirst(s.clients, c), closed := s.closed + {c})
  }

  /** The receive loop of `c` is over; the `using` blocks dispose its connection. */
  function EndLoop(s: ServerState, c: Peer): ServerState
  {
    s.(receiving := s.receiving - {c}, closed := s.closed + {c})
  }

  /** The `catch` of the receive loop (ChatServer.cs:162-173). `clients.First`
      throws when `c` is no longer registered, and that exception leaves the
      loop; so does one from the announcement or from `CloseConnections`. */
  function DropStep(s: ServerState, c: Peer): (ServerState, Outcome)
  {
    if c !in s.clients then (EndLoop(s, c), Aborted)
    else
      var (s1, ok) := RelayStep(Retire(s, c), DroppedText(c.username), c);
      if !ok then (EndLoop(s1, c), Aborted)
      else if |s1.clients| < 1 && s1.disconnecting then
        var (s2, closedOk) := CloseStep(s1);
        (EndLoop(s2, c), if closedOk then Dropped else Aborted)
      else (EndLoop(s1, c), Dropped)
  }

  /** After the loop's `break` (ChatServer.cs:154-160). Everything here runs
      inside the `try`, so a throw goes to the `catch`, `DropStep`. */
  function LeaveStep(s: ServerState, c: Peer): (ServerState, Outcome)
  {
    if c !in s.clients then DropStep(s, c)
    else
      var s1 := Retire(s, c);
      if |s1.clients| < 1 && s1.disconnecting then
        var (s2, ok) := CloseStep(s1);
        if ok then (EndLoop(s2, c), Left) else DropStep(s2, c)
      else (EndLoop(s1, c), Left)
  }

  /** One iteration of `c`'s receive loop (ChatServer.cs:136-151) given what
      `ReadLine` yielded. A null line is treated like an empty one, so the end
      of the stream does not end the loop; only a throw does. */
  function ReadStep(s: ServerState, c: Peer, r: ReadResult): (ServerState, Outcome)
  {
    match r
    case ReadError => DropStep(s, c)
    case EndOfStream => (s, Running)
    case Line(text) =>
      if text == LeaveSentinel then
        var (s1, ok) := RelayStep(s, LeftText(c.username), c);
        if ok then LeaveStep(s1, c) else DropStep(s1, c)
      else if text == "" then (s, Running)
      else
        var (s1, ok) := RelayStep(s, text, c);
        if ok then (s1, Running) else DropStep(s1, c)
  }

  /** The user name the accept callback gives a new client: the handshake
      line, or null at the end of the stream, which prints as "". */
  function HandshakeName(h: ReadResult): string
  {
    if h.Line? then h.text else ""
  }

  /** `OnAcceptTcpClient` (ChatServer.cs:77-106) for an accepted connection
      whose first `ReadLine` yielded `h`, with `p` the new `ChatClient`. The
      outstanding accept is used up and re-armed only once the user name has
      been read (line 93); then the client is registered and its receive loop
      starts by announcing it (line 133), inside the loop's `try`. */
  function AcceptStep(s: ServerState, h: ReadResult, p: Peer): (ServerState, Outcome)
  {
    var s0 := s.(acceptArmed := false);
    if !s0.isServerActive || h.ReadError? then (s0, NotRegistered)
    else
      var s1 := s0.(acceptArmed := true, clients := s0.clients + [p],
                    outbox := s0.outbox[p := []], receiving := s0.receiving + {p});
      var (s2, ok) := RelayStep(s1, JoinedText(p.username), p);
      if ok then (s2, Running) else DropStep(s2, p)
  }

  /** The port numbers a `TcpListener` accepts; its constructor throws for
      any other. */
  predicate PortInRange(port: int)
  {
    0 <= port <= 65535
  }

  /** `ListenForClients()` (ChatServer.cs:55-71) on port `port`, where
      `bindOk` says whether `Listener.Start()` could bind it. `isServerActive`
      is set first and stays set when anything fails. A port out of range
      makes the constructor at line 62 throw, so `Listener` keeps its old
      value; otherwise the new listener is stored even when `Start` fails. */
  function ListenStep(s: ServerState, port: int, bindOk: bool): ServerState
  {
    var s1 := s.(isServerActive := true);
    if !PortInRange(port) then s1.(display := s1.display + [BindFailedLine])
    else
      var s2 := s1.(hasListener := true);
      if bindOk then s2.(acceptArmed := true)
      else s2.(display := s2.display + [BindFailedLine])
  }
}
