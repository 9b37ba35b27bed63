/** `ChatClient` in its connecting role (ChatClient.cs) as a state and one
    function per step. The connection to the server becomes `link` plus the
    lines written to it (`sent`); each read of the receive loop becomes the
    `ReadResult` a step is given; `AddMessage` becomes `display`. */
module ClientModel {
  import opened Protocol

  /** The lines the client shows in its window. */
  const ConnectingLine: string := "Connecting.."
  const RefusedLine: string := "Connection refused."
  const ConnectedLine: string := "Connected!"
  const HintLine: string := "Type `exit` to disconnect."
  const LostLine: string := "Server disconnected unexpectedly!"
  const ServerClosedLine: string := "Server has closed the connection."
  const DisconnectedLine: string := "Disconnected."

  /** The `Server` field: never assigned, an open connection, or one that
      has been closed and disposed. */
  datatype Link = Unset | Open | Closed

  datatype ClientState = ClientState(
    link: Link,
    sent: seq<string>,       // every line written to the current connection
    isActive: bool,
    disconnecting: bool,
    receiving: bool,         // the receive loop is running
    display: seq<string>)

  /** A fresh client (ChatClient.cs:44-55); `display` is what the window already shows. */
  function Fresh(display: seq<string>): ClientState
  {
    ClientState(Unset, [], false, false, false, display)
  }

  /** The session invariant: `isActive` holds exactly while the connection is
      open; an open connection has a running receive loop; a running loop
      has a connection; and `disconnecting` never outlives the call that sets it. */
  ghost predicate Inv(s: ClientState)
  {
    && (s.isActive <==> s.link == Open)
    && (s.link == Open ==> s.receiving)
    && (s.receiving ==> s.link != Unset)
    && !s.disconnecting
  }

  /** What the window shows plays no part in the session invariant. */
  lemma DisplayIrrelevant(s: ClientState, display: seq<string>)
    requires Inv(s)
    ensures Inv(s.(display := display))
  {
  }

  /** `CloseConnectionToServer()` (ChatClient.cs:203-212). */
  function CloseLink(s: ClientState): ClientState
  {
    s.(isActive := false, link := Closed, display := s.display + [DisconnectedLine])
  }

  /** The receive loop has ended; the `using` blocks dispose the connection. */
  function EndLoop(s: ClientState): ClientState
  {
    s.(isActive := false, receiving := false, link := Closed)
  }

  /** `Connect()` followed by the start of `ReceiveDataFromServer()`
      (ChatClient.cs:81-118); `ok` says whether the `TcpClient` connected. */
  function ConnectStep(s: ClientState, username: string, ok: bool): ClientState
  {
    var s1 := s.(display := s.display + [ConnectingLine]);
    if !ok then s1.(display := s1.display + [RefusedLine])
    else
      s1.(link := Open, sent := [username], isActive := true, receiving := true,
          display := s1.display + [ConnectedLine, HintLine])
  }

  /** One iteration of the receive loop (ChatClient.cs:124-160) given what
      `ReadLine` yielded; the boolean is true while the loop goes on. A read
      on a connection that is no longer open throws. */
  function ReadStep(s: ClientState, r: ReadResult): (ClientState, bool)
  {
    var r := if s.link == Open then r else ReadError;
    match r
    case ReadError =>
      var s1 := if s.disconnecting then s
                else CloseLink(s.(display := s.display + [LostLine]));
      (EndLoop(s1), false)
    case EndOfStream => (s, true)
    case Line(text) =>
      if text == ShutdownSentinel then
        var s1 := s.(sent := s.sent + [LeaveSentinel],
                     display := s.display + [ServerClosedLine]);
        var s2 := if s.disconnecting then s1 else CloseLink(s1);
        (EndLoop(s2), false)
      else if text == "" then (s, true)
      else (s.(display := s.display + [text]), true)
  }

  /** `SendMessage(message)` (ChatClient.cs:180-198). False when the write
      threw because there is no open connection; nothing happens then. */
  function SendStep(s: ClientState, message: string): (ClientState, bool)
  {
    if s.link != Open then (s, false)
    else
      var s1 := s.(sent := s.sent + [message]);
      if message == LeaveSentinel then
        (CloseLink(s1.(disconnecting := true)).(disconnecting := false), true)
      else (s1.(display := s1.display + ["You: " + message]), true)
  }

  lemma FreshIsIdle(display: seq<string>)
    ensures var s := Fresh(display);
      Inv(s) && !s.isActive && !s.disconnecting && s.link == Unset && s.sent == []
  {
  }

  /** A successful connect writes the user name as the first line, shows
      the three status lines and starts the loop with the client active. */
  lemma ConnectHandshake(s: ClientState, username: string)
    ensures var t := ConnectStep(s, username, true);
      && t.sent == [username] && t.link == Open && t.isActive && t.receiving
      && t.display == s.display + [ConnectingLine, ConnectedLine, HintLine]
      && Inv(t) == !s.disconnecting
  {
  }

  /** A failed connect writes nothing and only reports the refusal. */
  lemma ConnectRefused(s: ClientState, username: string)
    ensures ConnectStep(s, username, false)
      == s.(display := s.display + [ConnectingLine, RefusedLine])
  {
  }

  /** The shutdown sentinel is answered by exactly one "exit" line; the loop
      ends, the connection closes and the client is no longer active. */
  lemma ShutdownAcknowledged(s: ClientState)
    requires Inv(s) && s.link == Open
    ensures var (t, running) := ReadStep(s, Line(ShutdownSentinel));
      && !running && !t.isActive && !t.receiving && t.link == Closed
      && t.sent == s.sent + [LeaveSentinel]
      && t.display == s.display + [ServerClosedLine, DisconnectedLine]
      && Inv(t)
  {
  }

  /** Every other non-empty line is shown verbatim and changes nothing else;
      empty and null lines change nothing at all. */
  lemma OtherLinesDisplayed(s: ClientState, text: string)
    requires s.link == Open && text != ShutdownSentinel
    ensures text != "" ==> ReadStep(s, Line(text)) == (s.(display := s.display + [text]), true)
    ensures text == "" ==> ReadStep(s, Line(text)) == (s, true)
    ensures ReadStep(s, EndOfStream) == (s, true)
  {
  }

  /** A lost connection is reported, closed and ends the loop. */
  lemma FailureReported(s: ClientState, r: ReadResult)
    requires Inv(s)
    requires r.ReadError? || s.link != Open
    ensures var (t, running) := ReadStep(s, r);
      && !running && !t.isActive && !t.receiving && t.link == Closed && t.sent == s.sent
      && t.display == s.display + [LostLine, DisconnectedLine]
  {
  }

  /** Only the shutdown sentinel and a failure end the loop, and the client
      is active exactly while the loop runs on an open connection. */
  lemma {:induction false} LoopEndsOnlyOnShutdownOrFailure(s: ClientState, r: ReadResult)
    requires Inv(s) && s.receiving
    ensures var (t, running) := ReadStep(s, r);
      && (!running <==> s.link != Open || r.ReadError? || r == Line(ShutdownSentinel))
      && (running ==> t.isActive && t.link == Open)
      && (!running ==> !t.isActive && !t.receiving)
  {
    if s.link == Open && r.Line? && r.text != ShutdownSentinel {
      OtherLinesDisplayed(s, r.text);
    }
  }

  /** A line the server relays from a client, `"<name>: <message>"` with a
      non-empty message, is shown verbatim and never ends the session, unless
      it is the shutdown sentinel itself: sender "Server", message "exit". */
  lemma {:induction false} RelayedLineDisplayed(s: ClientState, name: string, message: string)
    requires s.link == Open && message != ""
    requires name != "Server" || message != LeaveSentinel
    ensures var line := Prefixed(name, message);
      ReadStep(s, Line(line)) == (s.(display := s.display + [line]), true)
  {
    PrefixedIsShutdown(name, message);
    var line := Prefixed(name, message);
    assert line != "" by { assert |line| >= 2; }
    OtherLinesDisplayed(s, line);
  }

  /** An ordinary message is written once and echoed as "You: <message>". */
  lemma SendEchoes(s: ClientState, message: string)
    requires s.link == Open && message != LeaveSentinel
    ensures SendStep(s, message)
      == (s.(sent := s.sent + [message], display := s.display + ["You: " + message]), true)
  {
  }

  /** Typing "exit" writes it once, closes the connection and leaves
      `disconnecting` false again; no "You: exit" line is shown. */
  lemma SendExitCloses(s: ClientState)
    requires Inv(s) && s.link == Open
    ensures var (t, ok) := SendStep(s, LeaveSentinel);
      && ok && t.link == Closed && !t.isActive && !t.disconnecting && t.receiving
      && t.sent == s.sent + [LeaveSentinel]
      && t.display == s.display + [DisconnectedLine]
      && Inv(t)
  {
  }

  /** Without an open connection, sending fails and changes nothing. */
  lemma SendWithoutLinkFails(s: ClientState, message: string)
    requires s.link != Open
    ensures SendStep(s, message) == (s, false)
  {
  }

  /** Because `disconnecting` is back to false when `SendMessage("exit")`
      returns, the receive loop's next read, on the closed connection,
      reports the server as lost and shows "Disconnected." a second time. */
  lemma {:induction false} ExitThenLoopReportsLoss(s: ClientState, r: ReadResult)
    requires Inv(s) && s.link == Open
    ensures var (t, _) := SendStep(s, LeaveSentinel);
      var (u, running) := ReadStep(t, r);
      && !running
      && u.display == s.display + [DisconnectedLine, LostLine, DisconnectedLine]
  {
    SendExitCloses(s);
    var (t, _) := SendStep(s, LeaveSentinel);
    FailureReported(t, r);
  }

  lemma ConnectKeepsInv(s: ClientState, username: string, ok: bool)
    requires Inv(s)
    ensures Inv(ConnectStep(s, username, ok))
  {
  }

  lemma ReadKeepsInv(s: ClientState, r: ReadResult)
    requires Inv(s)
    ensures Inv(ReadStep(s, r).0)
  {
  }

  lemma SendKeepsInv(s: ClientState, message: string)
    requires Inv(s)
    ensures Inv(SendStep(s, message).0)
  {
  }
}
