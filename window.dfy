/** The window (MainWindow.xaml.cs): the three settings fields and their
    validity flags, the Listen/Connect enabling rule, the send-enable rule
    and the routing of a typed message to the server or the client. Button
    colours, focus and the `Toggle*` helpers are not modelled. */
module MainWindow {
  import opened Settings
  import opened ServerModel
  import opened ClientModel
  import opened ChatServer
  import opened ChatClient
  import Display

  /** Where `HandleSendingMessage` sends the typed text. */
  datatype Route =
    | NoText      // the text box is empty: nothing happens
    | ToServer    // the server is active
    | ToClient    // otherwise, the client is active
    | Complain    // neither: the error line is shown

  const ComplaintLine: string := "Something went wrong. Please try reconnecting."
  const FaultySettingsLine: string := "Faulty settings provided. Please check your input."
  const AnonymousName: string := "Anonymous Client"

  /** The server-first routing of MainWindow.xaml.cs:132-146. */
  function SendRoute(text: string, serverActive: bool, clientActive: bool): (r: Route)
    ensures r == NoText <==> text == ""
  {
    if text == "" then NoText
    else if serverActive then ToServer
    else if clientActive then ToClient
    else Complain
  }

  /** The send-enable rule of MainWindow.xaml.cs:369 and 388: an active
      server with at least one client, or an active client. */
  predicate SendEnabled(serverActive: bool, clientCount: nat, clientActive: bool)
  {
    (serverActive && clientCount > 0) || clientActive
  }

  /** The user name a new client gets (MainWindow.xaml.cs:91). */
  function ClientName(text: string): (name: string)
    ensures name != ""
    ensures text != "" ==> name == text
    ensures text == "" ==> name == AnonymousName
  {
    if text != "" then text else AnonymousName
  }

  /** When sending is enabled, a non-empty message always reaches the server
      or the client; the error line is only possible with the button disabled.
      The converse fails: an active server with no clients routes to itself
      although sending is disabled. */
  lemma EnabledSendIsRouted(text: string, serverActive: bool, clientCount: nat, clientActive: bool)
    requires text != ""
    ensures SendEnabled(serverActive, clientCount, clientActive)
      ==> SendRoute(text, serverActive, clientActive) != Complain
    ensures SendRoute(text, serverActive, clientActive) == Complain
      <==> !serverActive && !clientActive
    ensures serverActive && clientCount == 0 && !clientActive
      ==> !SendEnabled(serverActive, clientCount, clientActive)
          && SendRoute(text, serverActive, clientActive) == ToServer
  {
  }

  /** The server wins when both sides are active. */
  lemma ServerFirst(text: string, clientActive: bool)
    requires text != ""
    ensures SendRoute(text, true, clientActive) == ToServer
    ensures SendRoute(text, false, clientActive) == if clientActive then ToClient else Complain
  {
  }

  class Window {
    var server: Server?
    var client: Client?
    var ipText: string
    var portText: string
    var bufferSizeText: string
    var messageText: string
    var isValidPort: bool
    var isValidBufferSize: bool
    var isValidIp: bool
    var listenEnabled: bool
    var connectEnabled: bool
    var sendEnabled: bool
    /** The chat list, shared with the server and the client. */
    const log: Display.Log

    ghost predicate Valid()
      reads this, log, server, client
    {
      FieldsValid() && PartsValid()
    }

    /** The port and buffer-size flags are the checks of their fields; the
        numeric fields fit in an `int` once they are digit strings. */
    ghost predicate FieldsValid()
      reads this
    {
      && isValidPort == IsValidPort(portText)
      && (AllDigits(portText) ==> DecimalValue(portText) <= IntMax)
      && (AllDigits(bufferSizeText) ==> DecimalValue(bufferSizeText) <= IntMax)
      && isValidBufferSize == IsValidBufferSize(bufferSizeText)
    }

    /** The server and the client write to this window's list and keep
        their own invariants. */
    ghost predicate PartsValid()
      reads this, log, server, client
    {
      && (server != null ==> server.log == log && server.Valid())
      && (client != null ==> client.log == log && client.Valid())
    }

    /** The server or the client is running; `CheckValidity` then leaves
        the buttons alone. */
    predicate Busy()
      reads this, server, client
    {
      (client != null && client.isActive) || (server != null && server.isServerActive)
    }

    predicate AllValid()
      reads this
    {
      isValidBufferSize && isValidIp && isValidPort
    }

    /** MainWindow.xaml.cs:38-47 with empty fields: everything invalid, so
        `CheckValidity` disables Listen and Connect; Send is disabled. */
    constructor (log: Display.Log)
      ensures this.log == log && server == null && client == null
      ensures !listenEnabled && !connectEnabled && !sendEnabled
      ensures Valid()
    {
      this.log := log;
      server := null;
      client := null;
      ipText := "";
      portText := "";
      bufferSizeText := "";
      messageText := "";
      isValidPort := false;
      isValidBufferSize := false;
      isValidIp := false;
      sendEnabled := false;
      new;
      CheckValidity();
    }

    /** `CheckValidity()` (MainWindow.xaml.cs:217-236). */
    method CheckValidity()
      modifies this
      ensures Busy() ==> listenEnabled == old(listenEnabled) && connectEnabled == old(connectEnabled)
      ensures !Busy() ==> listenEnabled == AllValid() && connectEnabled == AllValid()
      ensures unchanged(this`server, this`client, this`ipText, this`portText, this`bufferSizeText)
      ensures unchanged(this`messageText, this`isValidIp, this`isValidPort, this`isValidBufferSize, this`sendEnabled)
    {
      if (client != null && client.isActive) || (server != null && server.isServerActive) {
        return;
      }
      listenEnabled := AllValid();
      connectEnabled := AllValid();
    }

    /** `IPAddressTextBox_TextChanged` (MainWindow.xaml.cs:271-291): the flag
        becomes the pattern check, `CheckValidity` runs, and a valid address
        is handed to the client. */
    method OnIpChanged(text: string)
      requires Valid()
      modifies this, client
      ensures ipText == text && isValidIp == IsValidIp(text)
      ensures old(Busy()) ==> listenEnabled == old(listenEnabled) && connectEnabled == old(connectEnabled)
      ensures !old(Busy()) ==> listenEnabled == AllValid() && connectEnabled == AllValid()
      ensures unchanged(this`server, this`client, this`portText, this`bufferSizeText, this`messageText)
      ensures unchanged(this`isValidPort, this`isValidBufferSize, this`sendEnabled)
      ensures client != null ==> client.ip == (if IsValidIp(text) then text else old(client.ip))
      ensures client != null ==> client.State() == old(client.State())
                                 && client.port == old(client.port) && client.bufferSize == old(client.bufferSize)
      ensures Valid()
    {
      RecordIp(text);
      if isValidIp {
        PushIp(text);
      }
    }

    /** The first half of `IPAddressTextBox_TextChanged`: the field, its flag
        and `CheckValidity`, with the server and the client untouched. */
    method RecordIp(text: string)
      requires Valid()
      modifies this
      ensures ipText == text && isValidIp == IsValidIp(text)
      ensures old(Busy()) ==> listenEnabled == old(listenEnabled) && connectEnabled == old(connectEnabled)
      ensures !old(Busy()) ==> listenEnabled == AllValid() && connectEnabled == AllValid()
      ensures unchanged(this`server, this`client, this`portText, this`bufferSizeText, this`messageText)
      ensures unchanged(this`isValidPort, this`isValidBufferSize, this`sendEnabled)
      ensures Valid()
    {
      ipText := text;
      isValidIp := IsValidIp(text);
      CheckValidity();
    }

    /** Hands a valid IP address to the client, if there is one; its session
        and other settings stay as they were. */
    method PushIp(ip: string)
      requires Valid()
      modifies client
      ensures client != null ==> client.ip == ip && client.State() == old(client.State())
                                 && client.port == old(client.port) && client.bufferSize == old(client.bufferSize)
      ensures Valid()
    {
      if client != null {
        client.SetIp(ip);
      }
    }

    /** `PortTextBox_TextChanged` (MainWindow.xaml.cs:298-322). The text must
        fit in an `int` once it is a digit string, or `int.Parse` throws. */
    method OnPortChanged(text: string)
      requires Valid()
      requires AllDigits(text) ==> DecimalValue(text) <= IntMax
      modifies this, server, client
      ensures portText == text && isValidPort == IsValidPort(text)
      ensures old(Busy()) ==> listenEnabled == old(listenEnabled) && connectEnabled == old(connectEnabled)
      ensures !old(Busy()) ==> listenEnabled == AllValid() && connectEnabled == AllValid()
      ensures unchanged(this`server, this`client, this`ipText, this`bufferSizeText, this`messageText)
      ensures unchanged(this`isValidIp, this`isValidBufferSize, this`sendEnabled)
      ensures server != null ==> server.port == (if IsValidPort(text) then DecimalValue(text) else old(server.port))
                                 && server.bufferSize == old(server.bufferSize) && server.State() == old(server.State())
      ensures client != null ==> client.port == (if IsValidPort(text) then DecimalValue(text) else old(client.port))
                                 && client.ip == old(client.ip) && client.bufferSize == old(client.bufferSize)
                                 && client.State() == old(client.State())
      ensures Valid()
    {
      RecordPort(text);
      if isValidPort {
        PushPort(DecimalValue(text));
      }
    }

    /** The first half of the handler: the field, its flag and
        `CheckValidity`, with the server and the client untouched. */
    method RecordPort(text: string)
      requires Valid()
      requires AllDigits(text) ==> DecimalValue(text) <= IntMax
      modifies this
      ensures portText == text && isValidPort == IsValidPort(text)
      ensures old(Busy()) ==> listenEnabled == old(listenEnabled) && connectEnabled == old(connectEnabled)
      ensures !old(Busy()) ==> listenEnabled == AllValid() && connectEnabled == AllValid()
      ensures unchanged(this`server, this`client, this`ipText, this`bufferSizeText, this`messageText)
      ensures unchanged(this`isValidIp, this`isValidBufferSize, this`sendEnabled)
      ensures Valid()
    {
      portText := text;
      isValidPort := IsValidPort(text);
      CheckValidity();
    }

    /** Hands a valid port to the server and the client, where they exist;
        their sessions and other settings stay as they were. */
    method PushPort(port: int)
      requires Valid()
      modifies server, client
      ensures server != null ==> server.port == port && server.bufferSize == old(server.bufferSize)
                                 && server.State() == old(server.State())
      ensures client != null ==> client.port == port && client.ip == old(client.ip)
                                 && client.bufferSize == old(client.bufferSize) && client.State() == old(client.State())
      ensures Valid()
    {
      if server != null {
        server.SetPort(port);
      }
      if client != null {
        client.SetPort(port);
      }
    }

    /** `BufferSizeTextBox_TextChanged` (MainWindow.xaml.cs:329-356). */
    method OnBufferSizeChanged(text: string)
      requires Valid()
      requires AllDigits(text) ==> DecimalValue(text) <= IntMax
      modifies this, server, client
      ensures bufferSizeText == text && isValidBufferSize == IsValidBufferSize(text)
      ensures old(Busy()) ==> listenEnabled == old(listenEnabled) && connectEnabled == old(connectEnabled)
      ensures !old(Busy()) ==> listenEnabled == AllValid() && connectEnabled == AllValid()
      ensures unchanged(this`server, this`client, this`ipText, this`portText, this`messageText)
      ensures unchanged(this`isValidIp, this`isValidPort, this`sendEnabled)
      ensures server != null ==> server.bufferSize == (if IsValidBufferSize(text) then DecimalValue(text) else old(server.bufferSize))
                                 && server.port == old(server.port) && server.State() == old(server.State())
      ensures client != null ==> client.bufferSize == (if IsValidBufferSize(text) then DecimalValue(text) else old(client.bufferSize))
                                 && client.ip == old(client.ip) && client.port == old(client.port)
                                 && client.State() == old(client.State())
      ensures Valid()
    {
      RecordBufferSize(text);
      if isValidBufferSize {
        PushBufferSize(DecimalValue(text));
      }
    }

    /** The first half of the handler: the field, its flag and
        `CheckValidity`, with the server and the client untouched. */
    method RecordBufferSize(text: string)
      requires Valid()
      requires AllDigits(text) ==> DecimalValue(text) <= IntMax
      modifies this
      ensures bufferSizeText == text && isValidBufferSize == IsValidBufferSize(text)
      ensures old(Busy()) ==> listenEnabled == old(listenEnabled) && connectEnabled == old(connectEnabled)
      ensures !old(Busy()) ==> listenEnabled == AllValid() && connectEnabled == AllValid()
      ensures unchanged(this`server, this`client, this`ipText, this`portText, this`messageText)
      ensures unchanged(this`isValidIp, this`isValidPort, this`sendEnabled)
      ensures Valid()
    {
      bufferSizeText := text;
      isValidBufferSize := IsValidBufferSize(text);
      CheckValidity();
    }

    /** Hands a valid buffer size to the server and the client, where they
        exist; their sessions and other settings stay as they were. */
    method PushBufferSize(bufferSize: int)
      requires Valid()
      modifies server, client
      ensures server != null ==> server.bufferSize == bufferSize && server.port == old(server.port)
                                 && server.State() == old(server.State())
      ensures client != null ==> client.bufferSize == bufferSize && client.ip == old(client.ip)
                                 && client.port == old(client.port) && client.State() == old(client.State())
      ensures Valid()
    {
      if server != null {
        server.SetBufferSize(bufferSize);
      }
      if client != null {
        client.SetBufferSize(bufferSize);
      }
    }

    /** `GetPort()` (MainWindow.xaml.cs:242-250). */
    function GetPort(): (p: int)
      requires isValidPort ==> IsValidPort(portText) && DecimalValue(portText) <= IntMax
      reads this
      ensures 0 <= p <= IntMax
      ensures isValidPort ==> p == DecimalValue(portText)
      ensures !isValidPort ==> p == 0
    {
      if isValidPort then DecimalValue(portText) else 0
    }

    /** `GetBufferSize()` (MainWindow.xaml.cs:256-264): never above 1024. */
    function GetBufferSize(): (b: int)
      requires isValidBufferSize ==> AllDigits(bufferSizeText) && DecimalValue(bufferSizeText) <= MaxBufferSize
      reads this
      ensures 0 <= b <= MaxBufferSize
      ensures isValidBufferSize ==> b == DecimalValue(bufferSizeText)
      ensures !isValidBufferSize ==> b == 0
    {
      if isValidBufferSize then DecimalValue(bufferSizeText) else 0
    }

    /** The condition of MainWindow.xaml.cs:369 and 388. */
    predicate CanSend()
      reads this, server, client
    {
      SendEnabled(server != null && server.isServerActive,
                  if server == null then 0 else |server.clients|,
                  client != null && client.isActive)
    }

    /** `TxtMessage_TextChanged` (MainWindow.xaml.cs:385-396), which WPF also
        raises when the program itself clears the text box. */
    method OnMessageChanged(text: string)
      requires Valid()
      modifies this
      ensures messageText == text && sendEnabled == CanSend()
      ensures unchanged(this`server, this`client, this`ipText, this`portText, this`bufferSizeText)
      ensures unchanged(this`isValidIp, this`isValidPort, this`isValidBufferSize, this`listenEnabled, this`connectEnabled)
      ensures Valid()
    {
      messageText := text;
      sendEnabled := CanSend();
    }

    /** `AddMessage(line)` from the window itself: one more line in the
        chat list, which the server and the client see only as a longer
        display. */
    method Show(line: string)
      requires Valid()
      modifies log
      ensures log.lines == old(log.lines) + [line]
      ensures server != null ==> server.State() == old(server.State()).(display := log.lines)
      ensures client != null ==> client.State() == old(client.State()).(display := log.lines)
      ensures Valid()
    {
      ghost var serverBefore := if server == null then Initial([]) else server.State();
      ghost var clientBefore := if client == null then Fresh([]) else client.State();
      log.Add(line);
      if server != null {
        ServerModel.DisplayIrrelevant(serverBefore, log.lines);
        assert server.State() == serverBefore.(display := log.lines);
      }
      if client != null {
        ClientModel.DisplayIrrelevant(clientBefore, log.lines);
        assert client.State() == clientBefore.(display := log.lines);
      }
    }

    /** `chatServer.SendMessage(text)`; the client, if any, only sees its
        display grow. */
    method SendViaServer(text: string) returns (ok: bool)
      requires Valid() && server != null
      modifies log, server
      ensures (server.State(), ok) == ServerModel.SendStep(old(server.State()), text)
      ensures server.port == old(server.port) && server.bufferSize == old(server.bufferSize)
      ensures client != null ==> client.State() == old(client.State()).(display := log.lines)
      ensures Valid()
    {
      ghost var before := if client == null then Fresh([]) else client.State();
      ok := server.SendMessage(text);
      if client != null {
        ClientModel.DisplayIrrelevant(before, log.lines);
        assert client.State() == before.(display := log.lines);
      }
    }

    /** `chatClient.SendMessage(text)`; the server, if any, only sees its
        display grow. */
    method SendViaClient(text: string) returns (ok: bool)
      requires Valid() && client != null
      modifies log, client
      ensures (client.State(), ok) == ClientModel.SendStep(old(client.State()), text)
      ensures client.ip == old(client.ip) && client.port == old(client.port) && client.bufferSize == old(client.bufferSize)
      ensures server != null ==> server.State() == old(server.State()).(display := log.lines)
      ensures Valid()
    {
      ghost var before := if server == null then Initial([]) else server.State();
      ok := client.SendMessage(text);
      if server != null {
        ServerModel.DisplayIrrelevant(before, log.lines);
        assert server.State() == before.(display := log.lines);
      }
    }

    /** `HandleSendingMessage()` (MainWindow.xaml.cs:129-152). `ok` is false
        when the server's or the client's `SendMessage` threw; the exception
        then skips clearing the text box. Clearing it raises
        `TxtMessage_TextChanged`, which re-runs the send-enable rule. */
    method HandleSendingMessage() returns (route: Route, ok: bool)
      requires Valid()
      modifies this, log, server, client
      ensures route == SendRoute(old(messageText), old(server != null && server.isServerActive),
                                 old(client != null && client.isActive))
      ensures unchanged(this`server, this`client, this`ipText, this`portText, this`bufferSizeText)
      ensures unchanged(this`isValidIp, this`isValidPort, this`isValidBufferSize, this`listenEnabled, this`connectEnabled)
      ensures route == NoText ==> ok && unchanged(this, log)
                                  && (server != null ==> unchanged(server)) && (client != null ==> unchanged(client))
      ensures route == ToServer ==>
        && (server.State(), ok) == ServerModel.SendStep(old(server.State()), old(messageText))
        && (client != null ==> client.State() == old(client.State()).(display := log.lines))
      ensures route == ToClient ==>
        && (client.State(), ok) == ClientModel.SendStep(old(client.State()), old(messageText))
        && (server != null ==> server.State() == old(server.State()).(display := log.lines))
      ensures route == Complain ==>
        && ok && log.lines == old(log.lines) + [ComplaintLine]
        && (server != null ==> server.State() == old(server.State()).(display := log.lines))
        && (client != null ==> client.State() == old(client.State()).(display := log.lines))
      ensures ok && route != NoText ==> messageText == "" && sendEnabled == CanSend()
      ensures !ok ==> messageText == old(messageText) && sendEnabled == old(sendEnabled)
      ensures server != null ==> server.port == old(server.port) && server.bufferSize == old(server.bufferSize)
      ensures client != null ==> client.ip == old(client.ip) && client.port == old(client.port) && client.bufferSize == old(client.bufferSize)
      ensures Valid()
    {
      if messageText == "" {
        return NoText, true;
      }
      if server != null && server.isServerActive {
        route := ToServer;
        ok := SendViaServer(messageText);
      } else if client != null && client.isActive {
        route := ToClient;
        ok := SendViaClient(messageText);
      } else {
        route := Complain;
        Show(ComplaintLine);
        ok := true;
      }
      if ok {
        OnMessageChanged("");
      }
    }

    /** `txtMessageKeypressed` (MainWindow.xaml.cs:363-378): Enter sends only
        when sending is enabled, and then never ends in the error line. */
    method OnKeyPressed(isEnter: bool) returns (route: Route, ok: bool)
      requires Valid()
      modifies this, log, server, client
      ensures !isEnter || !old(CanSend()) ==> route == NoText
      ensures isEnter && old(CanSend()) ==>
        route == SendRoute(old(messageText), old(server != null && server.isServerActive),
                           old(client != null && client.isActive))
      ensures route != Complain
      ensures unchanged(this`server, this`client, this`ipText, this`portText, this`bufferSizeText)
      ensures unchanged(this`isValidIp, this`isValidPort, this`isValidBufferSize, this`listenEnabled, this`connectEnabled)
      ensures route == NoText ==> ok && unchanged(this, log)
                                  && (server != null ==> unchanged(server)) && (client != null ==> unchanged(client))
      ensures route == ToServer ==>
        && (server.State(), ok) == ServerModel.SendStep(old(server.State()), old(messageText))
        && (client != null ==> client.State() == old(client.State()).(display := log.lines))
      ensures route == ToClient ==>
        && (client.State(), ok) == ClientModel.SendStep(old(client.State()), old(messageText))
        && (server != null ==> server.State() == old(server.State()).(display := log.lines))
      ensures ok && route != NoText ==> messageText == "" && sendEnabled == CanSend()
      ensures !ok ==> messageText == old(messageText) && sendEnabled == old(sendEnabled)
      ensures server != null ==> server.port == old(server.port) && server.bufferSize == old(server.bufferSize)
      ensures client != null ==> client.ip == old(client.ip) && client.port == old(client.port) && client.bufferSize == old(client.bufferSize)
      ensures Valid()
    {
      if !isEnter || !CanSend() {
        return NoText, true;
      }
      if messageText != "" {
        EnabledSendIsRouted(messageText, server != null && server.isServerActive,
                            if server == null then 0 else |server.clients|,
                            client != null && client.isActive);
      }
      route, ok := HandleSendingMessage();
    }

    /** `BtnListen_Click` (MainWindow.xaml.cs:63-78) with the four-parameter
        constructor of ChatServer.cs:40; `bindOk` says whether the port could
        be bound. */
    method ListenClick(bindOk: bool)
      requires Valid()
      modifies this, log
      ensures unchanged(this`client, this`ipText, this`portText, this`bufferSizeText, this`messageText)
      ensures unchanged(this`isValidIp, this`isValidPort, this`isValidBufferSize)
      ensures unchanged(this`listenEnabled, this`connectEnabled, this`sendEnabled)
      ensures old(AllValid()) ==>
        && fresh(server) && server.port == old(GetPort()) && server.bufferSize == old(GetBufferSize())
        && server.State() == ListenStep(Initial(old(log.lines) + ListenBanner), server.port, bindOk)
      ensures !old(AllValid()) ==>
        && server == old(server) && log.lines == old(log.lines) + [FaultySettingsLine]
        && (server != null ==> server.State() == old(server.State()).(display := log.lines))
      ensures client != null ==> client.State() == old(client.State()).(display := log.lines)
      ensures Valid()
    {
      if !AllValid() {
        Show(FaultySettingsLine);
        return;
      }
      StartServer(bindOk);
    }

    /** The valid-settings branch of `BtnListen_Click`: the banner, a new
        server with the field values, and `ListenForClients()`. */
    method StartServer(bindOk: bool)
      requires Valid() && AllValid()
      modifies this, log
      ensures unchanged(this`client, this`ipText, this`portText, this`bufferSizeText, this`messageText)
      ensures unchanged(this`isValidIp, this`isValidPort, this`isValidBufferSize)
      ensures unchanged(this`listenEnabled, this`connectEnabled, this`sendEnabled)
      ensures fresh(server) && server.port == old(GetPort()) && server.bufferSize == old(GetBufferSize())
      ensures server.State() == ListenStep(Initial(old(log.lines) + ListenBanner), server.port, bindOk)
      ensures client != null ==> client.State() == old(client.State()).(display := log.lines)
      ensures Valid()
    {
      ShowBanner();
      BufferSizeCheck(bufferSizeText);
      var s := new Server(GetPort(), GetBufferSize(), log);
      server := s;
      ListenOnServer(bindOk);
    }

    /** The three lines shown before the server starts. */
    method ShowBanner()
      requires Valid()
      modifies log
      ensures log.lines == old(log.lines) + ListenBanner
      ensures server != null ==> server.State() == old(server.State()).(display := log.lines)
      ensures client != null ==> client.State() == old(client.State()).(display := log.lines)
      ensures Valid()
    {
      Show(ListenBanner[0]);
      Show(ListenBanner[1]);
      Show(ListenBanner[2]);
    }

    /** `chatServer.ListenForClients()`; the client, if any, only sees its
        display grow. */
    method ListenOnServer(bindOk: bool)
      requires Valid() && server != null
      modifies log, server
      ensures server.State() == ListenStep(old(server.State()), server.port, bindOk)
      ensures server.port == old(server.port) && server.bufferSize == old(server.bufferSize)
      ensures client != null ==> client.State() == old(client.State()).(display := log.lines)
      ensures Valid()
    {
      ghost var before := if client == null then Fresh([]) else client.State();
      server.Listen(bindOk);
      if client != null {
        ClientModel.DisplayIrrelevant(before, log.lines);
        assert client.State() == before.(display := log.lines);
      }
    }

    /** `BtnConnect_Click` (MainWindow.xaml.cs:85-103): a new client named
        after the user-name field, or "Anonymous Client", connects with the
        field values; `ok` says whether the connection was made. */
    method ConnectClick(usernameText: string, ok: bool)
      requires Valid()
      modifies this, log
      ensures unchanged(this`server, this`ipText, this`portText, this`bufferSizeText, this`messageText)
      ensures unchanged(this`isValidIp, this`isValidPort, this`isValidBufferSize)
      ensures unchanged(this`listenEnabled, this`connectEnabled, this`sendEnabled)
      ensures old(AllValid()) ==>
        && fresh(client) && client.username == ClientName(usernameText)
        && client.ip == old(ipText) && client.port == old(DecimalValue(portText))
        && client.bufferSize == old(DecimalValue(bufferSizeText))
        && client.State() == ConnectStep(Fresh(old(log.lines)), client.username, ok)
      ensures !old(AllValid()) ==>
        && client == old(client) && log.lines == old(log.lines) + [FaultySettingsLine]
        && (client != null ==> client.State() == old(client.State()).(display := log.lines))
      ensures server != null ==> server.State() == old(server.State()).(display := log.lines)
      ensures Valid()
    {
      if !AllValid() {
        Show(FaultySettingsLine);
        return;
      }
      ghost var before := if server == null then Initial([]) else server.State();
      var c := new Client(ClientName(usernameText));
      client := c;
      c.SetDependencies(ipText, DecimalValue(portText), DecimalValue(bufferSizeText), log);
      c.Connect(ok);
      if server != null {
        ServerModel.DisplayIrrelevant(before, log.lines);
        assert server.State() == before.(display := log.lines);
      }
    }
  }

  /** The three lines `BtnListen_Click` shows before starting the server. */
  const ListenBanner: seq<string> := [
    "Listening for clients..",
    "Type `exit` once a client has connected,",
    "or press the stop button at any time to disconnect."]
}
