/** `ChatClient` in its connecting role (ChatClient.cs) as an object whose
    methods update its fields in place, proved against the step functions of
    `ClientModel`. The server-side use of the same class (a `Guid`, a user
    name and a `TcpClient`) is `ServerModel.Peer`. */
module ChatClient {
  import opened Protocol
  import opened ClientModel
  import Display

  class Client {
    var ip: string
    var port: int
    var bufferSize: int
    const username: string
    var link: Link
    var sent: seq<string>
    var isActive: bool
    var disconnecting: bool
    var receiving: bool
    /** The `AddMessage` callback; null until `SetDependencies` supplies it. */
    var log: Display.Log?

    /** The fields as one `ClientState` value; without a log nothing has been shown. */
    function State(): ClientState
      reads this, log
    {
      ClientState(link, sent, isActive, disconnecting, receiving,
                  if log == null then [] else log.lines)
    }

    ghost predicate Valid()
      reads this, log
    {
      log != null && Inv(State())
    }

    /** ChatClient.cs:44-55 as the window calls it (MainWindow.xaml.cs:92):
        the defaults 127.0.0.1, port 8000, buffer size 1024, idle. */
    constructor (username: string)
      ensures this.username == username
      ensures ip == "127.0.0.1" && port == 8000 && bufferSize == 1024
      ensures !isActive && !disconnecting
      ensures log == null && State() == Fresh([])
    {
      this.username := username;
      ip := "127.0.0.1";
      port := 8000;
      bufferSize := 1024;
      link := Unset;
      sent := [];
      isActive := false;
      disconnecting := false;
      receiving := false;
      log := null;
    }

    /** `SetDependencies` (ChatClient.cs:66-76): the connection settings and
        the display. The session itself is untouched. */
    method SetDependencies(ip: string, port: int, bufferSize: int, log: Display.Log)
      modifies this
      ensures this.ip == ip && this.port == port && this.bufferSize == bufferSize && this.log == log
      ensures State() == old(State()).(display := log.lines)
      ensures Inv(old(State())) ==> Valid()
    {
      this.ip := ip;
      this.port := port;
      this.bufferSize := bufferSize;
      this.log := log;
    }

    /** The `IP` property setter (ChatClient.cs:19): the session is untouched. */
    method SetIp(ip: string)
      requires Valid()
      modifies this
      ensures this.ip == ip && port == old(port) && bufferSize == old(bufferSize)
      ensures State() == old(State()) && log == old(log)
      ensures Valid()
    {
      this.ip := ip;
    }

    /** The `PORT` property setter (ChatClient.cs:20). */
    method SetPort(port: int)
      requires Valid()
      modifies this
      ensures this.port == port && ip == old(ip) && bufferSize == old(bufferSize)
      ensures State() == old(State()) && log == old(log)
      ensures Valid()
    {
      this.port := port;
    }

    /** The `BUFFER_SIZE` property setter (ChatClient.cs:21). */
    method SetBufferSize(bufferSize: int)
      requires Valid()
      modifies this
      ensures this.bufferSize == bufferSize && ip == old(ip) && port == old(port)
      ensures State() == old(State()) && log == old(log)
      ensures Valid()
    {
      this.bufferSize := bufferSize;
    }

    /** `CloseConnectionToServer()` (ChatClient.cs:203-212). */
    method CloseConnection()
      requires log != null
      modifies this, log
      ensures State() == CloseLink(old(State()))
      ensures ip == old(ip) && port == old(port) && bufferSize == old(bufferSize)
      ensures log == old(log)
    {
      isActive := false;
      link := Closed;
      log.Add(DisconnectedLine);
    }

    /** `Connect()` (ChatClient.cs:81-105) up to the start of the receive loop
        (lines 113-118); `ok` says whether the `TcpClient` connected. */
    method Connect(ok: bool)
      requires Valid()
      modifies this, log
      ensures State() == ConnectStep(old(State()), username, ok)
      ensures Valid()
      ensures log == old(log) && ip == old(ip) && port == old(port) && bufferSize == old(bufferSize)
    {
      ConnectKeepsInv(State(), username, ok);
      log.Add(ConnectingLine);
      if !ok {
        log.Add(RefusedLine);
        return;
      }
      link := Open;
      sent := [username];
      log.Add(ConnectedLine);
      log.Add(HintLine);
      isActive := true;
      receiving := true;
    }

    /** One iteration of the receive loop (ChatClient.cs:124-160) given what
        `ReadLine` yielded; `running` is false once the loop has ended. */
    method Receive(r: ReadResult) returns (running: bool)
      requires Valid() && receiving
      modifies this, log
      ensures (State(), running) == ReadStep(old(State()), r)
      ensures ip == old(ip) && port == old(port) && bufferSize == old(bufferSize)
      ensures Valid() && log == old(log)
    {
      ReadKeepsInv(State(), r);
      var effective := if link == Open then r else ReadError;
      match effective {
        case ReadError =>
          if !disconnecting {
            log.Add(LostLine);
            CloseConnection();
          }
          running := false;
        case EndOfStream =>
          running := true;
        case Line(text) =>
          if text == ShutdownSentinel {
            sent := sent + [LeaveSentinel];
            log.Add(ServerClosedLine);
            if !disconnecting {
              CloseConnection();
            }
            running := false;
          } else {
            if text != "" {
              log.Add(text);
            }
            running := true;
          }
      }
      if !running {
        isActive := false;
        receiving := false;
        link := Closed;
      }
    }

    /** `SendMessage(message)` (ChatClient.cs:180-198); false when the write
        threw for want of an open connection. */
    method SendMessage(message: string) returns (ok: bool)
      requires Valid()
      modifies this, log
      ensures (State(), ok) == SendStep(old(State()), message)
      ensures ip == old(ip) && port == old(port) && bufferSize == old(bufferSize)
      ensures Valid() && log == old(log)
    {
      SendKeepsInv(State(), message);
      if link != Open {
        return false;
      }
      sent := sent + [message];
      if message == LeaveSentinel {
        disconnecting := true;
        CloseConnection();
        disconnecting := false;
      } else {
        log.Add("You: " + message);
      }
      return true;
    }
  }
}
