/** `ChatServer` (ChatServer.cs) as an object whose methods update its fields
    in place. Each method is proved to perform the matching step function of
    `ServerModel` on `State()`, and the public ones to keep the registry
    invariant `ServerModel.Inv`. */
module ChatServer {
  import opened Protocol
  import opened Lists
  import opened ServerModel
  import opened ServerProperties
  import Display

  class Server {
    var port: int
    var bufferSize: int
    var clients: seq<Peer>
    var outbox: map<Peer, seq<string>>
    var closed: set<Peer>
    var broken: set<Peer>
    var receiving: set<Peer>
    var isServerActive: bool
    var disconnecting: bool
    var acceptArmed: bool
    var hasListener: bool
    /** The window's chat list, reached through the `AddMessage` callback. */
    const log: Display.Log

    /** The fields as one `ServerState` value. */
    function State(): ServerState
      reads this, log
    {
      ServerState(clients, outbox, closed, broken, receiving,
                  isServerActive, disconnecting, acceptArmed, hasListener, log.lines)
    }

    ghost predicate Valid()
      reads this, log
    {
      Inv(State())
    }

    /** ChatServer.cs:40-50: inactive, no clients, not disconnecting, no listener. */
    constructor (port: int, bufferSize: int, log: Display.Log)
      ensures this.port == port && this.bufferSize == bufferSize && this.log == log
      ensures State() == Initial(log.lines)
      ensures Valid()
    {
      this.port := port;
      this.bufferSize := bufferSize;
      this.log := log;
      clients := [];
      outbox := map[];
      closed := {};
      broken := {};
      receiving := {};
      isServerActive := false;
      disconnecting := false;
      acceptArmed := false;
      hasListener := false;
    }

    /** The `PORT` property setter (ChatServer.cs:17): the registry is untouched. */
    method SetPort(port: int)
      requires Valid()
      modifies this
      ensures this.port == port && bufferSize == old(bufferSize)
      ensures State() == old(State())
      ensures Valid()
    {
      this.port := port;
    }

    /** The `BUFFER_SIZE` property setter (ChatServer.cs:18). */
    method SetBufferSize(bufferSize: int)
      requires Valid()
      modifies this
      ensures this.bufferSize == bufferSize && port == old(port)
      ensures State() == old(State())
      ensures Valid()
    {
      this.bufferSize := bufferSize;
    }

    /** `ListenForClients()` (ChatServer.cs:55-71) on `port`; `bindOk` says
        whether `Listener.Start()` managed to bind it. */
    method Listen(bindOk: bool)
      requires Valid()
      modifies this, log
      ensures State() == ListenStep(old(State()), port, bindOk)
      ensures Valid() && port == old(port) && bufferSize == old(bufferSize)
    {
      isServerActive := true;
      if !PortInRange(port) {
        // `new TcpListener(IPAddress.Any, PORT)` throws
        log.Add(BindFailedLine);
      } else {
        hasListener := true;
        if bindOk {
          acceptArmed := true;
        } else {
          log.Add(BindFailedLine);
        }
      }
      ListenKeepsInv(old(State()), port, bindOk);
    }

    /** The `foreach` that writes `line` to each connection of `rs` in turn;
        false when a write threw, which leaves the rest unwritten. */
    method WriteToEach(rs: seq<Peer>, line: string) returns (ok: bool)
      modifies this
      ensures (outbox, ok) == WriteAll(old(outbox), broken, rs, line)
      ensures State() == old(State()).(outbox := outbox)
      ensures port == old(port) && bufferSize == old(bufferSize)
    {
      var i := 0;
      while i < |rs|
        invariant 0 <= i <= |rs|
        invariant WriteAll(outbox, broken, rs[i..], line) == WriteAll(old(outbox), broken, rs, line)
        invariant State() == old(State()).(outbox := outbox)
        invariant port == old(port) && bufferSize == old(bufferSize)
      {
        if rs[i] in broken {
          return false;
        }
        outbox := outbox[rs[i] := Written(outbox, rs[i]) + [line]];
        assert rs[i..][1..] == rs[i + 1..];
        i := i + 1;
      }
      return true;
    }

    /** `SendMessageToAllClients(message, sender)` (ChatServer.cs:193-205). */
    method Relay(message: string, sender: Peer) returns (ok: bool)
      modifies this, log
      ensures (State(), ok) == RelayStep(old(State()), message, sender)
      ensures port == old(port) && bufferSize == old(bufferSize)
    {
      var line := Prefixed(sender.username, message);
      ok := WriteToEach(Without(clients, sender), line);
      if ok {
        log.Add(line);
      }
    }

    /** `SendMessage(message)` (ChatServer.cs:211-231). */
    method SendMessage(message: string) returns (ok: bool)
      requires Valid()
      modifies this, log
      ensures (State(), ok) == SendStep(old(State()), message)
      ensures Valid()
      ensures port == old(port) && bufferSize == old(bufferSize)
    {
      ok := SendUnchecked(message);
      SendKeepsInv(old(State()), message);
    }

    method SendUnchecked(message: string) returns (ok: bool)
      modifies this, log
      ensures (State(), ok) == SendStep(old(State()), message)
      ensures port == old(port) && bufferSize == old(bufferSize)
    {
      ok := WriteToEach(clients, ServerLine(message));
      if !ok {
        return;
      }
      if message != LeaveSentinel {
        log.Add("You: " + message);
      } else {
        log.Add(DisconnectingLine);
        disconnecting := true;
      }
    }

    /** `CloseConnections()` (ChatServer.cs:246-258). */
    method CloseConnections() returns (ok: bool)
      requires Valid()
      modifies this, log
      ensures (State(), ok) == CloseStep(old(State()))
      ensures Valid()
      ensures port == old(port) && bufferSize == old(bufferSize)
    {
      ok := CloseUnchecked();
      CloseKeepsInv(old(State()));
    }

    method CloseUnchecked() returns (ok: bool)
      modifies this, log
      ensures (State(), ok) == CloseStep(old(State()))
      ensures port == old(port) && bufferSize == old(bufferSize)
    {
      isServerActive := false;
      disconnecting := false;
      ok := SendUnchecked(LeaveSentinel);
      if ok {
        ok := FinishClose();
      }
    }

    /** The closing line and `Listener.Stop()`; false when the listener is
        missing and `Stop()` throws. */
    method FinishClose() returns (ok: bool)
      modifies this, log
      ensures (State(), ok) == StopListening(old(State()))
      ensures port == old(port) && bufferSize == old(bufferSize)
    {
      log.Add(ClosedLine);
      if !hasListener {
        // `Listener.Stop()` on a null listener throws
        return false;
      }
      hasListener := false;
      acceptArmed := false;
      clients := [];
      ok := true;
    }

    /** `clients.Remove(c)` then `CloseConnectionToClient(c)`. */
    method Unregister(c: Peer)
      modifies this
      ensures State() == Retire(old(State()), c)
      ensures port == old(port) && bufferSize == old(bufferSize)
    {
      clients := RemoveFirst(clients, c);
      closed := closed + {c};
    }

    /** The end of `c`'s receive loop: its `using` blocks dispose the connection. */
    method StopReceiving(c: Peer)
      modifies this
      ensures State() == EndLoop(old(State()), c)
      ensures port == old(port) && bufferSize == old(bufferSize)
    {
      receiving := receiving - {c};
      closed := closed + {c};
    }

    /** The `catch` of the receive loop (ChatServer.cs:162-173). */
    method Drop(c: Peer) returns (o: Outcome)
      modifies this, log
      ensures (State(), o) == DropStep(old(State()), c)
      ensures port == old(port) && bufferSize == old(bufferSize)
    {
      if c !in clients {
        // `clients.First` finds nothing and throws
        StopReceiving(c);
        return Aborted;
      }
      Unregister(c);
      var ok := Relay(DroppedText(c.username), c);
      if !ok {
        StopReceiving(c);
        return Aborted;
      }
      o := Dropped;
      if |clients| < 1 && disconnecting {
        var closedOk := CloseUnchecked();
        if !closedOk {
          o := Aborted;
        }
      }
      StopReceiving(c);
    }

    /** After the receive loop's `break` (ChatServer.cs:154-160). */
    method Leave(c: Peer) returns (o: Outcome)
      modifies this, log
      ensures (State(), o) == LeaveStep(old(State()), c)
      ensures port == old(port) && bufferSize == old(bufferSize)
    {
      if c !in clients {
        o := Drop(c);
        return;
      }
      Unregister(c);
      if |clients| < 1 && disconnecting {
        var ok := CloseUnchecked();
        if !ok {
          o := Drop(c);
          return;
        }
      }
      StopReceiving(c);
      o := Left;
    }

    /** One iteration of the receive loop of `c` (ChatServer.cs:136-151), given
        what its `ReadLine` yielded. */
    method OnRead(c: Peer, r: ReadResult) returns (o: Outcome)
      requires Valid() && c in receiving
      modifies this, log
      ensures (State(), o) == ReadStep(old(State()), c, r)
      ensures port == old(port) && bufferSize == old(bufferSize)
      ensures Valid()
    {
      ReadStepKeepsInv(State(), c, r);
      match r
      case ReadError =>
        o := Drop(c);
      case EndOfStream =>
        o := Running;
      case Line(text) =>
        if text == LeaveSentinel {
          var ok := Relay(LeftText(c.username), c);
          if ok {
            o := Leave(c);
          } else {
            o := Drop(c);
          }
        } else if text == "" {
          o := Running;
        } else {
          var ok := Relay(text, c);
          if ok {
            o := Running;
          } else {
            o := Drop(c);
          }
        }
    }

    /** `OnAcceptTcpClient` (ChatServer.cs:77-106) for the outstanding accept,
        where `h` is what the first `ReadLine` on the new connection yielded.
        `p` is the `ChatClient` created for it, null when none was. */
    method OnAccept(h: ReadResult) returns (p: Peer?, o: Outcome)
      requires Valid() && acceptArmed
      modifies this, log
      ensures p == null <==> !old(isServerActive) || h.ReadError?
      ensures port == old(port) && bufferSize == old(bufferSize)
      ensures p == null ==> o == NotRegistered && State() == old(State()).(acceptArmed := false)
      ensures p != null ==> fresh(p) && p.username == HandshakeName(h)
                            && (State(), o) == AcceptStep(old(State()), h, p)
      ensures Valid()
    {
      acceptArmed := false;
      if !isServerActive || h.ReadError? {
        return null, NotRegistered;
      }
      var q := new Peer(HandshakeName(h));
      p := q;
      AcceptStepKeepsInv(old(State()), h, q);
      Register(q);
      ghost var registered := State();
      var ok := Relay(JoinedText(q.username), q);
      ghost var announced := State();
      if ok {
        o := Running;
      } else {
        o := Drop(q);
        assert (State(), o) == DropStep(announced, q);
      }
      assert (announced, ok) == RelayStep(registered, JoinedText(q.username), q);
    }

    /** Re-arms the accept and adds `q` to the list (ChatServer.cs:93-94); its
        receive loop starts with nothing written to it. */
    method Register(q: Peer)
      modifies this
      ensures port == old(port) && bufferSize == old(bufferSize)
      ensures State() == old(State()).(acceptArmed := true, clients := old(clients) + [q],
                                       outbox := old(outbox)[q := []], receiving := old(receiving) + {q})
    {
      acceptArmed := true;
      clients := clients + [q];
      outbox := outbox[q := []];
      receiving := receiving + {q};
    }

    /** The remote end of `p`'s connection goes away: from now on every write
        to it throws. Not a method of `ChatServer`; this is the network. */
    method Break(p: Peer)
      requires Valid()
      modifies this
      ensures State() == old(State()).(broken := old(broken) + {p})
      ensures port == old(port) && bufferSize == old(bufferSize)
      ensures Valid()
    {
      broken := broken + {p};
    }
  }
}
