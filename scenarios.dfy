/** Whole conversations: each lemma starts a fresh server or client, drives
    it through a sequence of events and states what every party has seen.
    The classes of chat_server.dfy and chat_client.dfy perform exactly these
    steps, so the same holds for them. */
module Scenarios {
  import opened Protocol
  import opened Lists
  import opened ServerModel
  import opened ServerProperties
  import ClientModel
  import Settings

  /** The lines the conversations below exchange, spelled out. */
  lemma JoinLine()
    ensures Prefixed("Bob", JoinedText("Bob")) == "Bob: Bob joined the chat!"
  {
  }

  lemma ChatLine()
    ensures Prefixed("Alice", "hi") == "Alice: hi"
  {
  }

  lemma LeaveLine()
    ensures Prefixed("Bob", LeftText("Bob")) == "Bob: Bob left the chat!"
  {
  }

  /** Two one-line lists make a two-line list. */
  lemma Pair<T>(a: T, b: T)
    ensures [a] + [b] == [a, b]
  {
  }

  /** A server listening on a free port. */
  function Listening(display: seq<string>): ServerState
  {
    ListenStep(Initial(display), 8000, true)
  }

  /** The server after Alice and then Bob have connected. */
  function BothJoined(display: seq<string>, alice: Peer, bob: Peer): ServerState
  {
    var s1 := AcceptStep(Listening(display), Line("Alice"), alice).0;
    AcceptStep(s1, Line("Bob"), bob).0
  }

  /** Alice connects to a listening server: she is its only client and has
      been sent nothing. */
  lemma {:induction false} AliceJoins(display: seq<string>, alice: Peer)
    requires alice.username == "Alice"
    ensures var s := AcceptStep(Listening(display), Line("Alice"), alice).0;
      && Inv(s) && s.acceptArmed && s.isServerActive && s.broken == {}
      && s.clients == [alice] && Written(s.outbox, alice) == []
      && s.closed == {}
  {
    AcceptRegisters(Listening(display), Line("Alice"), alice);
  }

  /** Alice, then Bob: both are registered in that order, and only Alice
      hears Bob arrive. */
  lemma {:induction false} AliceThenBob(display: seq<string>, alice: Peer, bob: Peer)
    requires alice != bob && alice.username == "Alice" && bob.username == "Bob"
    ensures var s := BothJoined(display, alice, bob);
      && Inv(s) && s.broken == {}
      && s.clients == [alice, bob]
      && Written(s.outbox, alice) == ["Bob: Bob joined the chat!"]
      && Written(s.outbox, bob) == []
  {
    AliceJoins(display, alice);
    var s1 := AcceptStep(Listening(display), Line("Alice"), alice).0;
    assert bob !in s1.outbox by {
      assert s1.outbox.Keys == {alice};
    }
    AcceptRegisters(s1, Line("Bob"), bob);
    JoinLine();
  }

  /** Alice says "hi" after both have joined: Bob hears it, Alice does not. */
  lemma {:induction false} AliceSaysHi(display: seq<string>, alice: Peer, bob: Peer)
    requires alice != bob && alice.username == "Alice" && bob.username == "Bob"
    ensures var s := ServerModel.ReadStep(BothJoined(display, alice, bob), alice, Line("hi")).0;
      && ServerModel.Inv(s) && s.broken == {}
      && s.clients == [alice, bob]
      && Written(s.outbox, alice) == ["Bob: Bob joined the chat!"]
      && Written(s.outbox, bob) == ["Alice: hi"]
  {
    var s2 := BothJoined(display, alice, bob);
    AliceThenBob(display, alice, bob);
    ChatLineRelayed(s2, alice, "hi");
    ServerProperties.ReadStepKeepsInv(s2, alice, Line("hi"));
    ChatLine();
  }

  /** Alice joins, Bob joins, Alice says "hi", Bob types "exit": Bob has
      heard "hi" from Alice, Alice has heard Bob arrive and leave, and only
      Alice is left registered. */
  lemma {:induction false} AliceAndBob(display: seq<string>, alice: Peer, bob: Peer)
    requires alice != bob && alice.username == "Alice" && bob.username == "Bob"
    ensures var s3 := ServerModel.ReadStep(BothJoined(display, alice, bob), alice, Line("hi")).0;
      var s4 := ServerModel.ReadStep(s3, bob, Line("exit")).0;
      && Written(s4.outbox, alice) == ["Bob: Bob joined the chat!", "Bob: Bob left the chat!"]
      && Written(s4.outbox, bob) == ["Alice: hi"]
      && s4.clients == [alice]
  {
    AliceSaysHi(display, alice, bob);
    var s3 := ServerModel.ReadStep(BothJoined(display, alice, bob), alice, Line("hi")).0;
    assert Line("exit") == Line(LeaveSentinel);
    ExitLeavesChat(s3, bob);
    var s4 := ServerModel.ReadStep(s3, bob, Line("exit")).0;
    assert Without([alice, bob], bob) == [alice];
    LeaveLine();
    assert s4.clients == [alice];
    assert Written(s4.outbox, bob) == ["Alice: hi"];
    Pair("Bob: Bob joined the chat!", "Bob: Bob left the chat!");
  }

  /** The operator types "exit" while Alice is the only client: Alice is sent
      the shutdown sentinel, and once her client answers "exit" the list is
      empty, the listener is stopped and the server is inactive. */
  lemma {:induction false} DrainWithOneClient(display: seq<string>, alice: Peer)
    requires alice.username == "Alice"
    ensures var s1 := AcceptStep(Listening(display), Line("Alice"), alice).0;
      var s2 := ServerModel.SendStep(s1, LeaveSentinel).0;
      var s3 := ServerModel.ReadStep(s2, alice, Line(LeaveSentinel)).0;
      && Written(s3.outbox, alice) == ["Server: exit"]
      && s3.clients == [] && !s3.isServerActive && !s3.hasListener
  {
    AliceJoins(display, alice);
    var s1 := AcceptStep(Listening(display), Line("Alice"), alice).0;
    SendReachesEveryone(s1, LeaveSentinel);
    ServerProperties.SendKeepsInv(s1, LeaveSentinel);
    var s2 := ServerModel.SendStep(s1, LeaveSentinel).0;
    assert s2.clients == [alice] && s2.disconnecting && s2.hasListener && s2.broken == {};
    ExitLeavesChat(s2, alice);
    ServerLineIsShutdown(LeaveSentinel);
    assert DrainsAfter(s2, alice);
    assert Without([alice], alice) == [];
  }

  /** The window accepts the port text "70000", but no `TcpListener` can be
      made for it: the server started with it is active, has no listener, and
      `CloseConnections()` throws. */
  lemma {:induction false} PortAboveRange(display: seq<string>)
    ensures Settings.IsValidPort("70000")
    ensures var s := ListenStep(Initial(display), Settings.DecimalValue("70000"), true);
      s.isServerActive && !s.hasListener && !CloseStep(s).1
  {
    var t := "70000";
    assert t[..1][..0] == [] && t[..2][..1] == t[..1] && t[..3][..2] == t[..2];
    assert t[..4][..3] == t[..3] && t[..5][..4] == t[..4] && t[..5] == t;
    assert Settings.DecimalValue(t[..1]) == 7;
    assert Settings.DecimalValue(t[..2]) == 70;
    assert Settings.DecimalValue(t[..3]) == 700;
    assert Settings.DecimalValue(t[..4]) == 7000;
    assert Settings.DecimalValue(t[..5]) == 70000;
    OutOfRangePortCannotClose(display, 70000, true);
  }

  /** The client after connecting as Carol. */
  function Connected(): ClientModel.ClientState
  {
    ClientModel.ConnectStep(ClientModel.Fresh([]), "Carol", true)
  }

  /** Carol connects, hears "hi" from Alice and then the shutdown sentinel:
      she has written her name and one "exit", her loop has ended, and her
      window shows the whole session in order. */
  lemma {:induction false} CarolSession()
    ensures var (c2, running1) := ClientModel.ReadStep(Connected(), Line("Alice: hi"));
      var (c3, running2) := ClientModel.ReadStep(c2, Line(ShutdownSentinel));
      && running1 && !running2
      && c3.sent == ["Carol", "exit"]
      && c3.display == ["Connecting..", "Connected!", "Type `exit` to disconnect.",
                        "Alice: hi", "Server has closed the connection.", "Disconnected."]
  {
    ClientModel.ConnectHandshake(ClientModel.Fresh([]), "Carol");
    var c1 := Connected();
    assert "Alice: hi" != ShutdownSentinel by { assert "Alice: hi"[0] != ShutdownSentinel[0]; }
    ClientModel.OtherLinesDisplayed(c1, "Alice: hi");
    var c2 := ClientModel.ReadStep(c1, Line("Alice: hi")).0;
    assert ClientModel.Inv(c2) && c2.link == ClientModel.Open;
    ClientModel.ShutdownAcknowledged(c2);
  }
}
