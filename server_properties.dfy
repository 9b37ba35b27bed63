/** What the steps of ServerModel guarantee: delivery of relayed lines, the
    removal of a leaving or failing client, the drain, and the registry
    invariant. */
module ServerProperties {
  import opened Protocol
  import opened Lists
  import opened ServerModel

  /** No registered client other than `sender` has a broken connection. */
  ghost predicate OthersWritable(s: ServerState, sender: Peer)
  {
    forall p :: p in s.clients && p != sender ==> p !in s.broken
  }

  // ----- the write loop -----

  /** When no recipient is broken, each of `rs` gets `line` exactly once and
      no other connection gets anything. */
  lemma {:induction false} WriteAllDelivers(outbox: map<Peer, seq<string>>, broken: set<Peer>, rs: seq<Peer>, line: string)
    requires Distinct(rs)
    requires forall i :: 0 <= i < |rs| ==> rs[i] !in broken
    ensures WriteAll(outbox, broken, rs, line).1
    ensures forall p :: Written(WriteAll(outbox, broken, rs, line).0, p) ==
                        if p in rs then Written(outbox, p) + [line] else Written(outbox, p)
    decreases |rs|
  {
    if rs != [] {
      var next := outbox[rs[0] := Written(outbox, rs[0]) + [line]];
      assert Distinct(rs[1..]) by {
        forall i, j | 0 <= i < j < |rs[1..]| ensures rs[1..][i] != rs[1..][j] {
          assert rs[1..][i] == rs[i + 1] && rs[1..][j] == rs[j + 1];
        }
      }
      assert forall i :: 0 <= i < |rs[1..]| ==> rs[1..][i] == rs[i + 1];
      WriteAllDelivers(next, broken, rs[1..], line);
      forall p ensures Written(WriteAll(outbox, broken, rs, line).0, p) ==
                       if p in rs then Written(outbox, p) + [line] else Written(outbox, p) {
        assert p in rs <==> p == rs[0] || p in rs[1..];
        if p == rs[0] {
          assert p !in rs[1..] by {
            forall j | 0 <= j < |rs[1..]| ensures rs[1..][j] != p { assert rs[1..][j] == rs[j + 1]; }
          }
        }
      }
    }
  }

  /** Whatever happens, a connection gets the line at most once, and only if
      it is a recipient whose connection is not broken. */
  lemma {:induction false} WriteAllAtMostOnce(outbox: map<Peer, seq<string>>, broken: set<Peer>, rs: seq<Peer>, line: string)
    requires Distinct(rs)
    ensures forall p :: var w := Written(WriteAll(outbox, broken, rs, line).0, p);
              w == Written(outbox, p) || (p in rs && p !in broken && w == Written(outbox, p) + [line])
    decreases |rs|
  {
    if rs != [] && rs[0] !in broken {
      var next := outbox[rs[0] := Written(outbox, rs[0]) + [line]];
      assert Distinct(rs[1..]) by {
        forall i, j | 0 <= i < j < |rs[1..]| ensures rs[1..][i] != rs[1..][j] {
          assert rs[1..][i] == rs[i + 1] && rs[1..][j] == rs[j + 1];
        }
      }
      WriteAllAtMostOnce(next, broken, rs[1..], line);
      forall p ensures var w := Written(WriteAll(outbox, broken, rs, line).0, p);
                  w == Written(outbox, p) || (p in rs && p !in broken && w == Written(outbox, p) + [line]) {
        if p == rs[0] {
          assert p !in rs[1..] by {
            forall j | 0 <= j < |rs[1..]| ensures rs[1..][j] != p { assert rs[1..][j] == rs[j + 1]; }
          }
        } else {
          assert p in rs[1..] ==> p in rs;
        }
      }
    }
  }

  // ----- SendMessageToAllClients -----

  /** `SendMessageToAllClients(m, sender)` with no broken recipient: every
      registered client except the sender gets `"<sender>: m"` exactly once,
      the sender and unregistered connections get nothing, the display gets
      the same line, and nothing else changes. */
  lemma RelayReachesOthers(s: ServerState, m: string, sender: Peer)
    requires Distinct(s.clients) && OthersWritable(s, sender)
    ensures var (t, ok) := RelayStep(s, m, sender);
      && ok
      && t == s.(outbox := t.outbox, display := s.display + [Prefixed(sender.username, m)])
      && forall p :: Written(t.outbox, p) ==
           if p in s.clients && p != sender then Written(s.outbox, p) + [Prefixed(sender.username, m)]
           else Written(s.outbox, p)
  {
    var rs := Without(s.clients, sender);
    WithoutKeepsDistinct(s.clients, sender);
    forall i | 0 <= i < |rs| ensures rs[i] !in s.broken {
      WithoutMembers(s.clients, sender, rs[i]);
    }
    WriteAllDelivers(s.outbox, s.broken, rs, Prefixed(sender.username, m));
    forall p ensures p in rs <==> p in s.clients && p != sender {
      WithoutMembers(s.clients, sender, p);
    }
  }

  /** A write failure during `SendMessageToAllClients`: the display gets
      nothing, each connection gets the line at most once, and a broken one
      none at all. */
  lemma RelayFailureIsSilent(s: ServerState, m: string, sender: Peer)
    requires Distinct(s.clients) && !OthersWritable(s, sender)
    ensures var (t, ok) := RelayStep(s, m, sender);
      && !ok
      && t == s.(outbox := t.outbox)
      && forall p :: Written(t.outbox, p) == Written(s.outbox, p) ||
           (p in s.clients && p != sender && p !in s.broken && Written(t.outbox, p) == Written(s.outbox, p) + [Prefixed(sender.username, m)])
  {
    var rs := Without(s.clients, sender);
    WithoutKeepsDistinct(s.clients, sender);
    var q :| q in s.clients && q != sender && q in s.broken;
    WithoutMembers(s.clients, sender, q);
    var i :| 0 <= i < |rs| && rs[i] == q;
    WriteAllAtMostOnce(s.outbox, s.broken, rs, Prefixed(sender.username, m));
    forall p | p in rs ensures p in s.clients && p != sender {
      WithoutMembers(s.clients, sender, p);
    }
  }

  // ----- SendMessage and CloseConnections -----

  /** `SendMessage(m)` with no broken client: every registered client gets
      `"Server: m"` exactly once, with no exclusion; "exit" sets
      `disconnecting` and shows "Disconnecting...", anything else shows
      `"You: m"`. */
  lemma SendReachesEveryone(s: ServerState, m: string)
    requires Distinct(s.clients)
    requires forall p :: p in s.clients ==> p !in s.broken
    ensures var (t, ok) := SendStep(s, m);
      && ok
      && t.clients == s.clients
      && t.disconnecting == (s.disconnecting || m == LeaveSentinel)
      && t.display == s.display + [if m == LeaveSentinel then DisconnectingLine else "You: " + m]
      && t == s.(outbox := t.outbox, display := t.display, disconnecting := t.disconnecting)
      && forall p :: Written(t.outbox, p) ==
           if p in s.clients then Written(s.outbox, p) + [ServerLine(m)] else Written(s.outbox, p)
  {
    WriteAllDelivers(s.outbox, s.broken, s.clients, ServerLine(m));
    assert SendStep(s, m).0.outbox == WriteAll(s.outbox, s.broken, s.clients, ServerLine(m)).0;
  }

  /** `CloseConnections()` with no broken client and a listener: every client
      registered at the call gets "Server: exit"; afterwards the server is
      inactive, the list is empty, nothing is being accepted, and
      `disconnecting` is true, because `SendMessage("exit")` sets it again
      after line 250 cleared it. */
  lemma CloseDrains(s: ServerState)
    requires Distinct(s.clients) && s.hasListener
    requires forall p :: p in s.clients ==> p !in s.broken
    ensures var (t, ok) := CloseStep(s);
      && ok
      && t.clients == []
      && !t.isServerActive && t.disconnecting
      && !t.hasListener && !t.acceptArmed
      && t.display == s.display + [DisconnectingLine, ClosedLine]
      && t.receiving == s.receiving && t.closed == s.closed
      && forall p :: Written(t.outbox, p) ==
           if p in s.clients then Written(s.outbox, p) + [ShutdownSentinel] else Written(s.outbox, p)
  {
    var s0 := s.(isServerActive := false, disconnecting := false);
    SendReachesEveryone(s0, LeaveSentinel);
    ServerLineIsShutdown(LeaveSentinel);
    assert CloseStep(s).0.outbox == SendStep(s0, LeaveSentinel).0.outbox;
  }

  /** `CloseConnections()` when `Listener` is null throws at line 255, after
      the goodbye was sent but before the list is replaced. */
  lemma CloseWithoutListenerThrows(s: ServerState)
    requires Distinct(s.clients) && !s.hasListener
    requires forall p :: p in s.clients ==> p !in s.broken
    ensures var (t, ok) := CloseStep(s);
      !ok && t.clients == s.clients && !t.isServerActive && t.disconnecting
  {
    SendReachesEveryone(s.(isServerActive := false, disconnecting := false), LeaveSentinel);
  }

  /** `SendMessageToAllClients` never writes to its sender, whatever fails. */
  lemma RelaySkipsSender(s: ServerState, m: string, sender: Peer)
    requires Distinct(s.clients)
    ensures var (t, ok) := RelayStep(s, m, sender);
      && Written(t.outbox, sender) == Written(s.outbox, sender)
      && t == s.(outbox := t.outbox, display := t.display)
  {
    WithoutKeepsDistinct(s.clients, sender);
    WithoutMembers(s.clients, sender, sender);
    WriteAllAtMostOnce(s.outbox, s.broken, Without(s.clients, sender), Prefixed(sender.username, m));
  }

  // ----- the receive loop -----

  /** An empty line and the end of the stream (a null line) both leave the
      state alone and keep the loop running. */
  lemma BlankLinesIgnored(s: ServerState, c: Peer)
    ensures ReadStep(s, c, Line("")) == (s, Running)
    ensures ReadStep(s, c, EndOfStream) == (s, Running)
  {
  }

  /** Any other line that is not "exit" is relayed as `"<name>: <line>"` to
      every other client and to the display, and the loop goes on. */
  lemma ChatLineRelayed(s: ServerState, c: Peer, text: string)
    requires Inv(s) && OthersWritable(s, c)
    requires text != "" && text != LeaveSentinel
    ensures var (t, o) := ReadStep(s, c, Line(text));
      && o == Running
      && t == s.(outbox := t.outbox, display := s.display + [Prefixed(c.username, text)])
      && forall p :: Written(t.outbox, p) ==
           if p in s.clients && p != c then Written(s.outbox, p) + [Prefixed(c.username, text)]
           else Written(s.outbox, p)
  {
    RelayReachesOthers(s, text, c);
  }

  /** "exit" typed at a server without clients only marks the drain as
      requested: nothing is closed, and since no receive loop is left to
      notice that the list is empty, nothing ever will be. */
  lemma DrainWithoutClientsWaits(s: ServerState)
    requires s.clients == []
    ensures var (t, ok) := SendStep(s, LeaveSentinel);
      && ok && t.disconnecting
      && t == s.(disconnecting := true, display := s.display + [DisconnectingLine])
  {
  }

  /** Whether removing `c` leaves the list empty while a drain is pending,
      which makes the receive loop call `CloseConnections()`. */
  ghost predicate DrainsAfter(s: ServerState, c: Peer)
  {
    |s.clients| == 1 && s.disconnecting
  }

  /** The lines the drain adds to the display. */
  function DrainLines(drains: bool): seq<string>
  {
    if drains then [DisconnectingLine, ClosedLine] else []
  }

  /** What removing `c` at the end of its receive loop leaves behind: `c` is
      out of the list, closed and no longer receiving, the others are in
      their old order, and the flags show whether the drain ran. */
  ghost predicate RemovedFrom(s: ServerState, c: Peer, t: ServerState)
  {
    && t.clients == Without(s.clients, c)
    && c in t.closed && c !in t.receiving
    && t.receiving == s.receiving - {c} && t.broken == s.broken
    && (if DrainsAfter(s, c) then !t.isServerActive && t.disconnecting && !t.hasListener && !t.acceptArmed
        else t.isServerActive == s.isServerActive && t.disconnecting == s.disconnecting &&
             t.hasListener == s.hasListener && t.acceptArmed == s.acceptArmed)
  }

  /** Removing `c` keeps the registry invariant. */
  lemma RemovalKeepsInv(s: ServerState, c: Peer, t: ServerState)
    requires Inv(s) && RemovedFrom(s, c, t) && s.outbox.Keys <= t.outbox.Keys
    requires s.closed <= t.closed <= s.closed + {c}
    ensures Inv(t)
  {
    WithoutKeepsDistinct(s.clients, c);
    forall p | p in t.clients ensures p in t.receiving {
      WithoutMembers(s.clients, c, p);
    }
  }

  /** Lines 154-160 for a registered client: `c` is removed and closed, and
      `CloseConnections()` runs exactly when the list is then empty and a
      drain was requested; nobody is written to, since the list is empty
      whenever the drain writes. */
  lemma LeaveStepRemoves(s: ServerState, c: Peer)
    requires Inv(s) && c in s.clients
    ensures var (t, o) := LeaveStep(s, c);
      && RemovedFrom(s, c, t)
      && t.outbox == s.outbox
      && t.display == s.display + DrainLines(DrainsAfter(s, c))
      && o == (if DrainsAfter(s, c) && !s.hasListener then Aborted else Left)
      && Inv(t)
  {
    RemoveFirstIsWithout(s.clients, c);
    var s1 := Retire(s, c);
    var t;
    if DrainsAfter(s, c) {
      assert s1.clients == [];
      CloseWithoutClients(s1);
      var (s2, ok) := CloseStep(s1);
      if ok {
        t := EndLoop(s2, c);
      } else {
        assert c !in s2.clients;
        t := EndLoop(s2, c);
        assert DropStep(s2, c) == (t, Aborted);
      }
    } else {
      t := EndLoop(s1, c);
    }
    assert LeaveStep(s, c).0 == t;
    RemovalKeepsInv(s, c, t);
  }

  /** Lines 165-168 for a registered client whose peers are all writable: it
      is removed and closed before `"<name>: <name> disconnected
      unexpectedly!"` goes to the others, so it gets no copy. */
  lemma DropAnnounces(s: ServerState, c: Peer)
    requires Inv(s) && c in s.clients && OthersWritable(s, c)
    ensures var (t, ok) := RelayStep(Retire(s, c), DroppedText(c.username), c);
      var line := Prefixed(c.username, DroppedText(c.username));
      && ok
      && t == Retire(s, c).(outbox := t.outbox, display := s.display + [line])
      && t.clients == Without(s.clients, c)
      && (forall p :: Written(t.outbox, p) ==
            if p in s.clients && p != c then Written(s.outbox, p) + [line] else Written(s.outbox, p))
  {
    RemoveFirstIsWithout(s.clients, c);
    var s1 := Retire(s, c);
    WithoutAbsent(s1.clients, c);
    forall p ensures p in s1.clients <==> p in s.clients && p != c {
      WithoutMembers(s.clients, c, p);
    }
    RelayReachesOthers(s1, DroppedText(c.username), c);
  }

  /** `CloseConnections()` once the list is empty writes nothing: it shows
      the two drain lines, and either stops the listener or, without one,
      throws right after the second line. */
  lemma CloseWithoutClients(s: ServerState)
    requires s.clients == []
    ensures var (t, ok) := CloseStep(s);
      var u := s.(isServerActive := false, disconnecting := true,
                  display := s.display + DrainLines(true));
      && ok == s.hasListener
      && t == if ok then u.(hasListener := false, acceptArmed := false) else u
  {
  }

  /** Lines 165-172 for a registered client whose peers are all writable:
      `DropAnnounces`, then the drain runs as after "exit". */
  lemma DropStepRemoves(s: ServerState, c: Peer)
    requires Inv(s) && c in s.clients && OthersWritable(s, c)
    ensures var (t, o) := DropStep(s, c);
      var line := Prefixed(c.username, DroppedText(c.username));
      && RemovedFrom(s, c, t)
      && (forall p :: Written(t.outbox, p) ==
            if p in s.clients && p != c then Written(s.outbox, p) + [line] else Written(s.outbox, p))
      && t.display == s.display + [line] + DrainLines(DrainsAfter(s, c))
      && o == (if DrainsAfter(s, c) && !s.hasListener then Aborted else Dropped)
      && Inv(t)
  {
    if DrainsAfter(s, c) {
      DropThenDrain(s, c);
    } else {
      DropWithoutDrain(s, c);
    }
  }

  /** `DropStepRemoves` when the list empties during a drain. */
  lemma DropThenDrain(s: ServerState, c: Peer)
    requires Inv(s) && c in s.clients && OthersWritable(s, c) && DrainsAfter(s, c)
    ensures var (t, o) := DropStep(s, c);
      var line := Prefixed(c.username, DroppedText(c.username));
      && RemovedFrom(s, c, t)
      && (forall p :: Written(t.outbox, p) ==
            if p in s.clients && p != c then Written(s.outbox, p) + [line] else Written(s.outbox, p))
      && t.display == s.display + [line] + DrainLines(true)
      && o == (if s.hasListener then Dropped else Aborted)
      && Inv(t)
  {
    DropAnnounces(s, c);
    RemoveFirstIsWithout(s.clients, c);
    var (s2, ok) := RelayStep(Retire(s, c), DroppedText(c.username), c);
    assert s2.clients == [];
    CloseWithoutClients(s2);
    var t := EndLoop(CloseStep(s2).0, c);
    assert DropStep(s, c).0 == t;
    RemovalKeepsInv(s, c, t);
  }

  /** `DropStepRemoves` when no drain follows. */
  lemma DropWithoutDrain(s: ServerState, c: Peer)
    requires Inv(s) && c in s.clients && OthersWritable(s, c) && !DrainsAfter(s, c)
    ensures var (t, o) := DropStep(s, c);
      var line := Prefixed(c.username, DroppedText(c.username));
      && RemovedFrom(s, c, t)
      && (forall p :: Written(t.outbox, p) ==
            if p in s.clients && p != c then Written(s.outbox, p) + [line] else Written(s.outbox, p))
      && t.display == s.display + [line]
      && o == Dropped
      && Inv(t)
  {
    DropAnnounces(s, c);
    RemoveFirstIsWithout(s.clients, c);
    var (s2, ok) := RelayStep(Retire(s, c), DroppedText(c.username), c);
    var t := EndLoop(s2, c);
    assert DropStep(s, c).0 == t;
    RemovalKeepsInv(s, c, t);
  }

  /** "exit" from a registered client: the others get `"<name>: <name> left
      the chat!"` once and the client itself nothing; then exactly the client
      is removed, the others keep their order, it is closed and its loop
      ends; `CloseConnections()` runs exactly when the list is then empty and
      a drain was requested, and throws when there is no listener. */
  lemma ExitLeavesChat(s: ServerState, c: Peer)
    requires Inv(s) && c in s.clients && OthersWritable(s, c)
    ensures var (t, o) := ReadStep(s, c, Line(LeaveSentinel));
      var line := Prefixed(c.username, LeftText(c.username));
      && RemovedFrom(s, c, t)
      && (forall p :: Written(t.outbox, p) ==
            if p in s.clients && p != c then Written(s.outbox, p) + [line] else Written(s.outbox, p))
      && t.display == s.display + [line] + DrainLines(DrainsAfter(s, c))
      && o == (if DrainsAfter(s, c) && !s.hasListener then Aborted else Left)
      && Inv(t)
  {
    RelayReachesOthers(s, LeftText(c.username), c);
    var s1 := RelayStep(s, LeftText(c.username), c).0;
    LeaveStepRemoves(s1, c);
  }

  /** A read failure of a registered client ends in `DropStepRemoves`. */
  lemma FailureDropsClient(s: ServerState, c: Peer)
    requires Inv(s) && c in s.clients && OthersWritable(s, c)
    ensures var (t, o) := ReadStep(s, c, ReadError);
      && RemovedFrom(s, c, t)
      && Written(t.outbox, c) == Written(s.outbox, c)
      && (o == Dropped || o == Aborted)
      && Inv(t)
  {
    DropStepRemoves(s, c);
  }

  /** A client whose own line could not be relayed, because the write to
      another client threw, is torn down as "disconnected unexpectedly": it
      leaves the list, is closed, its loop ends and it gets nothing. The
      announcement meets the same broken connection, so the exception leaves
      the `catch` too and no drain can follow. */
  lemma WriteFailureDropsSender(s: ServerState, c: Peer, text: string)
    requires Inv(s) && c in s.clients && !OthersWritable(s, c)
    requires text != ""
    ensures var (t, o) := ReadStep(s, c, Line(text));
      && o == Aborted
      && t.clients == Without(s.clients, c)
      && c in t.closed && c !in t.receiving
      && Written(t.outbox, c) == Written(s.outbox, c)
      && t.display == s.display
  {
    var m := if text == LeaveSentinel then LeftText(c.username) else text;
    RelayFailureIsSilent(s, m, c);
    var s1 := RelayStep(s, m, c).0;
    RemoveFirstIsWithout(s.clients, c);
    var s2 := Retire(s1, c);
    var q :| q in s.clients && q != c && q in s.broken;
    WithoutMembers(s.clients, c, q);
    assert !OthersWritable(s2, c);
    RelayFailureIsSilent(s2, DroppedText(c.username), c);
    RelaySkipsSender(s2, DroppedText(c.username), c);
  }

  // ----- accepting -----

  /** The accept callback registers nobody when the server is no longer
      active or the user name could not be read; in both cases the accept
      loop is not re-armed. */
  lemma AcceptRefused(s: ServerState, h: ReadResult, p: Peer)
    requires !s.isServerActive || h.ReadError?
    ensures var (t, o) := AcceptStep(s, h, p);
      o == NotRegistered && t == s.(acceptArmed := false)
  {
  }

  /** A user name read while the server is active registers the new client
      at the end of the list, re-arms the accept loop, and tells every other
      client and the display `"<name>: <name> joined the chat!"`; the new
      client itself gets nothing. */
  lemma AcceptRegisters(s: ServerState, h: ReadResult, p: Peer)
    requires Inv(s) && s.acceptArmed && s.isServerActive && !h.ReadError?
    requires p !in s.outbox && p !in s.closed && p.username == HandshakeName(h)
    requires forall q :: q in s.clients ==> q !in s.broken
    ensures var (t, o) := AcceptStep(s, h, p);
      var line := Prefixed(HandshakeName(h), JoinedText(HandshakeName(h)));
      && o == Running
      && t.clients == s.clients + [p]
      && t.acceptArmed && p in t.receiving
      && t.display == s.display + [line]
      && (forall q :: Written(t.outbox, q) ==
            if q in s.clients then Written(s.outbox, q) + [line] else Written(s.outbox, q))
      && Inv(t)
  {
    var s1 := s.(acceptArmed := false).(acceptArmed := true, clients := s.clients + [p],
                 outbox := s.outbox[p := []], receiving := s.receiving + {p});
    assert p !in s.clients;
    assert Distinct(s1.clients);
    RelayReachesOthers(s1, JoinedText(p.username), p);
  }

  // ----- the registry invariant across every step -----

  /** `Inv` with `c` allowed to be both closed and still receiving, as it is
      between its removal and the end of its receive loop. */
  ghost predicate InvFor(s: ServerState, c: Peer)
  {
    && Distinct(s.clients)
    && (forall p :: p in s.clients ==> p in s.receiving)
    && (s.receiving - {c}) !! s.closed
    && s.receiving <= s.outbox.Keys
    && (s.acceptArmed ==> s.hasListener)
  }

  lemma RelayKeepsInvFor(s: ServerState, m: string, sender: Peer, c: Peer)
    requires InvFor(s, c)
    ensures InvFor(RelayStep(s, m, sender).0, c)
  {
  }

  lemma CloseKeepsInvFor(s: ServerState, c: Peer)
    requires InvFor(s, c)
    ensures InvFor(CloseStep(s).0, c)
  {
  }

  /** Ending `c`'s loop clears the one exception `InvFor` allows. */
  lemma EndLoopRestores(s: ServerState, c: Peer)
    requires InvFor(s, c) && c !in s.clients
    ensures Inv(EndLoop(s, c))
  {
  }

  /** The `catch` always ends with the registry invariant restored. */
  lemma DropStepKeepsInv(s: ServerState, c: Peer)
    requires InvFor(s, c)
    ensures Inv(DropStep(s, c).0)
  {
    if c !in s.clients {
      EndLoopRestores(s, c);
    } else {
      RemoveFirstIsWithout(s.clients, c);
      var s1 := Retire(s, c);
      assert InvFor(s1, c) by {
        forall p | p in s1.clients ensures p in s.clients {
          WithoutMembers(s.clients, c, p);
        }
      }
      RelayKeepsInvFor(s1, DroppedText(c.username), c, c);
      var (s2, ok) := RelayStep(s1, DroppedText(c.username), c);
      if !ok {
        EndLoopRestores(s2, c);
        assert DropStep(s, c).0 == EndLoop(s2, c);
      } else if |s2.clients| < 1 && s2.disconnecting {
        CloseKeepsInvFor(s2, c);
        var s3 := CloseStep(s2).0;
        EndLoopRestores(s3, c);
        assert DropStep(s, c).0 == EndLoop(s3, c);
      } else {
        EndLoopRestores(s2, c);
        assert DropStep(s, c).0 == EndLoop(s2, c);
      }
    }
  }

  lemma LeaveStepKeepsInv(s: ServerState, c: Peer)
    requires InvFor(s, c)
    ensures Inv(LeaveStep(s, c).0)
  {
    if c !in s.clients {
      DropStepKeepsInv(s, c);
    } else {
      RemoveFirstIsWithout(s.clients, c);
      var s1 := Retire(s, c);
      assert InvFor(s1, c) by {
        forall p | p in s1.clients ensures p in s.clients {
          WithoutMembers(s.clients, c, p);
        }
      }
      CloseKeepsInvFor(s1, c);
      DropStepKeepsInv(CloseStep(s1).0, c);
    }
  }

  /** Every iteration of a receive loop keeps the registry invariant. */
  lemma ReadStepKeepsInv(s: ServerState, c: Peer, r: ReadResult)
    requires Inv(s)
    ensures Inv(ReadStep(s, c, r).0)
  {
    match r
    case ReadError => DropStepKeepsInv(s, c);
    case EndOfStream =>
    case Line(text) =>
      var m := if text == LeaveSentinel then LeftText(c.username) else text;
      RelayKeepsInvFor(s, m, c, c);
      RelayKeepsInv(s, m, c);
      var s1 := RelayStep(s, m, c).0;
      DropStepKeepsInv(s1, c);
      if text == LeaveSentinel {
        LeaveStepKeepsInv(s1, c);
      }
  }

  /** The accept callback keeps the registry invariant for a new client object. */
  lemma AcceptStepKeepsInv(s: ServerState, h: ReadResult, p: Peer)
    requires Inv(s) && s.acceptArmed
    requires p !in s.outbox && p !in s.closed
    ensures Inv(AcceptStep(s, h, p).0)
  {
    if s.isServerActive && !h.ReadError? {
      var s1 := s.(acceptArmed := true, clients := s.clients + [p],
                   outbox := s.outbox[p := []], receiving := s.receiving + {p});
      assert p !in s.clients;
      assert Inv(s1);
      RelayKeepsInvFor(s1, JoinedText(p.username), p, p);
      DropStepKeepsInv(RelayStep(s1, JoinedText(p.username), p).0, p);
    }
  }

  /** The other steps keep the registry invariant. */
  /** Writing lines, showing lines and the drain flags play no part in the
      registry invariant. */
  lemma WritingKeepsInv(s: ServerState, t: ServerState)
    requires Inv(s)
    requires t.clients == s.clients && t.receiving == s.receiving && t.closed == s.closed
    requires s.outbox.Keys <= t.outbox.Keys
    requires t.acceptArmed == s.acceptArmed && t.hasListener == s.hasListener
    ensures Inv(t)
  {
  }

  lemma RelayKeepsInv(s: ServerState, m: string, sender: Peer)
    requires Inv(s)
    ensures Inv(RelayStep(s, m, sender).0)
  {
    WritingKeepsInv(s, RelayStep(s, m, sender).0);
  }

  lemma SendKeepsInv(s: ServerState, m: string)
    requires Inv(s)
    ensures Inv(SendStep(s, m).0)
  {
    var (outbox, ok) := WriteAll(s.outbox, s.broken, s.clients, ServerLine(m));
    var t := SendStep(s, m).0;
    if m == LeaveSentinel {
      assert t.outbox == outbox;
    } else {
      assert t.outbox == outbox;
    }
    WritingKeepsInv(s, t);
  }

  lemma CloseKeepsInv(s: ServerState)
    requires Inv(s)
    ensures Inv(CloseStep(s).0)
  {
    SendKeepsInv(s.(isServerActive := false, disconnecting := false), LeaveSentinel);
  }

  /** Listening always activates the server. A listener exists afterwards
      exactly when the port was in range or one existed before, the accept is
      armed exactly when the bind succeeded or it was armed before, and any
      failure shows one line; nothing else changes. */
  lemma ListenOutcome(s: ServerState, port: int, bindOk: bool)
    ensures var t := ListenStep(s, port, bindOk);
      && t.isServerActive
      && t.hasListener == (PortInRange(port) || s.hasListener)
      && t.acceptArmed == ((PortInRange(port) && bindOk) || s.acceptArmed)
      && t.display == s.display + (if PortInRange(port) && bindOk then [] else [BindFailedLine])
      && t == s.(isServerActive := true, hasListener := t.hasListener,
                 acceptArmed := t.acceptArmed, display := t.display)
  {
  }

  /** A fresh server told to listen on a port out of range is active but has
      no listener, so `CloseConnections()` throws at line 255 and the server
      cannot be stopped cleanly. */
  lemma OutOfRangePortCannotClose(display: seq<string>, port: int, bindOk: bool)
    requires !PortInRange(port)
    ensures var s := ListenStep(Initial(display), port, bindOk);
      && s.isServerActive && !s.hasListener && !s.acceptArmed
      && !CloseStep(s).1
  {
    CloseWithoutListenerThrows(ListenStep(Initial(display), port, bindOk));
  }

  lemma ListenKeepsInv(s: ServerState, port: int, bindOk: bool)
    requires Inv(s)
    ensures Inv(ListenStep(s, port, bindOk))
  {
  }
}
