/** The line protocol shared by the server and the client: what one read
    yields, the two sentinel lines, and the lines the server builds. */
module Protocol {

  /** What one `ReadLine` on a connection yields. */
  datatype ReadResult =
    | Line(text: string)   // a complete line
    | EndOfStream          // `ReadLine` returned null: the peer closed its end
    | ReadError            // `ReadLine` threw: the connection is broken

  /** Sent by a client to leave; also the word the server types to shut down. */
  const LeaveSentinel: string := "exit"

  /** The line a client receives when the server shuts down. */
  const ShutdownSentinel: string := "Server: exit"

  /** How the server labels every line it relays: `"<name>: <message>"`. */
  function Prefixed(name: string, message: string): string
  {
    name + ": " + message
  }

  /** What the server writes to every client when its user types `message`. */
  function ServerLine(message: string): string
  {
    "Server: " + message
  }

  function JoinedText(name: string): string { name + " joined the chat!" }

  function LeftText(name: string): string { name + " left the chat!" }

  function DroppedText(name: string): string { name + " disconnected unexpectedly!" }

  /** The server's own messages reach a client as the shutdown sentinel exactly
      when the server user typed the leave sentinel. */
  lemma ServerLineIsShutdown(message: string)
    ensures ServerLine(message) == ShutdownSentinel <==> message == LeaveSentinel
  {
    if ServerLine(message) == ShutdownSentinel {
      assert message == ServerLine(message)[8..];
    }
  }

  /** A relayed line `"<name>: <message>"` can only be the shutdown sentinel
      when the sender is called "Server" and the message is the leave
      sentinel, which the server never relays: no client can make the other
      clients disconnect by chatting. */
  lemma {:induction false} PrefixedIsShutdown(name: string, message: string)
    ensures Prefixed(name, message) == ShutdownSentinel ==> name == "Server" && message == LeaveSentinel
  {
    var line := Prefixed(name, message);
    if line == ShutdownSentinel {
      assert |name| + 2 <= |line|;
      assert line[|name|] == ':' && line[|name| + 1] == ' ';
      assert |name| == 6;
      assert name == line[..6];
      assert message == line[8..];
    }
  }

  /** None of the three announcements the server relays is the shutdown sentinel. */
  lemma AnnouncementsAreNotShutdown(sender: string, name: string)
    ensures Prefixed(sender, JoinedText(name)) != ShutdownSentinel
    ensures Prefixed(sender, LeftText(name)) != ShutdownSentinel
    ensures Prefixed(sender, DroppedText(name)) != ShutdownSentinel
  {
    PrefixedIsShutdown(sender, JoinedText(name));
    PrefixedIsShutdown(sender, LeftText(name));
    PrefixedIsShutdown(sender, DroppedText(name));
    assert JoinedText(name)[|name|..] == " joined the chat!";
    assert LeftText(name)[|name|..] == " left the chat!";
    assert DroppedText(name)[|name|..] == " disconnected unexpectedly!";
  }
}
