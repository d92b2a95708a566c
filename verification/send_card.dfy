/**
 The simulated chat card (components/SendCard.tsx): an append-only
 transcript, an input buffer, a connected flag and a message counter.
 Nothing here talks to a network; "disconnecting" only flips the flag.
 */
module SendCard {

  datatype Sender = Client | Server

  datatype Message = Message(id: int, sender: Sender, content: string)

  datatype Card = Card(messages: seq<Message>, input: string, isConnected: bool, messageId: int)

  datatype Event = TypeMessage(text: string) | ClickSend | ClickDisconnect

  const Welcome := "Welcome to the chat! How can I assist you today?"
  const DisconnectNotice := "You have been disconnected from the server."

  /** The counter always equals the number of messages added. */
  predicate Counted(c: Card) {
    c.messageId == |c.messages|
  }

  /** `addMessage`: one message at the end, stamped with the current counter, which then advances. */
  function AddMessage(c: Card, sender: Sender, content: string): (r: Card)
    ensures |r.messages| == |c.messages| + 1 && r.messages[..|c.messages|] == c.messages
    ensures r.messages[|c.messages|] == Message(c.messageId, sender, content)
    ensures r.messageId == c.messageId + 1
    ensures r.input == c.input && r.isConnected == c.isConnected
    ensures Counted(c) ==> Counted(r)
  {
    c.(messages := c.messages + [Message(c.messageId, sender, content)], messageId := c.messageId + 1)
  }

  /** The card after its mount effect: connected, holding only the server's welcome. */
  function Mount(): (c: Card)
    ensures c.messages == [Message(0, Server, Welcome)]
    ensures c.isConnected && c.input == "" && Counted(c)
  {
    AddMessage(Card([], "", true, 0), Server, Welcome)
  }

  /** The characters `String.prototype.trim` removes: ECMAScript WhiteSpace and LineTerminator. */
  predicate IsJsWhitespace(ch: char) {
    var n := ch as int;
    || n == 0x09 || n == 0x0A || n == 0x0B || n == 0x0C || n == 0x0D || n == 0x20
    || n == 0xA0 || n == 0x1680 || (0x2000 <= n <= 0x200A)
    || n == 0x2028 || n == 0x2029 || n == 0x202F || n == 0x205F || n == 0x3000 || n == 0xFEFF
  }

  predicate Blank(s: string) {
    forall i :: 0 <= i < |s| ==> IsJsWhitespace(s[i])
  }

  /** Drop leading whitespace. */
  function TrimStart(s: string): (r: string)
    ensures |r| <= |s| && r == s[|s| - |r|..]
    ensures Blank(s[..|s| - |r|])
    ensures |r| > 0 ==> !IsJsWhitespace(r[0])
    decreases |s|
  {
    if |s| > 0 && IsJsWhitespace(s[0]) then
      var r := TrimStart(s[1..]);
      assert s[1..][..|s| - 1 - |r|] == s[1..|s| - |r|];
      r
    else s
  }

  /** Drop trailing whitespace. */
  function TrimEnd(s: string): (r: string)
    ensures |r| <= |s| && r == s[..|r|]
    ensures Blank(s[|r|..])
    ensures |r| > 0 ==> !IsJsWhitespace(r[|r| - 1])
    decreases |s|
  {
    if |s| > 0 && IsJsWhitespace(s[|s| - 1]) then
      var r := TrimEnd(s[..|s| - 1]);
      assert s[..|s| - 1][..|r|] == s[..|r|];
      r
    else s
  }

  function Trim(s: string): string {
    TrimEnd(TrimStart(s))
  }

  /** `s.trim()` is empty exactly when every character of `s` is whitespace. */
  lemma TrimEmptyIffBlank(s: string)
    ensures |Trim(s)| == 0 <==> Blank(s)
  {
  }

  /** The send guard: a non-blank input while connected. */
  predicate CanSend(c: Card) {
    |Trim(c.input)| > 0 && c.isConnected
  }

  /** `handleSendMessage`: a blank input or a disconnected card changes nothing;
      otherwise the untrimmed input becomes a client message and the buffer is cleared. */
  function HandleSend(c: Card): (r: Card)
    ensures Blank(c.input) || !c.isConnected ==> r == c
    ensures !Blank(c.input) && c.isConnected ==>
      && |r.messages| == |c.messages| + 1 && r.messages[..|c.messages|] == c.messages
      && r.messages[|c.messages|] == Message(c.messageId, Client, c.input)
      && r.input == "" && r.isConnected && r.messageId == c.messageId + 1
    ensures Counted(c) ==> Counted(r)
  {
    TrimEmptyIffBlank(c.input);
    if CanSend(c) then AddMessage(c, Client, c.input).(input := "") else c
  }

  /** `handleDisconnect`: clears the flag and posts one server notice (also when already disconnected). */
  function HandleDisconnect(c: Card): (r: Card)
    ensures !r.isConnected && r.input == c.input
    ensures |r.messages| == |c.messages| + 1 && r.messages[..|c.messages|] == c.messages
    ensures r.messages[|c.messages|] == Message(c.messageId, Server, DisconnectNotice)
    ensures r.messageId == c.messageId + 1
    ensures Counted(c) ==> Counted(r)
  {
    AddMessage(c.(isConnected := false), Server, DisconnectNotice)
  }

  /** One event; typing replaces the input buffer and touches nothing else. */
  function Step(c: Card, e: Event): (r: Card)
    ensures e.TypeMessage? ==> r == c.(input := e.text)
    ensures e.ClickSend? ==> r == HandleSend(c)
    ensures e.ClickDisconnect? ==> r == HandleDisconnect(c)
  {
    match e
    case TypeMessage(text) => c.(input := text)
    case ClickSend => HandleSend(c)
    case ClickDisconnect => HandleDisconnect(c)
  }

  function Run(c: Card, es: seq<Event>): Card
    decreases |es|
  {
    if es == [] then c else Run(Step(c, es[0]), es[1..])
  }

  /** The counter matches the number of messages across any run from mount onwards. */
  lemma {:induction false} RunKeepsCounted(c: Card, es: seq<Event>)
    requires Counted(c)
    ensures Counted(Run(c, es))
    decreases |es|
  {
    if es != [] {
      var next := Step(c, es[0]);
      assert Counted(next);
      RunKeepsCounted(next, es[1..]);
    }
  }

  /** Once disconnected, no further send or typing adds a message: only another
      disconnect click can, and the card never reconnects. */
  lemma {:induction false} DisconnectedSendsAreNoOps(c: Card, es: seq<Event>)
    requires !c.isConnected
    requires forall i :: 0 <= i < |es| ==> !es[i].ClickDisconnect?
    ensures Run(c, es).messages == c.messages
    ensures !Run(c, es).isConnected
    decreases |es|
  {
    if es != [] {
      var next := Step(c, es[0]);
      assert next.messages == c.messages && !next.isConnected;
      DisconnectedSendsAreNoOps(next, es[1..]);
    }
  }

  /** After a disconnect, whatever the user does next (short of disconnecting again),
      the transcript ends with exactly one disconnect notice appended. */
  lemma DisconnectThenAnything(c: Card, es: seq<Event>)
    requires forall i :: 0 <= i < |es| ==> !es[i].ClickDisconnect?
    ensures var r := Run(HandleDisconnect(c), es);
      && !r.isConnected
      && r.messages == c.messages + [Message(c.messageId, Server, DisconnectNotice)]
  {
    var d := HandleDisconnect(c);
    DisconnectedSendsAreNoOps(d, es);
    assert d.messages == c.messages + [Message(c.messageId, Server, DisconnectNotice)];
  }
}
