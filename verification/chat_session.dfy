/**
 The chat page's connection manager (app/page.tsx), as a pure state machine.

 Every user action and every socket callback is an `Event`; `Step` returns the
 page's next state together with the side effects the handler performs
 (opening a socket, sending a frame, closing a socket, raising an alert).
 JSON encoding and decoding are abstracted: inbound messages arrive already
 decoded (or `Malformed`), outbound frames are values of `Frame`.
 */
module ChatSession {
  import opened Wrappers

  datatype Sender = Client | Server

  /** One transcript line. `id` is the length of the transcript it was appended to;
      `content` is absent when the server message carried no `data` field. */
  datatype Entry = Entry(id: int, content: Option<string>, sender: Sender)

  /** Client-to-server frames. */
  datatype Frame =
    | Connect
    | ConnectId(sessionID: string)
    | Message(data: string)
    | Disconnect

  /** A server message after `JSON.parse`: its `type` and optional `data`. */
  datatype Inbound =
    | Malformed
    | Decoded(kind: string, data: Option<string>)

  /** A socket's ready state; `Closing` follows the page's own `close()` call,
      after which the browser delivers no more messages but still fires `onclose`. */
  datatype Phase = Connecting | Open | Closing | Closed

  /** A socket the page created; `greeting` is the frame its open handler sends. */
  datatype Socket = Socket(greeting: Frame, phase: Phase)

  datatype Effect =
    | NewSocket(sock: nat)
    | SendFrame(sock: nat, frame: Frame)
    | CloseSocket(sock: nat)
    | Alert(text: string)

  /** The page's state. Sockets are named by their index in `sockets`;
      `held` is the socket reference the page keeps once a socket has opened. */
  datatype Page = Page(
    connected: bool,
    loading: bool,
    sessionId: Option<string>,
    inputId: string,
    inputMessage: string,
    messages: seq<Entry>,
    sockets: seq<Socket>,
    held: Option<nat>)

  datatype Outcome = Outcome(next: Page, effects: seq<Effect>)

  datatype Event =
    | TypeSessionId(text: string)
    | TypeMessage(text: string)
    | ClickConnect
    | ClickConnectWithId
    | ClickSend
    | ClickDisconnect
    | SocketOpen(sock: nat)
    | SocketClose(sock: nat)
    | SocketMessage(sock: nat, msg: Inbound)

  const InvalidSessionAlert := "Invalid session ID"
  const NotConnectedAlert := "Not connected to any session"

  /** Every entry's id is its position in the transcript. */
  predicate Numbered(t: seq<Entry>) {
    forall i :: 0 <= i < |t| ==> t[i].id == i
  }

  /** Facts that hold of every reachable page. */
  predicate Valid(p: Page) {
    && Numbered(p.messages)
    && !p.loading
    && (p.connected ==> p.held.Some?)
    && (p.held.Some? ==> p.held.value < |p.sockets| && p.sockets[p.held.value].phase in {Open, Closing})
  }

  /** Session-level state that socket bookkeeping must not disturb. */
  predicate SameSession(a: Page, b: Page) {
    a.connected == b.connected && a.sessionId == b.sessionId && a.messages == b.messages
  }

  /** The loading flag and the two input buffers, which only typing and sending change. */
  predicate SameInputs(a: Page, b: Page) {
    a.loading == b.loading && a.inputId == b.inputId && a.inputMessage == b.inputMessage
  }

  function Init(): (p: Page)
    ensures Valid(p)
    ensures !p.connected && p.held == None && p.messages == [] && p.sockets == []
    ensures p.sessionId == Some("") && p.inputId == "" && p.inputMessage == ""
  {
    Page(false, false, Some(""), "", "", [], [], None)
  }

  /** Append one entry whose id is the old length. */
  function Append(t: seq<Entry>, content: Option<string>, sender: Sender): (r: seq<Entry>)
    ensures |r| == |t| + 1 && r[..|t|] == t
    ensures r[|t|] == Entry(|t|, content, sender)
    ensures Numbered(t) ==> Numbered(r)
  {
    t + [Entry(|t|, content, sender)]
  }

  /** The inbound dispatch on the message's `type`. */
  function Receive(s: Page, m: Inbound): (o: Outcome)
    ensures m.Malformed? ==> o == Outcome(s, [])
    ensures m.Decoded? && m.kind == "connect_id" ==>
      && o.next.sessionId == m.data
      && o.next.connected == s.connected && o.next.messages == s.messages
      && o.effects == []
    ensures m.Decoded? && m.kind == "connect_id_error" ==>
      && SameSession(o.next, s)
      && o.effects == [Alert(InvalidSessionAlert)]
    ensures m.Decoded? && m.kind != "connect_id" && m.kind != "connect_id_error" ==>
      && |o.next.messages| == |s.messages| + 1
      && o.next.messages[..|s.messages|] == s.messages
      && o.next.messages[|s.messages|] == Entry(|s.messages|, m.data, Server)
      && o.next.connected == s.connected && o.next.sessionId == s.sessionId
      && o.effects == []
    ensures o.next.sockets == s.sockets && o.next.held == s.held && SameInputs(o.next, s)
  {
    match m
    case Malformed => Outcome(s, [])
    case Decoded(kind, data) =>
      if kind == "connect_id" then Outcome(s.(sessionId := data), [])
      else if kind == "connect_id_error" then Outcome(s, [Alert(InvalidSessionAlert)])
      else Outcome(s.(messages := Append(s.messages, data, Server)), [])
  }

  /** `connect`: creates a socket whose open handler will send `{type: "connect"}`. */
  function Connect(s: Page): (o: Outcome)
    ensures SameSession(o.next, s) && SameInputs(o.next, s) && o.next.held == s.held
    ensures o.next.sockets == s.sockets + [Socket(Frame.Connect, Connecting)]
    ensures o.effects == [NewSocket(|s.sockets|)]
  {
    var k := |s.sockets|;
    Outcome(s.(sockets := s.sockets + [Socket(Frame.Connect, Connecting)]), [NewSocket(k)])
  }

  /** `connectWithID`: reuses the held socket, or creates one that sends the id once open. */
  function ConnectWithId(s: Page): (o: Outcome)
    ensures s.held.Some? ==>
      && o.next.connected
      && o.next.sessionId == s.sessionId && o.next.messages == s.messages
      && o.next.sockets == s.sockets
      && o.effects == [SendFrame(s.held.value, ConnectId(s.inputId))]
    ensures s.held.None? ==>
      && SameSession(o.next, s)
      && o.next.sockets == s.sockets + [Socket(ConnectId(s.inputId), Connecting)]
      && o.effects == [NewSocket(|s.sockets|)]
    ensures o.next.held == s.held && SameInputs(o.next, s)
  {
    match s.held
    case Some(h) =>
      Outcome(s.(connected := true), [SendFrame(h, ConnectId(s.inputId))])
    case None =>
      var k := |s.sockets|;
      Outcome(s.(sockets := s.sockets + [Socket(ConnectId(s.inputId), Connecting)]), [NewSocket(k)])
  }

  /** `handleDisconnect`: always forgets the session; frames go out only on a held socket,
      which then starts closing but stays held until its close event. */
  function HandleDisconnect(s: Page): (o: Outcome)
    ensures !o.next.connected && o.next.sessionId == Some("")
    ensures o.next.messages == s.messages && o.next.held == s.held
    ensures SameInputs(o.next, s)
    ensures s.held.Some? ==> o.effects == [SendFrame(s.held.value, Disconnect), CloseSocket(s.held.value)]
    ensures s.held.Some? && s.held.value < |s.sockets| ==>
      o.next.sockets == s.sockets[s.held.value := s.sockets[s.held.value].(phase := Closing)]
    ensures s.held.None? ==> o.effects == [] && o.next.sockets == s.sockets
  {
    match s.held
    case Some(h) =>
      var sockets := if h < |s.sockets| then s.sockets[h := s.sockets[h].(phase := Closing)] else s.sockets;
      Outcome(s.(connected := false, sessionId := Some(""), sockets := sockets),
              [SendFrame(h, Disconnect), CloseSocket(h)])
    case None =>
      Outcome(s.(connected := false, sessionId := Some("")), [])
  }

  /** `handleSendMessage`: needs a held socket; the input is sent as is, even when empty. */
  function HandleSend(s: Page): (o: Outcome)
    ensures s.held.Some? ==>
      && o.effects == [SendFrame(s.held.value, Message(s.inputMessage))]
      && |o.next.messages| == |s.messages| + 1
      && o.next.messages[..|s.messages|] == s.messages
      && o.next.messages[|s.messages|] == Entry(|s.messages|, Some(s.inputMessage), Client)
      && o.next.inputMessage == ""
    ensures s.held.None? ==> o == Outcome(s, [Alert(NotConnectedAlert)])
    ensures o.next.connected == s.connected && o.next.sessionId == s.sessionId
    ensures o.next.held == s.held && o.next.sockets == s.sockets
    ensures o.next.loading == s.loading && o.next.inputId == s.inputId
  {
    match s.held
    case Some(h) =>
      Outcome(s.(messages := Append(s.messages, Some(s.inputMessage), Client), inputMessage := ""),
              [SendFrame(h, Message(s.inputMessage))])
    case None => Outcome(s, [Alert(NotConnectedAlert)])
  }

  /** True when socket `k` exists and is in phase `ph`. */
  predicate InPhase(s: Page, k: nat, ph: Phase) {
    k < |s.sockets| && s.sockets[k].phase == ph
  }

  /** A socket's `onopen`: the page marks itself connected, keeps the socket and sends its greeting. */
  function OnOpen(s: Page, k: nat): (o: Outcome)
    ensures InPhase(s, k, Connecting) ==>
      && o.next.connected && !o.next.loading && o.next.held == Some(k)
      && o.next.sessionId == s.sessionId && o.next.messages == s.messages
      && o.next.inputId == s.inputId && o.next.inputMessage == s.inputMessage
      && o.next.sockets == s.sockets[k := s.sockets[k].(phase := Open)]
      && o.effects == [SendFrame(k, s.sockets[k].greeting)]
    ensures !InPhase(s, k, Connecting) ==> o == Outcome(s, [])
  {
    if InPhase(s, k, Connecting) then
      var sock := s.sockets[k];
      Outcome(s.(loading := false, connected := true, held := Some(k),
                 sockets := s.sockets[k := sock.(phase := Open)]),
              [SendFrame(k, sock.greeting)])
    else Outcome(s, [])
  }

  /** A socket's `onclose`: whichever socket closed, the page drops its connection flag and socket reference. */
  function OnClose(s: Page, k: nat): (o: Outcome)
    ensures k < |s.sockets| && s.sockets[k].phase != Closed ==>
      && !o.next.connected && o.next.held == None
      && o.next.sessionId == s.sessionId && o.next.messages == s.messages
      && SameInputs(o.next, s)
      && o.next.sockets == s.sockets[k := s.sockets[k].(phase := Closed)]
    ensures !(k < |s.sockets| && s.sockets[k].phase != Closed) ==> o.next == s
    ensures o.effects == []
  {
    if k < |s.sockets| && s.sockets[k].phase != Closed then
      var sock := s.sockets[k];
      Outcome(s.(connected := false, held := None, sockets := s.sockets[k := sock.(phase := Closed)]), [])
    else Outcome(s, [])
  }

  /** One event. Callbacks of sockets the page never created, or in a phase
      where the browser would not fire them, change nothing. */
  function Step(s: Page, e: Event): (o: Outcome)
    ensures e.ClickConnect? ==> o == Connect(s)
    ensures e.ClickConnectWithId? ==> o == ConnectWithId(s)
    ensures e.ClickSend? ==> o == HandleSend(s)
    ensures e.ClickDisconnect? ==> o == HandleDisconnect(s)
    ensures e.SocketOpen? ==> o == OnOpen(s, e.sock)
    ensures e.SocketClose? ==> o == OnClose(s, e.sock)
    ensures e.TypeSessionId? ==> o.next == s.(inputId := e.text) && o.effects == []
    ensures e.TypeMessage? ==> o.next == s.(inputMessage := e.text) && o.effects == []
    ensures e.SocketMessage? && !InPhase(s, e.sock, Open) ==> o == Outcome(s, [])
    ensures e.SocketMessage? && InPhase(s, e.sock, Open) ==> o == Receive(s, e.msg)
  {
    match e
    case TypeSessionId(text) => Outcome(s.(inputId := text), [])
    case TypeMessage(text) => Outcome(s.(inputMessage := text), [])
    case ClickConnect => Connect(s)
    case ClickConnectWithId => ConnectWithId(s)
    case ClickSend => HandleSend(s)
    case ClickDisconnect => HandleDisconnect(s)
    case SocketOpen(k) => OnOpen(s, k)
    case SocketClose(k) => OnClose(s, k)
    case SocketMessage(k, m) => if InPhase(s, k, Open) then Receive(s, m) else Outcome(s, [])
  }

  /** A sequence of events, collecting the effects in order. */
  function Run(s: Page, es: seq<Event>): Outcome
    decreases |es|
  {
    if es == [] then Outcome(s, [])
    else
      var first := Step(s, es[0]);
      var rest := Run(first.next, es[1..]);
      Outcome(rest.next, first.effects + rest.effects)
  }

  /** Every event keeps the page valid. */
  lemma StepPreservesValid(s: Page, e: Event)
    requires Valid(s)
    ensures Valid(Step(s, e).next)
  {
  }

  /** Every run from a valid page ends in a valid page: ids stay equal to positions,
      `connected` implies a held socket, and the held socket is open, or closing after a disconnect. */
  lemma {:induction false} RunPreservesValid(s: Page, es: seq<Event>)
    requires Valid(s)
    ensures Valid(Run(s, es).next)
    decreases |es|
  {
    if es != [] {
      StepPreservesValid(s, es[0]);
      RunPreservesValid(Step(s, es[0]).next, es[1..]);
    }
  }

  /** No event removes or rewrites a transcript entry. */
  lemma StepAppendOnly(s: Page, e: Event)
    ensures var t := Step(s, e).next.messages;
      |s.messages| <= |t| && t[..|s.messages|] == s.messages
  {
  }

  /** The transcript is append-only over any run. */
  lemma {:induction false} RunAppendOnly(s: Page, es: seq<Event>)
    ensures var t := Run(s, es).next.messages;
      |s.messages| <= |t| && t[..|s.messages|] == s.messages
    decreases |es|
  {
    if es != [] {
      var mid := Step(s, es[0]).next;
      StepAppendOnly(s, es[0]);
      RunAppendOnly(mid, es[1..]);
      var t := Run(s, es).next.messages;
      assert t[..|mid.messages|] == mid.messages;
      assert t[..|s.messages|] == t[..|mid.messages|][..|s.messages|];
    }
  }

  /** `connectWithID` without a socket: the page is not connected until the
      socket's open handler runs, which sends the same `connect_id` frame. */
  lemma ConnectWithIdThenOpen(s: Page)
    requires s.held.None? && !s.connected
    ensures var o1 := Step(s, ClickConnectWithId);
      var o2 := Step(o1.next, SocketOpen(|s.sockets|));
      && !o1.next.connected
      && o2.next.connected && o2.next.held == Some(|s.sockets|)
      && o1.effects + o2.effects == [NewSocket(|s.sockets|), SendFrame(|s.sockets|, ConnectId(s.inputId))]
  {
  }

  /** After a disconnect the held socket is closing, so a message arriving on it
      is not delivered and the transcript keeps its length. */
  lemma DisconnectThenLateMessage(s: Page, m: Inbound)
    requires Valid(s) && s.held.Some?
    ensures var k := s.held.value;
      var d := Step(s, ClickDisconnect).next;
      && d.sockets[k].phase == Closing
      && Step(d, SocketMessage(k, m)) == Outcome(d, [])
      && d.messages == s.messages
  {
  }

  /** Typing a message and sending it on a connected valid page emits one
      `message` frame on the held socket and appends one client entry. */
  lemma TypeThenSendWhileConnected(s: Page, text: string)
    requires Valid(s) && s.connected
    ensures var o := Run(s, [TypeMessage(text), ClickSend]);
      && o.effects == [SendFrame(s.held.value, Message(text))]
      && o.next.messages == s.messages + [Entry(|s.messages|, Some(text), Client)]
      && o.next.inputMessage == ""
  {
    var es := [TypeMessage(text), ClickSend];
    var typed := Step(s, TypeMessage(text)).next;
    var sent := HandleSend(typed);
    assert es[1..] == [ClickSend] && es[1..][1..] == [];
    assert Run(typed, [ClickSend]) == Outcome(sent.next, sent.effects + []);
    assert Run(s, es) == Outcome(sent.next, [] + Run(typed, [ClickSend]).effects);
    assert sent.next.messages == s.messages + [Entry(|s.messages|, Some(text), Client)];
  }

  /** A new session followed by a server chat message yields one server entry with id 0. */
  lemma NewSessionThenServerMessage()
    ensures Run(Init(), [ClickConnect, SocketOpen(0), SocketMessage(0, Decoded("chat", Some("hi")))]).next.messages
      == [Entry(0, Some("hi"), Server)]
  {
  }
}
