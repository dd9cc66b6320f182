/**
 * The chat panel: a single-writer state machine driven by four transport
 * events (open, message, close, error) and one user operation (send).
 * The transitions are pure functions on a `Session` value; the class
 * `ChatSession` holds the same state in fields and its methods are proved
 * to perform exactly those transitions.
 */
module Chat {
  import opened Wrappers
  import opened Text

  datatype Status = Connected | Disconnected | Error

  /** The socket as the component sees it: none stored, or one stored whose
      `readyState` is OPEN or not. */
  datatype Socket = NoSocket | Held(open: bool)

  /** The value `new Date().toISOString()` returned; its form is not modelled. */
  type Timestamp = string

  /** A log entry (`MessageType`). One without a username is a system message. */
  datatype Message = Message(text: string, username: Option<string>, timestamp: Option<Timestamp>)

  /** What `JSON.parse` made of an inbound frame. */
  datatype ParseResult = Parsed(message: Message) | Malformed

  /** A payload handed to `socket.send`, before serialisation. */
  datatype Payload =
    | SetUsername(username: string)
    | ChatMessage(text: string, username: string, timestamp: Timestamp)

  const ConnectedNotice: string := "Подключено к серверу"
  const MalformedNotice: string := "Ошибка формата сообщения"
  const ClosedNotice: string := "Соединение закрыто"
  const ErrorNotice: string := "Ошибка подключения"
  const NameRequiredNotice: string := "Ошибка: Сначала установите имя с помощью /name ВашеИмя"
  const NameSetPrefix: string := "Установлено имя: "

  /** The command prefix, trailing space included. */
  const NameCommand: string := "/name "

  /** The component's state, with `outbox` the payloads sent so far. */
  datatype Session = Session(
    status: Status,
    socket: Socket,
    messages: seq<Message>,
    input: string,
    username: string,
    outbox: seq<Payload>)

  /** The state after mount and before any event. */
  function Initial(): Session {
    Session(Disconnected, NoSocket, [], "", "", [])
  }

  function SystemMessage(text: string, now: Timestamp): (m: Message)
    ensures m.username.None? && m.timestamp.Some?
  {
    Message(text, None, Some(now))
  }

  /** `addSystemMessage(text)`. */
  function WithSystemMessage(s: Session, text: string, now: Timestamp): Session {
    s.(messages := s.messages + [SystemMessage(text, now)])
  }

  /** `onopen`. */
  function Opened(s: Session, now: Timestamp): Session {
    WithSystemMessage(s.(socket := Held(true), status := Connected), ConnectedNotice, now)
  }

  /** `onmessage`: the parsed value is appended as it is; a parse failure is logged. */
  function Received(s: Session, data: ParseResult, now: Timestamp): Session {
    match data
    case Parsed(m) => s.(messages := s.messages + [m])
    case Malformed => WithSystemMessage(s, MalformedNotice, now)
  }

  /** `onclose`. */
  function Closed(s: Session, now: Timestamp): Session {
    WithSystemMessage(s.(socket := NoSocket, status := Disconnected), ClosedNotice, now)
  }

  /** `onerror`: the socket stays stored. */
  function Errored(s: Session, now: Timestamp): Session {
    WithSystemMessage(s.(status := Error), ErrorNotice, now)
  }

  /** The input field's `onChange`. */
  function Edited(s: Session, text: string): Session {
    s.(input := text)
  }

  /** The transport changing the stored socket's `readyState`; no component code runs. */
  function ReadinessChanged(s: Session, open: bool): Session {
    if s.socket.Held? then s.(socket := Held(open)) else s
  }

  /** `inputText.split(" ")[1]` for a command: the run of characters after
      `NameCommand` up to the next space. It is never a string holding a space. */
  function NameToken(input: string): (token: string)
    requires StartsWith(input, NameCommand)
    ensures ' ' !in token
    ensures token == Split(input[|NameCommand|..], ' ')[0]
  {
    var rest := input[|NameCommand|..];
    assert input == "/name" + [' '] + rest;
    SplitAfterField("/name", ' ', rest);
    Split(input, ' ')[1]
  }

  /** `sendMessage`. */
  function Sent(s: Session, now: Timestamp): Session {
    if s.socket.NoSocket? || !s.socket.open || Trim(s.input) == "" then s
    else if StartsWith(s.input, NameCommand) then
      var name := NameToken(s.input);
      if name != "" then
        WithSystemMessage(s.(username := name, outbox := s.outbox + [SetUsername(name)]),
                          NameSetPrefix + name, now).(input := "")
      else s.(input := "")
    else if s.username == "" then
      WithSystemMessage(s, NameRequiredNotice, now)
    else
      s.(outbox := s.outbox + [ChatMessage(s.input, s.username, now)], input := "")
  }

  datatype Event =
    | Open(now: Timestamp)
    | Incoming(data: ParseResult, now: Timestamp)
    | Close(now: Timestamp)
    | Failure(now: Timestamp)
    | Send(now: Timestamp)
    | Edit(text: string)
    | Readiness(open: bool)

  function Step(s: Session, e: Event): Session {
    match e
    case Open(now) => Opened(s, now)
    case Incoming(data, now) => Received(s, data, now)
    case Close(now) => Closed(s, now)
    case Failure(now) => Errored(s, now)
    case Send(now) => Sent(s, now)
    case Edit(text) => Edited(s, text)
    case Readiness(open) => ReadinessChanged(s, open)
  }

  /** The events handled one after another, in order of delivery. */
  function Run(s: Session, events: seq<Event>): Session
    decreases |events|
  {
    if events == [] then s else Run(Step(s, events[0]), events[1..])
  }

  predicate WellFormedPayload(p: Payload) {
    match p
    case SetUsername(u) => u != "" && ' ' !in u
    case ChatMessage(text, u, _) => u != "" && !IsBlank(text)
  }

  /** What every reachable state satisfies: the username holds no space,
      and every payload sent carries a non-empty username (and a chat message
      a non-blank text). */
  predicate WellFormed(s: Session) {
    ' ' !in s.username &&
    forall i :: 0 <= i < |s.outbox| ==> WellFormedPayload(s.outbox[i])
  }

  // ---- sendMessage, case by case ----

  /** Without an open socket, or with blank input, sending changes nothing at all. */
  lemma SendIgnored(s: Session, now: Timestamp)
    requires s.socket.NoSocket? || !s.socket.open || IsBlank(s.input)
    ensures Sent(s, now) == s
  {
  }

  /** `/name <token>` with a non-empty token: the name is set, one
      `set_username` payload goes out, one confirmation is logged, and the
      input is cleared. */
  lemma SendNameCommand(s: Session, rest: string, now: Timestamp)
    requires s.socket == Held(true)
    requires s.input == NameCommand + rest
    requires Split(rest, ' ')[0] != ""
    ensures var token := Split(rest, ' ')[0];
      Sent(s, now) == s.(username := token,
                         outbox := s.outbox + [SetUsername(token)],
                         messages := s.messages + [SystemMessage(NameSetPrefix + token, now)],
                         input := "")
  {
    assert !IsBlank(s.input) by { assert s.input[0] == '/'; }
    assert StartsWith(s.input, NameCommand) by { assert s.input[..|NameCommand|] == NameCommand; }
    assert s.input[|NameCommand|..] == rest;
    var token := NameToken(s.input);
    assert Sent(s, now) == WithSystemMessage(s.(username := token, outbox := s.outbox + [SetUsername(token)]),
                                             NameSetPrefix + token, now).(input := "");
  }

  /** `/name ` followed by nothing or by another space: only the input is cleared. */
  lemma SendNameCommandWithoutToken(s: Session, rest: string, now: Timestamp)
    requires s.socket == Held(true)
    requires s.input == NameCommand + rest
    requires rest == "" || rest[0] == ' '
    ensures Sent(s, now) == s.(input := "")
  {
    assert !IsBlank(s.input) by { assert s.input[0] == '/'; }
    assert StartsWith(s.input, NameCommand) by { assert s.input[..|NameCommand|] == NameCommand; }
    assert s.input[|NameCommand|..] == rest;
    FirstFieldEmpty(rest, ' ');
  }

  /** Chat text before a name is set: one notice is logged, nothing is sent,
      and the input is kept. */
  lemma SendNeedsName(s: Session, now: Timestamp)
    requires s.socket == Held(true) && !IsBlank(s.input)
    requires !StartsWith(s.input, NameCommand) && s.username == ""
    ensures Sent(s, now) == s.(messages := s.messages + [SystemMessage(NameRequiredNotice, now)])
  {
  }

  /** Chat text with a name set: exactly one `message` payload carrying the
      untrimmed input goes out, the input is cleared, and the log is unchanged. */
  lemma SendChat(s: Session, now: Timestamp)
    requires s.socket == Held(true) && !IsBlank(s.input)
    requires !StartsWith(s.input, NameCommand) && s.username != ""
    ensures Sent(s, now) == s.(outbox := s.outbox + [ChatMessage(s.input, s.username, now)], input := "")
  {
  }

  /** `"/name alice"` with no name yet: the name becomes `alice` and no chat payload is sent. */
  lemma NameAliceExample(s: Session, now: Timestamp)
    requires s.socket == Held(true) && s.input == "/name alice" && s.username == ""
    ensures Sent(s, now).username == "alice"
    ensures Sent(s, now).outbox == s.outbox + [SetUsername("alice")]
    ensures Sent(s, now).messages == s.messages + [SystemMessage(NameSetPrefix + "alice", now)]
  {
    var rest := "alice";
    assert s.input == NameCommand + rest;
    SplitNoSeparator(rest, ' ');
    SendNameCommand(s, rest, now);
  }

  /** The prefix is tested on the untrimmed input: `" /name bob"` is chat text. */
  lemma LeadingSpaceIsChatText(s: Session, now: Timestamp)
    requires s.socket == Held(true) && s.input == " /name bob" && s.username == "carol"
    ensures Sent(s, now).username == "carol"
    ensures Sent(s, now).outbox == s.outbox + [ChatMessage(" /name bob", "carol", now)]
  {
    assert !StartsWith(s.input, NameCommand);
    assert !IsWhitespace(s.input[1]);
  }

  // ---- transport events ----

  /** An inbound frame that parses is appended exactly; one that does not
      adds one system message. Status, socket and everything else are kept. */
  lemma ReceivedEffect(s: Session, data: ParseResult, now: Timestamp)
    ensures var t := Received(s, data, now);
      t.status == s.status && t.socket == s.socket && t.input == s.input &&
      t.username == s.username && t.outbox == s.outbox &&
      (data.Parsed? ==> t.messages == s.messages + [data.message]) &&
      (data.Malformed? ==> t.messages == s.messages + [SystemMessage(MalformedNotice, now)])
  {
  }

  /** Each lifecycle event logs one system message and sets status (and the socket) as named. */
  lemma LifecycleEffects(s: Session, now: Timestamp)
    ensures var t := Opened(s, now);
      t.status == Connected && t.socket == Held(true) &&
      t.messages == s.messages + [SystemMessage(ConnectedNotice, now)] &&
      t.input == s.input && t.username == s.username && t.outbox == s.outbox
    ensures var t := Closed(s, now);
      t.status == Disconnected && t.socket == NoSocket &&
      t.messages == s.messages + [SystemMessage(ClosedNotice, now)] &&
      t.input == s.input && t.username == s.username && t.outbox == s.outbox
    ensures var t := Errored(s, now);
      t.status == Error && t.socket == s.socket &&
      t.messages == s.messages + [SystemMessage(ErrorNotice, now)] &&
      t.input == s.input && t.username == s.username && t.outbox == s.outbox
  {
  }

  // ---- every step ----

  /** One step appends to the log and nothing else: either nothing, the
      parsed inbound message, or one system message stamped with that step's time. */
  lemma StepAppends(s: Session, e: Event)
    ensures var t := Step(s, e);
      s.messages <= t.messages && |t.messages| <= |s.messages| + 1 &&
      (|t.messages| == |s.messages| + 1 ==>
         (e.Incoming? && e.data.Parsed? && t.messages[|s.messages|] == e.data.message) ||
         (!e.Edit? && !e.Readiness? && t.messages[|s.messages|].username.None? &&
          t.messages[|s.messages|].timestamp == Some(e.now)))
  {
  }

  /** The username changes only by a `/name` command with an open socket, to its
      non-empty token; in particular it is never cleared. */
  lemma StepUsername(s: Session, e: Event)
    ensures var t := Step(s, e);
      t.username != s.username ==>
        e.Send? && s.socket == Held(true) && StartsWith(s.input, NameCommand) &&
        t.username == NameToken(s.input) && t.username != ""
  {
  }

  lemma StepWellFormed(s: Session, e: Event)
    requires WellFormed(s)
    ensures WellFormed(Step(s, e))
  {
    match e
    case Send(now) => SentWellFormed(s, now);
    case _ =>
  }

  lemma SentWellFormed(s: Session, now: Timestamp)
    requires WellFormed(s)
    ensures WellFormed(Sent(s, now))
  {
    if s.socket.NoSocket? || !s.socket.open || Trim(s.input) == "" {
    } else if StartsWith(s.input, NameCommand) {
      var name := NameToken(s.input);
      var t := Sent(s, now);
      if name != "" {
        assert t.outbox == s.outbox + [SetUsername(name)];
        assert t.username == name;
      }
    } else if s.username != "" {
      assert !IsBlank(s.input);
      var t := Sent(s, now);
      assert t.outbox == s.outbox + [ChatMessage(s.input, s.username, now)];
    }
  }

  // ---- whole runs ----

  /** Over any run the old log is a prefix of the new one. */
  lemma {:induction false} RunAppendOnly(s: Session, events: seq<Event>)
    ensures s.messages <= Run(s, events).messages
    decreases |events|
  {
    if events != [] {
      StepAppends(s, events[0]);
      RunAppendOnly(Step(s, events[0]), events[1..]);
    }
  }

  /** Once set, a username stays set for the rest of any run. */
  lemma {:induction false} RunKeepsUsername(s: Session, events: seq<Event>)
    requires s.username != ""
    ensures Run(s, events).username != ""
    decreases |events|
  {
    if events != [] {
      StepUsername(s, events[0]);
      RunKeepsUsername(Step(s, events[0]), events[1..]);
    }
  }

  /** Every state reached from the initial one is well formed. */
  lemma {:induction false} RunWellFormed(s: Session, events: seq<Event>)
    requires WellFormed(s)
    ensures WellFormed(Run(s, events))
    decreases |events|
  {
    if events != [] {
      StepWellFormed(s, events[0]);
      RunWellFormed(Step(s, events[0]), events[1..]);
    }
  }

  /** Every state the component can reach from mount is well formed. */
  lemma ReachableWellFormed(events: seq<Event>)
    ensures WellFormed(Run(Initial(), events))
  {
    RunWellFormed(Initial(), events);
  }

  predicate IsTransportEvent(e: Event) {
    e.Open? || e.Incoming? || e.Close? || e.Failure?
  }

  /** The log entry a transport event adds: the parsed message, or that
      event's notice stamped with its time. */
  function EntryOf(e: Event): (m: Message)
    requires IsTransportEvent(e)
    ensures !(e.Incoming? && e.data.Parsed?) ==> m.username.None? && m.timestamp == Some(e.now)
  {
    match e
    case Open(now) => SystemMessage(ConnectedNotice, now)
    case Incoming(data, now) =>
      if data.Parsed? then data.message else SystemMessage(MalformedNotice, now)
    case Close(now) => SystemMessage(ClosedNotice, now)
    case Failure(now) => SystemMessage(ErrorNotice, now)
  }

  /** A run of transport events alone logs exactly one entry per event, in
      arrival order, and sends nothing. */
  lemma {:induction false} TransportRunEntries(s: Session, events: seq<Event>)
    requires forall i :: 0 <= i < |events| ==> IsTransportEvent(events[i])
    ensures Run(s, events).messages ==
      s.messages + seq(|events|, i requires 0 <= i < |events| => EntryOf(events[i]))
    ensures Run(s, events).outbox == s.outbox
    decreases |events|
  {
    if events != [] {
      var t := Step(s, events[0]);
      assert t.messages == s.messages + [EntryOf(events[0])] && t.outbox == s.outbox;
      TransportRunEntries(t, events[1..]);
      var tail := seq(|events| - 1, i requires 0 <= i < |events| - 1 => EntryOf(events[1..][i]));
      assert seq(|events|, i requires 0 <= i < |events| => EntryOf(events[i])) == [EntryOf(events[0])] + tail;
    }
  }

  /** The chat component, with its state in fields. */
  class ChatSession {
    var status: Status
    var socket: Socket
    var messages: seq<Message>
    var inputText: string
    var username: string
    var outbox: seq<Payload>

    function State(): Session
      reads this
    {
      Session(status, socket, messages, inputText, username, outbox)
    }

    ghost predicate Valid()
      reads this
    {
      WellFormed(State())
    }

    constructor ()
      ensures Valid() && State() == Initial()
    {
      status := Disconnected;
      socket := NoSocket;
      messages := [];
      inputText := "";
      username := "";
      outbox := [];
    }

    method AddSystemMessage(text: string, now: Timestamp)
      modifies this`messages
      ensures messages == old(messages) + [SystemMessage(text, now)]
    {
      messages := messages + [SystemMessage(text, now)];
    }

    method OnOpen(now: Timestamp)
      requires Valid()
      modifies this
      ensures Valid() && State() == Opened(old(State()), now)
    {
      socket := Held(true);
      status := Connected;
      AddSystemMessage(ConnectedNotice, now);
    }

    method OnMessage(data: ParseResult, now: Timestamp)
      requires Valid()
      modifies this
      ensures Valid() && State() == Received(old(State()), data, now)
    {
      match data
      case Parsed(m) =>
        messages := messages + [m];
      case Malformed =>
        AddSystemMessage(MalformedNotice, now);
    }

    method OnClose(now: Timestamp)
      requires Valid()
      modifies this
      ensures Valid() && State() == Closed(old(State()), now)
    {
      socket := NoSocket;
      status := Disconnected;
      AddSystemMessage(ClosedNotice, now);
    }

    method OnError(now: Timestamp)
      requires Valid()
      modifies this
      ensures Valid() && State() == Errored(old(State()), now)
    {
      status := Error;
      AddSystemMessage(ErrorNotice, now);
    }

    method SetInputText(text: string)
      requires Valid()
      modifies this
      ensures Valid() && State() == Edited(old(State()), text)
    {
      inputText := text;
    }

    /** The transport moves the stored socket's `readyState`. */
    method SetReadiness(open: bool)
      requires Valid()
      modifies this
      ensures Valid() && State() == ReadinessChanged(old(State()), open)
    {
      if socket.Held? {
        socket := Held(open);
      }
    }

    method SendMessage(now: Timestamp)
      requires Valid()
      modifies this
      ensures Valid() && State() == Sent(old(State()), now)
    {
      if socket.NoSocket? || !socket.open || Trim(inputText) == "" {
        return;
      }
      if StartsWith(inputText, NameCommand) {
        var newUsername := NameToken(inputText);
        if newUsername != "" {
          username := newUsername;
          outbox := outbox + [SetUsername(newUsername)];
          AddSystemMessage(NameSetPrefix + newUsername, now);
        }
      } else {
        if username == "" {
          AddSystemMessage(NameRequiredNotice, now);
          return;
        }
        var message := ChatMessage(inputText, username, now);
        outbox := outbox + [message];
      }
      inputText := "";
    }
  }
}
