/**
 * The browser front end's server: a registry of WebSocket clients and their AI handlers, a
 * bounded debug log, and the per-client command loop (`init` picks a service, `chat` talks to
 * it, `/clear` resets it). The socket, the configuration file, the clock and the AI backend are
 * parameters: `Socket` stands for an accepted WebSocket, `config` for the outcome of reading
 * `config.yaml`, `clock(k)` for the timestamp of the k-th step of a connection.
 */
module WebApp {
  import opened Wrappers
  import opened Text
  import opened AiHandler

  /** An accepted WebSocket. */
  datatype Socket = Socket(handle: nat)

  /** What the server writes to its sockets: a JSON object `{"type", "content"}`, or a close. */
  datatype Outbound = Json(client: string, kind: string, content: string) | Close(client: string)

  /** A message for the current client, before it is addressed. */
  datatype Event = Event(kind: string, content: string)

  /** One `debug_manager.add_message(message, level)` call. */
  datatype Note = Note(level: string, text: string)

  /** A `debug_messages` entry. */
  datatype DebugEntry = DebugEntry(timestamp: string, level: string, message: string)

  /** A client's conversation: the handler's fixed part and its history. */
  datatype Session = Session(info: HandlerInfo, history: seq<Turn>)

  /** A JSON request: `command`, `service_type` and `message`, each possibly absent. */
  datatype Request = Request(command: Option<string>, serviceType: Option<string>, message: Option<string>)

  /** What one request does: the client's session afterwards and what it is sent. */
  datatype Transition = Transition(session: Option<Session>, events: seq<Event>)

  /** `DebugManager.max_messages`. */
  const MaxMessages: nat := 100

  const InvalidService := "Invalid AI service type"
  const InitFailedPrefix := "Error initializing AI service: "
  const NotInitialized := "AI service not initialized"
  const HistoryCleared := "Conversation history cleared"
  const ShuttingDown := "Server shutting down"

  /** Only `init` creates handlers, and only for a known service. */
  predicate Live(s: Option<Session>)
  {
    s.None? || Known(s.value.info.serviceType)
  }

  /** How an f-string shows an optional string: the value, or `None`. */
  function Shown(o: Option<string>): string
  {
    match o
    case Some(s) => s
    case None => "None"
  }

  /** `data.get("message", "").strip()`. */
  function MessageText(message: Option<string>): string
  {
    Strip(match message case Some(m) => m case None => "")
  }

  /** A chat message that asks to clear the conversation, in any letter case and padding. */
  predicate Clears(message: Option<string>)
  {
    Lower(MessageText(message)) == "/clear"
  }

  // ---------------------------------------------------------------------------------------
  // Sending

  /** Events addressed to `client`, in order. */
  function Messages(client: string, events: seq<Event>): (out: seq<Outbound>)
    ensures |out| == |events|
    ensures forall i :: 0 <= i < |events| ==> out[i] == Json(client, events[i].kind, events[i].content)
  {
    seq(|events|, i requires 0 <= i < |events| => Json(client, events[i].kind, events[i].content))
  }

  lemma MessagesAppend(client: string, a: seq<Event>, b: seq<Event>)
    ensures Messages(client, a + b) == Messages(client, a) + Messages(client, b)
  {
    var l := Messages(client, a + b);
    var r := Messages(client, a) + Messages(client, b);
    forall i | 0 <= i < |l| ensures l[i] == r[i] {
      if i >= |a| {
        assert (a + b)[i] == b[i - |a|];
      }
    }
  }

  /** `send_message` writes only to a client that is connected; otherwise nothing is sent. */
  function Deliveries(active: map<string, Socket>, client: string, events: seq<Event>): (out: seq<Outbound>)
    ensures client !in active ==> out == []
    ensures client in active ==> out == Messages(client, events)
  {
    if client in active then Messages(client, events) else []
  }

  // ---------------------------------------------------------------------------------------
  // The debug log

  /** The last `n` elements of `s` (all of them when there are fewer). */
  function Newest<T>(s: seq<T>, n: nat): seq<T>
  {
    if |s| <= n then s else s[|s| - n..]
  }

  /** One `add_message` in debug mode: the entry goes last, and the oldest goes when there are too many. */
  function Appended(buffer: seq<DebugEntry>, entry: DebugEntry): (r: seq<DebugEntry>)
    requires |buffer| <= MaxMessages
    ensures |r| <= MaxMessages
  {
    var b := buffer + [entry];
    if |b| > MaxMessages then b[1..] else b
  }

  /**
   * Appending keeps the newest 100 entries: the new one last, preceded by as many of the old
   * ones as fit, most recent first dropped last.
   */
  lemma AppendedKeepsNewest(buffer: seq<DebugEntry>, entry: DebugEntry)
    requires |buffer| <= MaxMessages
    ensures Appended(buffer, entry) == Newest(buffer + [entry], MaxMessages)
    ensures |Appended(buffer, entry)| == if |buffer| < MaxMessages then |buffer| + 1 else MaxMessages
    ensures Appended(buffer, entry)[|Appended(buffer, entry)| - 1] == entry
  {
  }

  /** The entries a run of `add_message` calls would create, all stamped with `timestamp`. */
  function Entries(notes: seq<Note>, timestamp: string): (es: seq<DebugEntry>)
    ensures |es| == |notes|
    ensures forall i :: 0 <= i < |notes| ==> es[i] == DebugEntry(timestamp, notes[i].level, notes[i].text)
  {
    seq(|notes|, i requires 0 <= i < |notes| => DebugEntry(timestamp, notes[i].level, notes[i].text))
  }

  /** The debug buffer after a run of `add_message` calls: nothing is kept unless debug mode is on. */
  function Logged(mode: bool, buffer: seq<DebugEntry>, notes: seq<Note>, timestamp: string): (r: seq<DebugEntry>)
    requires |buffer| <= MaxMessages
    ensures |r| <= MaxMessages
    ensures !mode ==> r == buffer
    decreases |notes|
  {
    if !mode || notes == [] then buffer
    else
      var last := notes[|notes| - 1];
      Appended(Logged(mode, buffer, notes[..|notes| - 1], timestamp), DebugEntry(timestamp, last.level, last.text))
  }

  /** Logging one run of messages and then another is logging both runs in order. */
  lemma {:induction false} LoggedConcat(mode: bool, buffer: seq<DebugEntry>, xs: seq<Note>, ys: seq<Note>, timestamp: string)
    requires |buffer| <= MaxMessages
    ensures Logged(mode, Logged(mode, buffer, xs, timestamp), ys, timestamp) == Logged(mode, buffer, xs + ys, timestamp)
    decreases |ys|
  {
    if ys == [] {
      assert xs + ys == xs;
    } else if mode {
      var n := |ys|;
      var zs := xs + ys;
      LoggedConcat(mode, buffer, xs, ys[..n - 1], timestamp);
      assert zs[..|zs| - 1] == xs + ys[..n - 1];
      assert zs[|zs| - 1] == ys[n - 1];
    }
  }

  lemma NewestSnoc<T>(s: seq<T>, x: T, n: nat)
    requires n >= 1
    ensures Newest(Newest(s, n) + [x], n) == Newest(s + [x], n)
  {
    if |s| > n {
      assert (s[|s| - n..] + [x])[1..] == (s + [x])[|s| + 1 - n..];
    }
  }

  /**
   * However many messages are added, the buffer holds exactly the newest 100 of everything
   * added since it was last cleared, oldest first.
   */
  lemma {:induction false} LoggedKeepsNewest(buffer: seq<DebugEntry>, notes: seq<Note>, timestamp: string)
    requires |buffer| <= MaxMessages
    ensures Logged(true, buffer, notes, timestamp) == Newest(buffer + Entries(notes, timestamp), MaxMessages)
    decreases |notes|
  {
    if notes == [] {
      assert buffer + Entries(notes, timestamp) == buffer;
    } else {
      var init := notes[..|notes| - 1];
      var last := notes[|notes| - 1];
      var e := DebugEntry(timestamp, last.level, last.text);
      LoggedKeepsNewest(buffer, init, timestamp);
      AppendedKeepsNewest(Logged(true, buffer, init, timestamp), e);
      NewestSnoc(buffer + Entries(init, timestamp), e, MaxMessages);
      assert buffer + Entries(notes, timestamp) == buffer + Entries(init, timestamp) + [e];
    }
  }

  /** `DebugManager`: the debug switch and the bounded log of recent debug messages. */
  class DebugManager {
    var debugMode: bool
    var debugMessages: seq<DebugEntry>

    ghost predicate Valid()
      reads this`debugMessages
    {
      |debugMessages| <= MaxMessages
    }

    constructor ()
      ensures Valid() && !debugMode && debugMessages == []
    {
      debugMode := false;
      debugMessages := [];
    }

    /** `add_message(message, level)`, stamped with `timestamp`; a no-op unless debug mode is on. */
    method AddMessage(message: string, level: string, timestamp: string)
      requires Valid()
      modifies this`debugMessages
      ensures Valid()
      ensures debugMessages
        == if debugMode then Appended(old(debugMessages), DebugEntry(timestamp, level, message)) else old(debugMessages)
    {
      if debugMode {
        debugMessages := debugMessages + [DebugEntry(timestamp, level, message)];
        if |debugMessages| > MaxMessages {
          debugMessages := debugMessages[1..];
        }
      }
    }

    /** `get_messages()`. */
    method GetMessages() returns (messages: seq<DebugEntry>)
      ensures messages == debugMessages
    {
      messages := debugMessages;
    }

    /** `clear_messages()`. */
    method ClearMessages()
      modifies this`debugMessages
      ensures Valid() && debugMessages == []
    {
      debugMessages := [];
    }
  }

  // ---------------------------------------------------------------------------------------
  // The connection registry

  /**
   * `ConnectionManager`: the open sockets and the AI handler of each client, by client id. A
   * handler is kept as its state, its fixed configuration and its history.
   */
  class ConnectionManager {
    var activeConnections: map<string, Socket>
    var aiHandlers: map<string, Session>
    /** everything written to any socket, in order */
    var sent: seq<Outbound>

    /** Every handler serves a known service: only a successful `init` creates one. */
    ghost predicate Valid()
      reads this`aiHandlers
    {
      forall c :: c in aiHandlers ==> Known(aiHandlers[c].info.serviceType)
    }

    /** The conversation `client` has with its handler, if it has one. */
    function SessionOf(client: string): (s: Option<Session>)
      reads this`aiHandlers
      ensures s.Some? <==> client in aiHandlers
    {
      if client in aiHandlers then Some(aiHandlers[client]) else None
    }

    constructor ()
      ensures Valid() && activeConnections == map[] && aiHandlers == map[] && sent == []
    {
      activeConnections := map[];
      aiHandlers := map[];
      sent := [];
    }

    /** `connect`: the accepted socket is registered under the client id, replacing any earlier one. */
    method Connect(socket: Socket, clientId: string)
      modifies this`activeConnections
      ensures activeConnections == old(activeConnections)[clientId := socket]
    {
      activeConnections := activeConnections[clientId := socket];
    }

    /** `disconnect`: forget the client's socket and handler; nothing happens for an unknown client. */
    method Disconnect(clientId: string)
      requires Valid()
      modifies this`activeConnections, this`aiHandlers
      ensures Valid()
      ensures activeConnections == old(activeConnections) - {clientId}
      ensures aiHandlers == old(aiHandlers) - {clientId}
    {
      if clientId in activeConnections {
        activeConnections := activeConnections - {clientId};
      }
      if clientId in aiHandlers {
        aiHandlers := aiHandlers - {clientId};
      }
    }

    /**
     * Part way through `disconnect_all`, started with sockets `conns0`, handlers `handlers0` and
     * output `sent0`: the sockets not `pending` any more are closed once each, in the output after
     * `sent0`, and forgotten with their handlers.
     */
    ghost predicate Closing(pending: set<string>, conns0: map<string, Socket>, handlers0: map<string, Session>,
                            sent0: seq<Outbound>)
      reads this`activeConnections, this`aiHandlers, this`sent
    {
      && Valid()
      && pending <= conns0.Keys
      && activeConnections == conns0 - (conns0.Keys - pending)
      && aiHandlers == handlers0 - (conns0.Keys - pending)
      && |sent| >= |sent0| && sent[..|sent0|] == sent0
      && |sent| + |pending| == |sent0| + |conns0|
      && (forall o :: o in sent[|sent0|..] ==> o.Close? && o.client in conns0)
      && (forall c :: c in conns0 && c !in pending ==> Close(c) in sent[|sent0|..])
    }

    /** One turn of the `disconnect_all` loop: close `c`'s socket and forget the client. */
    method CloseNext(c: string, ghost pending: set<string>, ghost conns0: map<string, Socket>,
                     ghost handlers0: map<string, Session>, ghost sent0: seq<Outbound>)
      requires c in pending && Closing(pending, conns0, handlers0, sent0)
      modifies this`activeConnections, this`aiHandlers, this`sent
      ensures Closing(pending - {c}, conns0, handlers0, sent0)
    {
      ghost var before := sent;
      sent := sent + [Close(c)];
      assert sent[|sent0|..] == before[|sent0|..] + [Close(c)];
      Disconnect(c);
      assert |pending - {c}| == |pending| - 1;
    }

    /**
     * `disconnect_all`: every socket that was open is closed once and forgotten, with its
     * handler; handlers of clients without a socket stay.
     */
    method DisconnectAll()
      requires Valid()
      modifies this`activeConnections, this`aiHandlers, this`sent
      ensures Valid()
      ensures activeConnections == map[]
      ensures aiHandlers == old(aiHandlers) - old(activeConnections).Keys
      ensures |sent| == |old(sent)| + |old(activeConnections)| && sent[..|old(sent)|] == old(sent)
      ensures forall o :: o in sent[|old(sent)|..] ==> o.Close? && o.client in old(activeConnections)
      ensures forall c :: c in old(activeConnections) ==> Close(c) in sent[|old(sent)|..]
    {
      var pending := activeConnections.Keys;
      assert |pending| == |activeConnections|;
      while pending != {}
        invariant Closing(pending, old(activeConnections), old(aiHandlers), old(sent))
        decreases pending
      {
        var c :| c in pending;
        CloseNext(c, pending, old(activeConnections), old(aiHandlers), old(sent));
        pending := pending - {c};
      }
      assert activeConnections.Keys == {};
    }

    /** `ai_handlers[client_id] = handler`: the new handler replaces any earlier one of that client. */
    method Register(clientId: string, handler: Handler)
      requires Valid() && Known(handler.serviceType)
      modifies this`aiHandlers
      ensures Valid()
      ensures aiHandlers == old(aiHandlers)[clientId := Session(handler.Info(), handler.history)]
    {
      aiHandlers := aiHandlers[clientId := Session(handler.Info(), handler.history)];
    }

    /** `ai_handlers[client_id].clear_conversation()`: only that client's conversation changes. */
    method ClearConversation(clientId: string)
      requires Valid() && clientId in aiHandlers
      modifies this`aiHandlers
      ensures Valid()
      ensures var s := old(aiHandlers[clientId]);
        aiHandlers == old(aiHandlers)[clientId := s.(history := ClearedHistory(s.info.serviceType, s.history))]
    {
      var s := aiHandlers[clientId];
      aiHandlers := aiHandlers[clientId := s.(history := ClearedHistory(s.info.serviceType, s.history))];
    }

    /** `ai_handlers[client_id].get_ai_response(prompt)`: only that client's conversation changes. */
    method GetAiResponse(clientId: string, prompt: string, backend: Backend) returns (answer: Option<(string, string)>)
      requires Valid() && clientId in aiHandlers
      modifies this`aiHandlers
      ensures Valid()
      ensures var s := old(aiHandlers[clientId]);
        var x := Respond(s.info, s.history, prompt, backend);
        answer == x.answer && aiHandlers == old(aiHandlers)[clientId := s.(history := x.history)]
    {
      var s := aiHandlers[clientId];
      var x := Respond(s.info, s.history, prompt, backend);
      aiHandlers := aiHandlers[clientId := s.(history := x.history)];
      answer := x.answer;
    }

    /** `send_message(message, client_id, message_type)`. */
    method SendMessage(message: string, clientId: string, messageType: string)
      modifies this`sent
      ensures sent == old(sent) + Deliveries(activeConnections, clientId, [Event(messageType, message)])
    {
      if clientId in activeConnections {
        sent := sent + [Json(clientId, messageType, message)];
      }
    }
  }

  // ---------------------------------------------------------------------------------------
  // One request

  /**
   * `init`: an unknown service type is refused; a configuration that cannot be read or that
   * makes `AIHandler` raise is reported and leaves any existing handler in place; otherwise the
   * client gets a fresh handler.
   */
  function Init(s: Option<Session>, serviceType: Option<string>, config: Result<Config, string>): (t: Transition)
    ensures |t.events| == 1
  {
    if serviceType.None? || !Known(serviceType.value) then
      Transition(s, [Event("error", InvalidService)])
    else
      var failure := if config.Err? then Some(config.error) else InitError(config.value, serviceType.value);
      if failure.Some? then
        Transition(s, [Event("error", InitFailedPrefix + failure.value)])
      else
        var st := serviceType.value;
        Transition(Some(Session(NewInfo(config.value, st), InitialHistory(st))),
                   [Event("system", "Connected to " + Upper(st) + " service")])
  }

  /**
   * `chat`: refused without a handler; `/clear` resets the history; a non-empty message is
   * answered with `"<model>: <response>"`; an empty one is ignored.
   */
  function Chat(s: Option<Session>, message: Option<string>, backend: Backend): (t: Transition)
    requires Live(s)
    ensures |t.events| <= 1
  {
    if s.None? then Transition(s, [Event("error", NotInitialized)])
    else
      var text := MessageText(message);
      var session := s.value;
      if Clears(message) then
        Transition(Some(session.(history := ClearedHistory(session.info.serviceType, session.history))),
                   [Event("system", HistoryCleared)])
      else if text != "" then
        var x := Respond(session.info, session.history, text, backend);
        Transition(Some(session.(history := x.history)), [Event("ai", x.answer.value.1 + ": " + x.answer.value.0)])
      else
        Transition(s, [])
  }

  /** One received request, dispatched on its command; any other command does nothing. */
  function Dispatch(s: Option<Session>, request: Request, config: Result<Config, string>, backend: Backend): (t: Transition)
    requires Live(s)
    ensures Live(t.session)
    ensures |t.events| <= 1
    ensures request.command != Some("init") && request.command != Some("chat") ==> t == Transition(s, [])
  {
    if request.command == Some("init") then Init(s, request.serviceType, config)
    else if request.command == Some("chat") then Chat(s, request.message, backend)
    else Transition(s, [])
  }

  /** A connection's state between requests: the client's session and what it was sent. */
  datatype Served = Served(session: Option<Session>, events: seq<Event>)

  /** The requests of one connection, in order. */
  function Serve(start: Served, requests: seq<Request>, config: Result<Config, string>, backend: Backend): (r: Served)
    requires Live(start.session)
    ensures Live(r.session)
    ensures |start.events| <= |r.events| <= |start.events| + |requests|
    ensures r.events[..|start.events|] == start.events
    decreases |requests|
  {
    if requests == [] then start
    else
      var n := |requests|;
      var prev := Serve(start, requests[..n - 1], config, backend);
      var t := Dispatch(prev.session, requests[n - 1], config, backend);
      Served(t.session, prev.events + t.events)
  }

  /** Serving the first i + 1 requests is serving the first i and then dispatching request i. */
  lemma ServeSnoc(start: Served, requests: seq<Request>, i: nat, config: Result<Config, string>, backend: Backend)
    requires Live(start.session) && i < |requests|
    ensures var prev := Serve(start, requests[..i], config, backend);
      var t := Dispatch(prev.session, requests[i], config, backend);
      Serve(start, requests[..i + 1], config, backend) == Served(t.session, prev.events + t.events)
  {
    assert requests[..i + 1][..i] == requests[..i];
  }

  // ---------------------------------------------------------------------------------------
  // Properties of the command loop

  /** An `init` naming no known service is refused, and the client keeps whatever handler it had. */
  lemma InvalidInitKeepsSession(s: Option<Session>, request: Request, config: Result<Config, string>, backend: Backend)
    requires Live(s) && request.command == Some("init")
    requires request.serviceType.None? || !Known(request.serviceType.value)
    ensures Dispatch(s, request, config, backend) == Transition(s, [Event("error", InvalidService)])
  {
  }

  /**
   * A known service whose configuration cannot be read or lacks a key is reported with the
   * error text, and the client keeps whatever handler it had.
   */
  lemma FailedInitKeepsSession(s: Option<Session>, request: Request, config: Result<Config, string>, backend: Backend)
    requires Live(s) && request.command == Some("init")
    requires request.serviceType.Some? && Known(request.serviceType.value)
    requires config.Err? || InitError(config.value, request.serviceType.value).Some?
    ensures var detail := if config.Err? then config.error else InitError(config.value, request.serviceType.value).value;
      Dispatch(s, request, config, backend) == Transition(s, [Event("error", InitFailedPrefix + detail)])
  {
  }

  /** A successful `init` replaces any earlier conversation with a fresh one for the chosen service. */
  lemma InitStartsFresh(s: Option<Session>, request: Request, config: Config, backend: Backend)
    requires Live(s) && request.command == Some("init")
    requires request.serviceType.Some? && Known(request.serviceType.value)
    requires InitError(config, request.serviceType.value).None?
    ensures var st := request.serviceType.value;
      var t := Dispatch(s, request, Ok(config), backend);
      && t.session == Some(Session(NewInfo(config, st), [SystemTurn]))
      && WellFormed(t.session.value.history)
      && t.events == [Event("system", "Connected to " + Upper(st) + " service")]
  {
  }

  /** `/clear`, in any letter case and padding, resets the conversation to the system message. */
  lemma ClearResets(s: Option<Session>, request: Request, config: Result<Config, string>, backend: Backend)
    requires Live(s) && s.Some? && request.command == Some("chat") && Clears(request.message)
    ensures Dispatch(s, request, config, backend)
      == Transition(Some(Session(s.value.info, [SystemTurn])), [Event("system", HistoryCleared)])
  {
  }

  /** A message that is blank after stripping is ignored: nothing changes and nothing is sent. */
  lemma BlankChatIgnored(s: Option<Session>, request: Request, config: Result<Config, string>, backend: Backend)
    requires Live(s) && s.Some? && request.command == Some("chat")
    requires request.message.None? || IsBlank(request.message.value)
    ensures Dispatch(s, request, config, backend) == Transition(s, [])
  {
    if request.message.Some? {
      StripEmptyIffBlank(request.message.value);
    }
  }

  /**
   * Until a client has sent a successful `init`, every `chat` is refused with an error and no
   * conversation is created.
   */
  lemma {:induction false} ChatBeforeInitRefused(start: Served, requests: seq<Request>,
                                                 config: Result<Config, string>, backend: Backend)
    requires start.session.None?
    requires forall i :: 0 <= i < |requests| ==> requests[i].command == Some("chat")
    ensures var r := Serve(start, requests, config, backend);
      && r.session.None?
      && r.events == start.events + seq(|requests|, _ => Event("error", NotInitialized))
    decreases |requests|
  {
    if requests != [] {
      var n := |requests|;
      ChatBeforeInitRefused(start, requests[..n - 1], config, backend);
      var prev := Serve(start, requests[..n - 1], config, backend);
      var t := Dispatch(prev.session, requests[n - 1], config, backend);
      assert t == Transition(None, [Event("error", NotInitialized)]);
      assert Serve(start, requests, config, backend) == Served(t.session, prev.events + t.events);
      var refusals := seq(n - 1, _ => Event("error", NotInitialized));
      assert seq(n, _ => Event("error", NotInitialized)) == refusals + [Event("error", NotInitialized)];
    }
  }

  /**
   * A chat request that is neither `init` nor `/clear` only extends a well-formed conversation:
   * the handler stays the same and the earlier history is kept as a prefix.
   */
  lemma ChatOnlyExtends(s: Option<Session>, request: Request, config: Result<Config, string>, backend: Backend)
    requires s.Some? && Known(s.value.info.serviceType)
    requires request.command != Some("init") && !Clears(request.message)
    ensures var t := Dispatch(s, request, config, backend);
      && t.session.Some? && t.session.value.info == s.value.info
      && |s.value.history| <= |t.session.value.history|
      && t.session.value.history[..|s.value.history|] == s.value.history
      && (WellFormed(s.value.history) ==> WellFormed(t.session.value.history))
  {
    var text := MessageText(request.message);
    if request.command == Some("chat") && text != "" {
      var h := s.value.history;
      RespondAppends(s.value.info, h, text, backend);
    }
  }

  /**
   * Without `init` or `/clear`, a client's conversation only grows: the handler stays the same,
   * the earlier history is kept as a prefix, and a well-formed history stays well-formed.
   */
  lemma {:induction false} ConversationOnlyGrows(start: Served, requests: seq<Request>,
                                                 config: Result<Config, string>, backend: Backend)
    requires start.session.Some? && Known(start.session.value.info.serviceType)
    requires forall i :: 0 <= i < |requests| ==> requests[i].command != Some("init") && !Clears(requests[i].message)
    ensures var r := Serve(start, requests, config, backend);
      && r.session.Some? && r.session.value.info == start.session.value.info
      && |start.session.value.history| <= |r.session.value.history|
      && r.session.value.history[..|start.session.value.history|] == start.session.value.history
      && (WellFormed(start.session.value.history) ==> WellFormed(r.session.value.history))
    decreases |requests|
  {
    if requests != [] {
      var n := |requests|;
      var h0 := start.session.value.history;
      ConversationOnlyGrows(start, requests[..n - 1], config, backend);
      var prev := Serve(start, requests[..n - 1], config, backend);
      ChatOnlyExtends(prev.session, requests[n - 1], config, backend);
      var t := Dispatch(prev.session, requests[n - 1], config, backend);
      assert Serve(start, requests, config, backend).session == t.session;
      var h := t.session.value.history;
      assert h[..|h0|] == h[..|prev.session.value.history|][..|h0|];
    }
  }

  // ---------------------------------------------------------------------------------------
  // The endpoints

  /** Two registries that agree on every client but `k` agree once `k` is removed. */
  lemma SameExcept(a: map<string, Session>, b: map<string, Session>, k: string)
    requires forall c :: c != k ==> (c in a <==> c in b)
    requires forall c :: c != k && c in a ==> a[c] == b[c]
    ensures a - {k} == b - {k}
  {
  }


  /** The `init` branch of the receive loop, after the request has been logged. */
  method HandleInit(manager: ConnectionManager, debug: DebugManager, clientId: string,
                    serviceType: Option<string>, config: Result<Config, string>, timestamp: string)
    requires manager.Valid() && debug.Valid()
    modifies manager`aiHandlers, manager`sent, debug`debugMessages
    ensures manager.Valid() && debug.Valid()
    ensures !debug.debugMode ==> debug.debugMessages == old(debug.debugMessages)
    ensures var t := Init(old(manager.SessionOf(clientId)), serviceType, config);
      && manager.SessionOf(clientId) == t.session
      && manager.sent == old(manager.sent) + Deliveries(manager.activeConnections, clientId, t.events)
    ensures forall c :: c != clientId ==> manager.SessionOf(c) == old(manager.SessionOf(c))
  {
    debug.AddMessage("Initializing " + Shown(serviceType) + " for client " + clientId, "DEBUG", timestamp);
    if serviceType.None? || !Known(serviceType.value) {
      debug.AddMessage("Invalid service type: " + Shown(serviceType), "ERROR", timestamp);
      manager.SendMessage(InvalidService, clientId, "error");
      return;
    }
    var r: Result<Handler, string>;
    if config.Err? {
      r := Err(config.error);
    } else {
      r := NewHandler(config.value, serviceType.value);
    }
    if r.Err? {
      debug.AddMessage(InitFailedPrefix + r.error, "ERROR", timestamp);
      manager.SendMessage(InitFailedPrefix + r.error, clientId, "error");
      return;
    }
    manager.Register(clientId, r.value);
    debug.AddMessage("AI handler created for " + clientId, "DEBUG", timestamp);
    manager.SendMessage("Connected to " + Upper(serviceType.value) + " service", clientId, "system");
  }

  /** `chat` with `/clear`: the client's handler goes back to the system message. */
  method ClearChat(manager: ConnectionManager, debug: DebugManager, clientId: string,
                   ghost message: Option<string>, ghost backend: Backend, timestamp: string)
    requires manager.Valid() && debug.Valid() && clientId in manager.aiHandlers && Clears(message)
    modifies manager`aiHandlers, manager`sent, debug`debugMessages
    ensures manager.Valid() && debug.Valid()
    ensures !debug.debugMode ==> debug.debugMessages == old(debug.debugMessages)
    ensures var s := old(manager.aiHandlers[clientId]);
      manager.SessionOf(clientId) == Some(s.(history := ClearedHistory(s.info.serviceType, s.history)))
    ensures forall c :: c != clientId ==> manager.SessionOf(c) == old(manager.SessionOf(c))
    ensures manager.sent == old(manager.sent) + Deliveries(manager.activeConnections, clientId, [Event("system", HistoryCleared)])
    ensures var t := Chat(old(manager.SessionOf(clientId)), message, backend);
      manager.SessionOf(clientId) == t.session && manager.sent == old(manager.sent) + Deliveries(manager.activeConnections, clientId, t.events)
  {
    ghost var s := manager.aiHandlers[clientId];
    assert manager.SessionOf(clientId) == Some(s);
    assert Chat(Some(s), message, backend)
        == Transition(Some(s.(history := ClearedHistory(s.info.serviceType, s.history))), [Event("system", HistoryCleared)]);
    manager.ClearConversation(clientId);
    debug.AddMessage("Conversation cleared for " + clientId, "DEBUG", timestamp);
    manager.SendMessage(HistoryCleared, clientId, "system");
  }

  /** `chat` with a non-empty message: the handler answers, and the answer goes back with its model. */
  method AnswerChat(manager: ConnectionManager, debug: DebugManager, clientId: string, message: Option<string>,
                    backend: Backend, timestamp: string)
    requires manager.Valid() && debug.Valid() && clientId in manager.aiHandlers
    requires !Clears(message) && MessageText(message) != ""
    modifies manager`aiHandlers, manager`sent, debug`debugMessages
    ensures manager.Valid() && debug.Valid()
    ensures !debug.debugMode ==> debug.debugMessages == old(debug.debugMessages)
    ensures var s := old(manager.aiHandlers[clientId]);
      var x := Respond(s.info, s.history, MessageText(message), backend);
      && manager.SessionOf(clientId) == Some(s.(history := x.history))
      && manager.sent == old(manager.sent)
         + Deliveries(manager.activeConnections, clientId, [Event("ai", x.answer.value.1 + ": " + x.answer.value.0)])
    ensures forall c :: c != clientId ==> manager.SessionOf(c) == old(manager.SessionOf(c))
    ensures var t := Chat(old(manager.SessionOf(clientId)), message, backend);
      manager.SessionOf(clientId) == t.session && manager.sent == old(manager.sent) + Deliveries(manager.activeConnections, clientId, t.events)
  {
    var text := MessageText(message);
    ghost var s := manager.aiHandlers[clientId];
    ghost var x := Respond(s.info, s.history, text, backend);
    assert manager.SessionOf(clientId) == Some(s);
    assert Chat(Some(s), message, backend)
        == Transition(Some(s.(history := x.history)), [Event("ai", x.answer.value.1 + ": " + x.answer.value.0)]);
    var answer := manager.GetAiResponse(clientId, text, backend);
    var response := answer.value.0;
    var model := answer.value.1;
    debug.AddMessage("AI (" + model + ") response: " + response, "DEBUG", timestamp);
    debug.AddMessage("AI response generated for " + clientId, "DEBUG", timestamp);
    manager.SendMessage(model + ": " + response, clientId, "ai");
  }

  /** The `chat` branch for a client that has a handler, once the message is logged: `/clear`, a prompt, or nothing. */
  method ChatWithHandler(manager: ConnectionManager, debug: DebugManager, clientId: string,
                         message: Option<string>, backend: Backend, timestamp: string)
    requires manager.Valid() && debug.Valid() && clientId in manager.aiHandlers
    modifies manager`aiHandlers, manager`sent, debug`debugMessages
    ensures manager.Valid() && debug.Valid()
    ensures !debug.debugMode ==> debug.debugMessages == old(debug.debugMessages)
    ensures var t := Chat(old(manager.SessionOf(clientId)), message, backend);
      && manager.SessionOf(clientId) == t.session
      && manager.sent == old(manager.sent) + Deliveries(manager.activeConnections, clientId, t.events)
    ensures forall c :: c != clientId ==> manager.SessionOf(c) == old(manager.SessionOf(c))
  {
    if Clears(message) {
      ClearChat(manager, debug, clientId, message, backend, timestamp);
    } else if MessageText(message) != "" {
      AnswerChat(manager, debug, clientId, message, backend, timestamp);
    } else {
      assert Chat(manager.SessionOf(clientId), message, backend) == Transition(manager.SessionOf(clientId), []);
    }
  }

  /** The `chat` branch of the receive loop, after the request has been logged. */
  method HandleChat(manager: ConnectionManager, debug: DebugManager, clientId: string,
                    message: Option<string>, backend: Backend, timestamp: string)
    requires manager.Valid() && debug.Valid()
    modifies manager`aiHandlers, manager`sent, debug`debugMessages
    ensures manager.Valid() && debug.Valid()
    ensures !debug.debugMode ==> debug.debugMessages == old(debug.debugMessages)
    ensures var t := Chat(old(manager.SessionOf(clientId)), message, backend);
      && manager.SessionOf(clientId) == t.session
      && manager.sent == old(manager.sent) + Deliveries(manager.activeConnections, clientId, t.events)
    ensures forall c :: c != clientId ==> manager.SessionOf(c) == old(manager.SessionOf(c))
  {
    if clientId !in manager.aiHandlers {
      debug.AddMessage("No AI handler for client " + clientId, "ERROR", timestamp);
      manager.SendMessage(NotInitialized, clientId, "error");
    } else {
      debug.AddMessage("Chat message from " + clientId + ": " + MessageText(message), "DEBUG", timestamp);
      ChatWithHandler(manager, debug, clientId, message, backend, timestamp);
    }
  }

  /** The body of the receive loop for one request. */
  method HandleRequest(manager: ConnectionManager, debug: DebugManager, clientId: string, request: Request,
                       config: Result<Config, string>, backend: Backend, timestamp: string)
    requires manager.Valid() && debug.Valid()
    modifies manager`aiHandlers, manager`sent, debug`debugMessages
    ensures manager.Valid() && debug.Valid()
    ensures !debug.debugMode ==> debug.debugMessages == old(debug.debugMessages)
    ensures var t := Dispatch(old(manager.SessionOf(clientId)), request, config, backend);
      && manager.SessionOf(clientId) == t.session
      && manager.sent == old(manager.sent) + Deliveries(manager.activeConnections, clientId, t.events)
    ensures forall c :: c != clientId ==> manager.SessionOf(c) == old(manager.SessionOf(c))
  {
    debug.AddMessage("Received command from " + clientId + ": " + Shown(request.command), "DEBUG", timestamp);
    if request.command == Some("init") {
      HandleInit(manager, debug, clientId, request.serviceType, config, timestamp);
    } else if request.command == Some("chat") {
      HandleChat(manager, debug, clientId, request.message, backend, timestamp);
    }
  }

  /** What was sent before a run of events, followed by their messages, splits at any point of the run. */
  lemma SentSplit(base: seq<Outbound>, client: string, a: seq<Event>, b: seq<Event>)
    ensures base + Messages(client, a + b) == base + Messages(client, a) + Messages(client, b)
  {
    MessagesAppend(client, a, b);
  }

  /**
   * One turn of the receive loop: the client's session and what it was sent move from `Serve`
   * over the first `i` requests to `Serve` over the first `i + 1`.
   */
  method ServeNext(manager: ConnectionManager, debug: DebugManager, clientId: string, ghost start: Served,
                   requests: seq<Request>, i: nat, ghost base: seq<Outbound>,
                   config: Result<Config, string>, backend: Backend, timestamp: string)
    requires manager.Valid() && debug.Valid() && clientId in manager.activeConnections
    requires Live(start.session) && i < |requests|
    requires var r := Serve(start, requests[..i], config, backend);
      && manager.SessionOf(clientId) == r.session
      && manager.sent == base + Messages(clientId, r.events)
    modifies manager`aiHandlers, manager`sent, debug`debugMessages
    ensures manager.Valid() && debug.Valid()
    ensures !debug.debugMode ==> debug.debugMessages == old(debug.debugMessages)
    ensures forall c :: c != clientId ==> manager.SessionOf(c) == old(manager.SessionOf(c))
    ensures var r := Serve(start, requests[..i + 1], config, backend);
      && manager.SessionOf(clientId) == r.session
      && manager.sent == base + Messages(clientId, r.events)
  {
    ghost var prev := Serve(start, requests[..i], config, backend);
    ghost var t := Dispatch(prev.session, requests[i], config, backend);
    ServeSnoc(start, requests, i, config, backend);
    SentSplit(base, clientId, prev.events, t.events);
    HandleRequest(manager, debug, clientId, requests[i], config, backend, timestamp);
  }

  /** The receive loop of a connected client: each request in turn, the k-th stamped `clock(k)`. */
  method ServeRequests(manager: ConnectionManager, debug: DebugManager, clientId: string, requests: seq<Request>,
                       config: Result<Config, string>, backend: Backend, clock: nat -> string)
    requires manager.Valid() && debug.Valid() && clientId in manager.activeConnections
    modifies manager`aiHandlers, manager`sent, debug`debugMessages
    ensures manager.Valid() && debug.Valid()
    ensures !debug.debugMode ==> debug.debugMessages == old(debug.debugMessages)
    ensures forall c :: c != clientId ==> manager.SessionOf(c) == old(manager.SessionOf(c))
    ensures var r := Serve(Served(old(manager.SessionOf(clientId)), []), requests, config, backend);
      && manager.SessionOf(clientId) == r.session
      && manager.sent == old(manager.sent) + Messages(clientId, r.events)
  {
    ghost var start := Served(manager.SessionOf(clientId), []);
    var i := 0;
    while i < |requests|
      invariant 0 <= i <= |requests|
      invariant clientId in manager.activeConnections
      invariant manager.Valid() && debug.Valid()
      invariant !debug.debugMode ==> debug.debugMessages == old(debug.debugMessages)
      invariant forall c :: c != clientId ==> manager.SessionOf(c) == old(manager.SessionOf(c))
      invariant var r := Serve(start, requests[..i], config, backend);
        && manager.SessionOf(clientId) == r.session
        && manager.sent == old(manager.sent) + Messages(clientId, r.events)
    {
      ServeNext(manager, debug, clientId, start, requests, i, old(manager.sent), config, backend, clock(i + 1));
      i := i + 1;
    }
    assert requests[..i] == requests;
  }

  /**
   * `websocket_endpoint`: register the socket, serve the requests until the client goes away,
   * then drop the client's socket and handler. Other clients' conversations are untouched.
   */
  method WebsocketEndpoint(manager: ConnectionManager, debug: DebugManager, clientId: string, socket: Socket,
                           requests: seq<Request>, config: Result<Config, string>, backend: Backend,
                           clock: nat -> string)
    requires manager.Valid() && debug.Valid()
    modifies manager, debug`debugMessages
    ensures manager.Valid() && debug.Valid()
    ensures !debug.debugMode ==> debug.debugMessages == old(debug.debugMessages)
    ensures manager.activeConnections == old(manager.activeConnections) - {clientId}
    ensures manager.aiHandlers == old(manager.aiHandlers) - {clientId}
    ensures var r := Serve(Served(old(manager.SessionOf(clientId)), []), requests, config, backend);
      manager.sent == old(manager.sent) + Messages(clientId, r.events)
  {
    manager.Connect(socket, clientId);
    debug.AddMessage("New client connected: " + clientId, "DEBUG", clock(0));
    ServeRequests(manager, debug, clientId, requests, config, backend, clock);
    debug.AddMessage("Client disconnected: " + clientId, "DEBUG", clock(|requests| + 1));
    forall c | c != clientId
      ensures c in manager.aiHandlers <==> c in old(manager.aiHandlers)
      ensures c in manager.aiHandlers ==> manager.aiHandlers[c] == old(manager.aiHandlers)[c]
    {
      assert manager.SessionOf(c) == old(manager.SessionOf(c));
    }
    SameExcept(manager.aiHandlers, old(manager.aiHandlers), clientId);
    manager.Disconnect(clientId);
  }

  /** `POST /shutdown`: close every connection, then answer. */
  method Shutdown(manager: ConnectionManager) returns (message: string)
    requires manager.Valid()
    modifies manager`activeConnections, manager`aiHandlers, manager`sent
    ensures manager.Valid() && message == ShuttingDown
    ensures manager.activeConnections == map[]
    ensures manager.aiHandlers == old(manager.aiHandlers) - old(manager.activeConnections).Keys
    ensures |manager.sent| == |old(manager.sent)| + |old(manager.activeConnections)|
    ensures manager.sent[..|old(manager.sent)|] == old(manager.sent)
    ensures forall o :: o in manager.sent[|old(manager.sent)|..] ==> o.Close? && o.client in old(manager.activeConnections)
    ensures forall c :: c in old(manager.activeConnections) ==> Close(c) in manager.sent[|old(manager.sent)|..]
  {
    manager.DisconnectAll();
    message := ShuttingDown;
  }

  /** `POST /debug/toggle`: flips debug mode and reports the new setting. */
  method ToggleDebug(debug: DebugManager) returns (status: string)
    modifies debug`debugMode
    ensures debug.debugMode == !old(debug.debugMode)
    ensures status == if debug.debugMode then "enabled" else "disabled"
  {
    debug.debugMode := !debug.debugMode;
    status := if debug.debugMode then "enabled" else "disabled";
  }

  /** `GET /debug/messages`. */
  method GetDebugMessages(debug: DebugManager) returns (messages: seq<DebugEntry>)
    ensures messages == debug.debugMessages
  {
    messages := debug.debugMessages;
  }

  /** `POST /debug/clear`: empties the log whatever the debug mode. */
  method ClearDebugMessages(debug: DebugManager) returns (status: string)
    modifies debug`debugMessages
    ensures debug.Valid() && debug.debugMessages == [] && status == "cleared"
  {
    debug.ClearMessages();
    status := "cleared";
  }
}
