/**
 * The command-line entry point: the checks on the parsed arguments, the interactive chat-only
 * session with one AI handler, and the preparation of a Teams group chat from a comma-separated
 * member list. Reading the configuration file and the terminal are parameters: `config` is the
 * outcome of loading the YAML file, `inputs` the successive reads of `input()` up to end of file.
 */
module TeamsChatCreator {
  import opened Wrappers
  import opened Text
  import opened AiHandler
  import TeamsChat

  /** The parsed command line; an option that was not given is `None`. */
  datatype Args = Args(config: string, name: Option<string>, members: Option<string>, monitorTime: int,
                       aiService: Option<string>, aiChatOnly: bool, debug: bool)

  const MissingService := "--ai-service must be specified when using --ai-chat-only"
  const MissingChatArgs := "--name and --members are required when not using --ai-chat-only"

  /** Python truthiness of an optional string: absent or empty. */
  predicate Falsy(o: Option<string>)
  {
    o.None? || o.value == ""
  }

  /** The `ValueError` that `async_main` raises for an incomplete command line, if any. */
  function ArgsError(args: Args): (e: Option<string>)
    ensures args.aiChatOnly ==> (e.Some? <==> Falsy(args.aiService))
    ensures !args.aiChatOnly ==> (e.Some? <==> Falsy(args.name) || Falsy(args.members))
    ensures e.Some? ==> e.value == if args.aiChatOnly then MissingService else MissingChatArgs
  {
    if args.aiChatOnly then
      if Falsy(args.aiService) then Some(MissingService) else None
    else if Falsy(args.name) || Falsy(args.members) then Some(MissingChatArgs)
    else None
  }

  /** How `async_main` reports an exception before exiting with status 1. */
  function ErrorReport(detail: string): string
  {
    "Error: " + detail
  }

  // ---------------------------------------------------------------------------------------
  // The chat-only session

  /** One read of `input()`: a line, or Ctrl-C. End of file is the end of the sequence. */
  datatype Input = Line(text: string) | Interrupt

  /** What a line asks for once it has been stripped. */
  datatype Command = Exit | Clear | Prompt(text: string) | Blank

  /** The command a line gives: `/exit`, `/bye` and `/clear` in any letter case and padding. */
  function Classify(line: string): (c: Command)
    ensures c.Exit? <==> Lower(Strip(line)) == "/exit" || Lower(Strip(line)) == "/bye"
    ensures c.Clear? <==> Lower(Strip(line)) == "/clear"
    ensures c.Blank? <==> Strip(line) == []
    ensures c.Prompt? <==> Strip(line) != [] && !c.Exit? && !c.Clear?
    ensures c.Prompt? ==> c.text == Strip(line)
  {
    var s := Strip(line);
    if Lower(s) == "/exit" || Lower(s) == "/bye" then Exit
    else if Lower(s) == "/clear" then Clear
    else if s != "" then Prompt(s)
    else Blank
  }

  /** A line does nothing exactly when it is all whitespace. */
  lemma BlankIffWhitespace(line: string)
    ensures Classify(line) == Blank <==> IsBlank(line)
  {
    StripEmptyIffBlank(line);
  }

  /** The commands ignore letter case and padding: lines that agree on those are the same command. */
  lemma CommandsIgnoreCase(a: string, b: string)
    requires Lower(Strip(a)) == Lower(Strip(b))
    ensures Classify(a).Exit? <==> Classify(b).Exit?
    ensures Classify(a).Clear? <==> Classify(b).Clear?
  {
    var sa, sb := Strip(a), Strip(b);
    assert Classify(a).Exit? <==> Lower(sa) == "/exit" || Lower(sa) == "/bye";
    assert Classify(b).Exit? <==> Lower(sb) == "/exit" || Lower(sb) == "/bye";
  }

  /** What one read gives: Ctrl-C ends the session just as `/exit` and `/bye` do. */
  function Read(input: Input): Command
  {
    match input
    case Interrupt => Exit
    case Line(text) => Classify(text)
  }

  /** The commands of successive reads, in order. */
  function Commands(inputs: seq<Input>): (cs: seq<Command>)
    ensures |cs| == |inputs|
    ensures forall i :: 0 <= i < |inputs| && inputs[i].Interrupt? ==> cs[i] == Exit
    ensures forall i :: 0 <= i < |inputs| && inputs[i].Line? ==> cs[i] == Classify(inputs[i].text)
  {
    seq(|inputs|, i requires 0 <= i < |inputs| => Read(inputs[i]))
  }

  /** A line shown to the user: its colour name and its text. */
  datatype Said = Said(color: string, text: string)

  const Ending := Said("chat_system", "\nEnding chat session...")
  const ClearedNotice := Said("chat_system", "\nConversation history cleared.")

  /** How an answer is shown: `"\n<model>: <response>\n"` in the AI colour. */
  function AnswerLine(answer: (string, string)): Said
  {
    Said("chat_ai", "\n" + answer.1 + ": " + answer.0 + "\n")
  }

  /** The banner printed before the first prompt. */
  function Banner(service: string): seq<Said>
  {
    [Said("chat_system", "\nStarting AI chat session with " + Upper(service)),
     Said("chat_system", "Commands:"),
     Said("chat_system", "  /exit or /bye - End the session"),
     Said("chat_system", "  /clear - Clear conversation history"),
     Said("chat_system", "----------------------------------------")]
  }

  /** Where a session stands: the handler's history, what was shown, and how many inputs were read. */
  datatype Transcript = Transcript(history: seq<Turn>, said: seq<Said>, read: nat)

  /** `t` preceded by `read` inputs that showed `said`. */
  function After(said: seq<Said>, read: nat, t: Transcript): Transcript
  {
    Transcript(t.history, said + t.said, read + t.read)
  }

  lemma AfterAfter(a: seq<Said>, m: nat, b: seq<Said>, n: nat, t: Transcript)
    ensures After(a, m, After(b, n, t)) == After(a + b, m + n, t)
  {
    assert a + (b + t.said) == (a + b) + t.said;
  }

  /**
   * One command that does not end the session: `/clear` resets the handler and says so, a
   * prompt is answered, and a blank line changes nothing. Returns the new history and what is
   * shown.
   */
  function Step(info: HandlerInfo, history: seq<Turn>, command: Command, backend: Backend): (r: (seq<Turn>, seq<Said>))
    requires Known(info.serviceType)
    ensures command.Clear? ==> r == (ClearedHistory(info.serviceType, history), [ClearedNotice])
    ensures command.Prompt? ==>
      var x := Respond(info, history, command.text, backend);
      r.0 == x.history && r.1 == [AnswerLine(x.answer.value)]
    ensures command.Exit? || command.Blank? ==> r == (history, [])
  {
    match command
    case Clear => (ClearedHistory(info.serviceType, history), [ClearedNotice])
    case Prompt(p) =>
      var x := Respond(info, history, p, backend);
      (x.history, [AnswerLine(x.answer.value)])
    case _ => (history, [])
  }

  /**
   * The chat-only loop over the commands read: an ending command says goodbye and stops,
   * `/clear` resets the handler, a prompt is answered, a blank line is ignored, and the end of
   * the input stops the session without a word.
   */
  function Converse(info: HandlerInfo, history: seq<Turn>, commands: seq<Command>, backend: Backend): (r: Transcript)
    requires Known(info.serviceType)
    ensures |r.said| <= r.read <= |commands|
    decreases |commands|
  {
    if commands == [] then Transcript(history, [], 0)
    else if commands[0] == Exit then Transcript(history, [Ending], 1)
    else
      var step := Step(info, history, commands[0], backend);
      After(step.1, 1, Converse(info, step.0, commands[1..], backend))
  }

  /** The session stops at the first command that ends it. */
  lemma {:induction false} StopsAtFirstExit(info: HandlerInfo, history: seq<Turn>, commands: seq<Command>, backend: Backend, i: nat)
    requires Known(info.serviceType)
    requires i < |commands| && commands[i] == Exit
    requires forall j :: 0 <= j < i ==> commands[j] != Exit
    ensures Converse(info, history, commands, backend).read == i + 1
    decreases i
  {
    if i > 0 {
      var step := Step(info, history, commands[0], backend);
      StopsAtFirstExit(info, step.0, commands[1..], backend, i - 1);
    }
  }

  /** Nothing typed after a command that ends the session makes any difference. */
  lemma {:induction false} IgnoresAfterExit(info: HandlerInfo, history: seq<Turn>, commands: seq<Command>,
                                            later: seq<Command>, backend: Backend)
    requires Known(info.serviceType)
    requires |commands| >= 1 && commands[|commands| - 1] == Exit
    ensures Converse(info, history, commands + later, backend) == Converse(info, history, commands, backend)
    decreases |commands|
  {
    assert (commands + later)[0] == commands[0];
    if commands[0] != Exit {
      var step := Step(info, history, commands[0], backend);
      IgnoresAfterExit(info, step.0, commands[1..], later, backend);
      assert (commands + later)[1..] == commands[1..] + later;
    }
  }

  /** A session that is ended, rather than running out of input, ends with the goodbye line. */
  lemma {:induction false} EndedSaysGoodbye(info: HandlerInfo, history: seq<Turn>, commands: seq<Command>, backend: Backend, i: nat)
    requires Known(info.serviceType)
    requires i < |commands| && commands[i] == Exit
    ensures var said := Converse(info, history, commands, backend).said;
      |said| >= 1 && said[|said| - 1] == Ending
    decreases i
  {
    if commands[0] != Exit {
      var step := Step(info, history, commands[0], backend);
      EndedSaysGoodbye(info, step.0, commands[1..], backend, i - 1);
      var rest := Converse(info, step.0, commands[1..], backend).said;
      var said := Converse(info, history, commands, backend).said;
      assert said == step.1 + rest;
      assert said[|said| - 1] == rest[|rest| - 1];
    }
  }

  /**
   * Ctrl-C at read `i`, with no earlier line asking to end, ends the session right there with
   * the goodbye line.
   */
  lemma InterruptEndsSession(info: HandlerInfo, history: seq<Turn>, inputs: seq<Input>, backend: Backend, i: nat)
    requires Known(info.serviceType)
    requires i < |inputs| && inputs[i].Interrupt?
    requires forall j :: 0 <= j < i ==> inputs[j].Line? && !Classify(inputs[j].text).Exit?
    ensures var r := Converse(info, history, Commands(inputs), backend);
      r.read == i + 1 && |r.said| >= 1 && r.said[|r.said| - 1] == Ending
  {
    var commands := Commands(inputs);
    assert forall j :: 0 <= j < i ==> commands[j] != Exit;
    StopsAtFirstExit(info, history, commands, backend, i);
    EndedSaysGoodbye(info, history, commands, backend, i);
  }

  /** Without a command that ends it, the session reads all of the input and shows no goodbye. */
  lemma {:induction false} EndOfInputIsSilent(info: HandlerInfo, history: seq<Turn>, commands: seq<Command>, backend: Backend)
    requires Known(info.serviceType)
    requires forall j :: 0 <= j < |commands| ==> commands[j] != Exit
    ensures var r := Converse(info, history, commands, backend);
      r.read == |commands| && Ending !in r.said
    decreases |commands|
  {
    if commands != [] {
      var step := Step(info, history, commands[0], backend);
      EndOfInputIsSilent(info, step.0, commands[1..], backend);
    }
  }

  /**
   * Without `/clear`, the conversation only grows: the old history stays a prefix and a
   * well-formed history stays well-formed.
   */
  lemma {:induction false} SessionOnlyGrows(info: HandlerInfo, history: seq<Turn>, commands: seq<Command>, backend: Backend)
    requires Known(info.serviceType)
    requires forall j :: 0 <= j < |commands| ==> commands[j] != Clear
    ensures var h := Converse(info, history, commands, backend).history;
      && |history| <= |h| && h[..|history|] == history
      && (WellFormed(history) ==> WellFormed(h))
    decreases |commands|
  {
    if commands != [] && commands[0] != Exit {
      var step := Step(info, history, commands[0], backend);
      var h := Converse(info, history, commands, backend).history;
      if commands[0].Prompt? {
        RespondAppends(info, history, commands[0].text, backend);
      }
      SessionOnlyGrows(info, step.0, commands[1..], backend);
      assert h[..|history|] == h[..|step.0|][..|history|];
    }
  }

  /** After a `/clear`, what came before it no longer matters. */
  lemma ClearForgets(info: HandlerInfo, h1: seq<Turn>, h2: seq<Turn>, commands: seq<Command>, backend: Backend)
    requires Known(info.serviceType)
    requires |commands| >= 1 && commands[0] == Clear
    ensures Converse(info, h1, commands, backend) == Converse(info, h2, commands, backend)
  {
  }

  /** The interactive loop, talking to `handler` until the user ends it or the input runs out. */
  method ChatLoop(handler: Handler, inputs: seq<Input>, backend: Backend) returns (said: seq<Said>, read: nat)
    requires handler.Valid() && Known(handler.serviceType)
    modifies handler
    ensures Transcript(handler.history, said, read) == Converse(handler.Info(), old(handler.history), Commands(inputs), backend)
  {
    ghost var info := handler.Info();
    ghost var commands := Commands(inputs);
    said := [];
    read := 0;
    while read < |inputs|
      invariant read <= |inputs|
      invariant Converse(info, old(handler.history), commands, backend)
        == After(said, read, Converse(info, handler.history, commands[read..], backend))
      decreases |inputs| - read
    {
      ghost var rest := commands[read..];
      assert rest[0] == Read(inputs[read]) && rest[1..] == commands[read + 1..];
      ghost var before := said;
      ghost var history := handler.history;
      var input := inputs[read];
      read := read + 1;
      if input.Interrupt? {
        said := said + [Ending];
        return;
      }
      var userInput := Strip(input.text);
      if Lower(userInput) == "/exit" || Lower(userInput) == "/bye" {
        said := said + [Ending];
        return;
      } else if Lower(userInput) == "/clear" {
        handler.ClearConversation();
        said := said + [ClearedNotice];
      } else if userInput != "" {
        var answer := handler.GetAiResponse(userInput, backend);
        said := said + [AnswerLine(answer.value)];
      }
      ghost var step := Step(info, history, rest[0], backend);
      assert handler.history == step.0 && said == before + step.1;
      ghost var next := Converse(info, step.0, commands[read..], backend);
      assert Converse(info, history, rest, backend) == After(step.1, 1, next);
      AfterAfter(before, read - 1, step.1, 1, next);
    }
    assert commands[read..] == [];
  }

  /**
   * Chat-only mode once the arguments are checked: build the handler for `service`, show the
   * banner and run the loop. A configuration that cannot be read or that makes `AIHandler`
   * raise is reported instead.
   */
  method ChatOnly(service: string, config: Result<Config, string>, inputs: seq<Input>, backend: Backend)
    returns (r: Result<seq<Said>, string>)
    requires Known(service)
    ensures r.Err? <==> config.Err? || InitError(config.value, service).Some?
    ensures r.Err? ==> r.error == ErrorReport(if config.Err? then config.error else InitError(config.value, service).value)
    ensures r.Ok? ==>
      r.value == Banner(service) + Converse(NewInfo(config.value, service), InitialHistory(service), Commands(inputs), backend).said
  {
    if config.Err? {
      return Err(ErrorReport(config.error));
    }
    var created := NewHandler(config.value, service);
    if created.Err? {
      return Err(ErrorReport(created.error));
    }
    var said, read := ChatLoop(created.value, inputs, backend);
    return Ok(Banner(service) + said);
  }

  // ---------------------------------------------------------------------------------------
  // Teams mode

  /** `[m.strip() for m in members.split(',')]`: one id per comma-separated piece, in order. */
  function ParseMembers(members: string): (ids: seq<string>)
    ensures |ids| == Count(members, ',') + 1
    ensures forall i :: 0 <= i < |ids| ==> ids[i] == Strip(Split(members, ',')[i])
  {
    var parts := Split(members, ',');
    seq(|parts|, i requires 0 <= i < |parts| => Strip(parts[i]))
  }

  /** Every parsed id is trimmed: no whitespace at either end. */
  lemma ParsedIdsTrimmed(members: string)
    ensures forall i :: 0 <= i < |ParseMembers(members)| ==> Unpadded(ParseMembers(members)[i])
  {
    forall i | 0 <= i < |ParseMembers(members)|
      ensures Unpadded(ParseMembers(members)[i])
    {
      StripIdempotent(Split(members, ',')[i]);
    }
  }

  /** `s` is its own `strip()`. */
  predicate Unpadded(s: string)
  {
    Strip(s) == s
  }

  /** Ids without commas or padding, joined with commas (spaces allowed around them), parse back. */
  lemma MembersRoundTrip(ids: seq<string>)
    requires |ids| >= 1
    requires forall i :: 0 <= i < |ids| ==> ',' !in ids[i]
    requires forall i :: 0 <= i < |ids| ==> ids[i] == [] || (!IsSpace(ids[i][0]) && !IsSpace(ids[i][|ids[i]| - 1]))
    ensures ParseMembers(Join(ids, ',')) == ids
  {
    SplitJoin(ids, ',');
    forall i | 0 <= i < |ids|
      ensures ParseMembers(Join(ids, ','))[i] == ids[i]
    {
      StripUnpadded(ids[i]);
    }
  }

  /**
   * Teams mode once the arguments are checked: the handler (built only when a service was
   * named), the chat creator, and the body of the chat-creation request for the parsed members.
   * Posting it and monitoring the chat are the creator's.
   */
  method PrepareChat(name: string, members: string, service: Option<string>, config: Result<Config, string>,
                     ownerId: string)
    returns (r: Result<(TeamsChat.ChatCreator, TeamsChat.ChatRequest), string>)
    requires service.Some? ==> Known(service.value)
    ensures r.Err? <==> config.Err? || (service.Some? && InitError(config.value, service.value).Some?)
    ensures r.Err? ==> r.error == ErrorReport(if config.Err? then config.error else InitError(config.value, service.value).value)
    ensures r.Ok? ==>
      var (creator, request) := r.value;
      && fresh(creator)
      && (creator.aiHandler == null <==> service.None?)
      && (creator.aiHandler != null ==>
            creator.aiHandler.Info() == NewInfo(config.value, service.value)
            && creator.aiHandler.history == [SystemTurn])
      && creator.ownerId == ownerId
      && request.topic == name
      && |request.members| == 1 + |ParseMembers(members)|
      && request.members[0] == TeamsChat.ChatMember(["owner"], TeamsChat.UserBind(ownerId))
      && forall i :: 0 <= i < |ParseMembers(members)| ==>
           request.members[i + 1] == TeamsChat.ChatMember([], TeamsChat.UserBind(ParseMembers(members)[i]))
  {
    if config.Err? {
      return Err(ErrorReport(config.error));
    }
    var handler: Handler? := null;
    if service.Some? {
      var created := NewHandler(config.value, service.value);
      if created.Err? {
        return Err(ErrorReport(created.error));
      }
      handler := created.value;
    }
    var creator := new TeamsChat.ChatCreator(ownerId, handler);
    var ids := ParseMembers(members);
    var request := creator.CreateGroupChat(name, ids);
    return Ok((creator, request));
  }

  /** What `async_main` ends with. */
  datatype Outcome =
    | Chatted(said: seq<Said>)
    | ChatPrepared(creator: TeamsChat.ChatCreator, request: TeamsChat.ChatRequest)
    | Failed(message: string)

  /**
   * `async_main(args)`: check the arguments, then run the chat-only session or prepare the
   * Teams chat; any exception is reported as `Error: <detail>`.
   */
  method AsyncMain(args: Args, config: Result<Config, string>, ownerId: string, inputs: seq<Input>, backend: Backend)
    returns (outcome: Outcome)
    requires args.aiService.Some? ==> Known(args.aiService.value)
    ensures ArgsError(args).Some? ==> outcome == Failed(ErrorReport(ArgsError(args).value))
    ensures outcome.Chatted? ==> args.aiChatOnly && ArgsError(args).None?
    ensures outcome.ChatPrepared? ==> !args.aiChatOnly && ArgsError(args).None?
    ensures ArgsError(args).None? ==>
      (outcome.Failed? <==> config.Err? || (args.aiService.Some? && InitError(config.value, args.aiService.value).Some?))
    ensures ArgsError(args).None? && outcome.Failed? ==>
      outcome.message == ErrorReport(if config.Err? then config.error else InitError(config.value, args.aiService.value).value)
    ensures outcome.ChatPrepared? ==>
      && outcome.request.topic == args.name.value
      && |outcome.request.members| == 1 + |ParseMembers(args.members.value)|
      && (outcome.creator.aiHandler == null <==> args.aiService.None?)
    ensures args.aiChatOnly && ArgsError(args).None? && config.Ok? && InitError(config.value, args.aiService.value).None? ==>
      var service := args.aiService.value;
      outcome == Chatted(Banner(service) + Converse(NewInfo(config.value, service), [SystemTurn], Commands(inputs), backend).said)
  {
    var e := ArgsError(args);
    if e.Some? {
      return Failed(ErrorReport(e.value));
    }
    if args.aiChatOnly {
      var r := ChatOnly(args.aiService.value, config, inputs, backend);
      outcome := if r.Ok? then Chatted(r.value) else Failed(r.error);
    } else {
      var r := PrepareChat(args.name.value, args.members.value, args.aiService, config, ownerId);
      outcome := if r.Ok? then ChatPrepared(r.value.0, r.value.1) else Failed(r.error);
    }
  }
}
