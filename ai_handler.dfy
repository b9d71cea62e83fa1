/**
 * `AIHandler`: one conversation with an OpenAI or Anthropic chat backend. The handler keeps the
 * dialogue in `conversation_history`, appends the user turn before calling the backend and the
 * assistant turn after a reply, and resets to the single system message on request.
 *
 * The backend call itself is an oracle: given the model name and the turns sent, it either
 * replies with a text or fails with the text of the exception it raised.
 */
module AiHandler {
  import opened Wrappers

  datatype Role = System | User | Assistant

  /** One `{"role": ..., "content": ...}` entry of the conversation history. */
  datatype Turn = Turn(role: Role, content: string)

  const SystemPrompt := "You are a helpful assistant in a chat conversation."
  const SystemTurn := Turn(System, SystemPrompt)

  /** The sentinel model name returned with an error message. */
  const ErrorModel := "ERROR"
  const ErrorPrefix := "Error getting AI response: "

  /** One backend section of the configuration (`api_key`, `model`, `max_tokens`, `temperature`). */
  type Section = map<string, string>

  /** The loaded configuration, reduced to what the handler reads: its `ai_services` section, if any. */
  datatype Config = Config(aiServices: Option<map<string, Section>>)

  /** What a backend call produces: the assistant's text, or the detail of the exception raised. */
  datatype Reply = Reply(text: string) | Failure(detail: string)

  /** The backend oracle, applied to the configured model and the full history sent. */
  type Backend = (string, seq<Turn>) -> Reply

  /** `config.get('ai_services', {})` */
  function Services(config: Config): map<string, Section>
  {
    match config.aiServices
    case Some(s) => s
    case None => map[]
  }

  /** The two service types the handler knows; any other leaves it inert. */
  predicate Known(serviceType: string)
  {
    serviceType == "openai" || serviceType == "claude"
  }

  /** The configuration section a known service type reads. */
  function SectionName(serviceType: string): string
  {
    if serviceType == "claude" then "anthropic" else "openai"
  }

  /** `str(KeyError(key))` */
  function KeyError(key: string): string
  {
    "'" + key + "'"
  }

  /** The history a new handler starts with: the system message for a known service, else nothing. */
  function InitialHistory(serviceType: string): seq<Turn>
  {
    if Known(serviceType) then [SystemTurn] else []
  }

  /** The history `clear_conversation` leaves behind. */
  function ClearedHistory(serviceType: string, history: seq<Turn>): (r: seq<Turn>)
    ensures Known(serviceType) ==> r == [SystemTurn]
    ensures !Known(serviceType) ==> r == history
  {
    if Known(serviceType) then [SystemTurn] else history
  }

  /**
   * The KeyError that `AIHandler.__init__` raises: the service's section, then its `api_key`,
   * then its `model` must be present. An unknown service type reads nothing and never raises.
   */
  function InitError(config: Config, serviceType: string): (e: Option<string>)
    ensures e.None? <==>
      (!Known(serviceType)
       || (SectionName(serviceType) in Services(config)
           && "api_key" in Services(config)[SectionName(serviceType)]
           && "model" in Services(config)[SectionName(serviceType)]))
  {
    if !Known(serviceType) then None
    else
      var name := SectionName(serviceType);
      var services := Services(config);
      if name !in services then Some(KeyError(name))
      else if "api_key" !in services[name] then Some(KeyError("api_key"))
      else if "model" !in services[name] then Some(KeyError("model"))
      else None
  }

  /** The part of a handler that does not change after construction. */
  datatype HandlerInfo = HandlerInfo(serviceType: string, services: map<string, Section>, model: string)

  /** The fixed part of a handler built from `config`: `self.model` is only set for a known service. */
  function NewInfo(config: Config, serviceType: string): (info: HandlerInfo)
    requires InitError(config, serviceType).None?
    ensures info.serviceType == serviceType && info.services == Services(config)
    ensures Known(serviceType) ==> info.model == Services(config)[SectionName(serviceType)]["model"]
  {
    var model := if Known(serviceType) then Services(config)[SectionName(serviceType)]["model"] else "";
    HandlerInfo(serviceType, Services(config), model)
  }

  /** The history after one `get_ai_response` call, and what the call returned (None: it fell through). */
  datatype Exchange = Exchange(history: seq<Turn>, answer: Option<(string, string)>)

  /** The section of a known service holds every key a call reads: `model`, `max_tokens`, `temperature`. */
  predicate CallReady(info: HandlerInfo)
  {
    var name := SectionName(info.serviceType);
    && name in info.services
    && "model" in info.services[name]
    && "max_tokens" in info.services[name]
    && "temperature" in info.services[name]
  }

  /** The model name a call sends to the backend. */
  function CallModel(info: HandlerInfo): string
    requires CallReady(info)
  {
    info.services[SectionName(info.serviceType)]["model"]
  }

  /** The error answer for an exception with the given detail. */
  function ErrorAnswer(detail: string): (string, string)
  {
    (ErrorPrefix + detail, ErrorModel)
  }

  /**
   * One `get_ai_response(prompt)`: for a known service the user turn is appended first; a missing
   * configuration key or a backend failure is caught and returned as an error answer, keeping the
   * user turn; a reply is appended as the assistant turn and returned with the handler's model.
   */
  function Respond(info: HandlerInfo, history: seq<Turn>, prompt: string, backend: Backend): (x: Exchange)
    ensures !Known(info.serviceType) ==> x == Exchange(history, None)
    ensures Known(info.serviceType) ==>
      && x.answer.Some?
      && |history| + 1 <= |x.history| <= |history| + 2
      && x.history[..|history| + 1] == history + [Turn(User, prompt)]
    ensures |x.history| == |history| + 2 ==>
      x.history[|history| + 1] == Turn(Assistant, x.answer.value.0) && x.answer.value.1 == info.model
    ensures Known(info.serviceType) && |x.history| == |history| + 1 ==>
      && x.answer.value.1 == ErrorModel
      && |ErrorPrefix| <= |x.answer.value.0| && x.answer.value.0[..|ErrorPrefix|] == ErrorPrefix
    ensures Known(info.serviceType) ==>
      (|x.history| == |history| + 2 <==>
         CallReady(info) && backend(CallModel(info), history + [Turn(User, prompt)]).Reply?)
    ensures |x.history| == |history| + 2 ==>
      x.answer.value.0 == backend(CallModel(info), history + [Turn(User, prompt)]).text
  {
    if !Known(info.serviceType) then Exchange(history, None)
    else
      var sent := history + [Turn(User, prompt)];
      var name := SectionName(info.serviceType);
      if name !in info.services then Exchange(sent, Some(ErrorAnswer(KeyError(name))))
      else
        var section := info.services[name];
        if "model" !in section then Exchange(sent, Some(ErrorAnswer(KeyError("model"))))
        else if "max_tokens" !in section then Exchange(sent, Some(ErrorAnswer(KeyError("max_tokens"))))
        else if "temperature" !in section then Exchange(sent, Some(ErrorAnswer(KeyError("temperature"))))
        else
          match backend(section["model"], sent)
          case Reply(text) => Exchange(sent + [Turn(Assistant, text)], Some((text, info.model)))
          case Failure(detail) => Exchange(sent, Some(ErrorAnswer(detail)))
  }

  /** A backend reply `text` adds the user prompt and then `text`, and returns `(text, model)`. */
  lemma SuccessfulExchange(info: HandlerInfo, history: seq<Turn>, prompt: string, backend: Backend, text: string)
    requires Known(info.serviceType) && CallReady(info)
    requires backend(CallModel(info), history + [Turn(User, prompt)]) == Reply(text)
    ensures Respond(info, history, prompt, backend)
      == Exchange(history + [Turn(User, prompt), Turn(Assistant, text)], Some((text, info.model)))
  {
  }

  /** A failed backend call returns the error text with model "ERROR" and keeps only the user turn. */
  lemma FailedExchange(info: HandlerInfo, history: seq<Turn>, prompt: string, backend: Backend, detail: string)
    requires Known(info.serviceType) && CallReady(info)
    requires backend(CallModel(info), history + [Turn(User, prompt)]) == Failure(detail)
    ensures Respond(info, history, prompt, backend)
      == Exchange(history + [Turn(User, prompt)], Some((ErrorPrefix + detail, ErrorModel)))
  {
  }

  /** A history as the handler keeps it: the system message first, and no other system message. */
  predicate WellFormed(history: seq<Turn>)
  {
    && |history| >= 1
    && history[0] == SystemTurn
    && forall i :: 1 <= i < |history| ==> history[i].role != System
  }

  /** The prompts of a sequence of `get_ai_response` calls applied in order. */
  function Session(info: HandlerInfo, history: seq<Turn>, prompts: seq<string>, backend: Backend): seq<Turn>
    decreases |prompts|
  {
    if prompts == [] then history
    else Session(info, Respond(info, history, prompts[0], backend).history, prompts[1..], backend)
  }

  /**
   * Calls only append: the old history is a prefix of the new one, each call adds one or two
   * turns, and the shape of a well-formed history (system message first, and only there) is kept.
   */
  lemma {:induction false} SessionAppendOnly(info: HandlerInfo, history: seq<Turn>, prompts: seq<string>, backend: Backend)
    requires Known(info.serviceType)
    ensures var h := Session(info, history, prompts, backend);
      && |history| + |prompts| <= |h| <= |history| + 2 * |prompts|
      && h[..|history|] == history
      && (WellFormed(history) ==> WellFormed(h))
    decreases |prompts|
  {
    if prompts != [] {
      var x := Respond(info, history, prompts[0], backend);
      SessionAppendOnly(info, x.history, prompts[1..], backend);
      var h := Session(info, history, prompts, backend);
      assert x.history[..|history|] == history by {
        assert x.history[..|history|] == x.history[..|history| + 1][..|history|];
      }
      assert h[..|history|] == h[..|x.history|][..|history|];
      if WellFormed(history) {
        forall i | 1 <= i < |x.history| ensures x.history[i].role != System {
          if i < |history| {
            assert x.history[i] == x.history[..|history|][i];
          } else if i == |history| {
            assert x.history[i] == x.history[..|history| + 1][i];
          }
        }
        assert x.history[0] == x.history[..|history|][0];
      }
    }
  }

  /** One call only appends: the old history is a prefix of the new one, and well-formedness is kept. */
  lemma RespondAppends(info: HandlerInfo, history: seq<Turn>, prompt: string, backend: Backend)
    requires Known(info.serviceType)
    ensures var h := Respond(info, history, prompt, backend).history;
      && |history| < |h| && h[..|history|] == history
      && (WellFormed(history) ==> WellFormed(h))
  {
    SessionAppendOnly(info, history, [prompt], backend);
    assert Session(info, history, [prompt], backend) == Respond(info, history, prompt, backend).history;
  }

  /**
   * Every call of the session is answered: the configuration a call needs is present and the
   * backend replies to each history it is actually sent.
   */
  ghost predicate Answered(info: HandlerInfo, history: seq<Turn>, prompts: seq<string>, backend: Backend)
  {
    && CallReady(info)
    && forall k :: 0 <= k < |prompts| ==>
         backend(CallModel(info), Session(info, history, prompts[..k], backend) + [Turn(User, prompts[k])]).Reply?
  }

  /** From a fresh or cleared history, N answered calls leave exactly 1 + 2N turns, system message first. */
  lemma {:induction false} SessionOfAnsweredCalls(info: HandlerInfo, history: seq<Turn>, prompts: seq<string>, backend: Backend)
    requires Known(info.serviceType) && Answered(info, history, prompts, backend)
    ensures |Session(info, history, prompts, backend)| == |history| + 2 * |prompts|
    ensures Session(info, history, prompts, backend)[..|history|] == history
    decreases |prompts|
  {
    SessionAppendOnly(info, history, prompts, backend);
    if prompts != [] {
      var sent := history + [Turn(User, prompts[0])];
      assert prompts[..0] == [];
      assert backend(CallModel(info), sent).Reply?;
      SuccessfulExchange(info, history, prompts[0], backend, backend(CallModel(info), sent).text);
      var next := Respond(info, history, prompts[0], backend).history;
      forall k | 0 <= k < |prompts| - 1
        ensures backend(CallModel(info), Session(info, next, prompts[1..][..k], backend) + [Turn(User, prompts[1..][k])]).Reply?
      {
        assert prompts[..k + 1][0] == prompts[0] && prompts[..k + 1][1..] == prompts[1..][..k];
        assert Session(info, history, prompts[..k + 1], backend) == Session(info, next, prompts[1..][..k], backend);
        assert prompts[1..][k] == prompts[k + 1];
      }
      SessionOfAnsweredCalls(info, next, prompts[1..], backend);
    }
  }

  /** Clearing a known handler is idempotent and gives a well-formed history of length one. */
  lemma ClearIdempotent(serviceType: string, history: seq<Turn>)
    requires Known(serviceType)
    ensures ClearedHistory(serviceType, ClearedHistory(serviceType, history)) == ClearedHistory(serviceType, history)
    ensures WellFormed(ClearedHistory(serviceType, history)) && |ClearedHistory(serviceType, history)| == 1
  {
  }

  /** `AIHandler`: the fixed configuration of a conversation and its growing history. */
  class Handler {
    const serviceType: string
    /** `self.config`, the `ai_services` section */
    const services: map<string, Section>
    /** `self.model`; the empty string for an unknown service type, which never sets it */
    const model: string
    var history: seq<Turn>

    /** The model a known handler reports is the one its configuration section names. */
    ghost predicate Valid()
    {
      Known(serviceType) ==>
        SectionName(serviceType) in services
        && "model" in services[SectionName(serviceType)]
        && model == services[SectionName(serviceType)]["model"]
    }

    function Info(): HandlerInfo
    {
      HandlerInfo(serviceType, services, model)
    }

    /** `AIHandler(config, service_type)` for a configuration that does not make it raise. */
    constructor (config: Config, serviceType: string)
      requires InitError(config, serviceType).None?
      ensures Valid()
      ensures Info() == NewInfo(config, serviceType)
      ensures history == InitialHistory(serviceType)
    {
      this.serviceType := serviceType;
      var services := Services(config);
      this.services := services;
      if Known(serviceType) {
        this.model := services[SectionName(serviceType)]["model"];
        this.history := [SystemTurn];
      } else {
        this.model := "";
        this.history := [];
      }
    }

    /** `get_ai_response(prompt)`: None when the service type is unknown. */
    method GetAiResponse(prompt: string, backend: Backend) returns (answer: Option<(string, string)>)
      modifies this
      ensures Respond(Info(), old(history), prompt, backend) == Exchange(history, answer)
    {
      if !Known(serviceType) {
        return None;
      }
      history := history + [Turn(User, prompt)];
      var name := SectionName(serviceType);
      if name !in services {
        return Some(ErrorAnswer(KeyError(name)));
      }
      var section := services[name];
      if "model" !in section {
        return Some(ErrorAnswer(KeyError("model")));
      } else if "max_tokens" !in section {
        return Some(ErrorAnswer(KeyError("max_tokens")));
      } else if "temperature" !in section {
        return Some(ErrorAnswer(KeyError("temperature")));
      }
      var reply := backend(section["model"], history);
      match reply {
        case Reply(text) =>
          history := history + [Turn(Assistant, text)];
          answer := Some((text, model));
        case Failure(detail) =>
          answer := Some(ErrorAnswer(detail));
      }
    }

    /** `clear_conversation()`: back to the single system message; an unknown service keeps its history. */
    method ClearConversation()
      modifies this
      ensures history == ClearedHistory(serviceType, old(history))
    {
      if Known(serviceType) {
        history := [SystemTurn];
      }
    }
  }

  /** Constructing a handler: the KeyError it raises, or the new handler. */
  method NewHandler(config: Config, serviceType: string) returns (r: Result<Handler, string>)
    ensures r.Err? <==> InitError(config, serviceType).Some?
    ensures r.Err? ==> r.error == InitError(config, serviceType).value
    ensures r.Ok? ==>
      && fresh(r.value) && r.value.Valid()
      && r.value.Info() == NewInfo(config, serviceType) && r.value.history == InitialHistory(serviceType)
  {
    var e := InitError(config, serviceType);
    if e.Some? {
      return Err(e.value);
    }
    var h := new Handler(config, serviceType);
    return Ok(h);
  }
}
