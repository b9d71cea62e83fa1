/**
 * `TeamsGroupChatCreator`: builds the member list of a new group chat, posts messages to the
 * chat, and monitors it by polling, answering every message that starts with the activation
 * marker through the AI handler.
 *
 * Microsoft Graph is replaced by its results: a poll supplies the fetched batch (newest message
 * first, as Graph returns it) or the fetch error, and whether listing the members failed; a post
 * is delivered or fails with a detail given by the `deliver` oracle.
 */
module TeamsChat {
  import opened Wrappers
  import opened Text
  import opened AiHandler

  /** The activation marker a message must start with (case-sensitive). */
  const Marker := "!hi AI!"
  /** Where the prompt starts: the source slices at 8, one past the 7-character marker. */
  const PromptOffset: nat := 8

  const ChatIdNotSet := "Chat ID not set"
  const SendFailedPrefix := "Failed to send message: "
  const MonitorErrorPrefix := "Error while monitoring chat: "
  /** What unpacking the `None` that an inert handler returns raises. */
  const UnpackError := "cannot unpack non-iterable NoneType object"

  /** A fetched chat message: its id and its body. */
  datatype Message = Message(id: string, content: string)

  /** An `AadUserConversationMember`: its roles and the user it binds. */
  datatype ChatMember = ChatMember(roles: seq<string>, userBind: string)

  /** The body of the chat-creation request. */
  datatype ChatRequest = ChatRequest(topic: string, members: seq<ChatMember>)

  /** The `user@odata.bind` value for a user id. */
  function UserBind(userId: string): string
  {
    "https://graph.microsoft.com/v1.0/users('" + userId + "')"
  }

  /**
   * The trigger test of the polling loop: a message activates the AI when it starts with the
   * marker and `content[8:].strip()` is not empty; that stripped remainder is the prompt.
   */
  function TriggerPrompt(content: string): (p: Option<string>)
    ensures p.Some? ==> StartsWith(content, Marker) && p.value != [] && p.value == Strip(Drop(content, PromptOffset))
    ensures p.None? <==> (!StartsWith(content, Marker) || IsBlank(Drop(content, PromptOffset)))
  {
    StripEmptyIffBlank(Drop(content, PromptOffset));
    if StartsWith(content, Marker) then
      var prompt := Strip(Drop(content, PromptOffset));
      if prompt != [] then Some(prompt) else None
    else None
  }

  /** After the marker, a space and the question, the prompt is the stripped question. */
  lemma PromptAfterSpace(question: string)
    ensures TriggerPrompt(Marker + " " + question)
      == if IsBlank(question) then None else Some(Strip(question))
  {
    var content := Marker + " " + question;
    assert content[..|Marker|] == Marker;
    assert Drop(content, PromptOffset) == question;
    StripEmptyIffBlank(question);
  }

  /** Whatever character follows the marker is discarded: `"!hi AI!what"` asks `"hat"`. */
  lemma CharacterAfterMarkerDropped(c: char, question: string)
    ensures TriggerPrompt(Marker + [c] + question) == TriggerPrompt(Marker + " " + question)
  {
    var a := Marker + [c] + question;
    var b := Marker + " " + question;
    assert a[..|Marker|] == Marker && b[..|Marker|] == Marker;
    assert Drop(a, PromptOffset) == question == Drop(b, PromptOffset);
  }

  /** A message without the marker does not trigger. */
  lemma UnmarkedDoesNotTrigger()
    ensures TriggerPrompt("hello") == None
  {
    assert "hello"[0] != Marker[0];
  }

  /** The bare marker does not trigger: nothing is left to ask. */
  lemma BareMarkerDoesNotTrigger()
    ensures TriggerPrompt("!hi AI!") == None
  {
    assert Drop("!hi AI!", PromptOffset) == [];
  }

  /** A marked question without padding triggers with exactly that question as the prompt. */
  lemma MarkedQuestionTriggers(question: string)
    requires question != [] && !IsSpace(question[0]) && !IsSpace(question[|question| - 1])
    ensures TriggerPrompt(Marker + " " + question) == Some(question)
  {
    PromptAfterSpace(question);
    StripUnpadded(question);
    assert !IsBlank(question) by {
      assert !IsSpace(question[0]);
    }
  }

  /** `reversed(s)` */
  function Reverse<T>(s: seq<T>): (r: seq<T>)
    ensures |r| == |s| && forall i :: 0 <= i < |s| ==> r[i] == s[|s| - 1 - i]
  {
    if s == [] then [] else Reverse(s[1..]) + [s[0]]
  }

  /** What one poll of the loop saw: the clock, the fetched messages or the fetch error, and the member fetch. */
  datatype Poll = Poll(now: int, messages: Result<seq<Message>, string>, membersFailure: Option<string>)

  /** What a poll cycle depends on besides its state. */
  datatype Env = Env(
    handler: Option<HandlerInfo>,
    chatId: string,
    backend: Backend,
    deliver: string -> Option<string>)

  /**
   * The monitoring state: the last processed message id, the AI handler's history, the messages
   * posted, the exception ending the current cycle (if any) and the error lines logged so far.
   */
  datatype CycleState = CycleState(
    lastId: Option<string>,
    history: seq<Turn>,
    posts: seq<string>,
    error: Option<string>,
    errors: seq<string>)

  /** `send_chat_message(text)`: refused without a chat id, otherwise delivered or failed. */
  function Post(env: Env, st: CycleState, text: string): (r: CycleState)
    requires st.error.None?
    ensures r.lastId == st.lastId && r.history == st.history && r.errors == st.errors
    ensures r.error.None? <==> r.posts == st.posts + [text]
    ensures r.error.Some? ==> r.posts == st.posts
    ensures env.chatId == "" ==> r.error == Some(ChatIdNotSet)
    ensures env.chatId != "" && env.deliver(text).None? ==> r == st.(posts := st.posts + [text])
    ensures env.chatId != "" && env.deliver(text).Some? ==>
      r == st.(error := Some(SendFailedPrefix + env.deliver(text).value))
  {
    if env.chatId == "" then st.(error := Some(ChatIdNotSet))
    else match env.deliver(text)
      case Some(detail) => st.(error := Some(SendFailedPrefix + detail))
      case None => st.(posts := st.posts + [text])
  }

  /** Answering a triggered prompt: ask the AI handler, then post `model + ": " + response`. */
  function Answer(env: Env, st: CycleState, prompt: string): (r: CycleState)
    requires env.handler.Some? && st.error.None?
    ensures r.lastId == st.lastId && r.errors == st.errors
    ensures |st.posts| <= |r.posts| <= |st.posts| + 1 && r.posts[..|st.posts|] == st.posts
    ensures |st.history| <= |r.history| && r.history[..|st.history|] == st.history
    ensures Known(env.handler.value.serviceType) ==>
      var x := Respond(env.handler.value, st.history, prompt, env.backend);
      r == Post(env, st.(history := x.history), x.answer.value.1 + ": " + x.answer.value.0)
    ensures !Known(env.handler.value.serviceType) ==> r == st.(error := Some(UnpackError))
  {
    var x := Respond(env.handler.value, st.history, prompt, env.backend);
    var answered := st.(history := x.history);
    match x.answer
    case None => answered.(error := Some(UnpackError))
    case Some(a) => Post(env, answered, a.1 + ": " + a.0)
  }

  /**
   * One iteration of the loop over a fetched batch. A message is skipped exactly when its id is the
   * last processed one; otherwise a trigger is answered and the reply posted before the id is
   * recorded. An exception ends the cycle: later messages are not looked at.
   */
  function Step(env: Env, st: CycleState, m: Message): (r: CycleState)
    ensures st.error.Some? || st.lastId == Some(m.id) ==> r == st
    ensures st.error.None? && st.lastId != Some(m.id) && r.error.None? ==> r.lastId == Some(m.id)
    ensures st.error.None? && r.error.Some? ==> r.lastId == st.lastId
    ensures r.errors == st.errors
    ensures |st.posts| <= |r.posts| <= |st.posts| + 1 && r.posts[..|st.posts|] == st.posts
    ensures |st.history| <= |r.history| && r.history[..|st.history|] == st.history
    ensures env.handler.None? || TriggerPrompt(m.content).None? ==>
      r.history == st.history && r.posts == st.posts && r.error == st.error
  {
    if st.error.Some? || st.lastId == Some(m.id) then st
    else
      var prompt := if env.handler.Some? then TriggerPrompt(m.content) else None;
      match prompt
      case None => st.(lastId := Some(m.id))
      case Some(p) =>
        var r := Answer(env, st, p);
        if r.error.Some? then r else r.(lastId := Some(m.id))
  }

  /** A new triggering message is answered; its id is recorded unless answering raised. */
  lemma StepAnswers(env: Env, st: CycleState, m: Message, prompt: string)
    requires st.error.None? && st.lastId != Some(m.id) && env.handler.Some? && TriggerPrompt(m.content) == Some(prompt)
    ensures var a := Answer(env, st, prompt);
      Step(env, st, m) == if a.error.Some? then a else a.(lastId := Some(m.id))
  {
  }

  /** A new message that does not trigger, or any message without a handler, is only recorded. */
  lemma StepIgnores(env: Env, st: CycleState, m: Message)
    requires st.error.None? && st.lastId != Some(m.id) && (env.handler.None? || TriggerPrompt(m.content).None?)
    ensures Step(env, st, m) == st.(lastId := Some(m.id))
  {
  }

  /** The messages of `msgs` handed to `Step` in order. */
  function Drain(env: Env, st: CycleState, msgs: seq<Message>): CycleState
    decreases |msgs|
  {
    if msgs == [] then st else Step(env, Drain(env, st, msgs[..|msgs| - 1]), msgs[|msgs| - 1])
  }

  /** Once an exception is raised, the rest of the batch changes nothing. */
  lemma {:induction false} DrainStuck(env: Env, st: CycleState, msgs: seq<Message>, k: nat)
    requires k <= |msgs| && Drain(env, st, msgs[..k]).error.Some?
    ensures Drain(env, st, msgs) == Drain(env, st, msgs[..k])
    decreases |msgs| - k
  {
    if k < |msgs| {
      assert msgs[..k + 1][..k] == msgs[..k];
      DrainStuck(env, st, msgs, k + 1);
    } else {
      assert msgs[..k] == msgs;
    }
  }

  /**
   * A drained batch only appends: posts and history keep their old contents as a prefix, at most
   * one post is added per message, and the error log is untouched.
   */
  lemma {:induction false} DrainAppendOnly(env: Env, st: CycleState, msgs: seq<Message>)
    ensures var r := Drain(env, st, msgs);
      && |st.posts| <= |r.posts| <= |st.posts| + |msgs| && r.posts[..|st.posts|] == st.posts
      && |st.history| <= |r.history| && r.history[..|st.history|] == st.history
      && r.errors == st.errors
    decreases |msgs|
  {
    if msgs != [] {
      var mid := Drain(env, st, msgs[..|msgs| - 1]);
      DrainAppendOnly(env, st, msgs[..|msgs| - 1]);
      var r := Drain(env, st, msgs);
      assert r == Step(env, mid, msgs[|msgs| - 1]);
      assert r.posts[..|mid.posts|] == mid.posts;
      assert r.posts[..|st.posts|] == r.posts[..|mid.posts|][..|st.posts|];
      assert r.history[..|st.history|] == r.history[..|mid.history|][..|st.history|];
    }
  }

  /**
   * After a batch drained without an exception, the last processed id is the id of the batch's
   * first element (its newest message), whether that message was processed or skipped.
   */
  lemma DrainLastId(env: Env, st: CycleState, batch: seq<Message>)
    requires batch != []
    requires Drain(env, st, Reverse(batch)).error.None?
    ensures Drain(env, st, Reverse(batch)).lastId == Some(batch[0].id)
  {
    var msgs := Reverse(batch);
    var mid := Drain(env, st, msgs[..|msgs| - 1]);
    assert Drain(env, st, msgs) == Step(env, mid, batch[0]);
  }

  /**
   * A batch with no triggering message (or a loop without an AI handler) posts nothing, leaves the
   * history alone and raises nothing.
   */
  lemma {:induction false} DrainQuiet(env: Env, st: CycleState, msgs: seq<Message>)
    requires env.handler.None? || forall i :: 0 <= i < |msgs| ==> TriggerPrompt(msgs[i].content).None?
    ensures var r := Drain(env, st, msgs);
      r.posts == st.posts && r.history == st.history && r.error == st.error && r.errors == st.errors
    decreases |msgs|
  {
    if msgs != [] {
      DrainQuiet(env, st, msgs[..|msgs| - 1]);
    }
  }

  /**
   * Whatever `get_ai_response` returns for a known service, answering a prompt posts exactly
   * `model + ": " + response` once, when that post is delivered, and raises nothing.
   */
  lemma AnswerDelivered(env: Env, st: CycleState, prompt: string)
    requires st.error.None? && env.chatId != ""
    requires env.handler.Some? && Known(env.handler.value.serviceType)
    requires var x := Respond(env.handler.value, st.history, prompt, env.backend);
      env.deliver(x.answer.value.1 + ": " + x.answer.value.0).None?
    ensures var x := Respond(env.handler.value, st.history, prompt, env.backend);
      var r := Answer(env, st, prompt);
      && r.error.None? && r.lastId == st.lastId && r.history == x.history
      && r.posts == st.posts + [x.answer.value.1 + ": " + x.answer.value.0]
  {
  }

  /** A new triggering message, answered and delivered, adds that one post and becomes the last id. */
  lemma AnsweredStep(env: Env, st: CycleState, m: Message)
    requires st.error.None? && st.lastId != Some(m.id) && env.chatId != ""
    requires env.handler.Some? && Known(env.handler.value.serviceType)
    requires TriggerPrompt(m.content).Some?
    requires var x := Respond(env.handler.value, st.history, TriggerPrompt(m.content).value, env.backend);
      env.deliver(x.answer.value.1 + ": " + x.answer.value.0).None?
    ensures var x := Respond(env.handler.value, st.history, TriggerPrompt(m.content).value, env.backend);
      var r := Step(env, st, m);
      && r.error.None? && r.lastId == Some(m.id) && r.history == x.history
      && r.posts == st.posts + [x.answer.value.1 + ": " + x.answer.value.0]
  {
    AnswerDelivered(env, st, TriggerPrompt(m.content).value);
  }

  /** A batch of one message is that message's `Step`. */
  lemma DrainOne(env: Env, st: CycleState, m: Message)
    ensures Drain(env, st, Reverse([m])) == Step(env, st, m)
  {
    assert Reverse([m]) == [m];
    assert [m][..0] == [];
  }

  /**
   * A batch holding one new triggering message makes exactly one exchange and one post,
   * `model + ": " + reply`, when the backend replies to this prompt and the post is delivered.
   */
  lemma OneTriggerOneSend(env: Env, st: CycleState, m: Message, prompt: string, text: string)
    requires st.error.None? && st.lastId != Some(m.id) && env.chatId != ""
    requires env.handler.Some? && Known(env.handler.value.serviceType) && CallReady(env.handler.value)
    requires TriggerPrompt(m.content) == Some(prompt)
    requires env.backend(CallModel(env.handler.value), st.history + [Turn(User, prompt)]) == Reply(text)
    requires env.deliver(env.handler.value.model + ": " + text).None?
    ensures var r := Drain(env, st, Reverse([m]));
      && r.posts == st.posts + [env.handler.value.model + ": " + text]
      && r.history == st.history + [Turn(User, prompt), Turn(Assistant, text)]
      && r.lastId == Some(m.id) && r.error.None?
  {
    DrainOne(env, st, m);
    SuccessfulExchange(env.handler.value, st.history, prompt, env.backend, text);
    AnsweredStep(env, st, m);
  }

  /**
   * When the backend fails on the prompt, the trigger still makes exactly one post: the error
   * answer `ERROR: Error getting AI response: <detail>`; only the user turn is added.
   */
  lemma OneTriggerErrorSend(env: Env, st: CycleState, m: Message, prompt: string, detail: string)
    requires st.error.None? && st.lastId != Some(m.id) && env.chatId != ""
    requires env.handler.Some? && Known(env.handler.value.serviceType) && CallReady(env.handler.value)
    requires TriggerPrompt(m.content) == Some(prompt)
    requires env.backend(CallModel(env.handler.value), st.history + [Turn(User, prompt)]) == Failure(detail)
    requires env.deliver(ErrorModel + ": " + ErrorPrefix + detail).None?
    ensures var r := Drain(env, st, Reverse([m]));
      && r.posts == st.posts + [ErrorModel + ": " + ErrorPrefix + detail]
      && r.history == st.history + [Turn(User, prompt)]
      && r.lastId == Some(m.id) && r.error.None?
  {
    DrainOne(env, st, m);
    FailedExchange(env.handler.value, st.history, prompt, env.backend, detail);
    assert ErrorModel + ": " + (ErrorPrefix + detail) == ErrorModel + ": " + ErrorPrefix + detail;
    AnsweredStep(env, st, m);
  }

  /** A two-message batch is drained older message first. */
  lemma DrainPair(env: Env, st: CycleState, newer: Message, older: Message)
    ensures Drain(env, st, Reverse([newer, older])) == Step(env, Step(env, st, older), newer)
  {
    var msgs := Reverse([newer, older]);
    assert msgs == [older, newer];
    assert [older][..0] == [];
    assert Drain(env, st, [older]) == Step(env, st, older);
    assert msgs[..1] == [older];
  }

  /** A chat that accepts every post accepts this one. */
  lemma Delivers(env: Env, text: string)
    requires forall t :: env.deliver(t).None?
    ensures env.deliver(text).None?
  {
  }

  /**
   * A fetched pair whose older message triggers and whose newer one does not: the older one is
   * answered with one post, and the newer one becomes the last id.
   */
  lemma PairAnswersOlder(env: Env, st: CycleState, newer: Message, older: Message)
    requires st.error.None? && st.lastId != Some(older.id) && newer.id != older.id && env.chatId != ""
    requires env.handler.Some? && Known(env.handler.value.serviceType)
    requires TriggerPrompt(newer.content).None? && TriggerPrompt(older.content).Some?
    requires forall text :: env.deliver(text).None?
    ensures var r := Drain(env, st, Reverse([newer, older]));
      r.error.None? && r.lastId == Some(newer.id) && |r.posts| == |st.posts| + 1
  {
    DrainPair(env, st, newer, older);
    var x := Respond(env.handler.value, st.history, TriggerPrompt(older.content).value, env.backend);
    Delivers(env, x.answer.value.1 + ": " + x.answer.value.0);
    AnsweredStep(env, st, older);
  }

  /**
   * Deduplication remembers a single id: fetching the same two-message batch again, the older
   * message differs from the remembered (newest) id and is processed, and answered, a second time.
   */
  lemma RepollReprocesses(env: Env, st: CycleState, newer: Message, older: Message)
    requires st.error.None? && st.lastId != Some(older.id) && newer.id != older.id && env.chatId != ""
    requires env.handler.Some? && Known(env.handler.value.serviceType)
    requires TriggerPrompt(newer.content).None? && TriggerPrompt(older.content).Some?
    requires forall text :: env.deliver(text).None?
    ensures var first := Drain(env, st, Reverse([newer, older]));
      && first.lastId == Some(newer.id) && |first.posts| == |st.posts| + 1
      && var second := Drain(env, first, Reverse([newer, older]));
      && second.lastId == Some(newer.id) && |second.posts| == |st.posts| + 2
  {
    PairAnswersOlder(env, st, newer, older);
    PairAnswersOlder(env, Drain(env, st, Reverse([newer, older])), newer, older);
  }

  /** One pass of the `while` loop's `try` body: fetch, drain in reverse, then list the members. */
  function Cycle(env: Env, st: CycleState, poll: Poll): CycleState
  {
    match poll.messages
    case Err(detail) => st.(error := Some(detail))
    case Ok(batch) =>
      var drained := Drain(env, st, Reverse(batch));
      if drained.error.None? && poll.membersFailure.Some? then drained.(error := poll.membersFailure)
      else drained
  }

  /** The `except` clause: an exception is logged and the loop goes on. */
  function Settle(st: CycleState): (r: CycleState)
    ensures r.error.None?
    ensures st.error.Some? ==> r == st.(error := None, errors := st.errors + [MonitorErrorPrefix + st.error.value])
    ensures st.error.None? ==> r == st
  {
    match st.error
    case Some(detail) => st.(error := None, errors := st.errors + [MonitorErrorPrefix + detail])
    case None => st
  }

  /** The polls of a monitoring run, one cycle each, in order. */
  function Monitor(env: Env, st: CycleState, polls: seq<Poll>): CycleState
    decreases |polls|
  {
    if polls == [] then st
    else Settle(Cycle(env, Monitor(env, st, polls[..|polls| - 1]), polls[|polls| - 1]))
  }

  /** Monitoring the first `i + 1` polls is monitoring the first `i` and then running poll `i`. */
  lemma MonitorSnoc(env: Env, st: CycleState, polls: seq<Poll>, i: nat)
    requires i < |polls|
    ensures Monitor(env, st, polls[..i + 1]) == Settle(Cycle(env, Monitor(env, st, polls[..i]), polls[i]))
  {
    assert polls[..i + 1][..i] == polls[..i];
  }

  /**
   * How many cycles a monitoring run with deadline `endTime` gets through `polls`: every poll
   * before the first one whose clock reading is at or past the deadline.
   */
  function Due(polls: seq<Poll>, endTime: int): (n: nat)
    ensures n <= |polls|
    ensures forall j :: 0 <= j < n ==> polls[j].now < endTime
    ensures n < |polls| ==> polls[n].now >= endTime
    decreases |polls|
  {
    if polls == [] || polls[0].now >= endTime then 0 else 1 + Due(polls[1..], endTime)
  }

  /** A poll before the deadline, reached after fewer than `Due` polls, is itself due. */
  lemma DueStep(polls: seq<Poll>, endTime: int, i: nat)
    requires i < |polls| && polls[i].now < endTime && i <= Due(polls, endTime)
    ensures i < Due(polls, endTime)
  {
  }

  /** A failing cycle costs one logged error line and never stops the monitoring. */
  lemma {:induction false} MonitorLogsEachFailure(env: Env, st: CycleState, polls: seq<Poll>)
    requires st.error.None?
    ensures Monitor(env, st, polls).error.None?
    ensures |st.errors| <= |Monitor(env, st, polls).errors| <= |st.errors| + |polls|
    ensures Monitor(env, st, polls).errors[..|st.errors|] == st.errors
    decreases |polls|
  {
    if polls != [] {
      var mid := Monitor(env, st, polls[..|polls| - 1]);
      MonitorLogsEachFailure(env, st, polls[..|polls| - 1]);
      var c := Cycle(env, mid, polls[|polls| - 1]);
      assert c.errors == mid.errors by {
        match polls[|polls| - 1].messages {
          case Err(_) =>
          case Ok(batch) => DrainAppendOnly(env, mid, Reverse(batch));
        }
      }
      var r := Monitor(env, st, polls);
      assert r.errors[..|mid.errors|] == mid.errors;
      assert r.errors[..|st.errors|] == r.errors[..|mid.errors|][..|st.errors|];
    }
  }

  /**
   * Each cycle logs exactly its own exception: one more poll appends `MonitorErrorPrefix + detail`
   * when that cycle raised `detail` (a failed fetch among others), and nothing when it did not.
   */
  lemma MonitorCycleLog(env: Env, st: CycleState, polls: seq<Poll>, poll: Poll)
    ensures var prev := Monitor(env, st, polls);
      var raised := Cycle(env, prev, poll).error;
      var next := Monitor(env, st, polls + [poll]);
      && (raised.None? ==> next.errors == prev.errors)
      && (raised.Some? ==> next.errors == prev.errors + [MonitorErrorPrefix + raised.value])
      && (poll.messages.Err? ==> next.errors == prev.errors + [MonitorErrorPrefix + poll.messages.error])
  {
    var prev := Monitor(env, st, polls);
    assert (polls + [poll])[..|polls|] == polls;
    assert Monitor(env, st, polls + [poll]) == Settle(Cycle(env, prev, poll));
    match poll.messages {
      case Err(_) =>
      case Ok(batch) => DrainAppendOnly(env, prev, Reverse(batch));
    }
  }

  /** `TeamsGroupChatCreator`: the owner, the optional AI handler, the chat being monitored. */
  class ChatCreator {
    /** `config['azure']['owner_id']` */
    const ownerId: string
    const aiHandler: Handler?
    /** `self.chat_id`; the empty string stands for `None` (both are falsy) */
    var chatId: string
    /** messages posted to the chat, oldest first */
    var posts: seq<string>
    /** the lines `logger.error` wrote */
    var errorLog: seq<string>

    constructor (ownerId: string, aiHandler: Handler?)
      ensures this.ownerId == ownerId && this.aiHandler == aiHandler
      ensures chatId == "" && posts == [] && errorLog == []
    {
      this.ownerId := ownerId;
      this.aiHandler := aiHandler;
      chatId := "";
      posts := [];
      errorLog := [];
    }

    /** `create_group_chat(chat_name, members)`: the request body, before it is posted. */
    method CreateGroupChat(chatName: string, members: seq<string>) returns (request: ChatRequest)
      ensures request.topic == chatName
      ensures |request.members| == 1 + |members|
      ensures request.members[0] == ChatMember(["owner"], UserBind(ownerId))
      ensures forall i :: 0 <= i < |members| ==> request.members[i + 1] == ChatMember([], UserBind(members[i]))
    {
      var chatMembers := [ChatMember(["owner"], UserBind(ownerId))];
      for i := 0 to |members|
        invariant |chatMembers| == 1 + i
        invariant chatMembers[0] == ChatMember(["owner"], UserBind(ownerId))
        invariant forall j :: 0 <= j < i ==> chatMembers[j + 1] == ChatMember([], UserBind(members[j]))
      {
        chatMembers := chatMembers + [ChatMember([], UserBind(members[i]))];
      }
      request := ChatRequest(chatName, chatMembers);
    }

    /** `send_chat_message(content)` where `delivery` is the failure detail of the Graph post, if any. */
    method SendChatMessage(content: string, delivery: Option<string>) returns (error: Option<string>)
      modifies this`posts
      ensures chatId == "" ==> error == Some(ChatIdNotSet) && posts == old(posts)
      ensures chatId != "" && delivery.Some? ==>
        error == Some(SendFailedPrefix + delivery.value) && posts == old(posts)
      ensures chatId != "" && delivery.None? ==> error.None? && posts == old(posts) + [content]
    {
      if chatId == "" {
        return Some(ChatIdNotSet);
      }
      match delivery {
        case Some(detail) =>
          error := Some(SendFailedPrefix + detail);
        case None =>
          posts := posts + [content];
          error := None;
      }
    }

    function CurrentEnv(backend: Backend, deliver: string -> Option<string>): Env
      reads this`chatId
    {
      Env(if aiHandler == null then None else Some(aiHandler.Info()), chatId, backend, deliver)
    }

    function History(): seq<Turn>
      reads aiHandler
    {
      if aiHandler == null then [] else aiHandler.history
    }

    /** Ask the AI handler about a triggered prompt and post its answer. */
    method AnswerPrompt(prompt: string, backend: Backend, deliver: string -> Option<string>,
                        ghost env: Env, ghost st: CycleState)
      returns (error: Option<string>)
      requires aiHandler != null
      requires env == CurrentEnv(backend, deliver)
      requires st.history == History() && st.posts == posts && st.error.None? && st.errors == errorLog
      modifies this`posts, aiHandler
      ensures CycleState(st.lastId, History(), posts, error, errorLog) == Answer(env, st, prompt)
    {
      var answer := aiHandler.GetAiResponse(prompt, backend);
      match answer {
        case None =>
          error := Some(UnpackError);
        case Some(a) =>
          var text := a.1 + ": " + a.0;
          error := SendChatMessage(text, deliver(text));
      }
    }

    /**
     * The body of the loop over a batch for one message: skip it if its id is the last processed
     * one, otherwise answer it when it triggers, post the reply, and record its id.
     */
    method ProcessMessage(m: Message, lastId: Option<string>, backend: Backend, deliver: string -> Option<string>,
                          ghost env: Env, ghost st: CycleState)
      returns (newLast: Option<string>, error: Option<string>)
      requires env == CurrentEnv(backend, deliver)
      requires st == CycleState(lastId, History(), posts, None, errorLog)
      modifies this`posts, aiHandler
      ensures CycleState(newLast, History(), posts, error, errorLog) == Step(env, st, m)
    {
      newLast, error := lastId, None;
      if Some(m.id) == lastId {
        return;
      }
      if aiHandler != null && StartsWith(m.content, Marker) && Strip(Drop(m.content, PromptOffset)) != "" {
        var prompt := Strip(Drop(m.content, PromptOffset));
        assert TriggerPrompt(m.content) == Some(prompt);
        StepAnswers(env, st, m, prompt);
        error := AnswerPrompt(prompt, backend, deliver, env, st);
        if error.None? {
          newLast := Some(m.id);
        }
      } else {
        assert aiHandler == null || TriggerPrompt(m.content).None?;
        newLast := Some(m.id);
        StepIgnores(env, st, m);
      }
    }

    /**
     * The `for message in reversed(messages.value)` loop over one fetched batch: returns the
     * last processed id and the exception that ended it early, if any.
     */
    method PollCycle(batch: seq<Message>, lastId: Option<string>, backend: Backend, deliver: string -> Option<string>)
      returns (newLast: Option<string>, error: Option<string>)
      modifies this`posts, aiHandler
      ensures CycleState(newLast, History(), posts, error, errorLog)
        == Drain(CurrentEnv(backend, deliver), CycleState(lastId, old(History()), old(posts), None, errorLog), Reverse(batch))
    {
      var env := CurrentEnv(backend, deliver);
      ghost var init := CycleState(lastId, History(), posts, None, errorLog);
      var msgs := Reverse(batch);
      newLast, error := lastId, None;
      var i := 0;
      while i < |msgs| && error.None?
        invariant 0 <= i <= |msgs|
        invariant env == CurrentEnv(backend, deliver)
        invariant CycleState(newLast, History(), posts, error, errorLog) == Drain(env, init, msgs[..i])
      {
        ghost var before := Drain(env, init, msgs[..i]);
        assert msgs[..i + 1][..i] == msgs[..i];
        assert Drain(env, init, msgs[..i + 1]) == Step(env, before, msgs[i]);
        newLast, error := ProcessMessage(msgs[i], newLast, backend, deliver, env, before);
        i := i + 1;
      }
      if i < |msgs| {
        DrainStuck(env, init, msgs, i);
      } else {
        assert msgs[..i] == msgs;
      }
    }

    /** One pass of the `try` body: fetch, the loop over the batch, then the member listing. */
    method TryCycle(poll: Poll, lastId: Option<string>, backend: Backend, deliver: string -> Option<string>)
      returns (newLast: Option<string>, error: Option<string>)
      modifies this`posts, aiHandler
      ensures CycleState(newLast, History(), posts, error, errorLog)
        == Cycle(CurrentEnv(backend, deliver), CycleState(lastId, old(History()), old(posts), None, errorLog), poll)
    {
      match poll.messages {
        case Err(detail) =>
          newLast, error := lastId, Some(detail);
        case Ok(batch) =>
          newLast, error := PollCycle(batch, lastId, backend, deliver);
          if error.None? && poll.membersFailure.Some? {
            error := poll.membersFailure;
          }
      }
    }

    /** One iteration of the `while` loop: the `try` body, and the `except` clause logging its exception. */
    method RunCycle(poll: Poll, lastId: Option<string>, backend: Backend, deliver: string -> Option<string>)
      returns (newLast: Option<string>)
      modifies this`posts, this`errorLog, aiHandler
      ensures CycleState(newLast, History(), posts, None, errorLog)
        == Settle(Cycle(CurrentEnv(backend, deliver), CycleState(lastId, old(History()), old(posts), None, old(errorLog)), poll))
    {
      var error;
      newLast, error := TryCycle(poll, lastId, backend, deliver);
      if error.Some? {
        errorLog := errorLog + [MonitorErrorPrefix + error.value];
      }
    }

    /** One turn of the polling loop: the state moves from `Monitor` over `i` polls to `Monitor` over `i + 1`. */
    method PollNext(polls: seq<Poll>, i: nat, lastId: Option<string>, backend: Backend,
                    deliver: string -> Option<string>, ghost env: Env, ghost init: CycleState)
      returns (newLast: Option<string>)
      requires i < |polls| && env == CurrentEnv(backend, deliver)
      requires CycleState(lastId, History(), posts, None, errorLog) == Monitor(env, init, polls[..i])
      modifies this`posts, this`errorLog, aiHandler
      ensures CycleState(newLast, History(), posts, None, errorLog) == Monitor(env, init, polls[..i + 1])
    {
      MonitorSnoc(env, init, polls, i);
      newLast := RunCycle(polls[i], lastId, backend, deliver);
    }

    /**
     * The polling loop of `monitor_chat` with deadline `endTime`: one cycle per poll while the
     * poll's clock reading is before the deadline, or until the supplied polls run out.
     */
    method PollUntil(endTime: int, polls: seq<Poll>, backend: Backend, deliver: string -> Option<string>)
      returns (cycles: nat, ghost lastSeen: Option<string>)
      modifies this`posts, this`errorLog, aiHandler
      ensures cycles == Due(polls, endTime)
      ensures CycleState(lastSeen, History(), posts, None, errorLog)
          == Monitor(CurrentEnv(backend, deliver), CycleState(None, old(History()), old(posts), None, old(errorLog)), polls[..cycles])
    {
      var lastId: Option<string> := None;
      ghost var env := CurrentEnv(backend, deliver);
      ghost var init := CycleState(None, History(), posts, None, errorLog);
      cycles := 0;
      while cycles < |polls| && polls[cycles].now < endTime
        invariant cycles <= Due(polls, endTime)
        invariant env == CurrentEnv(backend, deliver)
        invariant CycleState(lastId, History(), posts, None, errorLog) == Monitor(env, init, polls[..cycles])
      {
        DueStep(polls, endTime, cycles);
        lastId := PollNext(polls, cycles, lastId, backend, deliver, env, init);
        cycles := cycles + 1;
      }
      lastSeen := lastId;
    }

    /**
     * `monitor_chat(chat_id, duration_minutes)` started at time `start`: records the chat id and
     * polls until `start + duration_minutes * 60`. Returns the number of cycles run and the last
     * processed id.
     */
    method MonitorChat(chatId: string, durationMinutes: int, start: int, polls: seq<Poll>,
                       backend: Backend, deliver: string -> Option<string>)
      returns (cycles: nat, ghost lastSeen: Option<string>)
      modifies this, aiHandler
      ensures this.chatId == chatId
      ensures cycles == Due(polls, start + durationMinutes * 60)
      ensures CycleState(lastSeen, History(), posts, None, errorLog)
          == Monitor(CurrentEnv(backend, deliver), CycleState(None, old(History()), old(posts), None, old(errorLog)), polls[..cycles])
    {
      this.chatId := chatId;
      var endTime := start + durationMinutes * 60;
      cycles, lastSeen := PollUntil(endTime, polls, backend, deliver);
    }
  }
}
