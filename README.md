# Chat-on-Teams in Dafny

A verified model of the logic behind Chat-on-Teams, a small relay between people and an AI chat
backend (OpenAI or Anthropic). The relay has three front ends: a Microsoft Teams group chat it
creates and then polls, a terminal chat, and a browser client served over WebSockets.

The model has one module per source file, plus two support modules:

- `AiHandler` (`ai_handler.dfy`) models `AIHandler`. The conversation history is seeded with the
  system message, and each call appends the user turn and then, if the backend answered, the
  assistant turn. A backend failure becomes the `("Error getting AI response: …", "ERROR")`
  answer, and `clear_conversation` resets the history. The backend is an oracle: a function from
  the model name and the turns sent to a reply text or a failure detail.
- `TeamsChat` (`teams_chat.dfy`) models `TeamsGroupChatCreator`:
  - the group-chat member list (the owner first);
  - the `chat_id` guard on posting;
  - the polling monitor. The monitor walks each fetched batch oldest first and skips a message
    whose id is the single last-seen id. It answers messages that start with `!hi AI!`, taking
    the prompt from character 8. An exception is logged as an error line and polling continues
    until the deadline.

  Pure specifications (`Step`, `Drain`, `Cycle`, `Monitor`) describe this behaviour, and the
  class's methods are proved against them.
- `WebApp` (`web_app.dfy`) models the WebSocket server:
  - the connection and handler registries of `ConnectionManager`;
  - the 100-entry debug log of `DebugManager`, gated by the debug mode;
  - the per-client command loop (`init`, `chat`, `/clear`);
  - the shutdown and debug endpoints.

  A client's request stream is specified by `Dispatch`/`Serve`, and the endpoint methods are
  proved against them.
- `TeamsChatCreator` (`teams_chat_creator.dfy`) models `async_main`: the argument checks, the
  interactive chat-only loop (specified by `Converse` over the commands read), the member-list
  parsing, and the preparation of a Teams chat.
- `Logger` (`logger.dfy`) models the formatters of `utils/logger.py`: the colour wrapping of chat
  records, newline escaping elsewhere, and the colours used by `chat_log` and `error_log`.
- `Text` (`text.dfy`) gives the Python `str` operations the code uses, over `seq<char>`.
  `Wrappers` (`wrappers.dfy`) holds `Option` and `Result`.

Things outside the program become parameters:

- a loaded configuration is a `Result<Config, string>` (the error is the exception's text);
- the terminal is a sequence of `Input`s (end of file is the end of the sequence);
- Graph results are `Poll` values and a `deliver` oracle;
- timestamps come from a clock parameter.

## Model

| member | source | states |
|---|---|---|
| Text.TrimStart | teams_chat_creator.py:35 | `lstrip()` drops only whitespace, and keeps a suffix starting with a non-space |
| Text.TrimEnd | teams_chat_creator.py:35 | `rstrip()` drops only whitespace, and keeps a prefix ending with a non-space |
| Text.Strip | teams_chat_creator.py:35 | `strip()` is the slice of the input that follows its leading whitespace and is followed only by whitespace, with no whitespace left at either end |
| Text.StripUnpadded | teams_chat_creator.py:63 | a string without padding at either end is its own `strip()` |
| Text.StripIdempotent | teams_chat_creator.py:63 | `strip()` applied twice equals `strip()` once |
| Text.StripEmptyIffBlank | web_app.py:168-175 | `strip()` is empty exactly when every character is whitespace |
| Text.Lower | teams_chat_creator.py:36 | `lower()` keeps the length, maps each of `A`..`Z` to its lower-case letter and keeps every other character |
| Text.Upper | teams_chat_creator.py:27 | `upper()` keeps the length, maps each of `a`..`z` to its upper-case letter and keeps every other character |
| Text.Drop | teams_chat.py:103 | slice `s[n:]` is empty past the end, otherwise the characters from position n on |
| Text.Split | teams_chat_creator.py:63 | `split(',')` gives one piece more than there are separators, none containing the separator |
| Text.JoinSplit | teams_chat_creator.py:63 | joining the pieces of a split on the same separator restores the string |
| Text.SplitJoin | teams_chat_creator.py:63 | splitting a join of separator-free pieces restores the pieces |
| Text.SplitPiece | teams_chat_creator.py:63 | a separator-free prefix extends the first piece of the split |
| Logger.EscapeNewlines | utils/logger.py:25 | no newline is left after escaping, and the length grows by one per newline |
| Logger.EscapeChar | utils/logger.py:25 | a newline becomes the two characters `\` and `n`, and any other character stays itself; with `EscapeConcat` this fixes the escaping of every string |
| Logger.EscapeConcat | utils/logger.py:25 | escaping distributes over concatenation |
| Logger.EscapeFixedIff | utils/logger.py:25 | escaping leaves a message unchanged exactly when it has no newline |
| Logger.EscapeIdempotent | utils/logger.py:24-33 | escaping an escaped message changes nothing more |
| Logger.ColoredText | utils/logger.py:18-26 | a chat record with a colour is the colour's code (none for an unknown colour), the message and the reset code. A chat record without a colour is the message itself. Any other record is the escaped message, with no newline left and one character more per newline |
| Logger.DebugText | utils/logger.py:28-33 | the debug formatter's text has no newline |
| Logger.DebugTextIsEscape | utils/logger.py:24-32 | the debug formatter's message is the escaped message, the same as the console formatter gives a record that is not a chat record |
| Logger.LogRecord.constructor | utils/logger.py:63-64 | a record carries the message, the chat flag and the optional colour it was given |
| Logger.ColoredFormat | utils/logger.py:18-26 | the output is `ColoredText`; a chat record's message is untouched, and any other record's message is overwritten with its escaped form |
| Logger.DebugFormat | utils/logger.py:28-33 | the record's message is overwritten with its escaped form, which is the output |
| Logger.ChatLog | utils/logger.py:62-64 | `chat_log` emits a chat record whose colour defaults to `chat_user` |
| Logger.ErrorLog | utils/logger.py:68-70 | `error_log` emits a chat record coloured `error` |
| Logger.ChatLogDefaultRendering | utils/logger.py:62-64 | a default `chat_log` line is rendered green and reset |
| AiHandler.ClearedHistory | ai_handler.py:73-82 | a known service's history is reset to the single system message; an unknown service's history is kept |
| AiHandler.InitError | ai_handler.py:5-27 | construction fails exactly when the service is known and its section, `api_key` or `model` is missing from `ai_services` |
| AiHandler.NewInfo | ai_handler.py:5-27 | the handler keeps the service type and the `ai_services` section; a known service's model is the one its section names |
| AiHandler.Respond | ai_handler.py:29-71 | an unknown service answers nothing and keeps the history. A known service always answers, and the history gains the user turn. It gains the assistant turn exactly when the configuration has the keys a call reads and the backend replies to the history with the new user turn; the reply's text is then returned with the configured model. Otherwise the answer is the error text with model `ERROR` |
| AiHandler.SuccessfulExchange | ai_handler.py:33-67 | when the backend replies `text` to this call, the history becomes the old one plus the user turn and `text`, and `(text, model)` is returned |
| AiHandler.FailedExchange | ai_handler.py:69-71 | when the backend fails, the answer is `("Error getting AI response: " + detail, "ERROR")` and the user turn stays without a reply |
| AiHandler.SessionAppendOnly | ai_handler.py:35-64 | any sequence of calls only appends, one or two turns per call, and keeps a well-formed history well-formed (system message first and only there) |
| AiHandler.RespondAppends | ai_handler.py:35-64 | one call appends at least one turn, keeps the old history as a prefix and keeps well-formedness |
| AiHandler.SessionOfAnsweredCalls | ai_handler.py:35-67 | when each of the N calls finds its configuration keys and the backend replies to the history that call sends, the calls add exactly 2N turns after the old history, so a fresh or cleared history ends with 1 + 2N turns |
| AiHandler.ClearIdempotent | ai_handler.py:73-82 | clearing is idempotent and leaves one well-formed turn |
| AiHandler.Handler.constructor | ai_handler.py:5-27 | a new handler has the configuration's model and starts from the initial history: the system message for a known service, empty otherwise |
| AiHandler.Handler.GetAiResponse | ai_handler.py:29-71 | the new history and the answer are those of `Respond` on the old history |
| AiHandler.Handler.ClearConversation | ai_handler.py:73-83 | the history becomes `ClearedHistory` of the old one |
| AiHandler.NewHandler | ai_handler.py:5-27 | construction fails exactly when `InitError` reports a missing key, with that error; otherwise it gives a fresh valid handler with the initial history |
| TeamsChat.TriggerPrompt | teams_chat.py:102-104 | a prompt is produced exactly when the content starts with `!hi AI!` and the content from character 8 on is not blank; the prompt is that part stripped |
| TeamsChat.PromptAfterSpace | teams_chat.py:102-104 | `!hi AI! <question>` yields the stripped question, or nothing for a blank question |
| TeamsChat.CharacterAfterMarkerDropped | teams_chat.py:103 | whatever character follows the marker is dropped as if it were the space |
| TeamsChat.UnmarkedDoesNotTrigger | teams_chat.py:102 | content without the marker does not reach the AI |
| TeamsChat.BareMarkerDoesNotTrigger | teams_chat.py:103-104 | the bare marker gives an empty prompt and does not reach the AI |
| TeamsChat.MarkedQuestionTriggers | teams_chat.py:102-104 | a marker, a space and an unpadded question give exactly that question |
| TeamsChat.Reverse | teams_chat.py:93 | the batch is walked from its last element to its first |
| TeamsChat.Post | teams_chat.py:70-77 | without a chat id the post is refused with "Chat ID not set". With one, a post the chat accepts is appended and nothing else changes; a post the chat rejects raises the send error with its detail and appends nothing |
| TeamsChat.Answer | teams_chat.py:105-107 | for a known service the history becomes that of `get_ai_response`, and the posted text is its answer formatted as `model + ": " + response`, delivered or failed as `send_chat_message` decides. A handler that returns nothing fails the unpacking |
| TeamsChat.Step | teams_chat.py:93-109 | the last-seen message and any message after an exception change nothing. A processed message becomes the last seen one unless it raised; a message that raised leaves the last id as it was, so it is fetched and processed again. At most one post is made, history and posts only grow, and nothing is sent without a handler and a trigger |
| TeamsChat.StepAnswers | teams_chat.py:100-109 | a new message carrying a trigger is answered; its id becomes the last seen one only when answering raised nothing |
| TeamsChat.StepIgnores | teams_chat.py:93-109 | a new message without a trigger, or any message when there is no AI handler, is only recorded as the last seen id |
| TeamsChat.DrainStuck | teams_chat.py:90-119 | once an exception is raised, the rest of the batch is skipped |
| TeamsChat.DrainAppendOnly | teams_chat.py:93-109 | a batch posts at most one message per element and only appends to posts and history |
| TeamsChat.DrainLastId | teams_chat.py:93-109 | after a batch processed without an exception, the last-seen id is the id of the batch's first (newest) element |
| TeamsChat.DrainQuiet | teams_chat.py:102 | a batch with no trigger, or a monitor without a handler, posts nothing and leaves the history alone |
| TeamsChat.OneTriggerOneSend | teams_chat.py:102-109 | one triggering message whose prompt the backend answers with `text` gives exactly one post `model + ": " + text`, two new turns, and its id as last seen |
| TeamsChat.OneTriggerErrorSend | teams_chat.py:102-109 | when the backend fails on the prompt, the trigger still makes exactly one post, the error answer `ERROR: Error getting AI response: <detail>`, adds only the user turn and records the message id |
| TeamsChat.AnswerDelivered | teams_chat.py:105-107 | whatever `get_ai_response` returns for a known service, once that text is delivered: exactly one post `model + ": " + response`, the new history, and no exception |
| TeamsChat.AnsweredStep | teams_chat.py:102-109 | a new triggering message whose answer is delivered makes exactly that one post, takes the handler's new history and records the message id |
| TeamsChat.DrainPair | teams_chat.py:93 | a two-message batch processes the older message first, then the newer |
| TeamsChat.PairAnswersOlder | teams_chat.py:93-109 | a fetched pair whose older message triggers is answered with one post, and the newer message becomes the last id |
| TeamsChat.RepollReprocesses | teams_chat.py:93-109 | since only one id is remembered, re-fetching the same two-message batch answers its older trigger a second time |
| TeamsChat.Settle | teams_chat.py:118-119 | a cycle's exception is cleared and logged as exactly one line, `MonitorErrorPrefix` followed by its detail; a cycle without one changes nothing |
| TeamsChat.MonitorLogsEachFailure | teams_chat.py:89-121 | over any number of cycles the monitor ends with no pending exception, and logs at most one error line per cycle, appended to the log |
| TeamsChat.MonitorCycleLog | teams_chat.py:89-121 | each cycle appends exactly its own exception to the error log, `MonitorErrorPrefix` followed by the detail, a failed fetch included, and a cycle without an exception appends nothing |
| TeamsChat.MonitorSnoc | teams_chat.py:89-121 | monitoring the first i + 1 polls is monitoring the first i and then running poll i |
| TeamsChat.Due | teams_chat.py:89 | the number of polls the loop takes: every poll before it is earlier than the deadline, and the next one, if any, is not |
| TeamsChat.ChatCreator.constructor | teams_chat.py:11-29 | a creator keeps the owner and the optional handler, and starts with no chat id and nothing posted or logged |
| TeamsChat.ChatCreator.CreateGroupChat | teams_chat.py:31-59 | the request names the chat and lists 1 + n members: the owner with role `owner` first, then every member in input order with no role |
| TeamsChat.ChatCreator.SendChatMessage | teams_chat.py:70-77 | refuses without a chat id, reports a failed delivery, and otherwise appends the content to the posts |
| TeamsChat.ChatCreator.AnswerPrompt | teams_chat.py:105-107 | the new history, posts and error are those of `Answer` from the current history and posts |
| TeamsChat.ChatCreator.ProcessMessage | teams_chat.py:94-109 | the new last id, history, posts and error are those of `Step` from the current state |
| TeamsChat.ChatCreator.PollCycle | teams_chat.py:93-109 | processing a fetched batch gives exactly `Drain` over its reversal |
| TeamsChat.ChatCreator.TryCycle | teams_chat.py:90-116 | one try block (fetch, batch and members) gives exactly `Cycle` |
| TeamsChat.ChatCreator.RunCycle | teams_chat.py:90-119 | one loop iteration gives `Cycle` followed by logging its exception |
| TeamsChat.ChatCreator.PollNext | teams_chat.py:89-121 | one turn of the loop takes the state from `Monitor` over i polls to `Monitor` over i + 1 |
| TeamsChat.ChatCreator.PollUntil | teams_chat.py:89-121 | the loop takes exactly the polls before the deadline (`Due`), and its final state is `Monitor` over them |
| TeamsChat.ChatCreator.MonitorChat | teams_chat.py:79-121 | the chat id is set. The loop runs exactly the polls taken before the deadline, start + 60 × minutes, and its final state is `Monitor` over them |
| WebApp.Messages | web_app.py:61-66 | each event becomes one `{"type", "content"}` message to the client, in order |
| WebApp.MessagesAppend | web_app.py:61-66 | the messages of two event runs are concatenated |
| WebApp.Deliveries | web_app.py:61-66 | a client without an active connection is sent nothing; otherwise it is sent its messages |
| WebApp.Appended | web_app.py:84-86 | appending to the debug buffer never takes it past 100 entries |
| WebApp.AppendedKeepsNewest | web_app.py:84-86 | the buffer after an append is the newest 100 entries of old + new. It grows until it is full, and the new entry is last |
| WebApp.Entries | web_app.py:79-84 | each logged note becomes one entry with its level and text |
| WebApp.Logged | web_app.py:76-87 | a run of notes keeps the buffer within 100 entries and changes nothing when debug mode is off |
| WebApp.LoggedConcat | web_app.py:76-87 | logging two runs of notes one after the other is logging their concatenation |
| WebApp.NewestSnoc | web_app.py:84-86 | trimming before or after an append keeps the same newest entries |
| WebApp.LoggedKeepsNewest | web_app.py:76-87 | with debug mode on, the buffer is the newest 100 entries of the old buffer followed by all new entries |
| WebApp.DebugManager.constructor | web_app.py:71-74 | debug mode starts off with an empty buffer |
| WebApp.DebugManager.AddMessage | web_app.py:76-87 | with debug mode off nothing changes; otherwise the entry is appended, dropping the oldest past 100 |
| WebApp.DebugManager.GetMessages | web_app.py:89-90 | returns the buffer |
| WebApp.DebugManager.ClearMessages | web_app.py:92-93 | the buffer is emptied |
| WebApp.ConnectionManager.SessionOf | web_app.py:44 | a client has a handler exactly when it is in `ai_handlers` |
| WebApp.ConnectionManager.constructor | web_app.py:42-44 | both registries start empty and nothing has been sent |
| WebApp.ConnectionManager.Connect | web_app.py:46-48 | the client's socket is recorded, replacing any earlier one |
| WebApp.ConnectionManager.Disconnect | web_app.py:50-54 | the client is removed from both registries and no other key changes; an absent client changes nothing |
| WebApp.ConnectionManager.DisconnectAll | web_app.py:55-58 | every open socket is closed exactly once (one close per connection) and nothing else is sent; earlier output is kept. No connection is left, and exactly the handlers of connected clients are removed |
| WebApp.ConnectionManager.CloseNext | web_app.py:57-58 | one turn of the loop closes one more pending socket, adding one close to the output, and forgets that client and its handler |
| WebApp.ConnectionManager.Register | web_app.py:151 | the client's handler is installed, replacing any earlier one |
| WebApp.ConnectionManager.ClearConversation | web_app.py:172 | only the client's history changes, to `ClearedHistory` |
| WebApp.ConnectionManager.GetAiResponse | web_app.py:176 | the answer and the client's new history are `Respond`'s, and no other client changes |
| WebApp.ConnectionManager.SendMessage | web_app.py:61-66 | one `{"type", "content"}` message goes out exactly when the client is connected |
| WebApp.Init | web_app.py:138-160 | an `init` request always sends exactly one event |
| WebApp.Chat | web_app.py:162-179 | a `chat` request sends at most one event |
| WebApp.Dispatch | web_app.py:135-179 | a request keeps handlers only for known services, sends at most one event, and an unknown or missing command does nothing |
| WebApp.Serve | web_app.py:133-179 | a request stream only appends events, at most one per request |
| WebApp.ServeSnoc | web_app.py:133-179 | serving the first i + 1 requests is serving the first i and then dispatching request i |
| WebApp.InvalidInitKeepsSession | web_app.py:142-145 | `init` with a missing or unknown service sends "Invalid AI service type" and keeps the current handler |
| WebApp.FailedInitKeepsSession | web_app.py:147-160 | an `init` whose configuration cannot be read or lacks a key sends the initialisation error and keeps the current handler |
| WebApp.InitStartsFresh | web_app.py:147-157 | a successful `init` replaces any handler with a fresh well-formed one and sends "Connected to <SERVICE> service" |
| WebApp.ClearResets | web_app.py:171-174 | `/clear` in any letter case and padding resets the history to the system message and sends the system notice |
| WebApp.BlankChatIgnored | web_app.py:168-175 | a missing or blank chat message sends nothing and changes nothing |
| WebApp.ChatBeforeInitRefused | web_app.py:163-166 | before any `init`, every chat is answered with "AI service not initialized" and no handler appears |
| WebApp.ChatOnlyExtends | web_app.py:162-179 | a request that is neither `init` nor `/clear` keeps the handler and only appends to its well-formed history |
| WebApp.ConversationOnlyGrows | web_app.py:133-179 | without `init` or `/clear`, a whole stream of requests keeps the handler and only appends to its history |
| WebApp.HandleInit | web_app.py:138-160 | the client's handler and the messages sent follow `Init`, no other client changes, and the debug log is unchanged when debug mode is off |
| WebApp.ClearChat | web_app.py:171-174 | only the client's history is cleared, the notice goes to the client, and both agree with `Chat` for a `/clear` message |
| WebApp.AnswerChat | web_app.py:175-179 | the client's history follows `Respond` on the stripped message, `model: response` goes to the client as an `ai` message, and both agree with `Chat` |
| WebApp.ChatWithHandler | web_app.py:171-179 | for a client with a handler, the handler and the messages sent follow `Chat`, and no other client changes |
| WebApp.HandleChat | web_app.py:162-179 | the client's handler and the messages sent follow `Chat`, and no other client changes |
| WebApp.HandleRequest | web_app.py:134-179 | the client's handler and the messages sent follow `Dispatch`, and no other client changes |
| WebApp.ServeNext | web_app.py:134-179 | one turn of the receive loop takes the client's handler and what it was sent from `Serve` over i requests to `Serve` over i + 1 |
| WebApp.ServeRequests | web_app.py:133-179 | after the loop, the client's handler and all messages sent follow `Serve` over the requests, and no other client changes |
| WebApp.WebsocketEndpoint | web_app.py:127-183 | a connection sends exactly the messages of `Serve` over its requests, and on disconnect leaves no trace of the client in either registry |
| WebApp.Shutdown | web_app.py:102-109 | every open connection is closed exactly once and nothing else is sent, the messages already sent are kept, the registries lose those clients, and the reply is "Server shutting down" |
| WebApp.ToggleDebug | web_app.py:111-116 | debug mode is negated, so toggling twice restores it, and the status names the new mode |
| WebApp.GetDebugMessages | web_app.py:118-120 | returns the debug buffer |
| WebApp.ClearDebugMessages | web_app.py:122-125 | the buffer is emptied and the status is "cleared" |
| TeamsChatCreator.ArgsError | teams_chat_creator.py:17-53 | chat-only mode fails exactly when no AI service is given; Teams mode fails exactly when the name or the members are missing or empty; each failure has its own message |
| TeamsChatCreator.Classify | teams_chat_creator.py:35-45 | after stripping and lower-casing, a line ends the session exactly when it is `/exit` or `/bye` and clears exactly when it is `/clear`. It does nothing exactly when it strips to the empty string; any other line is sent to the AI as the stripped line with its case kept |
| TeamsChatCreator.BlankIffWhitespace | teams_chat_creator.py:42 | a line does nothing exactly when it is all whitespace |
| TeamsChatCreator.CommandsIgnoreCase | teams_chat_creator.py:36-39 | lines that agree after stripping and lower-casing are the same command |
| TeamsChatCreator.Commands | teams_chat_creator.py:33-50 | each read gives one command, in order: Ctrl-C gives the ending command, a line gives its classification |
| TeamsChatCreator.Step | teams_chat_creator.py:39-45 | `/clear` resets the handler and shows the cleared notice; a prompt takes the history and the answer from `Respond` and shows the answer line; a blank line changes nothing and shows nothing |
| TeamsChatCreator.Converse | teams_chat_creator.py:33-50 | the session shows at most one line per read and reads no more than the input |
| TeamsChatCreator.StopsAtFirstExit | teams_chat_creator.py:36-38 | the session stops right after the first `/exit`, `/bye` or Ctrl-C |
| TeamsChatCreator.IgnoresAfterExit | teams_chat_creator.py:36-48 | nothing typed after the session ends changes what it did |
| TeamsChatCreator.EndedSaysGoodbye | teams_chat_creator.py:36-48 | a session that is ended, rather than reaching end of file, shows the goodbye line last |
| TeamsChatCreator.InterruptEndsSession | teams_chat_creator.py:46-48 | Ctrl-C with no earlier ending line stops the session right after that read, with the goodbye line last |
| TeamsChatCreator.EndOfInputIsSilent | teams_chat_creator.py:49-50 | without an ending command the whole input is read and no goodbye is shown |
| TeamsChatCreator.SessionOnlyGrows | teams_chat_creator.py:42-45 | without `/clear`, the history only grows and stays well-formed |
| TeamsChatCreator.ClearForgets | teams_chat_creator.py:39-41 | after `/clear` the earlier history no longer matters |
| TeamsChatCreator.ChatLoop | teams_chat_creator.py:33-50 | the lines shown, the inputs read and the handler's final history are exactly `Converse` over the commands read |
| TeamsChatCreator.ChatOnly | teams_chat_creator.py:17-50 | an unreadable configuration or a failed handler construction is reported as "Error: …". Otherwise the banner is shown, followed by `Converse` from the fresh history |
| TeamsChatCreator.ParseMembers | teams_chat_creator.py:63 | one id per comma-separated piece (commas + 1 of them, empty ones kept), in order, each stripped |
| TeamsChatCreator.ParsedIdsTrimmed | teams_chat_creator.py:63 | every parsed id is its own `strip()` |
| TeamsChatCreator.MembersRoundTrip | teams_chat_creator.py:63 | ids without commas or padding, joined with commas, parse back to themselves |
| TeamsChatCreator.PrepareChat | teams_chat_creator.py:55-66 | a configuration error or a failed handler is reported. Otherwise a handler is built exactly when a service is named, and the request names the chat and lists the owner and then the parsed members |
| TeamsChatCreator.AsyncMain | teams_chat_creator.py:12-71 | argument errors are reported as "Error: …". Valid arguments fail exactly on a configuration or handler error. Chat-only mode shows the banner and the session; Teams mode prepares the chat for the parsed members |

## Left out

- The OpenAI and Anthropic clients and `openai.api_key` are not modelled: a backend call is an oracle from the model name and the turns sent to a reply or a failure detail. Only the first choice or content block of a reply is represented.
- Microsoft Graph and the Azure credential are not modelled:
  - fetched batches and member lists come in as `Poll` values;
  - posting is the `deliver` oracle;
  - `create_group_chat` builds the request body, but the network post and the chat id it returns are not modelled;
  - `AsyncMain` stops at the prepared chat. Running `MonitorChat` on it is modelled separately, because the chat id comes from Graph.
- TeamsChatCreator.AsyncMain: in Teams mode the source also fails when `azure`, `graph_api` or `azure.owner_id` is missing from the configuration, printing the KeyError and exiting with status 1. The model has no such sections: the owner id is a parameter and the credential is not modelled. So "valid arguments fail exactly on a configuration or handler error" covers only the `ai_services` keys and the handler's own checks.
- The member listing of each poll is represented only by whether it failed. The display names it logs are console output.
- The wall clock, `asyncio.sleep` and timestamp formatting are parameters (`Poll.now`, `clock`, `timestamp`).
- YAML loading, argparse, `input()` with its coloured prompt, and process exit are not modelled. A loaded configuration is a `Result`, the terminal is a sequence of inputs, and the exit status is the `Failed` outcome. `--ai-service` is assumed to be one of the two choices argparse allows.
- Console output beyond what the model records (debug lines, "Successfully created group chat", member lines) is not modelled. `logger.debug` has no effect on the modelled state.
- `setup_logger`, its handler list and file handler are not modelled, nor `logging.Formatter.format`. The model stops at the message text the formatters produce.
- Python's `lower()` and `upper()` are modelled on ASCII letters only. That is enough for comparisons against `/clear`, `/exit` and `/bye`, and for the service names.
- The FastAPI app, static files, the index page, uvicorn, signal handling and the delayed `os._exit` in `/shutdown` are not modelled.
- `receive_json` errors other than disconnect are not modelled. A request field is a string or absent; other JSON values are not represented.
- Concurrency between WebSocket clients is not modelled: each connection's requests are served in sequence.
- WebApp.ConnectionManager.aiHandlers keeps each client's handler as a value (its fixed part and its history), not as a reference to a shared `AIHandler` object.
- WebApp.Serve: one `config` result stands for every `init` of a connection. The server re-reads `config.yaml` on each `init`, so a file that changes between two inits of one connection is not represented; no property here depends on it.
- WebApp.ConnectionManager.DisconnectAll: states that each open socket is closed but not the order, which is the dictionary's key order.
- WebApp.Shutdown: states the closes and the registry changes but not the order of the closes.
- WebApp.HandleInit: states the debug log only when debug mode is off. With it on, the model does not state the texts of the debug entries, only that the buffer stays within 100 entries.
- WebApp.HandleChat: states the debug log only when debug mode is off, as for `HandleInit`.
- WebApp.HandleRequest: states the debug log only when debug mode is off, as for `HandleInit`.
- WebApp.ServeRequests: states the debug log only when debug mode is off, as for `HandleInit`.
- WebApp.WebsocketEndpoint: states the debug log only when debug mode is off, as for `HandleInit`.
- WebApp.ClearChat: states the debug log only when debug mode is off, as for `HandleInit`.
- WebApp.AnswerChat: states the debug log only when debug mode is off, as for `HandleInit`.
- WebApp.ChatWithHandler: states the debug log only when debug mode is off, as for `HandleInit`.
- WebApp.ServeNext: states the debug log only when debug mode is off, as for `HandleInit`.
- microsoft_example_chat.py is not part of this model. It is an SDK usage sample with no logic of its own.
