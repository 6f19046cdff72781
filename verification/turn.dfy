/**
 * One chat turn, `get_message` in `providers.rs`: the user's message is
 * stored and rendered, the chat gets a placeholder name if it has none,
 * the provider's key and the chat's history are read, the provider is
 * asked for an answer, the answer is stored and rendered, and finally a
 * chat that still has its placeholder name is named by a second request,
 * while any other chat only has its `last_updated` stamp moved.
 *
 * The store is the chats and messages tables; every statement's failure,
 * every fresh id, every timestamp and both network dispatches are inputs
 * (`TurnEnv`). The turn is specified by the function `Turn`, which the
 * method `GetMessage` is proved to follow step by step.
 */
module Turn {
  import opened Wrappers
  import opened Strings
  import opened Types
  import opened ChatsDb
  import opened MessagesDb
  import LlmProviders
  import ProvidersDb
  import Render

  const PLACEHOLDER_PREFIX := "unnamed_new_chat_"
  /** `max_tokens` of the answer request. */
  const MAX_TOKENS := 4096
  /** `MAX_DISPLAY_NAME_LENGTH`: `max_tokens` of the naming request. */
  const MAX_DISPLAY_NAME_LENGTH := 32
  /** `Error: Invalid API key or authentication failed.`: the provider's own message, prefixed and closed. */
  const CLAUDE_AUTH_FAILED := "Error: " + LlmProviders.AUTH_FAILED + "."
  /** The name a provider without a naming request gives the chat. */
  const NO_TITLE := "Error fetching chat name"

  /** The text of the naming request, around the two quoted messages. */
  const TITLE_OPENING := "Please respond with the topic of the thread for these two messages:" + INDENT + "'user': '"
  const TITLE_MIDDLE := "'," + INDENT + "'assistant': '"
  const TITLE_CLOSING := "'" + INDENT + TITLE_RULE_1 + INDENT + TITLE_RULE_2
  /** A line break and the eight tabs of the source's indentation, which are part of the request text. */
  const INDENT := "\n\t\t\t\t\t\t\t\t"
  const TITLE_RULE_1 := "Your response will be used to name the chat, therefore omit any other content from your response, keep it short and use the language used in the prompt."
  const TITLE_RULE_2 := "Do not use quotation marks. Capitalize the first letter of your answer."

  /** A message of the language-model library's chat memory. */
  datatype ChatMessage = Human(content: string) | Ai(content: string)

  /**
   * What a request carries: the library's chat memory, or the history in a
   * provider's wire format (`render("openai")` / `render("anthropic")`),
   * whose encoding is not part of this model.
   */
  datatype Prompt = Memory(messages: seq<ChatMessage>) | Rendered(wire: string, history: MessageHistory)

  /** One request to a provider: its key, the model (None: the library's default), `max_tokens` and the prompt. */
  datatype Request = Request(provider: string, apiKey: string, model: Option<string>, maxTokens: nat, prompt: Prompt)

  /** A network dispatch: the answer text or the error's text. */
  type Dispatch = Request -> Result<string, string>

  /** The statements and events of a turn, in the order they are issued. */
  datatype Effect =
    | WroteMessage(messageId: string, role: string)
    | WroteBlocks(blocksOf: string)
    | Emitted(event: string, chat: Option<string>)
    | ReadName(nameOf: string)
    | WroteChat(newChat: string, placeholder: string)
    | ReadKey(keyOf: string)
    | ReadHistory(historyOf: string)
    | Sent(answerRequest: Request)
    | SentTitle(titleRequest: Request)
    | WroteName(renamed: string, newName: string)
    | WroteTimestamp(touched: string)

  /**
   * Everything a turn takes from outside: fresh ids, timestamps, the code
   * theme and the highlighter, the fate of each statement, and the two
   * network dispatches. `render` is what `render_message` makes of a text
   * with that theme and highlighter (`RendersWith`).
   */
  datatype TurnEnv = TurnEnv(
    userMessageId: string,
    answerId: string,
    createdAt: string,
    touchedAt: string,
    codeTheme: string,
    highlight: Render.Highlighter,
    render: string -> seq<MessageBlock>,
    userInsertOk: bool,
    userBlockFails: set<int>,
    nameFetchError: Option<string>,
    chatInsertError: Option<string>,
    keyFetchError: Option<string>,
    historyFetchError: Option<string>,
    answerCall: Dispatch,
    answerInsertOk: bool,
    answerBlockFails: set<int>,
    nameRefetchError: Option<string>,
    titleCall: Dispatch,
    renameError: Option<string>,
    touchError: Option<string>)

  /** The turn's end: the command's result, or a panic with its message. */
  datatype TurnOutcome = Returned(result: Result<string, string>) | Panicked(reason: string)

  /** The chats and messages tables. */
  datatype Store = Store(chats: seq<ChatRow>, messages: seq<MessageRow>, blocks: seq<BlockRow>, nextBlockId: int)

  /** A finished turn: its outcome, the store it leaves, and what it did. */
  datatype Run = Run(outcome: TurnOutcome, store: Store, trace: seq<Effect>)

  /** The answer step's result: a text to store, or the panic of an unwrapped error. */
  datatype Answer = Answer(text: string) | AnswerPanic(reason: string)

  /** The naming step's result: a name to write, or the early reply that leaves the chat unnamed. */
  datatype Title = Named(name: string) | Abandoned(reply: string)

  // ---------------------------------------------------------------------
  // The steps, as functions

  /** The placeholder name of a new chat. */
  function Placeholder(chatId: string): string
  {
    PLACEHOLDER_PREFIX + chatId
  }

  /** A message row and its rendered blocks, stored as `insert_message` and `insert_message_blocks` store them. */
  function WithMessage(s: Store, id: string, role: string, content: string, chatId: string, model: string,
                       insertOk: bool, blockFails: set<int>, rendered: seq<MessageBlock>): (r: Store)
    ensures r.chats == s.chats
    ensures s.messages <= r.messages
    ensures r.messages[|s.messages|..] == if insertOk then [MessageRow(id, role, content, chatId, model)] else []
  {
    var added := InsertedBlocks(id, rendered, blockFails, s.nextBlockId);
    s.(messages := s.messages + (if insertOk then [MessageRow(id, role, content, chatId, model)] else []),
       blocks := s.blocks + added,
       nextBlockId := s.nextBlockId + |added|)
  }

  /** The chat-name check of the turn's start: a chat without a name is created with the placeholder. */
  function EnsuredChat(rows: seq<ChatRow>, chatId: string, model: string, now: string,
                       fetchError: Option<string>, insertError: Option<string>): (seq<ChatRow>, seq<Effect>)
  {
    if fetchError.Some? || DisplayNameOf(rows, chatId).Some? then (rows, [ReadName(chatId)])
    else if insertError.Some? then (rows, [ReadName(chatId), WroteChat(chatId, Placeholder(chatId))])
    else (rows + [NewChat(chatId, model, Placeholder(chatId), now)],
          [ReadName(chatId), WroteChat(chatId, Placeholder(chatId)), Emitted("newChat", Some(chatId))])
  }

  /** One stored message as a chat-memory message; any role but `user` and `assistant` has none. */
  function Converted(m: Message): Option<ChatMessage>
  {
    if m.role == "user" then Some(Human(m.content))
    else if m.role == "assistant" then Some(Ai(m.content))
    else None
  }

  /** The position of the first message without a chat-memory form, or `|history|`. */
  function FirstInvalid(history: MessageHistory): (k: nat)
    ensures k <= |history|
    ensures forall j :: 0 <= j < k ==> Converted(history[j]).Some?
    ensures k < |history| ==> Converted(history[k]).None?
  {
    if history == [] || Converted(history[0]).None? then 0
    else
      var k := FirstInvalid(history[1..]);
      assert forall j :: 1 <= j < k + 1 ==> history[j] == history[1..][j - 1];
      k + 1
  }

  /** The chat memory of a history whose every message has one. */
  function MemoryOf(history: MessageHistory): (r: seq<ChatMessage>)
    requires FirstInvalid(history) == |history|
    ensures |r| == |history|
    ensures forall k :: 0 <= k < |history| ==> Converted(history[k]) == Some(r[k])
  {
    seq(|history|, k requires 0 <= k < |history| => Converted(history[k]).value)
  }

  /** The providers the answer step sends a request to. */
  predicate Dispatched(provider: string)
  {
    provider == "openai" || provider == "anthropic" || provider == "mistralai" || provider == "groqcloud"
  }

  /**
   * The answer request: the library clients of OpenAI and Anthropic take
   * the chat memory and their own default model; Mistral and Groq take the
   * chat's model and the history in OpenAI's wire format.
   */
  function AnswerRequest(provider: string, apiKey: string, model: string, history: MessageHistory,
                         memory: seq<ChatMessage>): Request
  {
    if provider == "openai" || provider == "anthropic" then Request(provider, apiKey, None, MAX_TOKENS, Memory(memory))
    else Request(provider, apiKey, Some(model), MAX_TOKENS, Rendered("openai", history))
  }

  /** The answer text an Anthropic failure becomes. */
  function ClaudeFailure(e: string): string
  {
    if LlmProviders.MentionsAuthentication(e) then CLAUDE_AUTH_FAILED else "An error occurred: " + e
  }

  /** The answer step: the provider's reply, or the text its failure becomes. */
  function AnswerFor(provider: string, request: Request, call: Dispatch): Answer
  {
    if provider == "openai" then
      match call(request)
      case Ok(text) => Answer(text)
      case Err(e) => AnswerPanic(e)
    else if provider == "anthropic" then
      match call(request)
      case Ok(text) => Answer(text)
      case Err(e) => Answer(ClaudeFailure(e))
    else if provider == "mistralai" || provider == "groqcloud" then
      match call(request)
      case Ok(text) => Answer(text)
      case Err(e) => Answer(e)
    else Answer("Provider " + provider + " not implemented")
  }

  /** The naming request's text: the two messages quoted in the instructions. */
  function TitlePrompt(msg: string, answer: string): string
  {
    TITLE_OPENING + msg + TITLE_MIDDLE + answer + TITLE_CLOSING
  }

  /** How a naming failure names the provider; None for a provider without a naming request. */
  function TitleLabel(provider: string): Option<string>
  {
    if provider == "openai" then Some("OpenAI")
    else if provider == "anthropic" then Some("Anthropic")
    else if provider == "mistralai" then Some("Mistral")
    else if provider == "groqcloud" then Some("Groq")
    else None
  }

  /** The naming request: the chat's model, 32 tokens, one user message in the provider's wire format. */
  function TitleRequest(provider: string, apiKey: string, model: string, msg: string, answer: string): Request
  {
    Request(provider, apiKey, Some(model), MAX_DISPLAY_NAME_LENGTH,
            Rendered(if provider == "anthropic" then "anthropic" else "openai",
                     [Message("none", "user", TitlePrompt(msg, answer), "", None)]))
  }

  /** The naming step: the name, or the early reply that a failed request becomes. */
  function TitleFor(provider: string, apiKey: string, model: string, msg: string, answer: string, call: Dispatch): Title
  {
    match TitleLabel(provider)
    case None => Named(NO_TITLE)
    case Some(who) =>
      match call(TitleRequest(provider, apiKey, model, msg, answer))
      case Ok(name) => Named(name)
      case Err(e) => Abandoned("Error fetching chat name from " + who + ": " + e)
  }

  /** The name check after the answer: naming a placeholder chat, or touching any other. */
  function Finished(rows: seq<ChatRow>, chatId: string, provider: string, apiKey: string, model: string,
                    msg: string, answer: string, env: TurnEnv): (Result<string, string>, seq<ChatRow>, seq<Effect>)
  {
    var read := [ReadName(chatId)];
    if env.nameRefetchError.Some? || DisplayNameOf(rows, chatId).None? then (Ok(answer), rows, read)
    else if StartsWith(DisplayNameOf(rows, chatId).value, PLACEHOLDER_PREFIX) then
      var sent := if TitleLabel(provider).Some? then [SentTitle(TitleRequest(provider, apiKey, model, msg, answer))] else [];
      match TitleFor(provider, apiKey, model, msg, answer, env.titleCall)
      case Abandoned(reply) => (Ok(reply), rows, read + sent)
      case Named(name) =>
        if env.renameError.Some? then (Err(env.renameError.value), rows, read + sent + [WroteName(chatId, name)])
        else (Ok(answer), Renamed(rows, chatId, name), read + sent + [WroteName(chatId, name)] + [Emitted("newChat", None)])
    else if env.touchError.Some? then (Err(env.touchError.value), rows, read + [WroteTimestamp(chatId)])
    else (Ok(answer), Touched(rows, chatId, env.touchedAt), read + [WroteTimestamp(chatId)])
  }

  /** The turn from the history read on, with the key in hand. */
  function Answering(msg: string, chatId: string, provider: string, model: string, apiKey: string,
                     env: TurnEnv, s: Store, t: seq<Effect>): Run
  {
    var t1 := t + [ReadHistory(chatId)];
    if env.historyFetchError.Some? then Run(Returned(Err("Database error: " + env.historyFetchError.value)), s, t1)
    else
      var history := ChatMessages(s.messages, chatId);
      var k := FirstInvalid(history);
      if k < |history| then Run(Panicked("Invalid message type: " + history[k].role), s, t1)
      else
        var request := AnswerRequest(provider, apiKey, model, history, MemoryOf(history));
        var t2 := t1 + (if Dispatched(provider) then [Sent(request)] else []);
        match AnswerFor(provider, request, env.answerCall)
        case AnswerPanic(reason) => Run(Panicked(reason), s, t2)
        case Answer(answer) => Concluded(msg, chatId, provider, model, apiKey, answer, env, s, t2)
  }

  /** The turn from the answer on: storing it, then the name check. */
  function Concluded(msg: string, chatId: string, provider: string, model: string, apiKey: string,
                     answer: string, env: TurnEnv, s: Store, t: seq<Effect>): Run
  {
    var s1 := WithMessage(s, env.answerId, "assistant", answer, chatId, model,
                          env.answerInsertOk, env.answerBlockFails, env.render(answer));
    var t1 := t + [WroteMessage(env.answerId, "assistant"), WroteBlocks(env.answerId), Emitted("newMessage", Some(chatId))];
    var fin := Finished(s1.chats, chatId, provider, apiKey, model, msg, answer, env);
    Run(Returned(fin.0), s1.(chats := fin.1), t1 + fin.2)
  }

  /** The prefix of every turn: the user's message and the chat-name check. */
  function Opening(msg: string, chatId: string, model: string, env: TurnEnv, s: Store): (Store, seq<Effect>)
  {
    var s1 := WithMessage(s, env.userMessageId, "user", msg, chatId, model,
                          env.userInsertOk, env.userBlockFails, env.render(msg));
    var ensured := EnsuredChat(s1.chats, chatId, model, env.createdAt, env.nameFetchError, env.chatInsertError);
    (s1.(chats := ensured.0),
     [WroteMessage(env.userMessageId, "user"), WroteBlocks(env.userMessageId), Emitted("newMessage", Some(chatId))] + ensured.1)
  }

  /**
   * `get_message`. `keyLookup` is what `get_api_key` returns for the
   * provider; it is read only when the provider is not `local`.
   */
  function Turn(msg: string, chatId: string, provider: string, model: string,
                keyLookup: Result<string, string>, env: TurnEnv, s: Store): Run
  {
    var opening := Opening(msg, chatId, model, env, s);
    if provider == "local" then Answering(msg, chatId, provider, model, "", env, opening.0, opening.1)
    else if keyLookup.Err? then Run(Returned(Err(keyLookup.error)), opening.0, opening.1 + [ReadKey(provider)])
    else Answering(msg, chatId, provider, model, keyLookup.value, env, opening.0, opening.1 + [ReadKey(provider)])
  }

  // ---------------------------------------------------------------------
  // The steps, as methods over the tables

  /** The store as the turn sees it. */
  function Snapshot(chats: ChatsTable, messages: MessagesTable): Store
    reads chats, messages
  {
    Store(chats.rows, messages.messages, messages.blocks, messages.nextBlockId)
  }

  /** Lines 46-49 and 183-186: a message row, then its rendered blocks, whatever became of the row. */
  method StoreMessage(chats: ChatsTable, messages: MessagesTable, id: string, role: string, content: string,
                      chatId: string, model: string, insertOk: bool, blockFails: set<int>, theme: string,
                      highlight: Render.Highlighter, rendered: seq<MessageBlock>)
    requires rendered == Render.RenderedBlocks(content, theme, highlight)
    modifies messages
    ensures Snapshot(chats, messages)
            == WithMessage(old(Snapshot(chats, messages)), id, role, content, chatId, model, insertOk, blockFails, rendered)
  {
    messages.InsertMessage(id, role, content, chatId, model, insertOk);
    var blocks := Render.RenderMessage(content, theme, highlight);
    messages.InsertMessageBlocks(id, blocks, blockFails);
  }

  /** `render` is `render_message` with the turn's theme and highlighter. */
  ghost predicate RendersWith(env: TurnEnv)
  {
    forall c :: env.render(c) == Render.RenderedBlocks(c, env.codeTheme, env.highlight)
  }

  /** Lines 54-72: a chat without a display name is inserted with the placeholder. */
  method EnsureChat(chats: ChatsTable, chatId: string, model: string, now: string,
                    fetchError: Option<string>, insertError: Option<string>) returns (effects: seq<Effect>)
    modifies chats
    ensures (chats.rows, effects) == EnsuredChat(old(chats.rows), chatId, model, now, fetchError, insertError)
  {
    effects := [ReadName(chatId)];
    var name := chats.GetChatDisplayName(chatId, fetchError);
    if name == Ok(None) {
      var inserted := chats.InsertChatDisplayName(chatId, model, Placeholder(chatId), now, insertError);
      if inserted.Ok? {
        effects := [ReadName(chatId), WroteChat(chatId, Placeholder(chatId)), Emitted("newChat", Some(chatId))];
      } else {
        effects := [ReadName(chatId), WroteChat(chatId, Placeholder(chatId))];
      }
    }
  }

  /** Lines 91-103: every message of the history into the chat memory, in order; another role panics. */
  method BuildMemory(history: MessageHistory) returns (r: Result<seq<ChatMessage>, string>)
    ensures FirstInvalid(history) == |history| ==> r == Ok(MemoryOf(history))
    ensures FirstInvalid(history) < |history| ==> r == Err("Invalid message type: " + history[FirstInvalid(history)].role)
  {
    var memory: seq<ChatMessage> := [];
    var i := 0;
    while i < |history|
      invariant 0 <= i <= |history| && |memory| == i
      invariant forall k :: 0 <= k < i ==> Converted(history[k]) == Some(memory[k])
    {
      var m := history[i];
      if m.role == "user" {
        memory := memory + [Human(m.content)];
      } else if m.role == "assistant" {
        memory := memory + [Ai(m.content)];
      } else {
        FirstInvalidIs(history, i);
        return Err("Invalid message type: " + m.role);
      }
      i := i + 1;
    }
    FirstInvalidIs(history, i);
    assert memory == MemoryOf(history);
    r := Ok(memory);
  }

  /** Lines 191-319: naming a placeholder chat, or touching any other. */
  method Finish(chats: ChatsTable, chatId: string, provider: string, apiKey: string, model: string,
                msg: string, answer: string, env: TurnEnv) returns (result: Result<string, string>, effects: seq<Effect>)
    modifies chats
    ensures (result, chats.rows, effects) == Finished(old(chats.rows), chatId, provider, apiKey, model, msg, answer, env)
  {
    var read := [ReadName(chatId)];
    var name := chats.GetChatDisplayName(chatId, env.nameRefetchError);
    if name.Err? || name.value.None? {
      return Ok(answer), read;
    }
    if StartsWith(name.value.value, PLACEHOLDER_PREFIX) {
      var sent := if TitleLabel(provider).Some? then [SentTitle(TitleRequest(provider, apiKey, model, msg, answer))] else [];
      var title := TitleFor(provider, apiKey, model, msg, answer, env.titleCall);
      if title.Abandoned? {
        return Ok(title.reply), read + sent;
      }
      effects := read + sent + [WroteName(chatId, title.name)];
      var renamed := chats.RenameChat(chatId, title.name, env.renameError);
      if renamed.Err? {
        return Err(renamed.error), effects;
      }
      effects := effects + [Emitted("newChat", None)];
    } else {
      effects := read + [WroteTimestamp(chatId)];
      var touched := chats.TouchChat(chatId, env.touchedAt, env.touchError);
      if touched.Err? {
        return Err(touched.error), effects;
      }
    }
    result := Ok(answer);
  }

  /** Lines 82-181: the history, the chat memory and the answer, once the key is known. */
  method Respond(chats: ChatsTable, messages: MessagesTable, msg: string, chatId: string, provider: string,
                 model: string, apiKey: string, env: TurnEnv, t: seq<Effect>) returns (out: TurnOutcome, trace: seq<Effect>)
    requires RendersWith(env)
    modifies chats, messages
    ensures Run(out, Snapshot(chats, messages), trace) == Answering(msg, chatId, provider, model, apiKey, env, old(Snapshot(chats, messages)), t)
  {
    trace := t + [ReadHistory(chatId)];
    var fetched := messages.GetMessages(chatId, env.historyFetchError);
    if fetched.Err? {
      return Returned(Err(fetched.error)), trace;
    }
    var history := fetched.value;
    var memory := BuildMemory(history);
    if memory.Err? {
      return Panicked(memory.error), trace;
    }
    var request := AnswerRequest(provider, apiKey, model, history, memory.value);
    trace := trace + (if Dispatched(provider) then [Sent(request)] else []);
    var answer := AnswerFor(provider, request, env.answerCall);
    if answer.AnswerPanic? {
      return Panicked(answer.reason), trace;
    }
    out, trace := Conclude(chats, messages, msg, chatId, provider, model, apiKey, answer.text, env, trace);
  }

  /** Lines 183-319: the answer stored and rendered, then the name check. */
  method Conclude(chats: ChatsTable, messages: MessagesTable, msg: string, chatId: string, provider: string,
                  model: string, apiKey: string, answer: string, env: TurnEnv, t: seq<Effect>)
    returns (out: TurnOutcome, trace: seq<Effect>)
    requires RendersWith(env)
    modifies chats, messages
    ensures Run(out, Snapshot(chats, messages), trace) == Concluded(msg, chatId, provider, model, apiKey, answer, env, old(Snapshot(chats, messages)), t)
  {
    StoreMessage(chats, messages, env.answerId, "assistant", answer, chatId, model,
                 env.answerInsertOk, env.answerBlockFails, env.codeTheme, env.highlight, env.render(answer));
    trace := t + [WroteMessage(env.answerId, "assistant"), WroteBlocks(env.answerId), Emitted("newMessage", Some(chatId))];
    var result, effects := Finish(chats, chatId, provider, apiKey, model, msg, answer, env);
    out, trace := Returned(result), trace + effects;
  }

  /** `get_message`: one turn over the chats and messages tables, reading the providers table. */
  method GetMessage(chats: ChatsTable, messages: MessagesTable, providers: ProvidersDb.ProvidersTable,
                    msg: string, chatId: string, provider: string, model: string, env: TurnEnv)
    returns (out: TurnOutcome, trace: seq<Effect>)
    requires RendersWith(env)
    modifies chats, messages
    ensures Run(out, Snapshot(chats, messages), trace)
            == Turn(msg, chatId, provider, model, providers.GetApiKey(provider, env.keyFetchError), env, old(Snapshot(chats, messages)))
  {
    StoreMessage(chats, messages, env.userMessageId, "user", msg, chatId, model,
                 env.userInsertOk, env.userBlockFails, env.codeTheme, env.highlight, env.render(msg));
    trace := [WroteMessage(env.userMessageId, "user"), WroteBlocks(env.userMessageId), Emitted("newMessage", Some(chatId))];
    var effects := EnsureChat(chats, chatId, model, env.createdAt, env.nameFetchError, env.chatInsertError);
    trace := trace + effects;
    var apiKey := "";
    if provider != "local" {
      trace := trace + [ReadKey(provider)];
      var key := providers.GetApiKey(provider, env.keyFetchError);
      if key.Err? {
        return Returned(Err(key.error)), trace;
      }
      apiKey := key.value;
    }
    out, trace := Respond(chats, messages, msg, chatId, provider, model, apiKey, env, trace);
  }

  // ---------------------------------------------------------------------
  // Properties

  lemma {:induction false} FirstInvalidIs(history: MessageHistory, i: nat)
    requires i <= |history|
    requires forall j :: 0 <= j < i ==> Converted(history[j]).Some?
    requires i < |history| ==> Converted(history[i]).None?
    ensures FirstInvalid(history) == i
  {
    if i > 0 {
      forall j | 0 <= j < i - 1
        ensures Converted(history[1..][j]).Some?
      {
        assert history[1..][j] == history[j + 1];
      }
      FirstInvalidIs(history[1..], i - 1);
    }
  }

  /** Every row was written with a role the chat memory knows: true of every row a turn writes. */
  predicate WellRoled(rows: seq<MessageRow>)
  {
    forall i :: 0 <= i < |rows| ==> rows[i].role == "user" || rows[i].role == "assistant"
  }

  /** A history read from well-roled rows converts entirely, so the role panic cannot happen. */
  lemma WellRoledHistoryConverts(rows: seq<MessageRow>, chatId: string)
    requires WellRoled(rows)
    ensures FirstInvalid(ChatMessages(rows, chatId)) == |ChatMessages(rows, chatId)|
  {
    var history := ChatMessages(rows, chatId);
    ChatMessagesMembers(rows, chatId);
    forall k | 0 <= k < |history|
      ensures Converted(history[k]).Some?
    {
      assert InChat(rows, chatId, history[k]);
    }
    FirstInvalidIs(history, |history|);
  }

  /** A stored message keeps its role. */
  lemma WithMessageKeepsRoles(s: Store, id: string, role: string, content: string, chatId: string, model: string,
                              insertOk: bool, blockFails: set<int>, rendered: seq<MessageBlock>)
    requires WellRoled(s.messages)
    requires role == "user" || role == "assistant"
    ensures WellRoled(WithMessage(s, id, role, content, chatId, model, insertOk, blockFails, rendered).messages)
  {
  }

  /** A turn over well-roled rows leaves well-roled rows: turns never make a later turn panic on a role. */
  lemma TurnKeepsRoles(msg: string, chatId: string, provider: string, model: string,
                       keyLookup: Result<string, string>, env: TurnEnv, s: Store)
    requires WellRoled(s.messages)
    ensures WellRoled(Turn(msg, chatId, provider, model, keyLookup, env, s).store.messages)
  {
    var opening := Opening(msg, chatId, model, env, s);
    WithMessageKeepsRoles(s, env.userMessageId, "user", msg, chatId, model,
                          env.userInsertOk, env.userBlockFails, env.render(msg));
    assert WellRoled(opening.0.messages);
    var s1 := opening.0;
    var history := ChatMessages(s1.messages, chatId);
    if env.historyFetchError.None? && FirstInvalid(history) == |history| {
      var apiKey := if provider == "local" || keyLookup.Err? then "" else keyLookup.value;
      var request := AnswerRequest(provider, apiKey, model, history, MemoryOf(history));
      var answer := AnswerFor(provider, request, env.answerCall);
      if answer.Answer? {
        WithMessageKeepsRoles(s1, env.answerId, "assistant", answer.text, chatId, model,
                              env.answerInsertOk, env.answerBlockFails, env.render(answer.text));
      }
    }
  }

  /** The user's message is the turn's first statement, and its row is stored whatever happens next. */
  lemma {:induction false} UserMessageFirst(msg: string, chatId: string, provider: string, model: string,
                                            keyLookup: Result<string, string>, env: TurnEnv, s: Store)
    ensures Turn(msg, chatId, provider, model, keyLookup, env, s).trace[0] == WroteMessage(env.userMessageId, "user")
    ensures s.messages + (if env.userInsertOk then [MessageRow(env.userMessageId, "user", msg, chatId, model)] else [])
            <= Turn(msg, chatId, provider, model, keyLookup, env, s).store.messages
  {
    var opening := Opening(msg, chatId, model, env, s);
    var stored := s.messages + (if env.userInsertOk then [MessageRow(env.userMessageId, "user", msg, chatId, model)] else []);
    assert opening.0.messages == stored;
    var apiKey := if provider == "local" || keyLookup.Err? then "" else keyLookup.value;
    var t := if provider == "local" then opening.1 else opening.1 + [ReadKey(provider)];
    if provider == "local" || keyLookup.Ok? {
      AnsweringExtends(msg, chatId, provider, model, apiKey, env, opening.0, t);
    }
  }

  /** The turn after the key keeps the trace it was given as a prefix, and only adds message rows. */
  lemma AnsweringExtends(msg: string, chatId: string, provider: string, model: string, apiKey: string,
                         env: TurnEnv, s: Store, t: seq<Effect>)
    ensures t <= Answering(msg, chatId, provider, model, apiKey, env, s, t).trace
    ensures s.messages <= Answering(msg, chatId, provider, model, apiKey, env, s, t).store.messages
  {
  }

  /** A failed key lookup ends the turn with its error: the user's message is stored, no answer is requested or stored. */
  lemma KeyFailureStopsTurn(msg: string, chatId: string, provider: string, model: string,
                            keyLookup: Result<string, string>, env: TurnEnv, s: Store)
    requires provider != "local" && keyLookup.Err?
    ensures Turn(msg, chatId, provider, model, keyLookup, env, s).outcome == Returned(Err(keyLookup.error))
    ensures Turn(msg, chatId, provider, model, keyLookup, env, s).store.messages
            == s.messages + (if env.userInsertOk then [MessageRow(env.userMessageId, "user", msg, chatId, model)] else [])
    ensures forall e :: e in Turn(msg, chatId, provider, model, keyLookup, env, s).trace ==> !e.Sent?
  {
    var opening := Opening(msg, chatId, model, env, s);
    OpeningSendsNothing(msg, chatId, model, env, s);
    assert Turn(msg, chatId, provider, model, keyLookup, env, s).trace == opening.1 + [ReadKey(provider)];
  }

  /** The opening of a turn sends no request. */
  lemma OpeningSendsNothing(msg: string, chatId: string, model: string, env: TurnEnv, s: Store)
    ensures forall e :: e in Opening(msg, chatId, model, env, s).1 ==> !e.Sent? && !e.ReadKey?
  {
    var s1 := WithMessage(s, env.userMessageId, "user", msg, chatId, model,
                          env.userInsertOk, env.userBlockFails, env.render(msg));
    var ensured := EnsuredChat(s1.chats, chatId, model, env.createdAt, env.nameFetchError, env.chatInsertError);
    assert forall e :: e in ensured.1 ==> !e.Sent? && !e.ReadKey?;
  }

  /** For `local` no key is read: the turn is the same whatever the key lookup would return. */
  lemma LocalNeedsNoKey(msg: string, chatId: string, model: string, lookup1: Result<string, string>,
                        lookup2: Result<string, string>, env: TurnEnv, s: Store)
    ensures Turn(msg, chatId, "local", model, lookup1, env, s) == Turn(msg, chatId, "local", model, lookup2, env, s)
    ensures forall e :: e in Turn(msg, chatId, "local", model, lookup1, env, s).trace ==> !e.ReadKey?
  {
    var opening := Opening(msg, chatId, model, env, s);
    OpeningSendsNothing(msg, chatId, model, env, s);
    AnsweringReadsNoKey(msg, chatId, "local", model, "", env, opening.0, opening.1);
  }

  /** Nothing after the key lookup reads a key. */
  lemma AnsweringReadsNoKey(msg: string, chatId: string, provider: string, model: string, apiKey: string,
                            env: TurnEnv, s: Store, t: seq<Effect>)
    requires forall e :: e in t ==> !e.ReadKey?
    ensures forall e :: e in Answering(msg, chatId, provider, model, apiKey, env, s, t).trace ==> !e.ReadKey?
  {
    var t1 := t + [ReadHistory(chatId)];
    var history := ChatMessages(s.messages, chatId);
    if env.historyFetchError.None? && FirstInvalid(history) == |history| {
      var request := AnswerRequest(provider, apiKey, model, history, MemoryOf(history));
      var t2 := t1 + (if Dispatched(provider) then [Sent(request)] else []);
      var answer := AnswerFor(provider, request, env.answerCall);
      if answer.Answer? {
        ConcludedReadsNoKey(msg, chatId, provider, model, apiKey, answer.text, env, s, t2);
      }
    }
  }

  lemma ConcludedReadsNoKey(msg: string, chatId: string, provider: string, model: string, apiKey: string,
                            answer: string, env: TurnEnv, s: Store, t: seq<Effect>)
    requires forall e :: e in t ==> !e.ReadKey?
    ensures forall e :: e in Concluded(msg, chatId, provider, model, apiKey, answer, env, s, t).trace ==> !e.ReadKey?
  {
    var s1 := WithMessage(s, env.answerId, "assistant", answer, chatId, model,
                          env.answerInsertOk, env.answerBlockFails, env.render(answer));
    var fin := Finished(s1.chats, chatId, provider, apiKey, model, msg, answer, env);
    assert forall e :: e in fin.2 ==> !e.ReadKey?;
  }

  /** A chat without a name gets the placeholder; a chat with one keeps its rows untouched. */
  lemma PlaceholderForNewChat(rows: seq<ChatRow>, chatId: string, model: string, now: string,
                              fetchError: Option<string>, insertError: Option<string>)
    ensures fetchError.None? && insertError.None? && DisplayNameOf(rows, chatId).None? ==>
              DisplayNameOf(EnsuredChat(rows, chatId, model, now, fetchError, insertError).0, chatId)
              == Some(PLACEHOLDER_PREFIX + chatId)
    ensures DisplayNameOf(rows, chatId).Some? || fetchError.Some? || insertError.Some? ==>
              EnsuredChat(rows, chatId, model, now, fetchError, insertError).0 == rows
  {
    if fetchError.None? && insertError.None? && DisplayNameOf(rows, chatId).None? {
      NewChatFoundAndListed(rows, chatId, model, Placeholder(chatId), now);
    }
  }

  /** The placeholder carries the prefix the name check looks for. */
  lemma PlaceholderHasPrefix(chatId: string)
    ensures StartsWith(Placeholder(chatId), PLACEHOLDER_PREFIX)
  {
    assert Placeholder(chatId)[..|PLACEHOLDER_PREFIX|] == PLACEHOLDER_PREFIX;
  }

  /** Anthropic failures: the authentication message exactly when the error mentions authentication. */
  lemma ClaudeFailureIff(e: string)
    ensures ClaudeFailure(e) == CLAUDE_AUTH_FAILED <==> LlmProviders.MentionsAuthentication(e)
    ensures !LlmProviders.MentionsAuthentication(e) ==> ClaudeFailure(e) == "An error occurred: " + e
  {
    assert ("An error occurred: " + e)[0] == 'A';
    assert CLAUDE_AUTH_FAILED[0] == "Error: "[0] == 'E';
  }

  /** Only an OpenAI failure panics; every other answer step ends with a text. */
  lemma OnlyOpenAIPanics(provider: string, request: Request, call: Dispatch)
    ensures AnswerFor(provider, request, call).AnswerPanic? <==> provider == "openai" && call(request).Err?
    ensures provider == "anthropic" && call(request).Err? ==> AnswerFor(provider, request, call) == Answer(ClaudeFailure(call(request).error))
    ensures (provider == "mistralai" || provider == "groqcloud") && call(request).Err?
            ==> AnswerFor(provider, request, call) == Answer(call(request).error)
    ensures Dispatched(provider) && call(request).Ok? ==> AnswerFor(provider, request, call) == Answer(call(request).value)
  {
  }

  /**
   * A provider without a client (`local` among them) sends nothing, and the
   * text `Provider <name> not implemented` is stored as the answer.
   */
  lemma UnimplementedProviderAnswer(msg: string, chatId: string, provider: string, model: string, apiKey: string,
                                    env: TurnEnv, s: Store, t: seq<Effect>)
    requires !Dispatched(provider)
    requires env.historyFetchError.None?
    requires FirstInvalid(ChatMessages(s.messages, chatId)) == |ChatMessages(s.messages, chatId)|
    ensures var r := Answering(msg, chatId, provider, model, apiKey, env, s, t);
            r.store.messages == s.messages + (if env.answerInsertOk
              then [MessageRow(env.answerId, "assistant", "Provider " + provider + " not implemented", chatId, model)] else [])
            && r.trace[|t| + 1] == WroteMessage(env.answerId, "assistant")
  {
    assert provider != "openai";
    AnsweringConcludes(msg, chatId, provider, model, apiKey, env, s, t);
    var history := ChatMessages(s.messages, chatId);
    var request := AnswerRequest(provider, apiKey, model, history, MemoryOf(history));
    assert AnswerFor(provider, request, env.answerCall).text == "Provider " + provider + " not implemented";
  }

  /** `local` has no client: its every answer is the not-implemented text. */
  lemma LocalIsNotImplemented()
    ensures !Dispatched("local")
  {
    assert "local"[0] == 'l';
  }

  /** The name the name check finds, when it finds one. */
  predicate NameFound(rows: seq<ChatRow>, chatId: string, env: TurnEnv)
  {
    env.nameRefetchError.None? && DisplayNameOf(rows, chatId).Some?
  }

  /**
   * The naming request is sent iff the chat still has the placeholder
   * prefix and the provider has a naming request.
   */
  lemma TitleIffPlaceholder(rows: seq<ChatRow>, chatId: string, provider: string, apiKey: string, model: string,
                            msg: string, answer: string, env: TurnEnv)
    requires NameFound(rows, chatId, env)
    ensures var fin := Finished(rows, chatId, provider, apiKey, model, msg, answer, env);
            SentTitle(TitleRequest(provider, apiKey, model, msg, answer)) in fin.2
            <==> StartsWith(DisplayNameOf(rows, chatId).value, PLACEHOLDER_PREFIX) && TitleLabel(provider).Some?
  {
    if StartsWith(DisplayNameOf(rows, chatId).value, PLACEHOLDER_PREFIX) {
      TitleSentForPlaceholder(rows, chatId, provider, apiKey, model, msg, answer, env);
    } else {
      RenameNeedsPlaceholder(rows, chatId, provider, apiKey, model, msg, answer, env);
    }
  }

  /** For a chat with the placeholder prefix, the naming request is sent iff the provider has one. */
  lemma TitleSentForPlaceholder(rows: seq<ChatRow>, chatId: string, provider: string, apiKey: string, model: string,
                                msg: string, answer: string, env: TurnEnv)
    requires NameFound(rows, chatId, env)
    requires StartsWith(DisplayNameOf(rows, chatId).value, PLACEHOLDER_PREFIX)
    ensures var fin := Finished(rows, chatId, provider, apiKey, model, msg, answer, env);
            SentTitle(TitleRequest(provider, apiKey, model, msg, answer)) in fin.2 <==> TitleLabel(provider).Some?
  {
    var fin := Finished(rows, chatId, provider, apiKey, model, msg, answer, env);
    var read := [ReadName(chatId)];
    var sent := if TitleLabel(provider).Some? then [SentTitle(TitleRequest(provider, apiKey, model, msg, answer))] else [];
    match TitleFor(provider, apiKey, model, msg, answer, env.titleCall)
    case Abandoned(_) =>
      assert fin.2 == read + sent;
    case Named(name) =>
      assert fin.2[..|read + sent|] == read + sent;
      assert forall i :: |read + sent| <= i < |fin.2| ==> !fin.2[i].SentTitle?;
  }

  /** Only a chat without the placeholder prefix has its timestamp written. */
  lemma TouchIffNamed(rows: seq<ChatRow>, chatId: string, provider: string, apiKey: string, model: string,
                      msg: string, answer: string, env: TurnEnv)
    requires NameFound(rows, chatId, env)
    ensures var fin := Finished(rows, chatId, provider, apiKey, model, msg, answer, env);
            WroteTimestamp(chatId) in fin.2 <==> !StartsWith(DisplayNameOf(rows, chatId).value, PLACEHOLDER_PREFIX)
  {
    var fin := Finished(rows, chatId, provider, apiKey, model, msg, answer, env);
    if !StartsWith(DisplayNameOf(rows, chatId).value, PLACEHOLDER_PREFIX) {
      assert fin.2 == [ReadName(chatId), WroteTimestamp(chatId)];
    }
  }

  /** A chat without the placeholder prefix is neither named nor renamed: its name is read and its timestamp written. */
  lemma RenameNeedsPlaceholder(rows: seq<ChatRow>, chatId: string, provider: string, apiKey: string, model: string,
                               msg: string, answer: string, env: TurnEnv)
    requires NameFound(rows, chatId, env)
    requires !StartsWith(DisplayNameOf(rows, chatId).value, PLACEHOLDER_PREFIX)
    ensures var fin := Finished(rows, chatId, provider, apiKey, model, msg, answer, env);
            forall e :: e in fin.2 ==> !e.WroteName? && !e.SentTitle?
  {
    var fin := Finished(rows, chatId, provider, apiKey, model, msg, answer, env);
    assert fin.2 == [ReadName(chatId), WroteTimestamp(chatId)];
  }

  /**
   * A failed naming request ends the turn early: the reply names the
   * provider and the error, the placeholder name stays, nothing is renamed.
   */
  lemma TitleFailureKeepsPlaceholder(rows: seq<ChatRow>, chatId: string, provider: string, apiKey: string, model: string,
                                     msg: string, answer: string, env: TurnEnv)
    requires NameFound(rows, chatId, env)
    requires StartsWith(DisplayNameOf(rows, chatId).value, PLACEHOLDER_PREFIX)
    requires TitleLabel(provider).Some?
    requires env.titleCall(TitleRequest(provider, apiKey, model, msg, answer)).Err?
    ensures var fin := Finished(rows, chatId, provider, apiKey, model, msg, answer, env);
            fin.0 == Ok("Error fetching chat name from " + TitleLabel(provider).value + ": "
                        + env.titleCall(TitleRequest(provider, apiKey, model, msg, answer)).error)
            && fin.1 == rows
            && DisplayNameOf(fin.1, chatId) == DisplayNameOf(rows, chatId)
            && (forall e :: e in fin.2 ==> !e.WroteName?)
  {
  }

  /** A successful naming renames the chat and the turn returns the answer. */
  lemma TitleSuccessRenames(rows: seq<ChatRow>, chatId: string, provider: string, apiKey: string, model: string,
                            msg: string, answer: string, env: TurnEnv)
    requires NameFound(rows, chatId, env)
    requires StartsWith(DisplayNameOf(rows, chatId).value, PLACEHOLDER_PREFIX)
    requires TitleFor(provider, apiKey, model, msg, answer, env.titleCall).Named?
    requires env.renameError.None?
    ensures var fin := Finished(rows, chatId, provider, apiKey, model, msg, answer, env);
            fin.0 == Ok(answer)
            && DisplayNameOf(fin.1, chatId) == Some(TitleFor(provider, apiKey, model, msg, answer, env.titleCall).name)
  {
    RenameIsSeen(rows, chatId, TitleFor(provider, apiKey, model, msg, answer, env.titleCall).name, chatId + ['_']);
  }

  /** A chat without the prefix keeps its name, gets the new timestamp, and the turn returns the answer. */
  lemma NamedChatIsTouched(rows: seq<ChatRow>, chatId: string, provider: string, apiKey: string, model: string,
                           msg: string, answer: string, env: TurnEnv)
    requires NameFound(rows, chatId, env)
    requires !StartsWith(DisplayNameOf(rows, chatId).value, PLACEHOLDER_PREFIX)
    requires env.touchError.None?
    ensures var fin := Finished(rows, chatId, provider, apiKey, model, msg, answer, env);
            fin.0 == Ok(answer) && fin.1 == Touched(rows, chatId, env.touchedAt)
  {
  }

  /** The naming request quotes the user's message and the answer. */
  lemma TitlePromptQuotes(msg: string, answer: string)
    ensures var p := TitlePrompt(msg, answer);
            var m := |TITLE_OPENING|;
            var a := m + |msg| + |TITLE_MIDDLE|;
            |p| == a + |answer| + |TITLE_CLOSING|
            && p[m..m + |msg|] == msg && p[a..a + |answer|] == answer
  {
    var p := TitlePrompt(msg, answer);
    var m := |TITLE_OPENING|;
    var a := m + |msg| + |TITLE_MIDDLE|;
    assert p == TITLE_OPENING + msg + TITLE_MIDDLE + answer + TITLE_CLOSING;
    assert p[m..m + |msg|] == msg;
    assert p[a..a + |answer|] == answer;
  }

  /** Once the history converts and the answer step gives a text, the turn goes on to store it and check the name. */
  lemma AnsweringConcludes(msg: string, chatId: string, provider: string, model: string, apiKey: string,
                           env: TurnEnv, s: Store, t: seq<Effect>)
    requires env.historyFetchError.None?
    requires FirstInvalid(ChatMessages(s.messages, chatId)) == |ChatMessages(s.messages, chatId)|
    requires var history := ChatMessages(s.messages, chatId);
             provider == "openai" ==> env.answerCall(AnswerRequest(provider, apiKey, model, history, MemoryOf(history))).Ok?
    ensures var history := ChatMessages(s.messages, chatId);
            var request := AnswerRequest(provider, apiKey, model, history, MemoryOf(history));
            var t2 := t + [ReadHistory(chatId)] + (if Dispatched(provider) then [Sent(request)] else []);
            Answering(msg, chatId, provider, model, apiKey, env, s, t)
            == Concluded(msg, chatId, provider, model, apiKey, AnswerFor(provider, request, env.answerCall).text, env, s, t2)
  {
    var history := ChatMessages(s.messages, chatId);
    var request := AnswerRequest(provider, apiKey, model, history, MemoryOf(history));
    OnlyOpenAIPanics(provider, request, env.answerCall);
  }

  /** The name check of a chat that still has its placeholder sends the naming request. */
  lemma ConcludedSendsTitle(msg: string, chatId: string, provider: string, model: string, apiKey: string,
                            answer: string, env: TurnEnv, s: Store, t: seq<Effect>)
    requires DisplayNameOf(s.chats, chatId) == Some(Placeholder(chatId)) && env.nameRefetchError.None?
    requires TitleLabel(provider).Some?
    ensures SentTitle(TitleRequest(provider, apiKey, model, msg, answer))
            in Concluded(msg, chatId, provider, model, apiKey, answer, env, s, t).trace
  {
    var s1 := WithMessage(s, env.answerId, "assistant", answer, chatId, model,
                          env.answerInsertOk, env.answerBlockFails, env.render(answer));
    PlaceholderHasPrefix(chatId);
    TitleIffPlaceholder(s1.chats, chatId, provider, apiKey, model, msg, answer, env);
  }

  /**
   * A chat's first turn names it: a chat without a name gets the
   * placeholder, and the name check after the answer finds the placeholder
   * and sends the naming request, for every provider that has one, as long
   * as the answer does not panic (only a failed openai answer does).
   */
  lemma FirstTurnNamesNewChat(msg: string, chatId: string, provider: string, model: string,
                              keyLookup: Result<string, string>, env: TurnEnv, s: Store)
    requires TitleLabel(provider).Some?
    requires keyLookup.Ok? && WellRoled(s.messages)
    requires DisplayNameOf(s.chats, chatId).None?
    requires env.nameFetchError.None? && env.chatInsertError.None? && env.historyFetchError.None?
    requires env.nameRefetchError.None?
    requires var history := ChatMessages(Opening(msg, chatId, model, env, s).0.messages, chatId);
             provider == "openai" && FirstInvalid(history) == |history| ==> env.answerCall(AnswerRequest(provider, keyLookup.value, model, history, MemoryOf(history))).Ok?
    ensures exists e :: e in Turn(msg, chatId, provider, model, keyLookup, env, s).trace && e.SentTitle?
  {
    var opening := Opening(msg, chatId, model, env, s);
    var s1 := opening.0;
    WithMessageKeepsRoles(s, env.userMessageId, "user", msg, chatId, model,
                          env.userInsertOk, env.userBlockFails, env.render(msg));
    PlaceholderForNewChat(s.chats, chatId, model, env.createdAt, env.nameFetchError, env.chatInsertError);
    WellRoledHistoryConverts(s1.messages, chatId);
    var t := opening.1 + [ReadKey(provider)];
    assert provider != "local";
    AnsweringConcludes(msg, chatId, provider, model, keyLookup.value, env, s1, t);
    var history := ChatMessages(s1.messages, chatId);
    var request := AnswerRequest(provider, keyLookup.value, model, history, MemoryOf(history));
    var answer := AnswerFor(provider, request, env.answerCall).text;
    var t2 := t + [ReadHistory(chatId)] + (if Dispatched(provider) then [Sent(request)] else []);
    ConcludedSendsTitle(msg, chatId, provider, model, keyLookup.value, answer, env, s1, t2);
  }
}
