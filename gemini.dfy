/**
 * The Gemini chat client: key resolution, model aliases, the flattening of a
 * role/content message list into one tagged prompt, the one-shot completion,
 * and the chatbot that keeps a bounded conversation history.
 *
 * The SDK call is an oracle: `generate` answers a request with the reply's
 * text, or None when the call raised or the reply had no text.
 */
module GeminiClient {
  import opened Wrappers
  import opened PyStr
  import opened Messages
  import opened History

  const Models: map<string, string> := map[
    "gemini-flash" := "gemini-flash-latest",
    "gemini-pro" := "gemini-pro-latest",
    "gemini-2-flash" := "gemini-2.0-flash",
    "gemini-2-flash-lite" := "gemini-2.0-flash-lite",
    "gemini-2.5-flash" := "gemini-2.5-flash",
    "gemini-2.5-pro" := "gemini-2.5-pro"
  ]

  /** No model id in the alias table is an alias of something else, so resolving twice is resolving once. */
  lemma ModelsResolveOnce(model: string)
    ensures Resolve(Models, Resolve(Models, model)) == Resolve(Models, model)
  {
    forall a | a in Models && Models[a] in Models ensures Models[Models[a]] == Models[a] {
    }
    ResolveIdempotent(Models, model);
  }

  /**
   * `get_api_key`: the stripped key file if it is acceptable, else the
   * environment variable `GEMINI_API_KEY`, stripped, if it is non-empty,
   * else None.
   */
  function GetApiKey(keys: KeySource): (key: Option<string>)
    ensures key.Some? ==> Strip(key.value) == key.value
    ensures key.None? <==> !(keys.file.Some? && AcceptsKeyFile(keys.file.value)) && !Truthy(keys.env)
  {
    if keys.file.Some? && AcceptsKeyFile(keys.file.value) then
      StripIdempotent(keys.file.value);
      Some(Strip(keys.file.value))
    else if Truthy(keys.env) then
      StripIdempotent(keys.env.value);
      Some(Strip(keys.env.value))
    else None
  }

  /**
   * The file wins whenever it is acceptable; otherwise a non-empty
   * environment value is used after stripping, which can leave an empty key;
   * otherwise there is no key.
   */
  lemma KeyResolutionOrder(keys: KeySource)
    ensures keys.file.Some? && AcceptsKeyFile(keys.file.value) ==>
      GetApiKey(keys) == Some(Strip(keys.file.value)) && Truthy(GetApiKey(keys))
    ensures !(keys.file.Some? && AcceptsKeyFile(keys.file.value)) ==>
      GetApiKey(keys) == (if Truthy(keys.env) then Some(Strip(keys.env.value)) else None)
    ensures GetApiKey(keys).None? <==> !(keys.file.Some? && AcceptsKeyFile(keys.file.value)) && !Truthy(keys.env)
  {
  }

  /** The key a call uses: `api_key or get_api_key()`. */
  function EffectiveKey(apiKey: Option<string>, keys: KeySource): Option<string> {
    Or(apiKey, GetApiKey(keys))
  }

  /** `"User"` for the user role, `"Assistant"` for the assistant role, `"System"` for every other role. */
  function RoleTag(role: string): (tag: string)
    ensures (tag == "User") == (role == User)
    ensures (tag == "Assistant") == (role == Assistant)
    ensures (tag == "System") == (role != User && role != Assistant)
  {
    if role == User then "User" else if role == Assistant then "Assistant" else "System"
  }

  /** The prompt line of one message: its tag, `": "`, its content; a missing role counts as the user's, missing content as empty. */
  function Line(d: Dict): (line: string)
    ensures var tag := RoleTag(Get(d, "role", User));
      |tag| + 2 <= |line| && line[..|tag| + 2] == tag + ": "
    ensures var content := Get(d, "content", "");
      |content| <= |line| && line[|line| - |content|..] == content
  {
    var tag := RoleTag(Get(d, "role", User));
    var content := Get(d, "content", "");
    assert (tag + ": " + content)[..|tag| + 2] == tag + ": ";
    assert (tag + ": " + content)[|tag| + 2..] == content;
    tag + ": " + content
  }

  const Closing := "Assistant:"

  /** One line per message, in order, then the closing `Assistant:` line. */
  function PromptLines(ds: seq<Dict>): seq<string> {
    seq(|ds|, i requires 0 <= i < |ds| => Line(ds[i])) + [Closing]
  }

  /** The flattened prompt: the lines joined by newlines. */
  function Prompt(ds: seq<Dict>): (prompt: string)
    ensures |Closing| <= |prompt| && prompt[|prompt| - |Closing|..] == Closing
    ensures ds == [] ==> prompt == Closing
  {
    JoinEndsWithLast(PromptLines(ds), "\n");
    Join(PromptLines(ds), "\n")
  }

  /** The flattening loop of `chat_completion`. */
  method FlattenPrompt(ds: seq<Dict>) returns (prompt: string)
    ensures prompt == Prompt(ds)
  {
    var lines: seq<string> := [];
    var i := 0;
    while i < |ds|
      invariant 0 <= i <= |ds|
      invariant |lines| == i
      invariant forall k :: 0 <= k < i ==> lines[k] == Line(ds[k])
    {
      var role := Get(ds[i], "role", User);
      var content := Get(ds[i], "content", "");
      var tag := if role == User then "User" else if role == Assistant then "Assistant" else "System";
      lines := lines + [tag + ": " + content];
      i := i + 1;
    }
    lines := lines + [Closing];
    assert lines == PromptLines(ds);
    prompt := Join(lines, "\n");
  }

  /** No prompt line holds a newline when the message's content holds none. */
  lemma LineHasNoNewline(d: Dict)
    requires '\n' !in Get(d, "content", "")
    ensures '\n' !in Line(d)
  {
    var tag := RoleTag(Get(d, "role", User));
    assert '\n' !in tag;
    assert Line(d) == tag + ": " + Get(d, "content", "");
  }

  /**
   * Splitting the prompt on newlines gives back one line per message, in
   * order, each the message's tag and content, then `Assistant:` — as long
   * as no content holds a newline.
   */
  lemma {:induction false} PromptSplitsIntoLines(ds: seq<Dict>)
    requires forall k :: 0 <= k < |ds| ==> '\n' !in Get(ds[k], "content", "")
    ensures var lines := SplitOn(Prompt(ds), '\n');
      |lines| == |ds| + 1 && lines[|ds|] == Closing
      && forall k :: 0 <= k < |ds| ==> lines[k] == RoleTag(Get(ds[k], "role", User)) + ": " + Get(ds[k], "content", "")
  {
    var parts := PromptLines(ds);
    forall k | 0 <= k < |parts| ensures '\n' !in parts[k] {
      if k < |ds| {
        LineHasNoNewline(ds[k]);
      } else {
        assert parts[k] == Closing;
      }
    }
    SplitOnJoin(parts, '\n');
  }

  /** A chat message becomes the line of its own tag and content. */
  lemma MessageLine(m: Message)
    ensures Line(ToDict(m)) == RoleTag(m.role) + ": " + m.content
  {
  }

  /** A dict without role or content becomes a bare user line. */
  lemma EmptyDictLine()
    ensures Line(map[]) == "User: "
  {
  }

  /** What is sent to the model: the key it is configured with, the resolved model id, the prompt. */
  datatype Request = Request(key: string, model: string, prompt: string)

  /**
   * What `chat_completion` returns: None without a (non-empty) key; else
   * the stripped text of the reply if the reply has non-empty text, None
   * otherwise. A reply of only whitespace gives the empty string.
   */
  function Reply(ds: seq<Dict>, model: string, apiKey: Option<string>, keys: KeySource,
                 generate: Request -> Option<string>): (r: Option<string>)
    ensures !Truthy(EffectiveKey(apiKey, keys)) ==> r == None
    ensures r.Some? <==> Truthy(EffectiveKey(apiKey, keys))
                         && Truthy(generate(Request(EffectiveKey(apiKey, keys).value, Resolve(Models, model), Prompt(ds))))
    ensures r.Some? ==> r.value == Strip(generate(Request(EffectiveKey(apiKey, keys).value, Resolve(Models, model), Prompt(ds))).value)
    ensures r.Some? ==> Strip(r.value) == r.value
  {
    var key := EffectiveKey(apiKey, keys);
    if !Truthy(key) then None
    else
      var text := generate(Request(key.value, Resolve(Models, model), Prompt(ds)));
      if Truthy(text) then
        StripIdempotent(text.value);
        Some(Strip(text.value))
      else None
  }

  /** A key made only of whitespace in the environment is found, but no request is made with it. */
  lemma BlankEnvironmentKeyRefused(file: Option<string>, ds: seq<Dict>, model: string, generate: Request -> Option<string>)
    requires !(file.Some? && AcceptsKeyFile(file.value))
    ensures GetApiKey(KeySource(file, Some(" "))) == Some("")
    ensures Reply(ds, model, None, KeySource(file, Some(" ")), generate) == None
  {
    assert LStrip(" ") == "";
  }

  /** `chat_completion`. */
  method ChatCompletion(ds: seq<Dict>, model: string, apiKey: Option<string>, keys: KeySource,
                        generate: Request -> Option<string>) returns (r: Option<string>)
    ensures r == Reply(ds, model, apiKey, keys, generate)
  {
    var key := EffectiveKey(apiKey, keys);
    if !Truthy(key) {
      return None;
    }
    var modelId := Resolve(Models, model);
    var prompt := FlattenPrompt(ds);
    var text := generate(Request(key.value, modelId, prompt));
    if Truthy(text) {
      r := Some(Strip(text.value));
    } else {
      r := None;
    }
  }

  const DefaultSystemPrompt := "Bạn là trợ lý AI thông minh, có thể nói tiếng Việt và tiếng Anh. Trả lời ngắn gọn, rõ ràng và hữu ích."

  /** `GeminiChatbot`: the same bounded history as the OpenRouter chatbot, sent as a flattened prompt. */
  class GeminiChatbot {
    const model: string
    const apiKey: Option<string>
    const maxHistory: int
    var systemPrompt: string
    var messages: seq<Message>
    /** The conversations handed to `chat_completion`, in call order. */
    ghost var sent: seq<seq<Message>>

    /**
     * The history starts with the current system message; every later
     * message is a user message or a non-empty assistant reply.
     */
    ghost predicate Valid()
      reads this
    {
      |messages| >= 1 && messages[0] == Message(System, systemPrompt) && TurnsAfterFirst(messages)
    }

    constructor (model: string, apiKey: Option<string>, systemPrompt: Option<string>, maxHistory: int, keys: KeySource)
      ensures this.model == model && this.maxHistory == maxHistory
      ensures this.apiKey == EffectiveKey(apiKey, keys)
      ensures this.systemPrompt == OrElse(systemPrompt, DefaultSystemPrompt)
      ensures messages == [Message(System, this.systemPrompt)] && sent == []
      ensures Valid() && Paired(messages)
    {
      this.model := model;
      this.apiKey := EffectiveKey(apiKey, keys);
      this.maxHistory := maxHistory;
      this.systemPrompt := OrElse(systemPrompt, DefaultSystemPrompt);
      messages := [Message(System, OrElse(systemPrompt, DefaultSystemPrompt))];
      sent := [];
    }

    /**
     * `chat`: sends the history plus the user message without changing the
     * history; commits the pair and trims only when the reply is non-empty.
     */
    method Chat(userMessage: string, keys: KeySource, generate: Request -> Option<string>) returns (response: Option<string>)
      requires Valid()
      modifies this`messages, this`sent
      ensures Valid()
      ensures response == Reply(ToDicts(old(messages) + [Message(User, userMessage)]), model, apiKey, keys, generate)
      ensures sent == old(sent) + [old(messages) + [Message(User, userMessage)]]
      ensures Truthy(response) ==> messages == Trim(Commit(old(messages), userMessage, response.value), maxHistory)
      ensures Truthy(response) && maxHistory >= 1 ==>
        messages == TrimAsWritten(Commit(old(messages), userMessage, response.value), maxHistory)
      ensures !Truthy(response) ==> messages == old(messages)
      ensures Truthy(response) ==> |messages| <= Kept(maxHistory) + 1
      ensures maxHistory % 2 == 0 && Paired(old(messages)) ==> Paired(messages)
    {
      var request := messages + [Message(User, userMessage)];
      response := ChatCompletion(ToDicts(request), model, apiKey, keys, generate);
      sent := sent + [request];
      ChatCommit(userMessage, response);
    }

    /** The commit-and-trim step of `chat`, after the reply is known. */
    method ChatCommit(userMessage: string, response: Option<string>)
      requires Valid()
      modifies this`messages
      ensures Valid()
      ensures Truthy(response) ==> messages == Trim(Commit(old(messages), userMessage, response.value), maxHistory)
      ensures Truthy(response) && maxHistory >= 1 ==>
        messages == TrimAsWritten(Commit(old(messages), userMessage, response.value), maxHistory)
      ensures !Truthy(response) ==> messages == old(messages)
      ensures Truthy(response) ==> |messages| <= Kept(maxHistory) + 1
      ensures maxHistory % 2 == 0 && Paired(old(messages)) ==> Paired(messages)
    {
      if Truthy(response) {
        ghost var before := messages;
        messages := messages + [Message(User, userMessage)];
        messages := messages + [Message(Assistant, response.value)];
        assert messages == Commit(before, userMessage, response.value);
        CommitKeepsTurns(before, userMessage, response.value);
        TrimKeepsTurns(messages, maxHistory);
        TrimKeepsNewest(messages, maxHistory);
        if maxHistory >= 1 {
          TrimAsWrittenAgrees(messages, maxHistory);
        }
        if maxHistory % 2 == 0 && Paired(before) {
          CommitKeepsPairs(before, userMessage, response.value);
          TrimEvenKeepsPairs(messages, maxHistory);
        }
        if |messages| > Kept(maxHistory) + 1 {
          messages := [messages[0]] + messages[|messages| - Kept(maxHistory)..];
        }
      }
    }

    /** `reset`: back to the system message alone. */
    method Reset()
      modifies this`messages
      ensures Valid() && Paired(messages)
      ensures messages == [Message(System, systemPrompt)]
    {
      messages := [Message(System, systemPrompt)];
    }

    /** `set_system_prompt`: a new system prompt, then a reset. */
    method SetSystemPrompt(prompt: string)
      modifies this`systemPrompt, this`messages
      ensures Valid() && Paired(messages)
      ensures systemPrompt == prompt && messages == [Message(System, prompt)]
    {
      systemPrompt := prompt;
      Reset();
    }
  }
}
