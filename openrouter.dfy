/**
 * The OpenRouter chat client: key resolution, model aliases, one-shot and
 * streamed chat completions, the translation requests, and the chatbot that
 * keeps a bounded conversation history.
 *
 * The HTTP exchange is an oracle. `post` answers a one-shot request with the
 * reply's content field, or None for a timeout, a transport error, an error
 * status, undecodable JSON or an `"error"` member. `open` answers a streamed
 * request with the text lines received before the stream ended (no lines if
 * it failed at once). `decode` reads one `data:` payload: None when it is not
 * JSON, else the `choices[0].delta.content` text ("" when absent).
 */
module OpenRouterClient {
  import opened Wrappers
  import opened PyStr
  import opened Messages
  import opened History

  const Models: map<string, string> := map[
    "free" := "meta-llama/llama-3.2-3b-instruct:free",
    "llama-free" := "meta-llama/llama-3.2-3b-instruct:free",
    "gemma-free" := "google/gemma-2-9b-it:free",
    "qwen-free" := "qwen/qwen-2-7b-instruct:free",
    "gpt-4o-mini" := "openai/gpt-4o-mini",
    "gpt-4o" := "openai/gpt-4o",
    "claude-sonnet" := "anthropic/claude-3.5-sonnet",
    "claude-haiku" := "anthropic/claude-3-haiku",
    "llama-70b" := "meta-llama/llama-3.1-70b-instruct",
    "gemini-flash" := "google/gemini-flash-1.5",
    "gemini-pro" := "google/gemini-pro-1.5",
    "deepseek" := "deepseek/deepseek-chat",
    "mistral" := "mistralai/mistral-7b-instruct"
  ]

  /** No provider id in the alias table is itself an alias, so a resolved id resolves to itself. */
  lemma ModelsResolveOnce(model: string)
    ensures Resolve(Models, Resolve(Models, model)) == Resolve(Models, model)
  {
    if model in Models {
      assert Models[model] in Models.Values;
      assert Models.Values !! Models.Keys;
    }
  }

  /**
   * `get_api_key`: the stripped key file if it is acceptable, else the
   * environment variable `OPENROUTER_API_KEY` if it is non-empty, else None.
   */
  function GetApiKey(keys: KeySource): (key: Option<string>)
    ensures key.Some? ==> key.value != ""
  {
    if keys.file.Some? && AcceptsKeyFile(keys.file.value) then Some(Strip(keys.file.value))
    else if Truthy(keys.env) then keys.env
    else None
  }

  /**
   * The file is consulted first and wins whenever it is acceptable; the
   * environment is the fallback; there is no key exactly when neither gives
   * one; and a key that is found is never empty.
   */
  lemma KeyResolutionOrder(keys: KeySource)
    ensures GetApiKey(keys).Some? ==> GetApiKey(keys).value != ""
    ensures keys.file.Some? && AcceptsKeyFile(keys.file.value) ==> GetApiKey(keys) == Some(Strip(keys.file.value))
    ensures !(keys.file.Some? && AcceptsKeyFile(keys.file.value)) ==> GetApiKey(keys) == (if Truthy(keys.env) then keys.env else None)
    ensures GetApiKey(keys).None? <==> !(keys.file.Some? && AcceptsKeyFile(keys.file.value)) && !Truthy(keys.env)
  {
  }

  /** The key a call uses: `api_key or get_api_key()`. */
  function EffectiveKey(apiKey: Option<string>, keys: KeySource): Option<string> {
    Or(apiKey, GetApiKey(keys))
  }

  /** What is posted: the key, the resolved model id and the messages. */
  datatype Request = Request(key: string, model: string, messages: seq<Message>)

  /**
   * `chat_completion`: None before any request when there is no key;
   * otherwise the stripped content of the reply, or None when the exchange
   * failed.
   */
  function ChatCompletion(messages: seq<Message>, model: string, apiKey: Option<string>, keys: KeySource,
                          post: Request -> Option<string>): (r: Option<string>)
    ensures !Truthy(EffectiveKey(apiKey, keys)) ==> r == None
    ensures r.Some? ==> Strip(r.value) == r.value
    ensures r.Some? ==> post(Request(EffectiveKey(apiKey, keys).value, Resolve(Models, model), messages)).Some?
    ensures Truthy(EffectiveKey(apiKey, keys)) ==>
      var answer := post(Request(EffectiveKey(apiKey, keys).value, Resolve(Models, model), messages));
      (r.Some? <==> answer.Some?) && (r.Some? ==> r.value == Strip(answer.value))
  {
    var key := EffectiveKey(apiKey, keys);
    if !Truthy(key) then None
    else
      match post(Request(key.value, Resolve(Models, model), messages))
      case None => None
      case Some(content) =>
        StripIdempotent(content);
        Some(Strip(content))
  }

  const DataPrefix := "data: "
  const DoneMarker := "[DONE]"

  /** A `data: [DONE]` line, which ends the stream. */
  predicate IsDone(line: string) {
    StartsWith(line, DataPrefix) && line[|DataPrefix|..] == DoneMarker
  }

  /** The chunk one line of the stream yields: none for an empty line, a line that is not `data: `, an undecodable payload or empty content. */
  function LineChunk(line: string, decode: string -> Option<string>): seq<string> {
    if line == "" || !StartsWith(line, DataPrefix) then []
    else
      match decode(line[|DataPrefix|..])
      case None => []
      case Some(content) => if content == "" then [] else [content]
  }

  /** The chunks a stream yields, in line order, up to the first `data: [DONE]` line. */
  function StreamChunks(lines: seq<string>, decode: string -> Option<string>): (chunks: seq<string>)
    ensures forall k :: 0 <= k < |chunks| ==> chunks[k] != ""
  {
    if lines == [] then []
    else if lines[0] != "" && IsDone(lines[0]) then []
    else LineChunk(lines[0], decode) + StreamChunks(lines[1..], decode)
  }

  /** One step of the stream: a `[DONE]` line ends it, any other line yields its chunk. */
  lemma StreamChunksStep(lines: seq<string>, i: nat, decode: string -> Option<string>)
    requires i < |lines|
    ensures StreamChunks(lines[i..], decode) ==
      if lines[i] != "" && IsDone(lines[i]) then [] else LineChunk(lines[i], decode) + StreamChunks(lines[i + 1..], decode)
  {
    assert lines[i..][0] == lines[i];
    assert lines[i..][1..] == lines[i + 1..];
  }

  /**
   * The body of the parsing loop for one line: whether it is the `[DONE]`
   * line that ends the stream, and otherwise the chunk it yields.
   */
  method ReadStreamLine(line: string, decode: string -> Option<string>) returns (done: bool, chunk: seq<string>)
    ensures done <==> line != "" && IsDone(line)
    ensures !done ==> chunk == LineChunk(line, decode)
  {
    chunk := [];
    done := false;
    if line != "" {
      if StartsWith(line, DataPrefix) {
        var data := line[|DataPrefix|..];
        if data == DoneMarker {
          return true, [];
        }
        var content := decode(data);
        if content.Some? && content.value != "" {
          chunk := [content.value];
        }
      }
    }
  }

  /** The parsing loop of `chat_completion_stream`, over the lines received. */
  method ParseStream(lines: seq<string>, decode: string -> Option<string>) returns (chunks: seq<string>)
    ensures chunks == StreamChunks(lines, decode)
  {
    chunks := [];
    var i := 0;
    while i < |lines|
      invariant 0 <= i <= |lines|
      invariant chunks + StreamChunks(lines[i..], decode) == StreamChunks(lines, decode)
    {
      var done, chunk := ReadStreamLine(lines[i], decode);
      if done {
        StreamEndsAt(lines, i, chunks, decode);
        break;
      }
      StreamAdvances(lines, i, chunks, chunk, decode);
      chunks := chunks + chunk;
      i := i + 1;
    }
    if i == |lines| {
      assert lines[i..] == [];
      assert chunks + [] == chunks;
    }
  }

  /** At a `[DONE]` line the chunks read so far are all the stream yields. */
  lemma StreamEndsAt(lines: seq<string>, i: nat, chunks: seq<string>, decode: string -> Option<string>)
    requires i < |lines| && lines[i] != "" && IsDone(lines[i])
    requires chunks + StreamChunks(lines[i..], decode) == StreamChunks(lines, decode)
    ensures chunks == StreamChunks(lines, decode)
  {
    StreamChunksStep(lines, i, decode);
    assert chunks + [] == chunks;
  }

  /** Past any other line, its chunk joins those read so far. */
  lemma StreamAdvances(lines: seq<string>, i: nat, chunks: seq<string>, chunk: seq<string>, decode: string -> Option<string>)
    requires i < |lines| && !(lines[i] != "" && IsDone(lines[i])) && chunk == LineChunk(lines[i], decode)
    requires chunks + StreamChunks(lines[i..], decode) == StreamChunks(lines, decode)
    ensures (chunks + chunk) + StreamChunks(lines[i + 1..], decode) == StreamChunks(lines, decode)
  {
    StreamChunksStep(lines, i, decode);
    ConcatAssoc(chunks, chunk, StreamChunks(lines[i + 1..], decode));
  }

  /** Concatenation is associative. */
  lemma ConcatAssoc<T>(a: seq<T>, b: seq<T>, c: seq<T>)
    ensures a + (b + c) == (a + b) + c
  {
  }

  predicate NoDone(lines: seq<string>) {
    forall k :: 0 <= k < |lines| ==> !IsDone(lines[k])
  }

  /** Before any `[DONE]` line, the stream is parsed line by line: the chunks of two pieces follow each other. */
  lemma {:induction false} StreamChunksAppend(a: seq<string>, b: seq<string>, decode: string -> Option<string>)
    requires NoDone(a)
    ensures StreamChunks(a + b, decode) == StreamChunks(a, decode) + StreamChunks(b, decode)
  {
    if a != [] {
      assert (a + b)[0] == a[0];
      assert (a + b)[1..] == a[1..] + b;
      StreamChunksAppend(a[1..], b, decode);
    } else {
      assert a + b == b;
    }
  }

  /** Nothing after the first `data: [DONE]` line is yielded. */
  lemma StreamStopsAtDone(before: seq<string>, done: string, after: seq<string>, decode: string -> Option<string>)
    requires NoDone(before) && IsDone(done)
    ensures StreamChunks(before + [done] + after, decode) == StreamChunks(before, decode)
  {
    assert before + [done] + after == before + ([done] + after);
    StreamChunksAppend(before, [done] + after, decode);
  }

  /**
   * A line that yields nothing (empty, not `data: `, undecodable, or with
   * empty content) can be dropped without changing what the stream yields.
   */
  lemma StreamSkipsSilentLine(before: seq<string>, line: string, after: seq<string>, decode: string -> Option<string>)
    requires NoDone(before) && !IsDone(line) && LineChunk(line, decode) == []
    ensures StreamChunks(before + [line] + after, decode) == StreamChunks(before + after, decode)
  {
    assert before + [line] + after == before + ([line] + after);
    StreamChunksAppend(before, [line] + after, decode);
    StreamChunksAppend(before, after, decode);
    assert ([line] + after)[1..] == after;
  }

  /** What `chat_completion_stream` yields: nothing without a key, else the chunks of the lines received. */
  function StreamReply(messages: seq<Message>, model: string, apiKey: Option<string>, keys: KeySource,
                       open: Request -> seq<string>, decode: string -> Option<string>): (chunks: seq<string>)
    ensures !Truthy(EffectiveKey(apiKey, keys)) ==> chunks == []
    ensures forall k :: 0 <= k < |chunks| ==> chunks[k] != ""
  {
    var key := EffectiveKey(apiKey, keys);
    if !Truthy(key) then []
    else StreamChunks(open(Request(key.value, Resolve(Models, model), messages)), decode)
  }

  /** `chat_completion_stream`, consumed to the end. */
  method ChatCompletionStream(messages: seq<Message>, model: string, apiKey: Option<string>, keys: KeySource,
                              open: Request -> seq<string>, decode: string -> Option<string>)
    returns (chunks: seq<string>)
    ensures chunks == StreamReply(messages, model, apiKey, keys, open, decode)
    ensures !Truthy(EffectiveKey(apiKey, keys)) ==> chunks == []
    ensures forall k :: 0 <= k < |chunks| ==> chunks[k] != ""
  {
    var key := EffectiveKey(apiKey, keys);
    if !Truthy(key) {
      return [];
    }
    var lines := open(Request(key.value, Resolve(Models, model), messages));
    chunks := ParseStream(lines, decode);
  }

  const EnToViSystem := "Bạn là một dịch giả chuyên nghiệp Anh-Việt. Chỉ trả về bản dịch tiếng Việt, không giải thích thêm."
  const EnToViPrefix := "Dịch sang tiếng Việt: "
  const ViToEnSystem := "You are a professional Vietnamese-English translator. Only return the English translation, no explanations."
  const ViToEnPrefix := "Translate to English: "
  const AutoSystem := "You are a bilingual translator. If the input is English, translate to Vietnamese. If the input is Vietnamese, translate to English. Only return the translation, no explanations."

  /** The conversation `translate_en_to_vi` sends. */
  function EnToViMessages(text: string): seq<Message> {
    [Message(System, EnToViSystem), Message(User, EnToViPrefix + text)]
  }

  /** The conversation `translate_vi_to_en` sends. */
  function ViToEnMessages(text: string): seq<Message> {
    [Message(System, ViToEnSystem), Message(User, ViToEnPrefix + text)]
  }

  /** The conversation `translate_auto` sends. */
  function AutoMessages(text: string): seq<Message> {
    [Message(System, AutoSystem), Message(User, text)]
  }

  function TranslateEnToVi(text: string, model: string, apiKey: Option<string>, keys: KeySource,
                           post: Request -> Option<string>): (r: Option<string>)
    ensures !Truthy(EffectiveKey(apiKey, keys)) ==> r == None
    ensures Truthy(EffectiveKey(apiKey, keys)) ==>
      var answer := post(Request(EffectiveKey(apiKey, keys).value, Resolve(Models, model), EnToViMessages(text)));
      (r.Some? <==> answer.Some?) && (r.Some? ==> r.value == Strip(answer.value))
  {
    ChatCompletion(EnToViMessages(text), model, apiKey, keys, post)
  }

  function TranslateViToEn(text: string, model: string, apiKey: Option<string>, keys: KeySource,
                           post: Request -> Option<string>): (r: Option<string>)
    ensures !Truthy(EffectiveKey(apiKey, keys)) ==> r == None
    ensures Truthy(EffectiveKey(apiKey, keys)) ==>
      var answer := post(Request(EffectiveKey(apiKey, keys).value, Resolve(Models, model), ViToEnMessages(text)));
      (r.Some? <==> answer.Some?) && (r.Some? ==> r.value == Strip(answer.value))
  {
    ChatCompletion(ViToEnMessages(text), model, apiKey, keys, post)
  }

  function TranslateAuto(text: string, model: string, apiKey: Option<string>, keys: KeySource,
                         post: Request -> Option<string>): (r: Option<string>)
    ensures !Truthy(EffectiveKey(apiKey, keys)) ==> r == None
    ensures Truthy(EffectiveKey(apiKey, keys)) ==>
      var answer := post(Request(EffectiveKey(apiKey, keys).value, Resolve(Models, model), AutoMessages(text)));
      (r.Some? <==> answer.Some?) && (r.Some? ==> r.value == Strip(answer.value))
  {
    ChatCompletion(AutoMessages(text), model, apiKey, keys, post)
  }

  /**
   * A one-shot exchange with no history: an instruction as the system
   * message and one user message that ends with the text to translate.
   */
  predicate CarriesText(ms: seq<Message>, text: string) {
    |ms| == 2 && ms[0].role == System && ms[1].role == User
    && |text| <= |ms[1].content| && ms[1].content[|ms[1].content| - |text|..] == text
  }

  /** Each of the three translation requests carries the text, recoverable exactly. */
  lemma TranslationRequestsCarryText(text: string)
    ensures CarriesText(EnToViMessages(text), text)
    ensures CarriesText(ViToEnMessages(text), text)
    ensures CarriesText(AutoMessages(text), text)
  {
    assert (EnToViPrefix + text)[|EnToViPrefix|..] == text;
    assert (ViToEnPrefix + text)[|ViToEnPrefix|..] == text;
  }

  const DefaultSystemPrompt := "Bạn là trợ lý AI thông minh, có thể nói tiếng Việt và tiếng Anh. You are a smart AI assistant that can speak both Vietnamese and English. Trả lời bằng ngôn ngữ mà người dùng sử dụng. Reply in the same language the user uses. Trả lời ngắn gọn, rõ ràng và hữu ích."

  /** `OpenRouterChatbot`: a conversation with the system message first and committed turns after it. */
  class OpenRouterChatbot {
    const model: string
    const apiKey: Option<string>
    const maxHistory: int
    var systemPrompt: string
    var messages: seq<Message>
    /** The conversations handed to `chat_completion`, in call order. */
    ghost var sent: seq<seq<Message>>

    /**
     * The history starts with the current system message; every later
     * message is a user message or a non-empty assistant reply.
     */
    ghost predicate Valid()
      reads this
    {
      |messages| >= 1 && messages[0] == Message(System, systemPrompt) && TurnsAfterFirst(messages)
    }

    constructor (model: string, apiKey: Option<string>, systemPrompt: Option<string>, maxHistory: int, keys: KeySource)
      ensures this.model == model && this.maxHistory == maxHistory
      ensures this.apiKey == EffectiveKey(apiKey, keys)
      ensures this.systemPrompt == OrElse(systemPrompt, DefaultSystemPrompt)
      ensures messages == [Message(System, this.systemPrompt)] && sent == []
      ensures Valid() && Paired(messages)
    {
      this.model := model;
      this.apiKey := EffectiveKey(apiKey, keys);
      this.maxHistory := maxHistory;
      this.systemPrompt := OrElse(systemPrompt, DefaultSystemPrompt);
      messages := [Message(System, OrElse(systemPrompt, DefaultSystemPrompt))];
      sent := [];
    }

    /**
     * `chat`: sends the history plus the user message without changing the
     * history; commits the pair and trims only when the reply is non-empty.
     */
    method Chat(userMessage: string, keys: KeySource, post: Request -> Option<string>) returns (response: Option<string>)
      requires Valid()
      modifies this`messages, this`sent
      ensures Valid()
      ensures response == ChatCompletion(old(messages) + [Message(User, userMessage)], model, apiKey, keys, post)
      ensures sent == old(sent) + [old(messages) + [Message(User, userMessage)]]
      ensures Truthy(response) ==> messages == Trim(Commit(old(messages), userMessage, response.value), maxHistory)
      ensures Truthy(response) && maxHistory >= 1 ==>
        messages == TrimAsWritten(Commit(old(messages), userMessage, response.value), maxHistory)
      ensures !Truthy(response) ==> messages == old(messages)
      ensures Truthy(response) ==> |messages| <= Kept(maxHistory) + 1
      ensures maxHistory % 2 == 0 && Paired(old(messages)) ==> Paired(messages)
    {
      var request := messages + [Message(User, userMessage)];
      response := ChatCompletion(request, model, apiKey, keys, post);
      sent := sent + [request];
      ChatCommit(userMessage, response);
    }

    /** The commit-and-trim step of `chat`, after the reply is known. */
    method ChatCommit(userMessage: string, response: Option<string>)
      requires Valid()
      modifies this`messages
      ensures Valid()
      ensures Truthy(response) ==> messages == Trim(Commit(old(messages), userMessage, response.value), maxHistory)
      ensures Truthy(response) && maxHistory >= 1 ==>
        messages == TrimAsWritten(Commit(old(messages), userMessage, response.value), maxHistory)
      ensures !Truthy(response) ==> messages == old(messages)
      ensures Truthy(response) ==> |messages| <= Kept(maxHistory) + 1
      ensures maxHistory % 2 == 0 && Paired(old(messages)) ==> Paired(messages)
    {
      if Truthy(response) {
        ghost var before := messages;
        messages := messages + [Message(User, userMessage)];
        messages := messages + [Message(Assistant, response.value)];
        assert messages == Commit(before, userMessage, response.value);
        CommitKeepsTurns(before, userMessage, response.value);
        TrimKeepsTurns(messages, maxHistory);
        TrimKeepsNewest(messages, maxHistory);
        if maxHistory >= 1 {
          TrimAsWrittenAgrees(messages, maxHistory);
        }
        if maxHistory % 2 == 0 && Paired(before) {
          CommitKeepsPairs(before, userMessage, response.value);
          TrimEvenKeepsPairs(messages, maxHistory);
        }
        if |messages| > Kept(maxHistory) + 1 {
          messages := [messages[0]] + messages[|messages| - Kept(maxHistory)..];
        }
      }
    }

    /**
     * `chat_stream`, consumed to the end: the chunks are those of the
     * stream; if any arrived, the user message and their concatenation are
     * committed, with no trimming.
     */
    method ChatStream(userMessage: string, keys: KeySource, open: Request -> seq<string>, decode: string -> Option<string>)
      returns (chunks: seq<string>)
      requires Valid()
      modifies this`messages, this`sent
      ensures Valid()
      ensures chunks == StreamReply(old(messages) + [Message(User, userMessage)], model, apiKey, keys, open, decode)
      ensures sent == old(sent) + [old(messages) + [Message(User, userMessage)]]
      ensures chunks != [] ==> messages == Commit(old(messages), userMessage, Concat(chunks))
      ensures chunks == [] ==> messages == old(messages)
      ensures Paired(old(messages)) ==> Paired(messages)
    {
      var request := messages + [Message(User, userMessage)];
      chunks := ChatCompletionStream(request, model, apiKey, keys, open, decode);
      sent := sent + [request];
      if chunks != [] {
        assert chunks[0] != "";
        CommitKeepsTurns(messages, userMessage, Concat(chunks));
        if Paired(messages) {
          CommitKeepsPairs(messages, userMessage, Concat(chunks));
        }
        messages := messages + [Message(User, userMessage)];
        messages := messages + [Message(Assistant, Concat(chunks))];
      }
    }

    /** `reset`: back to the system message alone. */
    method Reset()
      modifies this`messages
      ensures Valid() && Paired(messages)
      ensures messages == [Message(System, systemPrompt)]
    {
      messages := [Message(System, systemPrompt)];
    }

    /** `set_system_prompt`: a new system prompt, then a reset. */
    method SetSystemPrompt(prompt: string)
      modifies this`systemPrompt, this`messages
      ensures Valid() && Paired(messages)
      ensures systemPrompt == prompt && messages == [Message(System, prompt)]
    {
      systemPrompt := prompt;
      Reset();
    }
  }
}
