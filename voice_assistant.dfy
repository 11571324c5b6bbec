/**
 * `voice_assistant.py` around its chatbot: the voice assistant's listen,
 * think and speak turn, and the text assistant's commands.
 *
 * The microphone side is the oracle `hear`: for a recognition language
 * code, what `listen_and_recognize` returns for the next capture in that
 * language. Speech output is recorded in a ghost log of what was handed to
 * `speak`, with the language it was spoken in. The chatbot's backend is the
 * oracle `post` of the OpenRouter client; `lower` stands for `str.lower`.
 */
module Assistants {
  import opened Wrappers
  import opened PyStr
  import opened Messages
  import opened History
  import opened OpenRouterClient
  import opened LanguageDetection

  const VoicePrompt := "Bạn là trợ lý giọng nói AI thông minh tên là Mini, nói tiếng Việt. Trả lời ngắn gọn và tự nhiên như đang nói chuyện. QUAN TRỌNG: Khi người dùng nói 'dịch' hoặc 'translate' kèm theo một câu tiếng Anh, hãy dịch câu đó sang tiếng Việt. Ví dụ: 'dịch I love you' → 'Tôi yêu bạn'. Chỉ trả về bản dịch, không giải thích thêm. Nếu không phải yêu cầu dịch, hãy trả lời bằng tiếng Việt."
  const TextPrompt := "Bạn là trợ lý AI thông minh tên là Mini, nói tiếng Việt. Trả lời ngắn gọn và tự nhiên. QUAN TRỌNG: Khi người dùng nói 'dịch' hoặc 'translate' kèm theo một câu tiếng Anh, hãy dịch câu đó sang tiếng Việt. Ví dụ: 'dịch I love you' → 'Tôi yêu bạn'. Chỉ trả về bản dịch, không giải thích thêm. Nếu không phải yêu cầu dịch, hãy trả lời bằng tiếng Việt."

  /** The phrases that end the voice conversation, compared after lower-casing and stripping. */
  const ExitCommands: seq<string> := ["quit", "exit", "bye", "goodbye", "thoát", "tạm biệt", "kết thúc", "dừng lại"]
  const Farewell := "Tạm biệt! Hẹn gặp lại! Goodbye!"
  const AutoLanguage := "auto"
  const ViVN := "vi-VN"
  const EnUS := "en-US"

  /** A text handed to `speak`, with the language it is spoken in. */
  datatype Utterance = Utterance(text: string, language: string)

  /** The recognition language `listen` captures in first: English for `"en"`, Vietnamese for `"vi"` and for everything else. */
  function ListenCode(inputLanguage: string): (code: string)
    ensures code == EnUS <==> inputLanguage == English
    ensures code == ViVN <==> inputLanguage != English
  {
    if inputLanguage == Vietnamese then ViVN
    else if inputLanguage == English then EnUS
    else ViVN
  }

  /** The captures `listen` makes, by language code: a second, English one only in automatic mode after the first heard nothing at all. */
  function ListenCodes(inputLanguage: string, hear: string -> Option<string>): (codes: seq<string>)
    ensures 1 <= |codes| <= 2 && codes[0] == ListenCode(inputLanguage)
    ensures |codes| == 2 ==> inputLanguage == AutoLanguage && codes[1] == EnUS
  {
    var first := ListenCode(inputLanguage);
    if hear(first).None? && inputLanguage == AutoLanguage then [first, EnUS] else [first]
  }

  /** What `listen` returns. */
  function Heard(inputLanguage: string, hear: string -> Option<string>): (text: Option<string>)
    ensures text == hear(ListenCodes(inputLanguage, hear)[|ListenCodes(inputLanguage, hear)| - 1])
  {
    var first := ListenCode(inputLanguage);
    if hear(first).None? && inputLanguage == AutoLanguage then hear(EnUS) else hear(first)
  }

  /**
   * Automatic mode listens in Vietnamese, then in English only when nothing
   * was returned (an empty text is not retried); the other modes capture
   * once; the result is the last capture's.
   */
  lemma ListenFallback(inputLanguage: string, hear: string -> Option<string>)
    ensures var codes := ListenCodes(inputLanguage, hear);
      1 <= |codes| <= 2 && codes[0] == ListenCode(inputLanguage)
      && Heard(inputLanguage, hear) == hear(codes[|codes| - 1])
    ensures |ListenCodes(inputLanguage, hear)| == 2 <==> inputLanguage == AutoLanguage && hear(ViVN).None?
    ensures |ListenCodes(inputLanguage, hear)| == 2 ==> ListenCodes(inputLanguage, hear) == [ViVN, EnUS]
    ensures hear(ListenCode(inputLanguage)) == Some("") ==> Heard(inputLanguage, hear) == Some("")
  {
  }

  /** The language a response is spoken in: the one asked for, or the detected one for `"auto"`. */
  function SpeechLanguage(text: string, language: string, lower: string -> string): (lang: string)
    ensures language == AutoLanguage ==> lang == Vietnamese || lang == English
    ensures language == AutoLanguage ==> lang == DetectLanguage(text, lower)
    ensures language != AutoLanguage ==> lang == language
  {
    if language == AutoLanguage then DetectLanguage(text, lower) else language
  }

  /** The exit test of `process_turn`: the lower-cased, stripped input is an exit phrase. */
  predicate IsExit(input: string, lower: string -> string) {
    Strip(lower(input)) in ExitCommands
  }

  class VoiceAssistant {
    const model: string
    const micIndex: Option<int>
    const useGtts: bool
    const voiceRate: int
    const inputLanguage: string
    const chatbot: OpenRouterChatbot
    /** The language codes captured in, in order. */
    ghost var captures: seq<string>
    /** What was spoken, in order. */
    ghost var spoken: seq<Utterance>

    ghost predicate Valid()
      reads this, chatbot
    {
      chatbot.Valid()
    }

    constructor (model: string, apiKey: Option<string>, micIndex: Option<int>, useGtts: bool, voiceRate: int,
                 inputLanguage: string, keys: KeySource)
      ensures Valid() && fresh(chatbot)
      ensures this.inputLanguage == inputLanguage && this.useGtts == useGtts && this.voiceRate == voiceRate
      ensures chatbot.model == model && chatbot.apiKey == EffectiveKey(apiKey, keys) && chatbot.maxHistory == 20
      ensures chatbot.messages == [Message(System, VoicePrompt)]
      ensures captures == [] && spoken == []
    {
      this.model := model;
      this.micIndex := micIndex;
      this.useGtts := useGtts;
      this.voiceRate := voiceRate;
      this.inputLanguage := inputLanguage;
      chatbot := new OpenRouterChatbot(model, apiKey, Some(VoicePrompt), 20, keys);
      captures := [];
      spoken := [];
    }

    /** `listen`. */
    method Listen(hear: string -> Option<string>) returns (text: Option<string>)
      modifies this`captures
      ensures text == Heard(inputLanguage, hear)
      ensures captures == old(captures) + ListenCodes(inputLanguage, hear)
    {
      var langCode: string;
      if inputLanguage == Vietnamese {
        langCode := ViVN;
      } else if inputLanguage == English {
        langCode := EnUS;
      } else {
        langCode := ViVN;
      }
      text := hear(langCode);
      captures := captures + [langCode];
      if text.None? && inputLanguage == AutoLanguage {
        text := hear(EnUS);
        captures := captures + [EnUS];
      }
    }

    /** `think`: one chat turn. */
    method Think(userInput: string, keys: KeySource, post: Request -> Option<string>) returns (response: Option<string>)
      requires Valid()
      modifies chatbot`messages, chatbot`sent
      ensures Valid()
      ensures response == ChatCompletion(old(chatbot.messages) + [Message(User, userInput)], chatbot.model, chatbot.apiKey, keys, post)
      ensures chatbot.sent == old(chatbot.sent) + [old(chatbot.messages) + [Message(User, userInput)]]
      ensures Truthy(response) ==> chatbot.messages == Trim(Commit(old(chatbot.messages), userInput, response.value), chatbot.maxHistory)
      ensures !Truthy(response) ==> chatbot.messages == old(chatbot.messages)
    {
      response := chatbot.Chat(userInput, keys, post);
    }

    /** `speak_response`: speaks in the given language, or in the detected one for `"auto"`. */
    method SpeakResponse(text: string, language: string, lower: string -> string)
      modifies this`spoken
      ensures spoken == old(spoken) + [Utterance(text, SpeechLanguage(text, language, lower))]
    {
      var lang := language;
      if lang == AutoLanguage {
        lang := DetectLanguage(text, lower);
      }
      spoken := spoken + [Utterance(text, lang)];
    }

    /**
     * `process_turn`: nothing heard means another turn with no chat; an
     * exit phrase means the farewell and the end, with no chat; anything
     * else is sent to the chatbot, and a non-empty reply is spoken.
     */
    method ProcessTurn(hear: string -> Option<string>, keys: KeySource, post: Request -> Option<string>, lower: string -> string)
      returns (continueLoop: bool, userInput: Option<string>, response: Option<string>)
      requires Valid()
      modifies this`captures, this`spoken, chatbot`messages, chatbot`sent
      ensures Valid()
      ensures userInput == Heard(inputLanguage, hear)
      ensures captures == old(captures) + ListenCodes(inputLanguage, hear)
      ensures userInput.None? ==>
        continueLoop && response == None && spoken == old(spoken)
        && chatbot.messages == old(chatbot.messages) && chatbot.sent == old(chatbot.sent)
      ensures userInput.Some? && IsExit(userInput.value, lower) ==>
        !continueLoop && response == None && spoken == old(spoken) + [Utterance(Farewell, DetectLanguage(Farewell, lower))]
        && chatbot.messages == old(chatbot.messages) && chatbot.sent == old(chatbot.sent)
      ensures userInput.Some? && !IsExit(userInput.value, lower) ==>
        continueLoop
        && response == ChatCompletion(old(chatbot.messages) + [Message(User, userInput.value)], chatbot.model, chatbot.apiKey, keys, post)
        && chatbot.sent == old(chatbot.sent) + [old(chatbot.messages) + [Message(User, userInput.value)]]
        && spoken == old(spoken) + (if Truthy(response) then [Utterance(response.value, DetectLanguage(response.value, lower))] else [])
        && (Truthy(response) ==> chatbot.messages == Trim(Commit(old(chatbot.messages), userInput.value, response.value), chatbot.maxHistory))
        && (!Truthy(response) ==> chatbot.messages == old(chatbot.messages))
    {
      userInput := Listen(hear);
      if userInput.None? {
        return true, None, None;
      }
      if Strip(lower(userInput.value)) in ExitCommands {
        SpeakResponse(Farewell, AutoLanguage, lower);
        return false, userInput, None;
      }
      response := Think(userInput.value, keys, post);
      if Truthy(response) {
        SpeakResponse(response.value, AutoLanguage, lower);
      }
      continueLoop := true;
    }

    /** `reset`: the chatbot's history back to its system message alone. */
    method Reset()
      requires Valid()
      modifies chatbot`messages
      ensures Valid()
      ensures chatbot.messages == [Message(System, chatbot.systemPrompt)]
    {
      chatbot.Reset();
    }
  }

  /** A line of the text assistant, once stripped. */
  datatype Command = Skip | Quit | ResetHistory | VoiceOn | VoiceOff | Send(text: string)

  const QuitCommands: seq<string> := ["quit", "exit", "thoát"]

  /** How `TextAssistant.run` reads one input line. */
  function Classify(line: string, lower: string -> string): (c: Command)
    ensures c == Skip <==> Strip(line) == ""
    ensures c.Send? ==> c.text == Strip(line) && c.text != ""
    ensures c.Send? ==> !IsCommandWord(lower(c.text))
  {
    var input := Strip(line);
    if input == "" then Skip
    else if lower(input) in QuitCommands then Quit
    else if lower(input) == "reset" then ResetHistory
    else if lower(input) == "voice on" then VoiceOn
    else if lower(input) == "voice off" then VoiceOff
    else Send(input)
  }

  /** The lower-cased forms of the command words. */
  predicate IsCommandWord(s: string) {
    s in QuitCommands || s == "reset" || s == "voice on" || s == "voice off"
  }

  /**
   * A line reaches the chatbot exactly when its stripped text is non-empty
   * and, lower-cased, is no command word; what is sent is the stripped
   * text, as typed.
   */
  lemma CommandsNeverChat(line: string, lower: string -> string)
    ensures Classify(line, lower).Send? <==> Strip(line) != "" && !IsCommandWord(lower(Strip(line)))
    ensures Classify(line, lower).Send? ==> Classify(line, lower).text == Strip(line)
    ensures Classify(line, lower) == Skip <==> Strip(line) == ""
    ensures Classify(line, lower) == Quit <==> Strip(line) != "" && lower(Strip(line)) in QuitCommands
  {
  }

  /** The position of the first quit line, or `|lines|` when there is none. */
  function QuitAt(lines: seq<string>, lower: string -> string): (i: nat)
    ensures i <= |lines|
    ensures i < |lines| ==> Classify(lines[i], lower) == Quit
    ensures forall j :: 0 <= j < i ==> Classify(lines[j], lower) != Quit
  {
    if lines == [] then 0
    else if Classify(lines[0], lower) == Quit then 0
    else 1 + QuitAt(lines[1..], lower)
  }

  /** The texts sent to the chatbot for `lines`, in order. */
  function Sends(lines: seq<string>, lower: string -> string): seq<string> {
    if lines == [] then []
    else
      var c := Classify(lines[|lines| - 1], lower);
      Sends(lines[..|lines| - 1], lower) + (if c.Send? then [c.text] else [])
  }

  /** Whether speech output is on after `lines`, starting from `initial`: the last `voice on` or `voice off` decides. */
  function VoiceAfter(lines: seq<string>, initial: bool, lower: string -> string): bool {
    if lines == [] then initial
    else
      match Classify(lines[|lines| - 1], lower)
      case VoiceOn => true
      case VoiceOff => false
      case _ => VoiceAfter(lines[..|lines| - 1], initial, lower)
  }

  /** Lines without a `voice` command leave the setting alone. */
  lemma {:induction false} VoiceAfterNoCommand(lines: seq<string>, initial: bool, lower: string -> string)
    requires forall j :: 0 <= j < |lines| ==> Classify(lines[j], lower) != VoiceOn && Classify(lines[j], lower) != VoiceOff
    ensures VoiceAfter(lines, initial, lower) == initial
  {
    if lines != [] {
      assert forall j :: 0 <= j < |lines| - 1 ==> lines[..|lines| - 1][j] == lines[j];
      VoiceAfterNoCommand(lines[..|lines| - 1], initial, lower);
    }
  }

  /** Only send lines reach the chatbot: lines that are all commands or blank send nothing. */
  lemma {:induction false} SendsOnlyChatLines(lines: seq<string>, lower: string -> string)
    ensures |Sends(lines, lower)| <= |lines|
    ensures (forall j :: 0 <= j < |lines| ==> !Classify(lines[j], lower).Send?) ==> Sends(lines, lower) == []
  {
    if lines != [] {
      assert forall j :: 0 <= j < |lines| - 1 ==> lines[..|lines| - 1][j] == lines[j];
      SendsOnlyChatLines(lines[..|lines| - 1], lower);
    }
  }

  /** Each request ends with the user message of the matching text. */
  ghost predicate EndsWithTexts(requests: seq<seq<Message>>, texts: seq<string>) {
    |requests| == |texts|
    && forall k :: 0 <= k < |requests| ==> |requests[k]| >= 1 && requests[k][|requests[k]| - 1] == Message(User, texts[k])
  }

  /**
   * The text assistant's fixed surroundings during `run`: its chatbot's
   * settings, the backend, and `str.lower`.
   */
  datatype TextSetup = TextSetup(systemPrompt: string, model: string, apiKey: Option<string>, maxHistory: int,
                                 keys: KeySource, post: Request -> Option<string>, lower: string -> string)

  /** What `run` changes: the chatbot's history, the requests it sent, what was spoken, and the voice setting. */
  datatype TextRunState = TextRunState(messages: seq<Message>, sent: seq<seq<Message>>, spoken: seq<Utterance>, voice: bool)

  /**
   * One input line's effect, as `run` applies it: quit and blank lines
   * change nothing; `reset` leaves the system message alone; `voice on` and
   * `voice off` set the speech flag; any other line is sent with the
   * history, and a truthy reply is committed, trimmed and, with speech on,
   * spoken in its detected language.
   */
  function LineEffect(s: TextRunState, line: string, setup: TextSetup): TextRunState {
    match Classify(line, setup.lower)
    case Skip => s
    case Quit => s
    case ResetHistory => s.(messages := [Message(System, setup.systemPrompt)])
    case VoiceOn => s.(voice := true)
    case VoiceOff => s.(voice := false)
    case Send(text) =>
      var request := s.messages + [Message(User, text)];
      var response := ChatCompletion(request, setup.model, setup.apiKey, setup.keys, setup.post);
      if Truthy(response) then
        TextRunState(Trim(Commit(s.messages, text, response.value), setup.maxHistory), s.sent + [request],
                     s.spoken + (if s.voice then [Utterance(response.value, DetectLanguage(response.value, setup.lower))] else []),
                     s.voice)
      else
        s.(sent := s.sent + [request])
  }

  /** The run state after the lines, read in order from `s`. */
  function RunLines(s: TextRunState, lines: seq<string>, setup: TextSetup): TextRunState {
    if lines == [] then s
    else LineEffect(RunLines(s, lines[..|lines| - 1], setup), lines[|lines| - 1], setup)
  }

  class TextAssistant {
    const model: string
    const useGtts: bool
    const voiceRate: int
    var speakOutput: bool
    const chatbot: OpenRouterChatbot
    /** What was spoken, in order. */
    ghost var spoken: seq<Utterance>

    ghost predicate Valid()
      reads this, chatbot
    {
      chatbot.Valid()
    }

    constructor (model: string, apiKey: Option<string>, useGtts: bool, voiceRate: int, speakOutput: bool, keys: KeySource)
      ensures Valid() && fresh(chatbot)
      ensures this.speakOutput == speakOutput && this.useGtts == useGtts && this.voiceRate == voiceRate
      ensures chatbot.model == model && chatbot.apiKey == EffectiveKey(apiKey, keys) && chatbot.maxHistory == 20
      ensures chatbot.messages == [Message(System, TextPrompt)]
      ensures spoken == []
    {
      this.model := model;
      this.useGtts := useGtts;
      this.voiceRate := voiceRate;
      this.speakOutput := speakOutput;
      chatbot := new OpenRouterChatbot(model, apiKey, Some(TextPrompt), 20, keys);
      spoken := [];
    }

    /** `chat`: one chat turn; the reply is spoken, in its detected language, only when it is non-empty and output is on. */
    method Chat(userInput: string, keys: KeySource, post: Request -> Option<string>, lower: string -> string)
      returns (response: Option<string>)
      requires Valid()
      modifies this`spoken, chatbot`messages, chatbot`sent
      ensures Valid()
      ensures response == ChatCompletion(old(chatbot.messages) + [Message(User, userInput)], chatbot.model, chatbot.apiKey, keys, post)
      ensures chatbot.sent == old(chatbot.sent) + [old(chatbot.messages) + [Message(User, userInput)]]
      ensures Truthy(response) ==> chatbot.messages == Trim(Commit(old(chatbot.messages), userInput, response.value), chatbot.maxHistory)
      ensures !Truthy(response) ==> chatbot.messages == old(chatbot.messages)
      ensures spoken == old(spoken) + (if Truthy(response) && speakOutput then [Utterance(response.value, DetectLanguage(response.value, lower))] else [])
    {
      response := chatbot.Chat(userInput, keys, post);
      if Truthy(response) && speakOutput {
        var lang := DetectLanguage(response.value, lower);
        spoken := spoken + [Utterance(response.value, lang)];
      }
    }

    /** One pass of the `run` loop: the command of the line, applied; `quit` tells the loop to end. */
    method HandleLine(line: string, keys: KeySource, post: Request -> Option<string>, lower: string -> string)
      returns (quit: bool)
      requires Valid()
      modifies this`speakOutput, this`spoken, chatbot`messages, chatbot`sent
      ensures Valid()
      ensures quit <==> Classify(line, lower) == Quit
      ensures !Classify(line, lower).Send? ==> chatbot.sent == old(chatbot.sent) && spoken == old(spoken)
      ensures Classify(line, lower) == ResetHistory ==> chatbot.messages == [Message(System, chatbot.systemPrompt)]
      ensures !Classify(line, lower).Send? && Classify(line, lower) != ResetHistory ==> chatbot.messages == old(chatbot.messages)
      ensures speakOutput == VoiceAfter([line], old(speakOutput), lower)
      ensures Classify(line, lower).Send? ==>
        var request := old(chatbot.messages) + [Message(User, Classify(line, lower).text)];
        var response := ChatCompletion(request, chatbot.model, chatbot.apiKey, keys, post);
        chatbot.sent == old(chatbot.sent) + [request]
        && (Truthy(response) ==> chatbot.messages == Trim(Commit(old(chatbot.messages), Classify(line, lower).text, response.value), chatbot.maxHistory))
        && (!Truthy(response) ==> chatbot.messages == old(chatbot.messages))
        && spoken == old(spoken) + (if Truthy(response) && speakOutput then [Utterance(response.value, DetectLanguage(response.value, lower))] else [])
    {
      var input := Strip(line);
      if input == "" {
        return false;
      }
      if lower(input) in QuitCommands {
        return true;
      }
      if lower(input) == "reset" {
        chatbot.Reset();
        return false;
      }
      if lower(input) == "voice on" {
        speakOutput := true;
        return false;
      }
      if lower(input) == "voice off" {
        speakOutput := false;
        return false;
      }
      var response := Chat(input, keys, post, lower);
      quit := false;
    }

    /** The run state held by the assistant and its chatbot. */
    ghost function State(): TextRunState
      reads this, chatbot
    {
      TextRunState(chatbot.messages, chatbot.sent, spoken, speakOutput)
    }

    /** The surroundings `run` works in, for the given backend and `str.lower`. */
    ghost function Setup(keys: KeySource, post: Request -> Option<string>, lower: string -> string): TextSetup
      reads this, chatbot
    {
      TextSetup(chatbot.systemPrompt, chatbot.model, chatbot.apiKey, chatbot.maxHistory, keys, post, lower)
    }

    /**
     * `run` over the lines typed: it stops after the first quit line (or
     * at the end of the input), and leaves the history, the requests, the
     * speech log and the voice setting that the lines before it produce one
     * by one. So the voice setting follows the last voice command read, and
     * each line sent to the chatbot is one request, in order, ending with
     * that line's text.
     */
    method Run(lines: seq<string>, keys: KeySource, post: Request -> Option<string>, lower: string -> string)
      returns (consumed: nat)
      requires Valid()
      modifies this`speakOutput, this`spoken, chatbot`messages, chatbot`sent
      ensures Valid()
      ensures consumed == (if QuitAt(lines, lower) < |lines| then QuitAt(lines, lower) + 1 else |lines|)
      ensures State() == RunLines(old(State()), lines[..QuitAt(lines, lower)], Setup(keys, post, lower))
      ensures speakOutput == VoiceAfter(lines[..QuitAt(lines, lower)], old(speakOutput), lower)
      ensures |chatbot.sent| >= |old(chatbot.sent)| && chatbot.sent[..|old(chatbot.sent)|] == old(chatbot.sent)
      ensures EndsWithTexts(chatbot.sent[|old(chatbot.sent)|..], Sends(lines[..QuitAt(lines, lower)], lower))
    {
      ghost var start := State();
      assert lines[..0] == [];
      var i := 0;
      while i < |lines|
        invariant 0 <= i <= |lines|
        invariant Valid() && RunState(lines, i, start, keys, post, lower)
        invariant i <= QuitAt(lines, lower)
      {
        var quit := ReadLine(lines, i, start, keys, post, lower);
        if quit {
          consumed := i + 1;
          break;
        }
        i := i + 1;
      }
      if i == |lines| {
        consumed := |lines|;
      }
      RunLinesVoice(start, lines[..i], Setup(keys, post, lower));
      RunLinesRequests(start, lines[..i], Setup(keys, post, lower));
    }

    /** After the first `i` lines, from `start`, the assistant holds the run state those lines produce. */
    ghost predicate RunState(lines: seq<string>, i: nat, start: TextRunState,
                             keys: KeySource, post: Request -> Option<string>, lower: string -> string)
      reads this, chatbot
    {
      i <= |lines| && State() == RunLines(start, lines[..i], Setup(keys, post, lower))
    }

    /** Line `i` of `run`: a quit line changes nothing; any other line moves the run state on by one line. */
    method ReadLine(lines: seq<string>, i: nat, ghost start: TextRunState,
                    keys: KeySource, post: Request -> Option<string>, lower: string -> string) returns (quit: bool)
      requires i < |lines| && i <= QuitAt(lines, lower)
      requires Valid() && RunState(lines, i, start, keys, post, lower)
      modifies this`speakOutput, this`spoken, chatbot`messages, chatbot`sent
      ensures Valid()
      ensures quit ==> QuitAt(lines, lower) == i && RunState(lines, i, start, keys, post, lower)
      ensures !quit ==> i + 1 <= QuitAt(lines, lower) && RunState(lines, i + 1, start, keys, post, lower)
    {
      ghost var before := State();
      quit := HandleLine(lines[i], keys, post, lower);
      assert State() == LineEffect(before, lines[i], Setup(keys, post, lower));
      assert lines[..i + 1][..i] == lines[..i];
      assert lines[..i + 1][i] == lines[i];
    }
  }

  /** One more line: it adds its own text to the sends when it is sent, and sets the voice when it is a voice command. */
  lemma RunStep(lines: seq<string>, i: nat, lower: string -> string)
    requires i < |lines|
    ensures var c := Classify(lines[i], lower);
      Sends(lines[..i + 1], lower) == Sends(lines[..i], lower) + (if c.Send? then [c.text] else [])
    ensures forall initial: bool {:trigger VoiceAfter(lines[..i + 1], initial, lower)} ::
      VoiceAfter(lines[..i + 1], initial, lower) ==
        if Classify(lines[i], lower) == VoiceOn then true
        else if Classify(lines[i], lower) == VoiceOff then false
        else VoiceAfter(lines[..i], initial, lower)
  {
    assert lines[..i + 1][..i] == lines[..i];
    assert lines[..i + 1][i] == lines[i];
  }

  /** Appending a request that ends with a text's user message extends the correspondence by that text. */
  lemma EndsWithTextsExtend(before: seq<seq<Message>>, sent: seq<seq<Message>>, request: seq<Message>,
                            texts: seq<string>, text: string)
    requires |sent| >= |before| && EndsWithTexts(sent[|before|..], texts)
    requires |request| >= 1 && request[|request| - 1] == Message(User, text)
    ensures (sent + [request])[|before|..] == sent[|before|..] + [request]
    ensures EndsWithTexts((sent + [request])[|before|..], texts + [text])
  {
    assert (sent + [request])[|before|..] == sent[|before|..] + [request];
  }

  /** The voice setting a run leaves is the one the last voice command among its lines set. */
  lemma {:induction false} RunLinesVoice(s: TextRunState, lines: seq<string>, setup: TextSetup)
    ensures RunLines(s, lines, setup).voice == VoiceAfter(lines, s.voice, setup.lower)
  {
    if lines != [] {
      RunLinesVoice(s, lines[..|lines| - 1], setup);
    }
  }

  /** One line adds a request exactly when it is a chat line: the history so far plus that line's user message. */
  lemma LineEffectSent(s: TextRunState, line: string, setup: TextSetup)
    ensures var c := Classify(line, setup.lower);
      LineEffect(s, line, setup).sent == s.sent + (if c.Send? then [s.messages + [Message(User, c.text)]] else [])
  {
  }

  /**
   * A run keeps the requests sent before it and adds one per chat line, in
   * order, each ending with that line's text as the user message.
   */
  lemma {:induction false} RunLinesRequests(s: TextRunState, lines: seq<string>, setup: TextSetup)
    ensures var r := RunLines(s, lines, setup);
      |r.sent| >= |s.sent| && r.sent[..|s.sent|] == s.sent
      && EndsWithTexts(r.sent[|s.sent|..], Sends(lines, setup.lower))
  {
    if lines == [] {
      assert s.sent[|s.sent|..] == [];
    } else {
      var init := lines[..|lines| - 1];
      RunLinesRequests(s, init, setup);
      var mid := RunLines(s, init, setup);
      var c := Classify(lines[|lines| - 1], setup.lower);
      LineEffectSent(mid, lines[|lines| - 1], setup);
      if c.Send? {
        var request := mid.messages + [Message(User, c.text)];
        EndsWithTextsExtend(s.sent, mid.sent, request, Sends(init, setup.lower), c.text);
        assert (mid.sent + [request])[..|s.sent|] == mid.sent[..|s.sent|];
      }
    }
  }

  /** One line keeps the history well formed: its system message first, then only user messages and non-empty replies. */
  lemma LineEffectKeepsTurns(s: TextRunState, line: string, setup: TextSetup)
    requires |s.messages| >= 1 && s.messages[0] == Message(System, setup.systemPrompt) && TurnsAfterFirst(s.messages)
    ensures var r := LineEffect(s, line, setup);
      |r.messages| >= 1 && r.messages[0] == Message(System, setup.systemPrompt) && TurnsAfterFirst(r.messages)
  {
    var c := Classify(line, setup.lower);
    if c.Send? {
      var response := ChatCompletion(s.messages + [Message(User, c.text)], setup.model, setup.apiKey, setup.keys, setup.post);
      if Truthy(response) {
        CommitKeepsTurns(s.messages, c.text, response.value);
        TrimKeepsTurns(Commit(s.messages, c.text, response.value), setup.maxHistory);
      }
    }
  }

  /**
   * A run keeps the chatbot's history well formed: its system message
   * first, then only user messages and non-empty replies.
   */
  lemma {:induction false} RunLinesKeepsTurns(s: TextRunState, lines: seq<string>, setup: TextSetup)
    requires |s.messages| >= 1 && s.messages[0] == Message(System, setup.systemPrompt) && TurnsAfterFirst(s.messages)
    ensures var r := RunLines(s, lines, setup);
      |r.messages| >= 1 && r.messages[0] == Message(System, setup.systemPrompt) && TurnsAfterFirst(r.messages)
  {
    if lines != [] {
      RunLinesKeepsTurns(s, lines[..|lines| - 1], setup);
      LineEffectKeepsTurns(RunLines(s, lines[..|lines| - 1], setup), lines[|lines| - 1], setup);
    }
  }

  /** With speech off and no `voice on` line, a run speaks nothing and ends with speech still off. */
  lemma {:induction false} RunLinesSilent(s: TextRunState, lines: seq<string>, setup: TextSetup)
    requires !s.voice
    requires forall j :: 0 <= j < |lines| ==> Classify(lines[j], setup.lower) != VoiceOn
    ensures !RunLines(s, lines, setup).voice && RunLines(s, lines, setup).spoken == s.spoken
  {
    if lines != [] {
      assert forall j :: 0 <= j < |lines| - 1 ==> lines[..|lines| - 1][j] == lines[j];
      RunLinesSilent(s, lines[..|lines| - 1], setup);
    }
  }

  /** The first quit line is at `i` when none comes before it and `i` is one, or is the end. */
  lemma {:induction false} QuitAtIs(lines: seq<string>, i: nat, lower: string -> string)
    requires i <= |lines|
    requires forall j :: 0 <= j < i ==> Classify(lines[j], lower) != Quit
    requires i < |lines| ==> Classify(lines[i], lower) == Quit
    ensures QuitAt(lines, lower) == i
  {
    if lines != [] && i > 0 {
      QuitAtIs(lines[1..], i - 1, lower);
    }
  }
}
