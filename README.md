# translator_mini in Dafny

A model of the decision logic in translator_mini, a bilingual (Vietnamese and
English) voice and text assistant. The model covers:

- the two chat clients, OpenRouter and Google Gemini;
- their chatbots, which keep a bounded conversation history;
- the streamed-reply line parser;
- the Gemini prompt flattener;
- the heuristic language detector;
- the voice assistant's listen, think and speak turn;
- the text assistant's commands;
- recognition-language fallback;
- the text-to-speech fallback chain, with its voice choice.

Every network service, SDK, microphone and speech engine is an oracle, given
to the operation that uses it as a parameter:

- The OpenRouter exchange is `post` (a reply's content, or None for any
  failure). A stream is `open` (the lines received) and `decode` (one
  `data:` payload's content, or None when it is not JSON).
- The Gemini SDK is `generate`.
- The microphone and recogniser are a `Capture` value and `recognize`, or
  `hear` for the voice assistant.
- The pyttsx3 driver is the boolean `spoken`. gTTS, the temporary file and
  playback are a `GttsRun`.
- Which optional packages imported is an `Availability`.
- API key sources are a `KeySource`: the key file's text and the
  environment variable, each optional.
- `str.lower` is the parameter `lower`. `str.strip`, `str.split`,
  `str.startswith`, `in` and `join` are defined in `PyStr` over Python's
  whitespace set.

Objects the source updates in place are classes: the two chatbots, the two
assistants, the lazily created pyttsx3 engine and its slot, and the
temporary directory. Each method that performs one step states the whole
new state it leaves; `TextAssistant.Run`, the loop over all input lines,
ends in the state that `RunLines`, a fold of the one-line effect
`LineEffect` over the lines before the first quit, produces: the history,
the requests sent, the speech log and the voice setting. Ghost logs
record what was sent to a backend, spoken, captured or requested. The pure
decisions are functions, with lemmas for the properties they promise.

`text_to_speech.py` (`speak_pyttsx3`, `_choose_vi_voice`, `_get_engine`)
and `text_to_speech_old.py` (`speak`, `_choose_vi_voice`, `_get_engine`)
have the same pyttsx3 code. It is modelled once, in `Pyttsx3Engine`.

## Model

| member | source | states |
|---|---|---|
| `Messages.Or` | translator_mini/openrouter_client.py:101 | `api_key or get_api_key()` is the explicit key when that is truthy and the looked-up key otherwise; it is truthy exactly when one side is |
| `Messages.OrElse` | translator_mini/openrouter_client.py:311-317 | `system_prompt or default` is the given prompt when that is non-empty and exactly the default otherwise; it is never empty |
| `Messages.Resolve` | translator_mini/openrouter_client.py:108 | `MODELS.get(model, model)`: a known alias maps to its id, any other name passes through unchanged |
| `Messages.ToDict` | translator_mini/openrouter_client.py:340-341 | a message is sent as a dict whose `role` and `content` entries are its own |
| `PyStr.Strip` | translator_mini/openrouter_client.py:51 | `str.strip()` leaves no whitespace at either end and never lengthens the text |
| `PyStr.LStripDropsSpace` | translator_mini/openrouter_client.py:51 | `lstrip` removes a prefix of `s` made only of whitespace, and nothing else |
| `PyStr.RStripDropsSpace` | translator_mini/openrouter_client.py:51 | `rstrip` removes a suffix of `s` made only of whitespace, and nothing else |
| `PyStr.StripRemovesOnlySurroundingSpace` | translator_mini/openrouter_client.py:51 | `s.strip()` is a slice `s[i:j]` of `s` where everything before `i` and from `j` on is whitespace: only the surrounding whitespace is removed |
| `PyStr.StripIdempotent` | translator_mini/openrouter_client.py:136 | stripping an already stripped reply changes nothing |
| `PyStr.Split` | translator_mini/voice_assistant.py:49 | every word of `str.split()` is non-empty and holds no whitespace |
| `PyStr.SplitOnJoin` | translator_mini/gemini_client.py:82 | splitting a `"\n".join` on newlines gives the parts back when none holds a newline |
| `History.Commit` | translator_mini/openrouter_client.py:340-341 | a committed turn appends the user message then the assistant reply, keeping everything before |
| `History.TrimAsWritten` | translator_mini/openrouter_client.py:345-346 | the trim as written keeps the first message first, and leaves a history within `max_history + 1` unchanged |
| `History.Trim` | translator_mini/openrouter_client.py:345-346 | the intended trim keeps the first message first, leaves a history within the cap unchanged, and cuts a longer one to exactly `max(max_history, 0) + 1` messages |
| `History.PySliceFrom` | translator_mini/openrouter_client.py:346 | Python's `xs[start:]`: a suffix of `xs`, counted from the end for a negative start, whole for a start of zero |
| `History.TrimKeepsNewest` | translator_mini/openrouter_client.py:345-346 | the trimmed history is the first message followed by the newest `min(max_history, len - 1)` messages in order; its length is at most `max_history + 1` |
| `History.TrimAsWrittenAgrees` | translator_mini/gemini_client.py:131-132 | for every `max_history >= 1` the trim as written equals the intended one |
| `History.TrimAsWrittenZeroRepeatsSystem` | translator_mini/openrouter_client.py:345-346 | with `max_history == 0` the trim as written keeps the whole list and puts the system message in front of it again |
| `History.TrimAsWrittenZeroCounterexample` | translator_mini/openrouter_client.py:345-346 | one turn on a fresh history with `max_history == 0` leaves the system message twice in a 4-message list |
| `History.TrimZeroKeepsSystemOnly` | translator_mini/openrouter_client.py:345-346 | the intended trim with `max_history == 0` keeps only the system message |
| `History.CommitKeepsTurns` | translator_mini/openrouter_client.py:338-341 | a commit with a non-empty reply keeps every message after the first a user message or a non-empty assistant reply |
| `History.TrimKeepsTurns` | translator_mini/openrouter_client.py:345-346 | trimming keeps the first message first and keeps only later messages after it |
| `History.CommitKeepsPairs` | translator_mini/openrouter_client.py:340-341 | a history of system message plus complete user/assistant pairs stays so after a commit |
| `History.TrimEvenKeepsPairs` | translator_mini/openrouter_client.py:346 | with an even `max_history`, the kept tail still alternates user/assistant starting with a user message |
| `History.TrimOddSplitsPair` | translator_mini/openrouter_client.py:346 | with an odd `max_history`, any trim that drops messages leaves an assistant reply right after the system message |
| `OpenRouterClient.ModelsResolveOnce` | translator_mini/openrouter_client.py:14-31 | no provider id in the alias table is itself an alias, so resolving twice is resolving once |
| `OpenRouterClient.GetApiKey` | translator_mini/openrouter_client.py:39-59 | a key that is found is never empty |
| `OpenRouterClient.KeyResolutionOrder` | translator_mini/openrouter_client.py:39-59 | the stripped key file wins when non-empty and not starting with `#`; else a non-empty environment value; else None; a found key is never empty |
| `OpenRouterClient.ChatCompletion` | translator_mini/openrouter_client.py:100-146 | no key means None before any request; with a key, the resolved model id and the messages are posted, and the reply is present exactly when the exchange succeeded and is then its content stripped |
| `OpenRouterClient.StreamChunks` | translator_mini/openrouter_client.py:187-201 | a stream yields only non-empty content strings |
| `OpenRouterClient.ReadStreamLine` | translator_mini/openrouter_client.py:188-201 | one line of the loop: it ends the stream exactly when it is a non-empty `data: [DONE]` line, and otherwise yields that line's chunk (none for a blank line, a line without the `data: ` prefix, undecodable JSON or empty content) |
| `OpenRouterClient.ParseStream` | translator_mini/openrouter_client.py:187-201 | the line loop with `break` and `continue` yields exactly the chunks of the lines up to the first `data: [DONE]` |
| `OpenRouterClient.StreamChunksAppend` | translator_mini/openrouter_client.py:187-201 | before any `[DONE]` line, lines are parsed one at a time: the chunks of two pieces follow each other, in line order |
| `OpenRouterClient.StreamStopsAtDone` | translator_mini/openrouter_client.py:192-194 | nothing after the first `data: [DONE]` line is yielded |
| `OpenRouterClient.StreamSkipsSilentLine` | translator_mini/openrouter_client.py:188-201 | an empty line, a line without `data: `, an undecodable payload or empty content can be removed without changing what is yielded |
| `OpenRouterClient.ChatCompletionStream` | translator_mini/openrouter_client.py:149-204 | no key yields nothing; otherwise the chunks of the received lines, all non-empty |
| `OpenRouterClient.StreamReply` | translator_mini/openrouter_client.py:160-201 | no key yields nothing; every chunk yielded is non-empty |
| `OpenRouterClient.TranslationRequestsCarryText` | translator_mini/openrouter_client.py:211-289 | each translation request is a system instruction plus one user message that ends with the text, recoverable exactly |
| `OpenRouterClient.TranslateEnToVi` | translator_mini/openrouter_client.py:211-233 | no key gives None; otherwise the English-to-Vietnamese conversation is posted to the resolved model and the reply is its stripped content, present exactly when the exchange succeeded |
| `OpenRouterClient.TranslateViToEn` | translator_mini/openrouter_client.py:236-258 | the same for the Vietnamese-to-English conversation |
| `OpenRouterClient.TranslateAuto` | translator_mini/openrouter_client.py:261-287 | the same for the bilingual conversation, whose user message is the text itself |
| `OpenRouterClient.OpenRouterChatbot.constructor` | translator_mini/openrouter_client.py:299-321 | a new chatbot's history is exactly the system message with the given prompt or the default one |
| `OpenRouterClient.OpenRouterChatbot.Chat` | translator_mini/openrouter_client.py:323-348 | sends history plus the user message; commits and trims exactly when the reply is non-empty, else leaves the history unchanged; for every cap of 1 or more the new history is the source's slice `[m[0]] + m[-max_history:]`; keeps the system message first and the length at most `max_history + 1` |
| `OpenRouterClient.OpenRouterChatbot.ChatCommit` | translator_mini/openrouter_client.py:340-346 | on a non-empty reply the history becomes the committed turn, trimmed, and for every cap of 1 or more that is the source's slice `[m[0]] + m[-max_history:]`; otherwise it is unchanged; the system message stays first, the length is at most `max_history + 1`, and an even cap keeps complete user/assistant pairs |
| `OpenRouterClient.OpenRouterChatbot.ChatStream` | translator_mini/openrouter_client.py:350-369 | commits the user message and the concatenation of all chunks only when a chunk arrived, with no trimming |
| `OpenRouterClient.OpenRouterChatbot.Reset` | translator_mini/openrouter_client.py:371-373 | the history becomes the system message alone |
| `OpenRouterClient.OpenRouterChatbot.SetSystemPrompt` | translator_mini/openrouter_client.py:375-378 | the prompt is replaced, then the history is the new system message alone |
| `GeminiClient.ModelsResolveOnce` | translator_mini/gemini_client.py:15-24 | resolving a Gemini model name twice is resolving it once |
| `GeminiClient.GetApiKey` | translator_mini/gemini_client.py:27-42 | a key that is found is already stripped; there is none exactly when the file is not acceptable and the environment value is empty or unset |
| `GeminiClient.KeyResolutionOrder` | translator_mini/gemini_client.py:27-42 | the acceptable key file wins; else the environment value, stripped, when non-empty; else None |
| `GeminiClient.BlankEnvironmentKeyRefused` | translator_mini/gemini_client.py:38-68 | a whitespace-only environment key is found as `""`, and the call then returns None without a request |
| `GeminiClient.RoleTag` | translator_mini/gemini_client.py:79 | `User` exactly for the user role, `Assistant` exactly for the assistant role, `System` for every other role |
| `GeminiClient.FlattenPrompt` | translator_mini/gemini_client.py:74-82 | the loop builds one `Tag: content` line per message, in order, then `Assistant:`, joined by newlines |
| `GeminiClient.Line` | translator_mini/gemini_client.py:77-80 | a message line starts with its role tag and `": "` and ends with its content |
| `GeminiClient.Prompt` | translator_mini/gemini_client.py:75-82 | the prompt always ends with the closing `Assistant:` line, and is exactly that line for an empty history |
| `GeminiClient.PromptSplitsIntoLines` | translator_mini/gemini_client.py:75-82 | splitting the prompt on newlines gives back each message's tag and content in order, then `Assistant:`, when no content holds a newline |
| `GeminiClient.MessageLine` | translator_mini/gemini_client.py:77-80 | a chat message becomes the line of its own tag and content |
| `GeminiClient.EmptyDictLine` | translator_mini/gemini_client.py:77-78 | a missing role counts as the user's and missing content as empty |
| `GeminiClient.LineHasNoNewline` | translator_mini/gemini_client.py:80 | a prompt line holds a newline only when its content does |
| `GeminiClient.Reply` | translator_mini/gemini_client.py:65-97 | no key means None; otherwise a reply exactly when the model returns non-empty text, and then its stripped text |
| `GeminiClient.ChatCompletion` | translator_mini/gemini_client.py:50-97 | the method computes exactly `Reply` |
| `GeminiClient.GeminiChatbot.constructor` | translator_mini/gemini_client.py:103-119 | a new chatbot's history is exactly the system message with the given prompt or the default one |
| `GeminiClient.GeminiChatbot.Chat` | translator_mini/gemini_client.py:121-133 | sends the flattened history plus the user message; commits and trims exactly when the reply is non-empty, else leaves the history unchanged; for every cap of 1 or more the new history is the source's slice |
| `GeminiClient.GeminiChatbot.ChatCommit` | translator_mini/gemini_client.py:128-132 | on a non-empty reply the history becomes the committed turn, trimmed, and for every cap of 1 or more that is the source's slice `[m[0]] + m[-max_history:]`; otherwise it is unchanged; the system message stays first and the length is at most `max_history + 1` |
| `GeminiClient.GeminiChatbot.Reset` | translator_mini/gemini_client.py:135-136 | the history becomes the system message alone |
| `GeminiClient.GeminiChatbot.SetSystemPrompt` | translator_mini/gemini_client.py:138-140 | the prompt is replaced, then the history is the new system message alone |
| `LanguageDetection.CountDiacritics` | translator_mini/voice_assistant.py:35 | the number of letters with diacritics is at most the length of the text |
| `LanguageDetection.CountViWords` | translator_mini/voice_assistant.py:50 | the number of listed words is at most the number of words |
| `LanguageDetection.DetectLanguage` | translator_mini/voice_assistant.py:26-55 | the result is always `"vi"` or `"en"` |
| `LanguageDetection.DetectLanguageRules` | translator_mini/voice_assistant.py:38-55 | the diacritic rule alone decides `"vi"` when it fires; otherwise `"vi"` exactly when the word rule fires; `"en"` exactly when neither does |
| `LanguageDetection.EmptyTextIsEnglish` | translator_mini/voice_assistant.py:38-55 | the empty text is English |
| `LanguageDetection.NoEvidenceIsEnglish` | translator_mini/voice_assistant.py:35-55 | a text with no letter with diacritics and no listed word is English |
| `LanguageDetection.AllDiacriticsIsVietnamese` | translator_mini/voice_assistant.py:32-39 | a non-empty text made only of letters with diacritics is Vietnamese |
| `LanguageDetection.AllListWordsIsVietnamese` | translator_mini/voice_assistant.py:42-53 | a text whose words all come from the list is Vietnamese |
| `LanguageDetection.NoDiacriticsCountZero` | translator_mini/voice_assistant.py:35 | a text without letters with diacritics counts zero |
| `LanguageDetection.AllDiacriticsCountAll` | translator_mini/voice_assistant.py:35 | a text made only of letters with diacritics counts all its characters |
| `LanguageDetection.NoListWordsCountZero` | translator_mini/voice_assistant.py:50 | words none of which is listed count zero |
| `LanguageDetection.AllListWordsCountAll` | translator_mini/voice_assistant.py:50 | words all of which are listed count all |
| `Assistants.ListenCode` | translator_mini/voice_assistant.py:124-131 | `en-US` exactly for `"en"`, `vi-VN` for `"vi"`, `"auto"` and everything else |
| `Assistants.ListenCodes` | translator_mini/voice_assistant.py:125-148 | one or two captures, the first in the listen language, a second only in auto mode and then in `en-US` |
| `Assistants.Heard` | translator_mini/voice_assistant.py:133-150 | the text returned is the last capture's |
| `Assistants.ListenFallback` | translator_mini/voice_assistant.py:133-150 | a second capture, in `en-US`, happens exactly in auto mode after the first returned None (not after an empty text); the result is the last capture's |
| `Assistants.SpeechLanguage` | translator_mini/voice_assistant.py:184-185 | `"auto"` is resolved by `DetectLanguage` on the text, so to `"vi"` or `"en"`; any other language is kept |
| `Assistants.VoiceAssistant.constructor` | translator_mini/voice_assistant.py:73-111 | the assistant's chatbot starts with the voice system prompt alone |
| `Assistants.VoiceAssistant.Listen` | translator_mini/voice_assistant.py:115-150 | returns what `ListenFallback` describes and logs exactly the captures made |
| `Assistants.VoiceAssistant.Think` | translator_mini/voice_assistant.py:152-171 | one chatbot turn, with its commit-or-unchanged effect on the history |
| `Assistants.VoiceAssistant.SpeakResponse` | translator_mini/voice_assistant.py:173-204 | hands the text to speech once, in the given language or the detected one for `"auto"` |
| `Assistants.VoiceAssistant.ProcessTurn` | translator_mini/voice_assistant.py:206-236 | nothing heard: continue, no chat; exit phrase: farewell spoken, stop, no chat; otherwise one chat whose reply commits and trims the history exactly when non-empty, the reply spoken only then, continue |
| `Assistants.VoiceAssistant.Reset` | translator_mini/voice_assistant.py:267-270 | the chatbot's history becomes its system message alone |
| `Assistants.CommandsNeverChat` | translator_mini/voice_assistant.py:335-362 | a line reaches the chatbot exactly when its stripped text is non-empty and no command word, and then as that stripped text; blank lines are skipped and quit words quit |
| `Assistants.Classify` | translator_mini/voice_assistant.py:335-358 | a blank line is skipped exactly when its stripped text is empty; a sent line is the stripped, non-empty text, and lower-cased it is no command word |
| `Assistants.QuitAt` | translator_mini/voice_assistant.py:341-343 | the first quit line, with no quit line before it |
| `Assistants.VoiceAfterNoCommand` | translator_mini/voice_assistant.py:350-358 | lines without `voice on`/`voice off` leave the speech setting alone |
| `Assistants.SendsOnlyChatLines` | translator_mini/voice_assistant.py:337-362 | only chat lines reach the chatbot: lines that are all blank or commands send nothing |
| `Assistants.RunStep` | translator_mini/voice_assistant.py:333-362 | one more line adds its text to what is sent only when it is a chat line, and sets speech only when it is a voice command |
| `Assistants.EndsWithTextsExtend` | translator_mini/voice_assistant.py:362 | each request sent for a typed line ends with that line as the user message |
| `Assistants.QuitAtIs` | translator_mini/voice_assistant.py:341-343 | the first quit line is the one before which there is none |
| `Assistants.TextAssistant.constructor` | translator_mini/voice_assistant.py:282-306 | the assistant's chatbot starts with the text system prompt alone |
| `Assistants.TextAssistant.Chat` | translator_mini/voice_assistant.py:308-321 | one chatbot turn; the reply is spoken, in its detected language, only when non-empty and output is on |
| `Assistants.TextAssistant.HandleLine` | translator_mini/voice_assistant.py:335-362 | quit ends; blank lines change nothing; `reset` empties the history; `voice on`/`off` set the speech flag; any other line is sent once, and its reply commits to the history and is spoken exactly as `TextAssistant.Chat` states |
| `Assistants.TextAssistant.ReadLine` | translator_mini/voice_assistant.py:333-367 | one loop pass applies exactly `LineEffect` of its line to the run state, and a quit line ends the loop at the first quit |
| `Assistants.TextAssistant.Run` | translator_mini/voice_assistant.py:323-371 | reads up to and including the first quit line and ends with exactly the history, requests, speech log and voice setting that `RunLines` gives for the lines before it; so speech follows the last voice command, and the chatbot gets one request per chat line, in order, each ending with that line |
| `Assistants.LineEffectSent` | translator_mini/voice_assistant.py:336-360 | a line adds a request exactly when it is a chat line, and the request is the history so far plus that line's user message |
| `Assistants.RunLinesVoice` | translator_mini/voice_assistant.py:350-358 | the voice setting after a run is the one the last `voice on`/`voice off` line set, or the initial one |
| `Assistants.RunLinesRequests` | translator_mini/voice_assistant.py:336-360 | a run keeps earlier requests and adds one per chat line, in order, each ending with that line's text |
| `Assistants.LineEffectKeepsTurns` | translator_mini/voice_assistant.py:345-360 | one line keeps the history's system message first and only user messages and non-empty replies after it |
| `Assistants.RunLinesKeepsTurns` | translator_mini/voice_assistant.py:333-360 | a whole run keeps that history invariant |
| `Assistants.RunLinesSilent` | translator_mini/voice_assistant.py:311-319 | with speech off and no `voice on` line, a run speaks nothing |
| `SpeechToText.ListMicrophones` | translator_mini/speech_to_text.py:15-20 | `(i, names[i])` for every index, in order |
| `SpeechToText.MicKwargs` | translator_mini/speech_to_text.py:46 | `device_index` is passed exactly when a microphone index is given |
| `SpeechToText.RecognizeAudio` | translator_mini/speech_to_text.py:74-88 | heard text is returned; not understood and request failures give None |
| `SpeechToText.Tried` | translator_mini/speech_to_text.py:62-71 | no language is tried after a failed capture; otherwise one or two, and auto starts with `en-US` |
| `SpeechToText.ListenAndRecognize` | translator_mini/speech_to_text.py:48-71 | a failed capture gives None; otherwise the result is the recognition in the last language tried |
| `SpeechToText.RecognitionFallback` | translator_mini/speech_to_text.py:48-71 | a failed capture recognises nothing; auto tries `en-US`, then `vi-VN` only if that gave nothing usable; other languages are tried once; the result is the last tried |
| `SpeechToText.ListenMultilingual` | translator_mini/speech_to_text.py:91-131 | returns the first language in list order whose text is non-empty, with that text; `(None, None)` exactly when the capture failed or no language gave text |
| `Pyttsx3Engine.FirstViVoice` | translator_mini/text_to_speech_old.py:24-32 | the first Vietnamese voice by id, name or language tag, none before it |
| `Pyttsx3Engine.ChooseViVoice` | translator_mini/text_to_speech.py:38-51 | the loop returns the id of the first matching voice as it is, and None when no voice matches |
| `Pyttsx3Engine.FirstViVoiceAt` | translator_mini/text_to_speech.py:43-51 | the scan stops at the first match and at no other voice |
| `Pyttsx3Engine.ChosenVoiceCases` | translator_mini/text_to_speech.py:47-51 | no Vietnamese voice gives None; a first voice that matches gives its id |
| `Pyttsx3Engine.Clamp` | translator_mini/text_to_speech.py:181 | the volume is clamped into [0, 1] and kept when already inside |
| `Pyttsx3Engine.Engine.constructor` | translator_mini/text_to_speech.py:34 | a new engine has the installed voices, no selected voice, nothing spoken, and pyttsx3's default rate (200) and volume (1.0) |
| `Pyttsx3Engine.EngineSlot.constructor` | translator_mini/text_to_speech.py:28 | the engine slot starts empty |
| `Pyttsx3Engine.EngineSlot.GetEngine` | translator_mini/text_to_speech.py:31-35 | the engine is created on first use only, then the same engine is returned |
| `Pyttsx3Engine.EngineSlot.SpeakOnEngine` | translator_mini/text_to_speech_old.py:35-63 | empty text succeeds and touches nothing; otherwise rate and clamped volume set, the Vietnamese voice set only when preferred and found, and success exactly when speaking completed |
| `TextToSpeech.LeftBehind` | translator_mini/text_to_speech.py:161-168 | at most the one temporary file created remains: exactly that file when gTTS and pygame are present and deleting it failed, none otherwise |
| `TextToSpeech.SpeakGtts` | translator_mini/text_to_speech.py:117-168 | without gTTS or pygame: False, no file; success exactly when a file was created, saved and played; the file is removed unless removing it failed |
| `TextToSpeech.SpeakResult` | translator_mini/text_to_speech.py:210-220 | empty text succeeds; when the engine is used the result is the engine's; otherwise it is success |
| `TextToSpeech.SpeakFallback` | translator_mini/text_to_speech.py:210-220 | empty text succeeds with no engine; a gTTS success is final and pyttsx3 is not used; otherwise the result is pyttsx3's |
| `TextToSpeech.Speak` | translator_mini/text_to_speech.py:195-220 | gTTS is tried only when asked for and installed, and the directory then keeps only what `LeftBehind` names; the engine is used exactly when gTTS did not speak non-empty text, and its rate, clamped volume, voice and spoken texts are then those `SpeakOnEngine` sets; otherwise the engine is untouched |

## Left out

- HTTP, JSON and SDK calls are oracles (`post`, `open`, `decode`, `generate`). Headers, temperature, token limits, site URL and timeouts are not modelled.
- Oracles are functions, so the same request in the same state gets the same answer. Captures in different language codes are different calls.
- Exceptions the source does not catch are not modelled. These are:
  - `.strip()` on a null content (translator_mini/openrouter_client.py:136);
  - in the one-shot `chat_completion`, a reply whose `choices` list is empty (`IndexError`), whose JSON is not an object or whose choice is not an object (`AttributeError` or `TypeError`) (translator_mini/openrouter_client.py:130-135); the `except` clauses at lines 138-146 catch none of these;
  - a failing `genai.configure` in Gemini's `chat_completion`, which runs before the `try` (translator_mini/gemini_client.py:70);
  - a stream line that is not UTF-8, and a JSON chunk that is not an object or has no choices;
  - a failing `pyttsx3.init()`, which is outside the `try`;
  - `EngineSlot.SpeakOnEngine`: an exception from `setProperty` or from reading the installed voices inside the `try` (translator_mini/text_to_speech.py:180-186, translator_mini/text_to_speech_old.py:51-57) also returns False, with rate, volume or voice possibly left unset; the model takes `spoken` as the outcome of `say`/`runAndWait` only and always sets rate, volume and voice;
  - recogniser errors other than the two caught;
  - end of input (`EOFError`) in `TextAssistant.run`, which the model treats as the end of the lines.
- `chat_stream` and `chat_completion_stream` are generators. The model consumes them to the end. A caller that stops early, so that nothing is committed, is not modelled.
- `KeyboardInterrupt` handling, `VoiceAssistant.run` (greeting plus the loop around `ProcessTurn`), `interactive_chat`, the `__main__` blocks, `run_voice_assistant`/`run_text_assistant`, `set_api_key` and printing. These are CLI glue.
- main.py, translator.py, chatbot.py and test_docker.py are not part of this model.
- Reading the key file and the environment becomes a `KeySource` value.
- `_play_audio_pygame` is the `played` outcome: pygame init/quit, sleeps and wall-clock polling are device I/O.
- gTTS file saving is the `saved` outcome. `say`/`runAndWait` are the `spoken` outcome.
- The recogniser's energy threshold, ambient-noise calibration and phrase limits are not modelled.
- `str.lower` is a parameter, so Unicode case mapping is not modelled. Language tags are taken already converted with `str()`.
- Volumes are `real`, so a NaN volume is not modelled.
- `VoiceAssistant.SpeakResponse` and `TextAssistant.Chat` record what they hand to `speak`; they do not run the `TextToSpeech.Speak` model. The source only prints its result.
- `PyStr.Split`: states that words are non-empty and whitespace-free, not that they are exactly the maximal runs. Its definition is the maximal runs.
- `OpenRouterClient.OpenRouterChatbot.Chat`: follows the corrected trim (see Findings). Its contract states that for `max_history >= 1` the result is the source's slice. With `max_history <= 0` it keeps the system message alone, where the source grows the history (0) or trims by a positive slice (negative caps).
- `GeminiClient.GeminiChatbot.Chat`: the same correction as the OpenRouter chatbot.
- ChatCommit (`OpenRouterClient.OpenRouterChatbot.ChatCommit`, `GeminiClient.GeminiChatbot.ChatCommit`): commits through the corrected trim. Its contract equals the source's slice only for `max_history >= 1`. With `max_history <= 0` it promises the system message alone, which the source does not do (see Findings).

## Findings

| source | as written | input that shows it | evidently intended | confidence | as-written member | corrected member |
|---|---|---|---|---|---|---|
| translator_mini/openrouter_client.py:345-346 | `[m[0]] + m[-max_history:]` after `len(m) > max_history + 1` | `max_history = 0`, one successful turn on `[system]`: `m[-0:]` is all of `m`, giving `[system, system, user, assistant]`, and each later turn adds three messages | system message plus the newest 0 messages, i.e. `[system]` | high (not executed) | `History.TrimAsWrittenZeroCounterexample` | `History.TrimZeroKeepsSystemOnly` |
| translator_mini/gemini_client.py:131-132 | the same slice `m[-max_history:]` | `max_history = 0`, as above | as above | high (not executed) | `History.TrimAsWrittenZeroRepeatsSystem` | `History.TrimKeepsNewest` |
