/**
 * Speech recognition around a microphone capture. The microphone and
 * Google's recogniser are oracles: a capture is a `Capture` value, and
 * `recognize` answers, for the captured audio, what recognising it in a
 * given language code gives.
 */
module SpeechToText {
  import opened Wrappers
  import opened Messages

  /** `list_microphones`: each microphone name paired with its position. */
  function ListMicrophones(names: seq<string>): (mics: seq<(int, string)>)
    ensures |mics| == |names|
    ensures forall i :: 0 <= i < |mics| ==> mics[i].0 == i && mics[i].1 == names[i]
  {
    seq(|names|, i requires 0 <= i < |names| => (i, names[i]))
  }

  /** The keyword arguments for the microphone: `device_index` only when an index was chosen. */
  function MicKwargs(micIndex: Option<int>): (kwargs: map<string, int>)
    ensures "device_index" in kwargs <==> micIndex.Some?
    ensures micIndex.Some? ==> kwargs == map["device_index" := micIndex.value]
    ensures micIndex.None? ==> kwargs == map[]
  {
    if micIndex.Some? then map["device_index" := micIndex.value] else map[]
  }

  /** How the capture ended: with audio, with no speech before the timeout, or with a microphone error. */
  datatype Capture = Audio | TimedOut | MicError

  /** What the recogniser says about the audio in one language. */
  datatype Recognition = Heard(text: string) | CouldNotUnderstand | RequestFailed

  /** `_recognize_audio`: the text heard, or None when the audio was not understood or the request failed. */
  function RecognizeAudio(r: Recognition): (text: Option<string>)
    ensures text.Some? <==> r.Heard?
    ensures r.Heard? ==> text == Some(r.text)
  {
    match r
    case Heard(t) => Some(t)
    case CouldNotUnderstand => None
    case RequestFailed => None
  }

  const Auto := "auto"
  const EnUS := "en-US"
  const ViVN := "vi-VN"

  /** The language codes `listen_and_recognize` hands to the recogniser, in order. */
  function Tried(capture: Capture, language: string, recognize: string -> Recognition): (tried: seq<string>)
    ensures !capture.Audio? ==> tried == []
    ensures capture.Audio? ==> 1 <= |tried| <= 2
    ensures capture.Audio? && language == Auto ==> tried[0] == EnUS
  {
    if !capture.Audio? then []
    else if language == Auto then
      if Truthy(RecognizeAudio(recognize(EnUS))) then [EnUS] else [EnUS, ViVN]
    else [language]
  }

  /** `listen_and_recognize`: None when the capture failed, else the recognised text. */
  function ListenAndRecognize(capture: Capture, language: string, recognize: string -> Recognition): (text: Option<string>)
    ensures !capture.Audio? ==> text == None
    ensures capture.Audio? ==>
      var tried := Tried(capture, language, recognize);
      text == RecognizeAudio(recognize(tried[|tried| - 1]))
  {
    if !capture.Audio? then None
    else if language == Auto then
      var text := RecognizeAudio(recognize(EnUS));
      if Truthy(text) then text else RecognizeAudio(recognize(ViVN))
    else RecognizeAudio(recognize(language))
  }

  /**
   * A failed capture recognises nothing. The automatic mode tries English
   * first and Vietnamese only when English gave nothing usable, and then
   * returns the Vietnamese result; any other language is tried once. The
   * result is always that of the last language tried.
   */
  lemma RecognitionFallback(capture: Capture, language: string, recognize: string -> Recognition)
    ensures !capture.Audio? ==> Tried(capture, language, recognize) == [] && ListenAndRecognize(capture, language, recognize) == None
    ensures capture.Audio? && language == Auto ==>
      Tried(capture, language, recognize)[0] == EnUS
      && (|Tried(capture, language, recognize)| == 2 <==> !Truthy(RecognizeAudio(recognize(EnUS))))
    ensures capture.Audio? && language != Auto ==> Tried(capture, language, recognize) == [language]
    ensures capture.Audio? ==>
      var tried := Tried(capture, language, recognize);
      1 <= |tried| <= 2 && ListenAndRecognize(capture, language, recognize) == RecognizeAudio(recognize(tried[|tried| - 1]))
  {
  }

  /** Usable text: heard, and not empty. */
  predicate Understood(r: Recognition) {
    r.Heard? && r.text != ""
  }

  /**
   * `listen_multilingual`: the text and language of the first language, in
   * list order, whose recognition gives usable text; (None, None) when the
   * capture failed or no language did.
   */
  method ListenMultilingual(capture: Capture, languages: seq<string>, recognize: string -> Recognition)
    returns (text: Option<string>, lang: Option<string>)
    ensures text.None? <==> lang.None?
    ensures !capture.Audio? ==> text == None
    ensures lang.Some? ==>
      exists i :: 0 <= i < |languages| && languages[i] == lang.value
        && recognize(languages[i]) == Heard(text.value) && text.value != ""
        && forall j :: 0 <= j < i ==> !Understood(recognize(languages[j]))
    ensures capture.Audio? && lang.None? ==> forall j :: 0 <= j < |languages| ==> !Understood(recognize(languages[j]))
  {
    if !capture.Audio? {
      return None, None;
    }
    var i := 0;
    while i < |languages|
      invariant 0 <= i <= |languages|
      invariant forall j :: 0 <= j < i ==> !Understood(recognize(languages[j]))
    {
      var r := recognize(languages[i]);
      if r.Heard? && r.text != "" {
        return Some(r.text), Some(languages[i]);
      }
      i := i + 1;
    }
    return None, None;
  }
}
