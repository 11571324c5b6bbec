/**
 * `text_to_speech.py`: speech through Google TTS (a generated mp3 in a
 * temporary file, played back, then deleted), falling back to the pyttsx3
 * engine.
 *
 * Whether the gTTS and pygame packages imported is given as `Availability`.
 * The file system and the network are oracles given as a `GttsRun`: the
 * name of the temporary file created (None when creating it raised),
 * whether saving the generated speech to it succeeded, whether playback
 * succeeded, and whether deleting it succeeded.
 */
module TextToSpeech {
  import opened Wrappers
  import opened Messages
  import opened Pyttsx3Engine

  datatype Availability = Availability(gtts: bool, pygame: bool)

  datatype GttsRun = GttsRun(tempFile: Option<string>, saved: bool, played: bool, deleted: bool)

  /** The files of the temporary directory. */
  class TempDir {
    var files: set<string>

    constructor (files: set<string>)
      ensures this.files == files
    {
      this.files := files;
    }
  }

  /** Whether `speak_gtts` reports success: both packages present, a file created, saved and played. */
  predicate GttsSucceeds(avail: Availability, run: GttsRun) {
    avail.gtts && avail.pygame && run.tempFile.Some? && run.saved && run.played
  }

  /** The temporary file that outlives `speak_gtts`: the one created, and only when deleting it failed. */
  function LeftBehind(avail: Availability, run: GttsRun): (left: set<string>)
    ensures |left| <= 1
    ensures run.deleted || !(avail.gtts && avail.pygame) || run.tempFile.None? ==> left == {}
    ensures left <= (if run.tempFile.Some? then {run.tempFile.value} else {})
    ensures avail.gtts && avail.pygame && run.tempFile.Some? && !run.deleted ==> left == {run.tempFile.value}
  {
    if avail.gtts && avail.pygame && run.tempFile.Some? && !run.deleted then {run.tempFile.value} else {}
  }

  /**
   * `speak_gtts`: without gTTS or pygame it fails before creating any file.
   * Once a temporary file exists, its deletion is attempted whatever
   * happened, and a failed deletion is ignored: the file stays only then.
   * `text` and `lang` go only to the gTTS service, whose whole outcome is
   * the oracle `run`, so no contract mentions them.
   */
  method SpeakGtts(dir: TempDir, text: string, lang: string, avail: Availability, run: GttsRun) returns (ok: bool)
    requires run.tempFile.Some? ==> run.tempFile.value != "" && run.tempFile.value !in dir.files
    modifies dir
    ensures ok == GttsSucceeds(avail, run)
    ensures dir.files == old(dir.files) + LeftBehind(avail, run)
  {
    if !avail.gtts {
      return false;
    }
    if !avail.pygame {
      return false;
    }
    var tempFile: Option<string> := None;
    if run.tempFile.None? {
      ok := false;
    } else {
      tempFile := run.tempFile;
      dir.files := dir.files + {tempFile.value};
      if !run.saved {
        ok := false;
      } else {
        ok := run.played;
      }
    }
    if Truthy(tempFile) && run.deleted {
      dir.files := dir.files - {tempFile.value};
    }
  }

  /** What `speak` returns. */
  function SpeakResult(text: string, useGtts: bool, avail: Availability, run: GttsRun, spoken: bool): (ok: bool)
    ensures text == "" ==> ok
    ensures UsesEngine(text, useGtts, avail, run) ==> ok == spoken
    ensures !UsesEngine(text, useGtts, avail, run) ==> ok
  {
    if text == "" then true
    else if useGtts && avail.gtts && GttsSucceeds(avail, run) then true
    else spoken
  }

  /** Whether `speak` reaches the pyttsx3 engine. */
  predicate UsesEngine(text: string, useGtts: bool, avail: Availability, run: GttsRun) {
    text != "" && !(useGtts && avail.gtts && GttsSucceeds(avail, run))
  }

  /**
   * The empty text succeeds without any engine; a gTTS success is final and
   * the engine is not used; otherwise the result is exactly the engine's.
   */
  lemma SpeakFallback(text: string, useGtts: bool, avail: Availability, run: GttsRun, spoken: bool)
    ensures text == "" ==> SpeakResult(text, useGtts, avail, run, spoken) && !UsesEngine(text, useGtts, avail, run)
    ensures text != "" && useGtts && GttsSucceeds(avail, run) ==>
      SpeakResult(text, useGtts, avail, run, spoken) && !UsesEngine(text, useGtts, avail, run)
    ensures UsesEngine(text, useGtts, avail, run) ==> SpeakResult(text, useGtts, avail, run, spoken) == spoken
    ensures text != "" && !useGtts ==> UsesEngine(text, useGtts, avail, run)
  {
  }

  /**
   * `speak`: gTTS is tried only when asked for and installed; the engine is
   * used only for non-empty text that gTTS did not speak, and then once.
   */
  method Speak(slot: EngineSlot, dir: TempDir, text: string, rate: int, volume: real, preferVi: bool, useGtts: bool,
               lang: string, lower: string -> string, avail: Availability, run: GttsRun,
               installed: seq<Voice>, spoken: bool) returns (ok: bool)
    requires slot.Valid()
    requires run.tempFile.Some? ==> run.tempFile.value != "" && run.tempFile.value !in dir.files
    modifies slot, slot.engine, dir
    ensures slot.Valid()
    ensures ok == SpeakResult(text, useGtts, avail, run, spoken)
    ensures !(text != "" && useGtts && avail.gtts) ==> dir.files == old(dir.files)
    ensures text != "" && useGtts && avail.gtts ==> dir.files == old(dir.files) + LeftBehind(avail, run)
    ensures UsesEngine(text, useGtts, avail, run) ==> slot.requests == old(slot.requests) + [text]
    ensures !UsesEngine(text, useGtts, avail, run) ==>
      slot.requests == old(slot.requests) && slot.engine == old(slot.engine) && slot.inits == old(slot.inits)
    ensures !UsesEngine(text, useGtts, avail, run) && slot.engine != null ==> unchanged(slot.engine)
    ensures UsesEngine(text, useGtts, avail, run) ==>
      slot.engine != null && slot.engine.rate == rate && slot.engine.volume == Clamp(volume)
    ensures UsesEngine(text, useGtts, avail, run) && old(slot.engine) != null ==>
      slot.engine == old(slot.engine) && slot.inits == old(slot.inits)
    ensures UsesEngine(text, useGtts, avail, run) && old(slot.engine) == null ==>
      fresh(slot.engine) && slot.engine.voices == installed && slot.inits == 1
    ensures UsesEngine(text, useGtts, avail, run) && preferVi && Truthy(ChosenVoice(slot.engine.voices, lower)) ==>
      slot.engine.voice == ChosenVoice(slot.engine.voices, lower)
    ensures UsesEngine(text, useGtts, avail, run) && !(preferVi && Truthy(ChosenVoice(slot.engine.voices, lower))) ==>
      slot.engine.voice == (if old(slot.engine) == null then None else old(slot.engine.voice))
    ensures UsesEngine(text, useGtts, avail, run) ==>
      slot.engine.said == (if old(slot.engine) == null then [] else old(slot.engine.said)) + (if spoken then [text] else [])
  {
    if text == "" {
      return true;
    }
    if useGtts && avail.gtts {
      var done := SpeakGtts(dir, text, lang, avail, run);
      if done {
        return true;
      }
    }
    ok := slot.SpeakOnEngine(text, rate, volume, preferVi, lower, installed, spoken);
  }
}
