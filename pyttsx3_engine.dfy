/**
 * The offline pyttsx3 speech path, which `text_to_speech.py` (as
 * `speak_pyttsx3`) and `text_to_speech_old.py` (as `speak`) implement with
 * the same code: a lazily created engine shared by every call, the choice
 * of a Vietnamese voice, a clamped volume, and the spoken text.
 *
 * The engine's driver is an oracle: `spoken` says whether `say` and
 * `runAndWait` complete without raising.
 */
module Pyttsx3Engine {
  import opened Wrappers
  import opened PyStr
  import opened Messages

  /** One installed voice: its id, its name and its language tags, any of which may be missing. */
  datatype Voice = Voice(id: Option<string>, name: Option<string>, languages: seq<string>)

  /** `(x or "")` for an optional string. */
  function OrEmpty(o: Option<string>): string {
    if o.Some? then o.value else ""
  }

  /**
   * A voice is taken as Vietnamese when its lower-cased id contains `vi`,
   * its lower-cased name contains `vietnam`, or one of its lower-cased
   * language tags contains `vi`.
   */
  predicate IsViVoice(v: Voice, lower: string -> string) {
    Contains(lower(OrEmpty(v.id)), "vi") || Contains(lower(OrEmpty(v.name)), "vietnam")
    || exists k :: 0 <= k < |v.languages| && Contains(lower(v.languages[k]), "vi")
  }

  /** The position of the first Vietnamese voice, or `|voices|` when there is none. */
  function FirstViVoice(voices: seq<Voice>, lower: string -> string): (i: nat)
    ensures i <= |voices|
    ensures i < |voices| ==> IsViVoice(voices[i], lower)
    ensures forall j :: 0 <= j < i ==> !IsViVoice(voices[j], lower)
  {
    if voices == [] then 0
    else if IsViVoice(voices[0], lower) then 0
    else 1 + FirstViVoice(voices[1..], lower)
  }

  /** The id `_choose_vi_voice` returns: that of the first Vietnamese voice, as it is, else None. */
  function ChosenVoice(voices: seq<Voice>, lower: string -> string): Option<string> {
    var i := FirstViVoice(voices, lower);
    if i < |voices| then voices[i].id else None
  }

  /** `_choose_vi_voice`: scans the voices in order and stops at the first Vietnamese one. */
  method ChooseViVoice(voices: seq<Voice>, lower: string -> string) returns (id: Option<string>)
    ensures id == ChosenVoice(voices, lower)
    ensures (forall j :: 0 <= j < |voices| ==> !IsViVoice(voices[j], lower)) ==> id == None
  {
    for i := 0 to |voices|
      invariant forall j :: 0 <= j < i ==> !IsViVoice(voices[j], lower)
    {
      var v := voices[i];
      var name := lower(OrEmpty(v.name));
      var vid := lower(OrEmpty(v.id));
      if Contains(vid, "vi") || Contains(name, "vietnam") {
        FirstViVoiceAt(voices, i, lower);
        return v.id;
      }
      if exists k :: 0 <= k < |v.languages| && Contains(lower(v.languages[k]), "vi") {
        FirstViVoiceAt(voices, i, lower);
        return v.id;
      }
    }
    FirstViVoiceAt(voices, |voices|, lower);
    return None;
  }

  /** The first Vietnamese voice is at `i` when none comes before it and `i` is one, or is the end. */
  lemma {:induction false} FirstViVoiceAt(voices: seq<Voice>, i: nat, lower: string -> string)
    requires i <= |voices|
    requires forall j :: 0 <= j < i ==> !IsViVoice(voices[j], lower)
    requires i < |voices| ==> IsViVoice(voices[i], lower)
    ensures FirstViVoice(voices, lower) == i
  {
    if voices != [] && i > 0 {
      FirstViVoiceAt(voices[1..], i - 1, lower);
    }
  }

  /** A voice list with no Vietnamese voice gives None; one whose first voice is Vietnamese gives that voice's id. */
  lemma ChosenVoiceCases(voices: seq<Voice>, lower: string -> string)
    ensures (forall j :: 0 <= j < |voices| ==> !IsViVoice(voices[j], lower)) ==> ChosenVoice(voices, lower) == None
    ensures |voices| > 0 && IsViVoice(voices[0], lower) ==> ChosenVoice(voices, lower) == voices[0].id
  {
  }

  /** `max(0.0, min(1.0, volume))`. */
  function Clamp(volume: real): (v: real)
    ensures 0.0 <= v <= 1.0
    ensures 0.0 <= volume <= 1.0 ==> v == volume
    ensures volume < 0.0 ==> v == 0.0
    ensures volume > 1.0 ==> v == 1.0
  {
    if volume < 0.0 then 0.0 else if volume > 1.0 then 1.0 else volume
  }

  /** A pyttsx3 engine: its settable properties, its installed voices, and what it has spoken. */
  class Engine {
    var rate: int
    var volume: real
    var voice: Option<string>
    const voices: seq<Voice>
    ghost var said: seq<string>

    /** A fresh engine, with pyttsx3's default rate of 200 words per minute and full volume. */
    constructor (voices: seq<Voice>)
      ensures this.voices == voices && voice == None && said == []
      ensures rate == 200 && volume == 1.0
    {
      this.voices := voices;
      rate := 200;
      volume := 1.0;
      voice := None;
      said := [];
    }
  }

  /** The module-level `_engine`: empty until the first use, then always the same engine. */
  class EngineSlot {
    var engine: Engine?
    /** How many times `pyttsx3.init()` has run. */
    ghost var inits: nat
    /** The texts handed to the engine, in call order. */
    ghost var requests: seq<string>

    ghost predicate Valid()
      reads this
    {
      (engine == null <==> inits == 0) && inits <= 1
    }

    constructor ()
      ensures engine == null && inits == 0 && requests == [] && Valid()
    {
      engine := null;
      inits := 0;
      requests := [];
    }

    /** `_get_engine`: creates the engine on first use only; afterwards returns the same one. */
    method GetEngine(installed: seq<Voice>) returns (e: Engine)
      requires Valid()
      modifies this`engine, this`inits
      ensures Valid() && engine == e
      ensures old(engine) != null ==> e == old(engine) && inits == old(inits)
      ensures old(engine) == null ==> fresh(e) && e.voices == installed && e.voice == None && e.said == [] && inits == 1
    {
      if engine == null {
        engine := new Engine(installed);
        inits := inits + 1;
      }
      e := engine;
    }

    /**
     * `speak_pyttsx3` (and the earlier `speak`): the empty text succeeds at
     * once and touches nothing. Otherwise the engine is fetched, the rate
     * and the clamped volume set, the first Vietnamese voice selected when
     * `preferVi` holds and its id is non-empty, and the text spoken; the
     * result is whether speaking completed.
     */
    method SpeakOnEngine(text: string, rate: int, volume: real, preferVi: bool, lower: string -> string,
                         installed: seq<Voice>, spoken: bool) returns (ok: bool)
      requires Valid()
      modifies this, engine
      ensures Valid()
      ensures text == "" ==> ok && engine == old(engine) && inits == old(inits) && requests == old(requests)
      ensures text == "" && engine != null ==> unchanged(engine)
      ensures text != "" ==> ok == spoken && requests == old(requests) + [text] && engine != null
      ensures text != "" && old(engine) != null ==> engine == old(engine) && inits == old(inits)
      ensures text != "" && old(engine) == null ==> fresh(engine) && engine.voices == installed && inits == 1
      ensures text != "" ==> engine.rate == rate && engine.volume == Clamp(volume)
      ensures text != "" && preferVi && Truthy(ChosenVoice(engine.voices, lower)) ==> engine.voice == ChosenVoice(engine.voices, lower)
      ensures text != "" && !(preferVi && Truthy(ChosenVoice(engine.voices, lower))) ==>
        engine.voice == (if old(engine) == null then None else old(engine.voice))
      ensures text != "" ==> engine.said == (if old(engine) == null then [] else old(engine.said)) + (if spoken then [text] else [])
    {
      if text == "" {
        return true;
      }
      var e := GetEngine(installed);
      requests := requests + [text];
      e.rate := rate;
      e.volume := if 0.0 > (if 1.0 < volume then 1.0 else volume) then 0.0 else (if 1.0 < volume then 1.0 else volume);
      if preferVi {
        var viVoice := ChooseViVoice(e.voices, lower);
        if Truthy(viVoice) {
          e.voice := viVoice;
        }
      }
      if spoken {
        e.said := e.said + [text];
      }
      ok := spoken;
    }
  }
}
