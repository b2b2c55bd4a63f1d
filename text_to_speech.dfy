/**
 * `TextToSpeechController`: voice options from the component's settings, the
 * guarded initialisation that publishes `global.getTTSResults`, synthesis
 * requests to the speech module, and playback of the returned audio.
 *
 * The speech module and the audio component are engine objects: a request to
 * the module is recorded, and the audio component is its current track plus a
 * ghost log of `play(1)` calls.
 */
module Speech {
  import opened Wrappers

  /** `TextToSpeech.VoiceStyles.Auto`, or a numbered style. */
  datatype VoiceStyle = Auto | Numbered(n: int)

  /** `TextToSpeech.Options`. */
  datatype Options = Options(voiceName: string, voiceStyle: VoiceStyle, voicePace: real)

  /** An audio asset returned by the speech module. */
  datatype AudioTrack = AudioTrack(id: nat)

  /** Which completion handler a synthesis request was given. */
  datatype Handler = OnTTSComplete | PreviewTTSComplete

  /** One `tts.synthesize(text, options, onComplete, onError)` call. */
  datatype SynthRequest = SynthRequest(text: string, options: Options, handler: Handler)

  /** The component's inputs. */
  datatype Settings = Settings(autoStyleSelector: bool, voiceName: string, voiceStyleSasha: int,
                               voiceStyleSam: int, voicePace: real, previewTTS: bool, previewText: string)

  const VoicePaceScale: real := 100.0
  const Sasha: string := "Sasha"

  /** The inputs' defaults. */
  const DefaultSettings: Settings :=
    Settings(true, Sasha, 1, 1, 1.0, false, "Hello, this is a " + "text to speech preview")

  /** `getOptions`. */
  function GetOptions(s: Settings): (o: Options)
    ensures o.voiceName == s.voiceName
  {
    var style :=
      if s.autoStyleSelector then Auto
      else if s.voiceName == Sasha then Numbered(s.voiceStyleSasha)
      else Numbered(s.voiceStyleSam);
    Options(s.voiceName, style, s.voicePace * VoicePaceScale)
  }

  /**
   * The voice style: `Auto` whenever automatic selection is on, whatever the
   * voice; otherwise Sasha's style exactly for the name "Sasha" and Sam's
   * style for every other name.
   */
  lemma GetOptionsStyle(s: Settings)
    ensures s.autoStyleSelector <==> GetOptions(s).voiceStyle == Auto
    ensures !s.autoStyleSelector && s.voiceName == Sasha ==> GetOptions(s).voiceStyle == Numbered(s.voiceStyleSasha)
    ensures !s.autoStyleSelector && s.voiceName != Sasha ==> GetOptions(s).voiceStyle == Numbered(s.voiceStyleSam)
  {
  }

  /** The pace sent is the input pace scaled by 100, so the input pace can be read back from it; the defaults send "Sasha", the automatic style and pace 100. */
  lemma GetOptionsPace(s: Settings)
    ensures GetOptions(s).voicePace / VoicePaceScale == s.voicePace
    ensures GetOptions(DefaultSettings) == Options(Sasha, Auto, 100.0)
  {
  }

  /** The lens's `global` object, seen through the `getTTSResults` function it may hold. */
  class Globals {
    /** The controller whose `getTTSResults` the global function calls, if one registered it. */
    var getTTSResults: Option<TextToSpeechController>

    constructor ()
      ensures getTTSResults == None
    {
      getTTSResults := None;
    }

    /** A registered controller has both its speech module and its audio component. */
    predicate Ready()
      reads this
    {
      getTTSResults.Some? ==> getTTSResults.value.hasTts && getTTSResults.value.hasAudio
    }
  }

  class TextToSpeechController {
    /** Whether the `tts` input is assigned. */
    const hasTts: bool
    /** Whether the `audio` input is assigned. */
    const hasAudio: bool
    const settings: Settings
    /** `audio.audioTrack`. */
    var audioTrack: Option<AudioTrack>
    /** Every `synthesize` call, in order. */
    ghost var requests: seq<SynthRequest>
    /** Every track `audio.play(1)` started, in order. */
    ghost var plays: seq<AudioTrack>

    constructor (hasTts: bool, hasAudio: bool, settings: Settings)
      ensures this.hasTts == hasTts && this.hasAudio == hasAudio && this.settings == settings
      ensures audioTrack == None && requests == [] && plays == []
    {
      this.hasTts := hasTts;
      this.hasAudio := hasAudio;
      this.settings := settings;
      audioTrack := None;
      requests := [];
      plays := [];
    }

    /**
     * `initialize`: without the speech module or without the audio component,
     * nothing is registered and nothing synthesized. Otherwise the global
     * `getTTSResults` calls this controller, and a preview is synthesized
     * exactly when previews are on and the preview text is non-empty.
     */
    method Initialize(g: Globals)
      requires g.Ready()
      modifies g, this`requests
      ensures g.Ready()
      ensures !(hasTts && hasAudio) ==> g.getTTSResults == old(g.getTTSResults) && requests == old(requests)
      ensures hasTts && hasAudio ==>
                && g.getTTSResults == Some(this)
                && requests == old(requests) +
                     (if settings.previewTTS && settings.previewText != ""
                      then [SynthRequest(settings.previewText, GetOptions(settings), PreviewTTSComplete)]
                      else [])
    {
      if !hasTts {
        return;
      }
      if !hasAudio {
        return;
      }
      g.getTTSResults := Some(this);
      if settings.previewTTS && settings.previewText != "" {
        var options := GetOptions(settings);
        requests := requests + [SynthRequest(settings.previewText, options, PreviewTTSComplete)];
      }
    }

    /** `getTTSResults`: exactly one synthesis of the text, with the current options and the playing handler. */
    method GetTTSResults(text: string)
      requires hasTts
      modifies this`requests
      ensures requests == old(requests) + [SynthRequest(text, GetOptions(settings), OnTTSComplete)]
    {
      var options := GetOptions(settings);
      requests := requests + [SynthRequest(text, options, OnTTSComplete)];
    }

    /** `playTTSAudio`: the track is set on the audio component and played once. */
    method PlayTTSAudio(asset: AudioTrack)
      requires hasAudio
      modifies this`audioTrack, this`plays
      ensures audioTrack == Some(asset) && plays == old(plays) + [asset]
    {
      audioTrack := Some(asset);
      plays := plays + [asset];
    }

    /** `onTTSCompleteHandler`: the returned track is played (the word timings are only logged). */
    method OnTTSCompleteHandler(asset: AudioTrack)
      requires hasAudio
      modifies this`audioTrack, this`plays
      ensures audioTrack == Some(asset) && plays == old(plays) + [asset]
    {
      PlayTTSAudio(asset);
    }

    /** `previewTTSCompleteHandler`: the preview's track is set and played once, as `playTTSAudio` does. */
    method PreviewTTSCompleteHandler(asset: AudioTrack)
      requires hasAudio
      modifies this`audioTrack, this`plays
      ensures audioTrack == Some(asset) && plays == old(plays) + [asset]
    {
      PlayTTSAudio(asset);
    }

    /** `onTTSErrorHandler` and `previewTTSErrorHandler`: an error is only logged; nothing is played. */
    method OnTTSErrorHandler(error: string, description: string)
      ensures audioTrack == old(audioTrack) && plays == old(plays)
    {
    }
  }
}
