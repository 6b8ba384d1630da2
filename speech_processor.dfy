/**
 * The speech helpers of the system: audio-format detection from a Content-Type
 * header or a file extension, the audio whitelist, and the result shapes of the
 * speech-to-text, translation and text-to-speech calls. The speech vendor itself
 * is a `SpeechService` record of functions; the file system answers (does the
 * file exist, what MIME type does its name suggest) are parameters.
 */
module SpeechProcessor {
  import opened Wrappers
  import opened Text

  // ---------------------------------------------------------------------------
  // Vendor boundary
  // ---------------------------------------------------------------------------

  /** What the text-translation call does: it raises (with a message) or returns a text. */
  datatype TranslationOutcome = TranslationRaised(message: string) | Translated(text: string)

  /**
   * One audio payload of the text-to-speech answer: raw bytes, or text (such as
   * base64). The temporary file is opened in binary mode, so only bytes can be
   * written to it; writing text raises a TypeError.
   */
  datatype AudioPayload = AudioBytes(bytes: seq<bv8>) | AudioText(text: string)

  /** What the text-to-speech call does: it raises or returns a list of audio payloads. */
  datatype TtsOutcome = TtsRaised | TtsReturned(audios: seq<AudioPayload>)

  /** Python truthiness of a payload: non-empty bytes or non-empty text. */
  predicate NonEmptyPayload(a: AudioPayload) {
    match a
    case AudioBytes(b) => |b| > 0
    case AudioText(t) => |t| > 0
  }

  /** What the speech-to-text-and-translate call does on an open audio file. */
  datatype SttOutcome = SttRaised | SttReturned(transcript: string, languageCode: string)

  /** The configured speech client, and the name the next temporary `.wav` file gets. */
  datatype SpeechService = SpeechService(
    translate: (string, string, string) -> TranslationOutcome,  // (input, source language, target language)
    convert: (string, string) -> TtsOutcome,                    // (text, target language)
    speechToText: string -> SttOutcome,                         // the audio file at a path
    tempWavPath: string)

  // ---------------------------------------------------------------------------
  // os.path.splitext
  // ---------------------------------------------------------------------------

  /** Python's `s.rfind(c)`: the last index holding `c`, or -1. */
  function RFind(s: string, c: char): (r: int)
    ensures -1 <= r < |s|
    ensures r >= 0 ==> s[r] == c
    ensures forall k :: r < k < |s| ==> s[k] != c
  {
    if s == [] then -1
    else if s[|s| - 1] == c then |s| - 1
    else RFind(s[..|s| - 1], c)
  }

  /**
   * POSIX `os.path.splitext`: the extension starts at the last '.', provided that
   * dot lies in the last path component and is preceded there by a character
   * other than '.' (so ".bashrc" and "a/..." have no extension).
   */
  function SplitExt(p: string): (r: (string, string))
    ensures r.0 + r.1 == p
    ensures r.1 != "" ==> r.1[0] == '.'
    ensures forall k :: 1 <= k < |r.1| ==> r.1[k] != '.' && r.1[k] != '/'
  {
    var sep := RFind(p, '/');
    var dot := RFind(p, '.');
    if dot > sep && exists k :: sep + 1 <= k < dot && p[k] != '.' then
      (p[..dot], p[dot..])
    else
      (p, "")
  }

  function Ext(p: string): string {
    SplitExt(p).1
  }

  /**
   * A file name whose stem ends in an ordinary character and whose suffix is a dot
   * followed by characters other than '.' and '/' has exactly that suffix as its
   * extension.
   */
  lemma {:induction false} ExtOfSuffix(stem: string, suffix: string)
    requires stem != [] && stem[|stem| - 1] != '.' && stem[|stem| - 1] != '/'
    requires suffix != [] && suffix[0] == '.'
    requires forall k :: 1 <= k < |suffix| ==> suffix[k] != '.' && suffix[k] != '/'
    ensures Ext(stem + suffix) == suffix
  {
    var p := stem + suffix;
    var dot := RFind(p, '.');
    var sep := RFind(p, '/');
    assert p[|stem|] == '.';
    assert dot == |stem|;
    assert p[|stem| - 1] != '/';
    assert sep < |stem| - 1;
    assert sep + 1 <= |stem| - 1 < dot && p[|stem| - 1] != '.';
    assert p[..dot] == stem;
    assert p[dot..] == suffix;
  }

  // ---------------------------------------------------------------------------
  // detect_audio_format
  // ---------------------------------------------------------------------------

  /** The Content-Type table: each mapped type names a (format, extension) pair. */
  const FormatMap: map<string, (string, string)> := map[
    "audio/ogg" := ("ogg", ".ogg"),
    "audio/opus" := ("ogg", ".opus"),
    "audio/mpeg" := ("mp3", ".mp3"),
    "audio/mp3" := ("mp3", ".mp3"),
    "audio/wav" := ("wav", ".wav"),
    "audio/wave" := ("wav", ".wav"),
    "audio/x-wav" := ("wav", ".wav"),
    "audio/aac" := ("aac", ".aac"),
    "audio/mp4" := ("mp4", ".m4a"),
    "audio/x-m4a" := ("mp4", ".m4a"),
    "audio/webm" := ("webm", ".webm")
  ]

  /** The empty Content-Type is not mapped, and every mapped pair names a known format. */
  lemma FormatMapShape()
    ensures "" !in FormatMap
    ensures forall ct :: ct in FormatMap ==> FormatMap[ct].0 in AudioFormats
  {
  }

  /** Every format name detect_audio_format can produce. */
  const AudioFormats: set<string> := {"ogg", "mp3", "wav", "aac", "mp4", "webm"}

  /** The lower-cased extensions recognised when the Content-Type does not decide. */
  const KnownExtensions: set<string> := {".ogg", ".oga", ".opus", ".mp3", ".wav", ".m4a", ".aac", ".webm"}

  /** The extension branch: a lower-cased extension decides the format and is kept. */
  function ExtensionFormat(ext: string): (r: (string, string))
    ensures r.0 in AudioFormats
    ensures ext in KnownExtensions ==> r.1 == ext
    ensures ext !in KnownExtensions ==> r == ("ogg", ".ogg")
    ensures ext in {".ogg", ".oga", ".opus"} <==> ext in KnownExtensions && r.0 == "ogg"
  {
    if ext == ".ogg" || ext == ".oga" then ("ogg", ext)
    else if ext == ".opus" then ("ogg", ext)
    else if ext == ".mp3" then ("mp3", ext)
    else if ext == ".wav" then ("wav", ext)
    else if ext == ".m4a" then ("mp4", ext)
    else if ext == ".aac" then ("aac", ext)
    else if ext == ".webm" then ("webm", ext)
    else ("ogg", ".ogg")
  }

  /**
   * detect_audio_format: a mapped, non-empty Content-Type decides alone; otherwise
   * the lower-cased extension of the path does; unknown audio defaults to ogg.
   */
  function DetectAudioFormat(filePath: string, contentType: Option<string>): (r: (string, string))
    ensures r.0 in AudioFormats
    ensures contentType.Some? && contentType.value in FormatMap ==> r == FormatMap[contentType.value]
    ensures (contentType.None? || contentType.value !in FormatMap) ==> r == ExtensionFormat(Lower(Ext(filePath)))
  {
    FormatMapShape();
    if contentType.Some? && contentType.value != "" && contentType.value in FormatMap then
      FormatMap[contentType.value]
    else
      ExtensionFormat(Lower(Ext(filePath)))
  }

  /** With a mapped Content-Type, the file path plays no part in the answer. */
  lemma ContentTypeIgnoresPath(path1: string, path2: string, contentType: string)
    requires contentType in FormatMap
    ensures DetectAudioFormat(path1, Some(contentType)) == DetectAudioFormat(path2, Some(contentType))
    ensures DetectAudioFormat(path1, Some(contentType)).0 in AudioFormats
  {
  }

  /** The eight (format, extension) pairs the code can build. */
  const DetectablePairs: set<(string, string)> :=
    {("ogg", ".ogg"), ("ogg", ".oga"), ("ogg", ".opus"), ("mp3", ".mp3"), ("wav", ".wav"),
     ("aac", ".aac"), ("mp4", ".m4a"), ("webm", ".webm")}

  /** Every pair the function returns is one of the eight the code can build. */
  lemma DetectedPairs(filePath: string, contentType: Option<string>)
    ensures DetectAudioFormat(filePath, contentType) in DetectablePairs
  {
    if contentType.Some? && contentType.value in FormatMap {
      MappedPairs(contentType.value);
    } else {
      var ext := Lower(Ext(filePath));
      assert DetectAudioFormat(filePath, contentType) == ExtensionFormat(ext);
      if ext in KnownExtensions {
        assert ext in {".ogg", ".oga", ".opus", ".mp3", ".wav", ".m4a", ".aac", ".webm"};
      }
    }
  }

  /** Each Content-Type in the table maps to one of the eight pairs. */
  lemma MappedPairs(ct: string)
    requires ct in FormatMap
    ensures FormatMap[ct] in DetectablePairs
  {
    assert ct in {"audio/ogg", "audio/opus", "audio/mpeg", "audio/mp3", "audio/wav", "audio/wave",
                  "audio/x-wav", "audio/aac", "audio/mp4", "audio/x-m4a", "audio/webm"};
  }

  /** A file named `<stem>.<ext>` without a mapped Content-Type is detected by its extension. */
  lemma {:induction false} ExtensionDecides(stem: string, suffix: string)
    requires stem != [] && stem[|stem| - 1] != '.' && stem[|stem| - 1] != '/'
    requires suffix != [] && suffix[0] == '.'
    requires forall k :: 1 <= k < |suffix| ==> suffix[k] != '.' && suffix[k] != '/'
    requires Lower(suffix) in KnownExtensions
    ensures DetectAudioFormat(stem + suffix, None).1 == Lower(suffix)
  {
    ExtOfSuffix(stem, suffix);
    assert Ext(stem + suffix) == suffix;
    assert DetectAudioFormat(stem + suffix, None) == ExtensionFormat(Lower(suffix));
  }

  // ---------------------------------------------------------------------------
  // is_valid_audio_file
  // ---------------------------------------------------------------------------

  /** The extensions the speech vendor accepts. */
  const VendorExtensions: set<string> := {".wav", ".mp3"}

  /**
   * is_valid_audio_file: the file must exist, its guessed MIME type must start with
   * "audio", and its lower-cased extension must be ".wav" or ".mp3".
   */
  function IsValidAudioFile(filePath: string, fileExists: bool, mimeGuess: Option<string>): (r: bool)
    ensures r ==> fileExists && mimeGuess.Some? && StartsWith(mimeGuess.value, "audio")
    ensures r ==> Lower(Ext(filePath)) in VendorExtensions
    ensures (fileExists && mimeGuess.Some? && StartsWith(mimeGuess.value, "audio")
             && Lower(Ext(filePath)) in VendorExtensions) ==> r
  {
    if !fileExists then false
    else if mimeGuess.Some? && mimeGuess.value != "" && StartsWith(mimeGuess.value, "audio") then
      Lower(Ext(filePath)) in VendorExtensions
    else false
  }

  /** A file the whitelist accepts is detected, without a Content-Type, as wav or mp3. */
  lemma ValidAudioIsWavOrMp3(filePath: string, fileExists: bool, mimeGuess: Option<string>)
    requires IsValidAudioFile(filePath, fileExists, mimeGuess)
    ensures DetectAudioFormat(filePath, None).0 in {"wav", "mp3"}
    ensures DetectAudioFormat(filePath, None).1 == Lower(Ext(filePath))
  {
    var ext := Lower(Ext(filePath));
    assert ext == ".wav" || ext == ".mp3";
    assert DetectAudioFormat(filePath, None) == ExtensionFormat(ext);
  }

  // ---------------------------------------------------------------------------
  // translate_audio, text_to_speech, translate_and_speak
  // ---------------------------------------------------------------------------

  /**
   * The value of translate_audio. The file size is read before the guarded block,
   * so a missing file raises out of the function (`SizeRaised`).
   */
  datatype TranslateAudioResult = SizeRaised | NoTranscript | Transcribed(items: seq<string>)

  const AudioApology: string := "Sorry, I couldn't translate the audio."

  /**
   * translate_audio: `[transcript, language code]` when the vendor answers, a
   * one-element apology when it raises, nothing when the file is not valid audio.
   */
  function TranslateAudio(audioPath: string, fileExists: bool, mimeGuess: Option<string>,
                          speech: SpeechService): (r: TranslateAudioResult)
    ensures r.SizeRaised? <==> !fileExists
    ensures r.NoTranscript? <==> fileExists && !IsValidAudioFile(audioPath, fileExists, mimeGuess)
    ensures r.Transcribed? ==> 1 <= |r.items| <= 2
    ensures r.Transcribed? && |r.items| == 2 ==>
      speech.speechToText(audioPath) == SttReturned(r.items[0], r.items[1])
    ensures r.Transcribed? && |r.items| == 1 ==>
      r.items == [AudioApology] && speech.speechToText(audioPath).SttRaised?
  {
    if !fileExists then SizeRaised
    else if !IsValidAudioFile(audioPath, fileExists, mimeGuess) then NoTranscript
    else match speech.speechToText(audioPath)
      case SttRaised => Transcribed([AudioApology])
      case SttReturned(transcript, code) => Transcribed([transcript, code])
  }

  /**
   * text_to_speech: a path only when the vendor answers and its first audio payload
   * is non-empty bytes; every failure (an exception, no payload, an empty payload,
   * a text payload that the binary file refuses) is None.
   */
  function TextToSpeech(text: string, languageCode: string, speech: SpeechService): (r: Option<string>)
    ensures r.Some? ==> r.value == speech.tempWavPath
    ensures r.Some? <==> speech.convert(text, languageCode).TtsReturned?
                         && |speech.convert(text, languageCode).audios| > 0
                         && speech.convert(text, languageCode).audios[0].AudioBytes?
                         && |speech.convert(text, languageCode).audios[0].bytes| > 0
  {
    match speech.convert(text, languageCode)
    case TtsRaised => None
    case TtsReturned(audios) =>
      if |audios| == 0 then None        // the IndexError is caught
      else if !NonEmptyPayload(audios[0]) then None
      else if audios[0].AudioText? then None   // the TypeError of the binary write is caught
      else Some(speech.tempWavPath)
  }

  /**
   * translate_and_speak: the translated text with the speech of that text in the
   * target language, or the original text without speech when translation raises.
   */
  function TranslateAndSpeak(text: string, sourceLanguage: string, targetLanguage: string,
                             speech: SpeechService): (r: (string, Option<string>))
    ensures speech.translate(text, sourceLanguage, targetLanguage).TranslationRaised? ==> r == (text, None)
    ensures speech.translate(text, sourceLanguage, targetLanguage).Translated? ==>
      var t := speech.translate(text, sourceLanguage, targetLanguage).text;
      r.0 == t && r.1 == TextToSpeech(t, targetLanguage, speech)
  {
    match speech.translate(text, sourceLanguage, targetLanguage)
    case TranslationRaised(_) => (text, None)
    case Translated(t) => (t, TextToSpeech(t, targetLanguage, speech))
  }

  /** Speech is produced only from a translation that succeeded, in the target language. */
  lemma VoiceImpliesTranslation(text: string, sourceLanguage: string, targetLanguage: string,
                                speech: SpeechService)
    requires TranslateAndSpeak(text, sourceLanguage, targetLanguage, speech).1.Some?
    ensures speech.translate(text, sourceLanguage, targetLanguage).Translated?
    ensures speech.convert(TranslateAndSpeak(text, sourceLanguage, targetLanguage, speech).0, targetLanguage).TtsReturned?
  {
  }
}
