/**
 * The two entry points of the agent: a text message, translated to English
 * unless it already is, and a voice message, transcribed and translated by the
 * speech vendor. Both run the graph and turn its final state into a reply.
 */
module EcomEntry {
  import opened Wrappers
  import opened SpeechProcessor
  import opened EcomAgent
  import opened EcomGraph

  const TextDefault: string := "Sorry, I couldn't process your request."
  const TextErrorPrefix: string := "Error processing your message: "
  const VoiceSorry: string := "Sorry, I couldn't process your voice message. Please try again."
  const VoiceTrouble: string :=
    "I'm having trouble processing your voice message. Could you please try again or send a text message instead?"

  /** The reply to a voice message whose run produced nothing to say. */
  function VoiceFallback(userLanguage: string, englishQuery: string): string {
    FallbackOpening + userLanguage + FallbackMiddle + englishQuery + FallbackClosing
  }

  const FallbackOpening: string := "I understood your message in "
  const FallbackMiddle: string := ", but couldn't find a product matching '"
  const FallbackClosing: string := "'. Could you try describing what you're looking for differently?"

  /** The source languages a text message is taken to be English in. */
  predicate IsEnglish(languageCode: string) {
    languageCode == "en-IN" || languageCode == "en-US" || languageCode == "en"
  }

  /** What a text message becomes before the agent runs: its query and language, or a failed translation. */
  datatype TextInput = TranslationFailed(message: string) | AgentInput(query: string, language: string)

  /**
   * English text is used as it is; other text is translated to English when a
   * translator is configured, and otherwise used as it is, tagged as Indian English.
   */
  function TextAgentInput(text: string, sourceLanguage: string, services: AgentServices): (r: TextInput)
    ensures IsEnglish(sourceLanguage) ==> r == AgentInput(text, sourceLanguage)
    ensures !IsEnglish(sourceLanguage) && !services.translatorAvailable ==> r == AgentInput(text, "en-IN")
    ensures !IsEnglish(sourceLanguage) && services.translatorAvailable ==>
      match services.speech.translate(text, sourceLanguage, "en-IN")
      case TranslationRaised(m) => r == TranslationFailed(m)
      case Translated(t) => r == AgentInput(t, sourceLanguage)
    ensures r.AgentInput? && r.query != text ==> services.translatorAvailable && r.language == sourceLanguage
  {
    if !IsEnglish(sourceLanguage) then
      if services.translatorAvailable then
        match services.speech.translate(text, sourceLanguage, "en-IN")
        case TranslationRaised(m) => TranslationFailed(m)
        case Translated(t) => AgentInput(t, sourceLanguage)
      else AgentInput(text, "en-IN")
    else AgentInput(text, sourceLanguage)
  }

  /** The run a text message starts. */
  function TextRun(query: string, language: string, services: AgentServices): AgentState {
    Invoke([Setting(EnglishQueryKey, query), Setting(UserLanguageKey, language)], services).0
  }

  /** process_text_message: the run's reply, a fixed default when it has none, or the translation error. */
  function ProcessTextMessage(text: string, sourceLanguage: string, services: AgentServices): (r: Reply)
    ensures TextAgentInput(text, sourceLanguage, services).TranslationFailed? ==>
      r == TextOnly(TextErrorPrefix + TextAgentInput(text, sourceLanguage, services).message)
    ensures TextAgentInput(text, sourceLanguage, services).AgentInput? ==>
      var input := TextAgentInput(text, sourceLanguage, services);
      var final := TextRun(input.query, input.language, services);
      && (final.response.Some? ==> r == final.response.value)
      && (final.response.None? ==> r == TextOnly(TextDefault))
  {
    match TextAgentInput(text, sourceLanguage, services)
    case TranslationFailed(m) => TextOnly(TextErrorPrefix + m)
    case AgentInput(query, language) => TextRun(query, language, services).response.GetOr(TextOnly(TextDefault))
  }

  /** The state a text run starts from holds the query and language and nothing else. */
  lemma TextRunStart(query: string, language: string)
    ensures InitialState([Setting(EnglishQueryKey, query), Setting(UserLanguageKey, language)]) ==
      Defaults.(englishQuery := query, userLanguage := language)
  {
    var settings := [Setting(EnglishQueryKey, query), Setting(UserLanguageKey, language)];
    LastSettingWins(settings, EnglishQueryKey, "", 0);
    LastSettingWins(settings, UserLanguageKey, "en-IN", 1);
  }

  /** A cart-summary or payment request gets the fixed default reply. */
  lemma TextNoOpRoutesGetDefault(query: string, language: string, services: AgentServices)
    requires GetIntentType(IdentifyIntent(Defaults.(englishQuery := query, userLanguage := language), services).intentType)
             in {"summarize_cart", "initiate_payment"}
    ensures TextRun(query, language, services).response.GetOr(TextOnly(TextDefault)) == TextOnly(TextDefault)
  {
    TextRunStart(query, language);
    NoOpRoutesSetNoReply(Defaults.(englishQuery := query, userLanguage := language), services);
  }

  /** A cart request gets the cart apology. */
  lemma TextCartGetsApology(query: string, language: string, services: AgentServices)
    requires GetIntentType(IdentifyIntent(Defaults.(englishQuery := query, userLanguage := language), services).intentType)
             == "cart_update"
    ensures TextRun(query, language, services).response == Some(TextOnly(CartApology))
  {
    TextRunStart(query, language);
    CartUpdateApologises(Defaults.(englishQuery := query, userLanguage := language), services);
  }

  // ---------------------------------------------------------------------------
  // process_voice_message
  // ---------------------------------------------------------------------------

  /** The run a transcribed voice message starts. */
  function VoiceRun(query: string, language: string, services: AgentServices): AgentState {
    Invoke([Setting(EnglishQueryKey, query), Setting(UserLanguageKey, language), Setting(IntentTypeKey, "")], services).0
  }

  /** The reply to a transcribed voice message: the run's reply, a product summary, or the fallback. */
  function VoiceAgentReply(query: string, language: string, services: AgentServices): Reply {
    var final := VoiceRun(query, language, services);
    if final.response.Some? then final.response.value
    else if final.product.Some? then
      TextOnly("I found " + final.product.value.name + " for " + final.product.value.price + ". "
               + final.product.value.description)
    else TextOnly(VoiceFallback(language, query))
  }

  /**
   * process_voice_message: a missing file fails the whole call, an invalid file or an
   * empty transcript gets the voice apology, and a transcript runs the agent in the
   * detected language (Hindi when the vendor failed and only the apology came back).
   */
  function ProcessVoiceMessage(audioPath: string, fileExists: bool, mimeGuess: Option<string>,
                               services: AgentServices): (r: Reply)
    ensures !fileExists ==> r == TextOnly(VoiceTrouble)
    ensures fileExists && !IsValidAudioFile(audioPath, fileExists, mimeGuess) ==> r == TextOnly(VoiceSorry)
    ensures fileExists && IsValidAudioFile(audioPath, fileExists, mimeGuess) ==>
      match services.speech.speechToText(audioPath)
      case SttRaised => r == VoiceAgentReply(AudioApology, "hi-IN", services)
      case SttReturned(transcript, code) =>
        r == if transcript == "" then TextOnly(VoiceSorry) else VoiceAgentReply(transcript, code, services)
  {
    match TranslateAudio(audioPath, fileExists, mimeGuess, services.speech)
    case SizeRaised => TextOnly(VoiceTrouble)
    case NoTranscript => TextOnly(VoiceSorry)
    case Transcribed(items) =>
      if items[0] == "" then TextOnly(VoiceSorry)
      else VoiceAgentReply(items[0], if |items| > 1 then items[1] else "hi-IN", services)
  }

  /** The state a voice run starts from holds the query and language, with an empty intent. */
  lemma VoiceRunStart(query: string, language: string)
    ensures InitialState([Setting(EnglishQueryKey, query), Setting(UserLanguageKey, language), Setting(IntentTypeKey, "")]) ==
      Defaults.(englishQuery := query, userLanguage := language)
  {
    var settings := [Setting(EnglishQueryKey, query), Setting(UserLanguageKey, language), Setting(IntentTypeKey, "")];
    LastSettingWins(settings, EnglishQueryKey, "", 0);
    LastSettingWins(settings, UserLanguageKey, "en-IN", 1);
    LastSettingWins(settings, IntentTypeKey, "", 2);
  }

  /** The product summary branch is never taken: every run that finds a product also replies. */
  lemma VoiceReplyIsRunReplyOrFallback(query: string, language: string, services: AgentServices)
    ensures VoiceAgentReply(query, language, services) ==
      VoiceRun(query, language, services).response.GetOr(TextOnly(VoiceFallback(language, query)))
  {
    VoiceRunStart(query, language);
    var final := VoiceRun(query, language, services);
    if final.product.Some? {
      ProductImpliesTextReply(Defaults.(englishQuery := query, userLanguage := language), services);
    }
  }

  /** A cart-summary or payment request by voice gets the fallback sentence. */
  lemma VoiceNoOpRoutesGetFallback(query: string, language: string, services: AgentServices)
    requires GetIntentType(IdentifyIntent(Defaults.(englishQuery := query, userLanguage := language), services).intentType)
             in {"summarize_cart", "initiate_payment"}
    ensures VoiceAgentReply(query, language, services) == TextOnly(VoiceFallback(language, query))
  {
    VoiceRunStart(query, language);
    NoOpRoutesSetNoReply(Defaults.(englishQuery := query, userLanguage := language), services);
  }
}
