# IndicCommerce core, modelled in Dafny

IndicCommerce is a WhatsApp shopping assistant for Indian languages. A text or
voice message is brought to English by Sarvam AI's translation and speech-to-text
services. A LangGraph agent then classifies the message's intent
(`product_query`, `cart_update`, `summarize_cart`, `initiate_payment`,
`general_info`) and routes it to one handler. The reply is translated back and
voiced. Two evaluation scripts sit beside the agent:

- an intent-classification benchmark, which scores the classifier on 80 fixed
  test cases (accuracy, per-class precision/recall/F1, a confusion matrix and
  per-language results);
- a retrieval benchmark, which scores a Chroma vector store against single-product
  ground truth (precision, recall and F1 per query, and their averages).

The project models:

- the agent's nodes, its graph and its two entry points;
- the speech helpers;
- the Firestore store;
- the shopping-assistant prompt;
- the ngrok URL lookup and the sample catalogue;
- both evaluation scripts.

Every vendor call is a parameter of the model: an OpenAI chat completion, a Sarvam
translation, text-to-speech or speech-to-text call, a Chroma search, a Firestore
read, an HTTP request to ngrok, a CSV parse or a filesystem check. Each is
modelled either as a function-typed parameter or as a datatype of its outcomes
(`ClassifierReply`, `TranslationOutcome`, `SearchOutcome`, `CsvOutcome`, ...).
A node that catches an exception gets a branch for the "raised" outcome.

Modules:

- `Text` and `Wrappers`: string search, ASCII lower-casing and `Option`.
- `SpeechProcessor`:
  - `detect_audio_format` and `is_valid_audio_file`;
  - `translate_audio`, `text_to_speech` and `translate_and_speak`.
- `Ngrok`: the tunnel lookup and its retry loop.
- `SampleProducts`: the image URLs and the catalogue.
- `ShoppingAssistant`: the prompt builder.
- `Firestore`: the document store, as a class whose map of documents the methods update.
- `Classifier`: the classifier's reply and the language note it is sent.
- `EcomAgent`:
  - the nodes and tools of `ecom_agent.py`;
  - each node is a function from agent state to agent state.
- `EcomGraph`: the compiled graph.
  - `Next` gives each node's transitions and `Rank` bounds every run.
  - `Run` returns the final state and the path of nodes visited.
  - `Invoke` seeds the default state.
- `EcomEntry`: `process_text_message` and `process_voice_message`.
- `IntentClassification`: the stand-alone classifier node, its wrapper and the test cases.
- `IntentMetrics` and `IntentEvaluation`:
  - `evaluate_classification`;
  - counting functions over result entries, and the loops proved against them.
- `Stats`: ratio, F1 and mean.
- `RagAccuracy`:
  - `calculate_precision_recall_f1`;
  - the `VectorStore` class;
  - the ground-truth filtering, the sorted query list and `run_rag_evaluation`.

## Behaviour worth noting

- `identify_intent` gives an empty English query the intent `general_info`
  with confidence 0. The query then gets the general-info reply, translated and
  voiced. `EcomGraph.EmptyQueryIsGeneralInfo` states this.
- `handle_error` is defined on the agent but never added to the compiled graph.
  It is modelled as a plain function.
- `handle_general_info` is a node of its own, reached by the `general_info`
  route and by every intent `get_intent_type` does not recognise.
- `handle_cart_update` uses the name `user_language`, which it never binds and
  which no module defines, so the NameError sends it to its exception handler
  every time. The reply is always the cart apology.
- `text_to_speech` writes the first audio payload to a temporary file opened in
  binary mode. A payload that arrives as text (base64, say) raises a TypeError
  there, which the function catches, so it returns None. Only a bytes payload
  gives a path. `SpeechProcessor.TextToSpeech` states this.

## Model

| member | source | states |
|---|---|---|
| Text.LowerChar | src/agents/ecom_agent.py:74 | an upper-case ASCII letter is shifted to lower case; every other character is unchanged |
| Text.Lower | src/speech_processing/processor.py:54 | `str.lower` keeps the length and lower-cases each character on its own |
| Text.LowerIdempotent | src/speech_processing/processor.py:54 | lower-casing twice is the same as lower-casing once |
| Text.ContainsTransitive | src/agents/ecom_agent.py:77 | substring containment is transitive |
| Text.ContainsMiddle | src/prompts/shopping_assistant.py:18-21 | a string occurs in any concatenation built around it |
| SpeechProcessor.RFind | src/speech_processing/processor.py:54 | the index found holds the character and no later index does; -1 means the character does not occur |
| SpeechProcessor.SplitExt | src/speech_processing/processor.py:54 | `os.path.splitext`: stem and extension concatenate back to the path; the extension starts with a dot and holds no further dot or slash |
| SpeechProcessor.ExtOfSuffix | src/speech_processing/processor.py:54 | a path ending in a dot-suffix (with no inner dot or slash) has exactly that suffix as its extension |
| SpeechProcessor.ExtensionFormat | src/speech_processing/processor.py:54-72 | a known extension is returned unchanged with its format; .ogg, .oga and .opus are exactly the extensions read as ogg; anything else defaults to ("ogg", ".ogg") |
| SpeechProcessor.DetectAudioFormat | src/speech_processing/processor.py:23-72 | a content type in the format map decides the result; otherwise the lower-cased extension does; the format is always one of the known formats |
| SpeechProcessor.ContentTypeIgnoresPath | src/speech_processing/processor.py:50-51 | with a known content type the file path does not matter |
| SpeechProcessor.DetectedPairs | src/speech_processing/processor.py:35-72 | every result is one of the listed (format, extension) pairs |
| SpeechProcessor.MappedPairs | src/speech_processing/processor.py:34-46 | every Content-Type in the table maps to one of the listed (format, extension) pairs |
| SpeechProcessor.ExtensionDecides | src/speech_processing/processor.py:54-68 | without a content type, a known suffix comes back lower-cased as the extension |
| SpeechProcessor.IsValidAudioFile | src/speech_processing/processor.py:178-202 | valid if and only if the file exists, its guessed MIME type starts with "audio" and its lower-cased extension is .wav or .mp3 |
| SpeechProcessor.ValidAudioIsWavOrMp3 | src/speech_processing/processor.py:193-199 | a file accepted as valid is detected as wav or mp3, with its own extension |
| SpeechProcessor.TranslateAudio | src/speech_processing/processor.py:204-234 | a missing file raises before the try; an invalid file gives no transcript; a vendor error gives the one-item apology; otherwise the result is [transcript, language code] |
| SpeechProcessor.TextToSpeech | src/speech_processing/processor.py:236-271 | a path is returned exactly when the vendor answers and its first payload is non-empty bytes; a text payload fails the binary write and gives None; the path is the temporary .wav file |
| SpeechProcessor.TranslateAndSpeak | src/speech_processing/processor.py:273-306 | a failed translation returns the input text and no audio; otherwise the translated text and the speech made from it |
| SpeechProcessor.VoiceImpliesTranslation | src/speech_processing/processor.py:286-302 | audio is produced only when both the translation and the speech call succeeded |
| Ngrok.ScanFrom | src/utils/ngrok.py:7-9 | the first https tunnel is found with only passed-over tunnels before it; "none" exactly when every tunnel has a proto other than "https"; a tunnel without a proto key stops the scan, and a null proto is passed over |
| Ngrok.GetNgrokUrl | src/utils/ngrok.py:4-13 | the method's loop returns the URL the tunnel reply determines; `NgrokUrl` is get_ngrok_url as a function of the API answer, every exception giving None |
| Ngrok.NullProtoPassedOver | src/utils/ngrok.py:7-9 | a tunnel whose proto is null is compared and passed over, so a later https tunnel's URL is returned |
| Ngrok.HttpsPreferred | src/utils/ngrok.py:7-9 | the first https tunnel's public URL is returned by `NgrokUrl` |
| Ngrok.FirstHttpsFound | src/utils/ngrok.py:7-9 | the scan stops at the first https tunnel |
| Ngrok.FallbackToFirst | src/utils/ngrok.py:10-13 | with no https tunnel, the first tunnel's URL is returned, or nothing when the list is empty by `NgrokUrl` |
| Ngrok.GetNgrokUrlWithRetry | src/utils/ngrok.py:15-21 | at most `retries` attempts; a URL is returned from the first attempt that gives a non-empty one; no URL only after every attempt failed |
| SampleProducts.GetImageUrl | src/data/sample_products.py:8-15 | a non-empty tunnel URL is prefixed to the image path, otherwise the path is used; the result always ends with the path |
| SampleProducts.Entry | src/data/sample_products.py:17-57 | the k-th product carries the k-th id, price and category, and its image URL comes from get_image_url on its own path |
| SampleProducts.Catalog | src/data/sample_products.py:17-57 | the five products in order, each with its image URL built from its own lookup |
| SampleProducts.IdDigit | src/data/sample_products.py:17-57 | the k-th id is "prod" followed by the digit k + 1 |
| SampleProducts.PriceAndCategory | src/data/sample_products.py:17-57 | every price starts with the rupee sign and every category is apparel, electronics or footwear |
| SampleProducts.CatalogWellFormed | src/data/sample_products.py:17-57 | product ids are distinct, prices are in rupees, categories are one of three and image URLs end with the image paths |
| SampleProducts.LocalImagePaths | src/data/sample_products.py:14-15 | without a tunnel every image URL is the bare relative path |
| ShoppingAssistant.Header | src/prompts/shopping_assistant.py:11-17 | the header starts with the product-details line and ends with the conversation-history heading |
| ShoppingAssistant.GetPrompt | src/prompts/shopping_assistant.py:5-23 | the prompt is the header, one line per exchange in order, then the user's query line; `Line` is the `role: content` line of one exchange, `HistoryLines` the lines of the history in order and `QueryLine` the closing `user: query` line |
| ShoppingAssistant.HistoryLinesAppend | src/prompts/shopping_assistant.py:18-19 | the history lines of two histories in sequence are the two blocks in sequence (`HistoryLines` joins the `Line` of each exchange) |
| ShoppingAssistant.HistoryLinesSplit | src/prompts/shopping_assistant.py:18-19 | each exchange's line sits between the lines before it and the lines after it |
| ShoppingAssistant.ExchangeLineInPrompt | src/prompts/shopping_assistant.py:18-21 | every exchange of the history appears in the prompt |
| ShoppingAssistant.PromptFraming | src/prompts/shopping_assistant.py:11-21 | the prompt starts with the header and ends with the query line |
| ShoppingAssistant.EmptyHistoryPrompt | src/prompts/shopping_assistant.py:11-21 | with no history the prompt is the header followed by the query line |
| Firestore.SavedConversation | src/db/firestore.py:24-41 | the new document holds only "history": the old history followed by the exchange, or just the exchange when there was none; a history that is not a list cannot be extended |
| Firestore.SavedUserData | src/db/firestore.py:43-60 | the key is set to the input and every other key of the old document is kept |
| Firestore.FullUserData | src/db/firestore.py:62-77 | the stored document, or an empty one when the user has none |
| Firestore.ConversationAccumulates | src/db/firestore.py:35-41 | saving two exchanges in turn is saving their concatenation |
| Firestore.ConversationDropsUserData | src/db/firestore.py:41 | saving a conversation overwrites the document, so other user data is lost |
| Firestore.UserDataReadBack | src/db/firestore.py:54-60 | a saved value reads back, and a second save of the same key replaces the first |
| Firestore.FirestoreClient.constructor | src/db/firestore.py:12-22 | the client starts on the collection's documents |
| Firestore.FirestoreClient.SaveConversation | src/db/firestore.py:24-41 | only the user's document changes, to the saved conversation; nothing changes when the old history cannot be extended |
| Firestore.FirestoreClient.SaveUserData | src/db/firestore.py:43-60 | only the user's document changes, to the updated user data |
| Firestore.FirestoreClient.GetFullUserData | src/db/firestore.py:62-77 | returns the user's document, or an empty map |
| Firestore.FirestoreClient.DeleteUser | src/db/firestore.py:79-84 | exactly the user's document is removed |
| Firestore.Connect | src/db/firestore.py:16-17 | no client exactly when the database or collection name is unset |
| Classifier.LangNote | src/agents/ecom_agent.py:265 | empty exactly for "en-IN" and "en"; otherwise it names the original language |
| EcomAgent.IdentifyIntent | src/agents/ecom_agent.py:247-315 | an empty query becomes general_info with confidence 0; a classifier error becomes product_query on the whole query with confidence 0.5; otherwise each field is taken from the JSON reply or gets its default; the query, language, product and reply are left alone |
| EcomAgent.GetIntentType | src/agents/ecom_agent.py:317-327 | the route is always one of the five valid intents; a valid intent is kept and anything else becomes general_info |
| EcomAgent.GetIntentTypeIdempotent | src/agents/ecom_agent.py:317-327 | routing a routed intent changes nothing |
| EcomAgent.TextToEmbedding | src/agents/ecom_agent.py:49-61 | the error is returned exactly for an empty query, with its message; otherwise the embedding is the query text |
| EcomAgent.QueryVectorDb | src/agents/ecom_agent.py:63-107 | an error exactly when there is no embedding; shirt terms give the shirt (₹999 when "under thousand" is asked), pant terms the pants, anything else the gift card |
| EcomAgent.RedundantKeywords | src/agents/ecom_agent.py:77-88 | "t-shirt" and "pants" add nothing to the tests for "shirt" and "pant" |
| EcomAgent.GenerateEmbedding | src/agents/ecom_agent.py:329-347 | empty search terms leave the state unchanged; otherwise only the embedding is set |
| EcomAgent.SearchProducts | src/agents/ecom_agent.py:349-381 | a search error leaves the state unchanged; a match sets only the product |
| EcomAgent.ProductTextShapes | src/agents/ecom_agent.py:395-402 | with sales, discount or both, the reply is exactly the product sentence followed by the sales note and then the regular-price note, each present only when its key is |
| EcomAgent.ProductTextLayout | src/agents/ecom_agent.py:395-402 | the reply opens with the product sentence, contains the sales note when there are sales, and ends with the regular price when there is a discount |
| EcomAgent.ProductText | src/agents/ecom_agent.py:395-402 | with neither sales nor discount the reply is exactly the name, price and description sentence |
| EcomAgent.GenerateProductResponse | src/agents/ecom_agent.py:383-408 | no product gives the fixed no-match text; a product gives its description; only the response changes |
| EcomAgent.GenerateResponse | src/agents/ecom_agent.py:109-141 | no reply exactly when the LLM text is missing or empty; otherwise the text and voice come from translating to the user's language (Hindi by default), with the product's image |
| EcomAgent.UntranslatedReplyIsSilent | src/agents/ecom_agent.py:124-141 | when translation fails the English text is sent with no voice |
| EcomAgent.HandleError | src/agents/ecom_agent.py:170-180 | always the fixed apology, with the error message or "An unknown error occurred." |
| EcomAgent.HandleCartUpdate | src/agents/ecom_agent.py:410-456 | the response is always the cart apology; the LLM text is updated when the chat call returned; nothing else changes |
| EcomAgent.GeneralInfoText | src/agents/ecom_agent.py:475-482 | the reply restates the query, followed by the Hindi, Tamil or Telugu note for those languages and by nothing otherwise |
| EcomAgent.HandleGeneralInfo | src/agents/ecom_agent.py:467-502 | the LLM text is the general-info text; the response is its translated and voiced reply with no image; nothing else changes |
| EcomGraph.RouteIntent | src/agents/ecom_agent.py:221-232 | each of the five routed intents goes to its own node, in both directions |
| EcomGraph.Next | src/agents/ecom_agent.py:221-242 | every transition follows a graph edge to a node of lower rank; a run ends exactly at nodes without edges |
| EcomGraph.Step | src/agents/ecom_agent.py:211-218 | each node runs its own function; the summarize and payment nodes leave the state unchanged |
| EcomGraph.Run | src/agents/ecom_agent.py:209-245 | the path starts at the given node, follows edges, strictly decreases in rank and ends at a node without edges |
| EcomGraph.LastValue | src/agents/ecom_agent.py:521-522 | a key that is never set keeps its default |
| EcomGraph.LastSettingWins | src/agents/ecom_agent.py:521-522 | the last setting of a key is the one that counts |
| EcomGraph.InitialState | src/agents/ecom_agent.py:508-522 | the defaults with only the query, language and intent overridden, and "en-IN" when no language is given |
| EcomGraph.Seed | src/agents/ecom_agent.py:504-522 | the method's loop over the settings yields the initial state |
| EcomGraph.Invoke | src/agents/ecom_agent.py:504-529 | every run starts at identify_intent and visits at most four nodes |
| EcomGraph.RunThrough | src/agents/ecom_agent.py:220-242 | a run through a node with an edge is that node's step followed by the run from its successor |
| EcomGraph.RunEnds | src/agents/ecom_agent.py:236-241 | a run at a node without edges is that node's step alone |
| EcomGraph.ProductChain | src/agents/ecom_agent.py:233-237 | from generate_embedding the run goes through search_products and generate_product_response and ends |
| EcomGraph.SearchChain | src/agents/ecom_agent.py:234-237 | from search_products the run goes through generate_product_response and ends |
| EcomGraph.ProductQueryRoute | src/agents/ecom_agent.py:221-238 | a product query runs embedding, search and product reply in that order |
| EcomGraph.IdentifyThen | src/agents/ecom_agent.py:221-231 | a run starts with intent identification and continues from the node the intent routes to |
| EcomGraph.HandlerRoute | src/agents/ecom_agent.py:221-242 | every other intent runs exactly its one handler and ends |
| EcomGraph.EmptyQueryIsGeneralInfo | src/agents/ecom_agent.py:254-258 | an empty query is answered by the general-info handler with confidence 0 |
| EcomGraph.EmptySearchTermsNoMatch | src/agents/ecom_agent.py:329-408 | a product query with no search terms finds no product and gets the no-match reply |
| EcomGraph.CartUpdateApologises | src/agents/ecom_agent.py:410-456 | every cart update ends with the cart apology |
| EcomGraph.NoOpRoutesSetNoReply | src/agents/ecom_agent.py:457-465 | the summarize and payment routes add no reply |
| EcomGraph.ProductImpliesTextReply | src/agents/ecom_agent.py:383-408 | a run that finds a product always ends with that product's text reply |
| EcomEntry.TextAgentInput | src/agents/ecom_agent.py:591-606 | English text is kept; other text is translated to English when a translator exists and kept as en-IN otherwise; the query changes only by translation |
| EcomEntry.ProcessTextMessage | src/agents/ecom_agent.py:587-615 | the run's response, the fixed default when it has none, or the error text when translation raised; `TextRun` is the final state of the `invoke` call at lines 608-611 |
| EcomEntry.TextRunStart | src/agents/ecom_agent.py:608-611 | a text run starts from the defaults with the query and language set (the start of `TextRun`) |
| EcomEntry.TextNoOpRoutesGetDefault | src/agents/ecom_agent.py:613 | summarize and payment text messages get the fixed default reply |
| EcomEntry.TextCartGetsApology | src/agents/ecom_agent.py:608-613 | a cart update by text gets the cart apology |
| EcomEntry.ProcessVoiceMessage | src/agents/ecom_agent.py:534-585 | a missing file gives the trouble text; invalid audio or an empty transcript gives the apology; otherwise the agent answers the transcript in its detected language (Hindi when only the apology came back); `VoiceRun` is the final state of the `invoke` call at lines 560-564, and `VoiceAgentReply` the reply chosen from it at lines 568-581 |
| EcomEntry.VoiceRunStart | src/agents/ecom_agent.py:560-564 | a voice run starts from the defaults with the query and language set and an empty intent (the start of `VoiceRun`) |
| EcomEntry.VoiceReplyIsRunReplyOrFallback | src/agents/ecom_agent.py:568-581 | the reply is the run's response or the "I understood your message" fallback; the product-summary branch is never taken (`VoiceAgentReply` on the run `VoiceRun` gives) |
| EcomEntry.VoiceNoOpRoutesGetFallback | src/agents/ecom_agent.py:572-581 | summarize and payment voice messages get the fallback text |
| IntentClassification.IdentifyIntentNode | intent_accuracy_testing/intent_classification_test.py:72-177 | an empty query is an error; a classifier failure is an error; otherwise the JSON fields or their defaults, and is_product exactly for product_query |
| IntentClassification.RunIntentClassification | intent_accuracy_testing/intent_classification_test.py:179-213 | a node error becomes intent "error" with confidence 0; otherwise the node's classification, read back by `ActualIntent` and `ReportedConfidence` |
| IntentClassification.EmptyQueryIsError | intent_accuracy_testing/intent_classification_test.py:77-81 | the empty query is always classified "error" with confidence 0 |
| IntentClassification.Group | intent_accuracy_testing/intent_classification_test.py:222-303 | one English case per query, in order, all expecting the same intent |
| IntentClassification.GenerateTestCases | intent_accuracy_testing/intent_classification_test.py:215-337 | the 70 base cases in order, then each regional case with its language |
| IntentClassification.RegionalCasesEach | intent_accuracy_testing/intent_classification_test.py:307-327 | each regional case expects a listed intent other than error, in a non-English language |
| IntentClassification.EdgeCasesChecked | intent_accuracy_testing/intent_classification_test.py:297-303 | the edge cases expect listed intents and end with the empty query expecting error |
| IntentClassification.GroupWellFormed | intent_accuracy_testing/intent_classification_test.py:222-296 | a group for a listed intent is well formed |
| IntentClassification.EnglishCasesAppend | intent_accuracy_testing/intent_classification_test.py:222-303 | well-formed case lists stay well formed when concatenated |
| IntentClassification.BaseCasesChecked | intent_accuracy_testing/intent_classification_test.py:222-304 | 70 English cases, all expecting listed intents, the last one the empty query |
| IntentClassification.RegionalCasesChecked | intent_accuracy_testing/intent_classification_test.py:307-327 | every regional case is well formed |
| IntentClassification.TestCaseShape | intent_accuracy_testing/intent_classification_test.py:215-337 | 70 base and 10 regional cases; only the empty query expects error; no regional case is in English |
| IntentMetrics.EntryFor | intent_accuracy_testing/intent_classification_test.py:357-380 | the entry copies the case's query and expected intent, takes its language or en-IN, and is correct exactly when the actual intent equals the expected one; the actual intent and confidence are `ActualIntent` and `ReportedConfidence` of the classification, "error" and 0.0 for a failure, the `get` defaults at lines 364-365 |
| IntentMetrics.Count | intent_accuracy_testing/intent_classification_test.py:413 | a count never exceeds the number of entries |
| IntentMetrics.CountAppend | intent_accuracy_testing/intent_classification_test.py:369-370 | appending an entry adds one exactly when it passes the test |
| IntentMetrics.CountDisjoint | intent_accuracy_testing/intent_classification_test.py:423-428 | counts of disjoint tests add up to the count of their union |
| IntentMetrics.CountMonotone | intent_accuracy_testing/intent_classification_test.py:413 | a weaker test counts at least as many entries |
| IntentMetrics.CountAgree | intent_accuracy_testing/intent_classification_test.py:413 | tests that agree on every entry count the same |
| IntentMetrics.CountAll | intent_accuracy_testing/intent_classification_test.py:497 | a test every entry passes counts them all |
| IntentMetrics.CountNone | intent_accuracy_testing/intent_classification_test.py:497 | a test no entry passes counts zero |
| IntentMetrics.RegionalResults | intent_accuracy_testing/intent_classification_test.py:385-387 | the regional list holds exactly the entries in a language other than en-IN and en, as many as there are |
| IntentMetrics.RunCasesStep | intent_accuracy_testing/intent_classification_test.py:369-387 | one more entry adds one to the correct count when correct and joins the regional list when regional |
| IntentMetrics.CorrectMeansMatched | intent_accuracy_testing/intent_classification_test.py:368-370 | the correct count equals the number of entries whose actual intent is the expected one, and is at most the number of cases |
| IntentMetrics.TpPlusFn | intent_accuracy_testing/intent_classification_test.py:423-428 | true positives and false negatives of an intent add up to the cases expecting it |
| IntentMetrics.ClassCorrectIsTp | intent_accuracy_testing/intent_classification_test.py:413-425 | the correct entries of a class are its true positives |
| IntentMetrics.ClassMetricsFor | intent_accuracy_testing/intent_classification_test.py:409-420 | the count is the number of cases expecting the intent; correct is the number of those classified correctly, at most the count; the accuracy is their ratio, in [0, 1] |
| IntentMetrics.Precision | intent_accuracy_testing/intent_classification_test.py:446 | tp / (tp + fp), or 0 when nothing was predicted as the intent; always in [0, 1] |
| IntentMetrics.Recall | intent_accuracy_testing/intent_classification_test.py:447 | tp over the cases expecting the intent, or 0 when there are none; always in [0, 1] |
| IntentMetrics.ClassF1 | intent_accuracy_testing/intent_classification_test.py:450-454 | the F1 of the intent's precision and recall; in [0, 1], and 0 when both are 0 |
| IntentMetrics.Scores | intent_accuracy_testing/intent_classification_test.py:441-454 | one triple per listed intent, in order, holding that intent's precision, recall and F1, each in [0, 1] |
| IntentMetrics.ScoredAmong | intent_accuracy_testing/intent_classification_test.py:457-459 | exactly the intents with some prediction and some expected case |
| IntentMetrics.Precisions | intent_accuracy_testing/intent_classification_test.py:462 | the per-intent precisions of the given intents, each in [0, 1] |
| IntentMetrics.Recalls | intent_accuracy_testing/intent_classification_test.py:463 | the per-intent recalls of the given intents, each in [0, 1] |
| IntentMetrics.MacroPrecision | intent_accuracy_testing/intent_classification_test.py:457-470 | the mean precision over the scored intents, or 0 when there are none; in [0, 1] |
| IntentMetrics.MacroRecall | intent_accuracy_testing/intent_classification_test.py:457-470 | the mean recall over the scored intents, or 0 when there are none; in [0, 1] |
| IntentMetrics.MacroF1 | intent_accuracy_testing/intent_classification_test.py:465-470 | the F1 of the macro precision and the macro recall; in [0, 1], and 0 when no intent is scored |
| IntentMetrics.IntentTypesDistinct | intent_accuracy_testing/intent_classification_test.py:397 | the six listed intents are distinct, so the matrix's rows and columns are well defined |
| IntentMetrics.IndexOf | intent_accuracy_testing/intent_classification_test.py:483 | an index found holds the intent; none means the intent is not listed |
| IntentMetrics.SumNatIncrement | intent_accuracy_testing/intent_classification_test.py:484 | adding one to a cell adds one to the row sum |
| IntentMetrics.MatrixTotalIncrement | intent_accuracy_testing/intent_classification_test.py:484 | adding one to a cell adds one to the matrix total |
| IntentMetrics.Zeros | intent_accuracy_testing/intent_classification_test.py:473-477 | a 6 by 6 matrix of zeros |
| IntentMetrics.ZerosTotal | intent_accuracy_testing/intent_classification_test.py:473-477 | the zero matrix totals 0 |
| IntentMetrics.AllZeroSum | intent_accuracy_testing/intent_classification_test.py:473-477 | a row of zeros sums to 0 |
| IntentMetrics.TalliesEmpty | intent_accuracy_testing/intent_classification_test.py:473-477 | the zero matrix counts the empty result list |
| IntentMetrics.TallyStep | intent_accuracy_testing/intent_classification_test.py:480-484 | tallying one more entry keeps every cell equal to its pair count and the total equal to the entries with both intents listed |
| IntentMetrics.TallyCells | intent_accuracy_testing/intent_classification_test.py:480-484 | after a tally every cell counts its (expected, actual) pair |
| IntentMetrics.TallyListed | intent_accuracy_testing/intent_classification_test.py:480-484 | an entry whose two intents are listed adds one to the matrix total |
| IntentMetrics.TallySkipped | intent_accuracy_testing/intent_classification_test.py:480-484 | an entry with an unlisted intent leaves the matrix unchanged |
| IntentMetrics.TallyTotal | intent_accuracy_testing/intent_classification_test.py:483-484 | a tally raises the total by one exactly when both intents are listed |
| IntentMetrics.MetricsFor | intent_accuracy_testing/intent_classification_test.py:497-505 | a language's count is its number of entries, correct the number of those classified correctly, and the accuracy their ratio, in [0, 1] |
| IntentMetrics.BreakdownStep | intent_accuracy_testing/intent_classification_test.py:496-505 | adding a new language keeps the languages distinct and the counts equal to the entries in the languages covered |
| IntentMetrics.CountAddLanguage | intent_accuracy_testing/intent_classification_test.py:496-497 | the entries in one more language are those before plus that language's |
| IntentMetrics.CountEveryLanguage | intent_accuracy_testing/intent_classification_test.py:494 | every entry is in one of the languages collected |
| IntentEvaluation.RecordEntry | intent_accuracy_testing/intent_classification_test.py:367-387 | the entry is appended, and the correct count and the regional list stay those of the results |
| IntentEvaluation.RunCases | intent_accuracy_testing/intent_classification_test.py:357-387 | one entry per case in order, the number of correct entries and the regional entries |
| IntentEvaluation.ComputeClassMetrics | intent_accuracy_testing/intent_classification_test.py:403-420 | an entry exactly for each listed intent that some case expects, each with that intent's metrics |
| IntentEvaluation.FillConfusionMatrix | intent_accuracy_testing/intent_classification_test.py:472-484 | each cell counts its (expected, actual) pair, the diagonal holds the true positives, and entries with an unlisted intent are counted nowhere |
| IntentEvaluation.LanguageBreakdown | intent_accuracy_testing/intent_classification_test.py:492-505 | one entry per distinct regional language, each with its own metrics, and the counts sum to the regional total |
| IntentEvaluation.EvaluateClassification | intent_accuracy_testing/intent_classification_test.py:339-528 | the report's totals and accuracy; class metrics for exactly the expected listed intents, each that intent's metrics; the confusion matrix cells as pair counts; regional metrics present exactly when some case is regional, with the regional correct count, its ratio, and one entry per distinct language holding that language's metrics; the per-class scores; and the macro precision, recall and F1 of the results |
| Stats.Ratio | intent_accuracy_testing/intent_classification_test.py:394 | part / whole times whole gives back part; 0 for an empty whole; in [0, 1] when part ≤ whole |
| Stats.F1 | RAG_Accuracy/app.py:255-258 | F1 times (p + r) is 2pr, or 0 when p + r is 0 |
| Stats.F1Between | intent_accuracy_testing/intent_classification_test.py:450-452 | the harmonic mean of two non-negative scores lies between them |
| Stats.CancelPositive | RAG_Accuracy/app.py:258 | an inequality survives dividing both sides by a positive number |
| Stats.HarmonicBetween | RAG_Accuracy/app.py:258 | any f with f(p + r) = 2pr lies between p and r |
| Stats.F1Bounded | RAG_Accuracy/app.py:255-258 | F1 of two scores in [0, 1] is in [0, 1] |
| Stats.Mean | RAG_Accuracy/app.py:582-584 | the mean times the length is the sum, or 0 for an empty list |
| Stats.SumBounded | RAG_Accuracy/app.py:582-584 | a sum of values in [0, 1] lies between 0 and the number of values |
| Stats.MeanBounded | RAG_Accuracy/app.py:582-584 | a mean of values in [0, 1] is in [0, 1] |
| RagAccuracy.PrecisionRecallF1 | RAG_Accuracy/app.py:231-260 | with no relevant items precision is 1 exactly when nothing was retrieved, and recall and F1 are 0; otherwise precision and recall are the overlap over the distinct retrieved and relevant items; all in [0, 1]; F1 is the F1 of the two, so 0 when both are 0 |
| RagAccuracy.SplitCardinality | RAG_Accuracy/app.py:248-250 | true and false positives partition the distinct retrieved items |
| RagAccuracy.NonEmptySet | RAG_Accuracy/app.py:242 | a list is empty exactly when its set of items is |
| RagAccuracy.PositivesCoverRetrieved | RAG_Accuracy/app.py:248-253 | tp + fp is the number of distinct retrieved items and tp + fn the number of distinct relevant items |
| RagAccuracy.DuplicatesIgnored | RAG_Accuracy/app.py:248-250 | the scores depend only on the sets of ids, not on order or repetition |
| RagAccuracy.PerfectRetrieval | RAG_Accuracy/app.py:248-258 | retrieving exactly the relevant items scores 1, 1, 1 |
| RagAccuracy.SingleIdGroundTruth | RAG_Accuracy/app.py:509-513 | exactly the queries with one relevant id are kept, with their ids |
| RagAccuracy.FilterGroundTruth | RAG_Accuracy/app.py:509-513 | the method's loop yields the single-id ground truth |
| RagAccuracy.LexTotal | RAG_Accuracy/app.py:517 | Python's string order is total |
| RagAccuracy.LexTransitive | RAG_Accuracy/app.py:517 | Python's string order is transitive |
| RagAccuracy.InsertFront | RAG_Accuracy/app.py:517 | an element no greater than a sorted list's head can be put in front |
| RagAccuracy.InsertBehind | RAG_Accuracy/app.py:517 | a sorted list stays sorted behind an element no greater than any of its items |
| RagAccuracy.Insert | RAG_Accuracy/app.py:517 | inserting into a sorted list gives a sorted permutation with the element added |
| RagAccuracy.SortStrings | RAG_Accuracy/app.py:517 | `list.sort` gives a sorted permutation |
| RagAccuracy.KnownQueries | RAG_Accuracy/app.py:516 | each query with ground truth is kept as often as the CSV lists it, and every other query is dropped |
| RagAccuracy.QueriesToEvaluate | RAG_Accuracy/app.py:516-517 | sorted; each query with ground truth appears as often as in the CSV; nothing else appears |
| RagAccuracy.VectorStore.constructor | RAG_Accuracy/app.py:148-179 | initialised exactly when the collection could be created, and empty |
| RagAccuracy.VectorStore.AddProducts | RAG_Accuracy/app.py:181-203 | succeeds exactly when initialised and the vendor does not raise; on success one "name: description" document per product is appended, otherwise nothing changes |
| RagAccuracy.VectorStore.Search | RAG_Accuracy/app.py:205-227 | nothing when uninitialised or when the search raises, otherwise the hits' products |
| RagAccuracy.Ids | RAG_Accuracy/app.py:563 | the retrieved products' ids in order |
| RagAccuracy.TopId | RAG_Accuracy/app.py:562 | the first product's id, or "N/A" when nothing was retrieved |
| RagAccuracy.Precisions | RAG_Accuracy/app.py:567 | the rows' precisions in order |
| RagAccuracy.Recalls | RAG_Accuracy/app.py:568 | the rows' recalls in order |
| RagAccuracy.F1s | RAG_Accuracy/app.py:569 | the rows' F1 scores in order |
| RagAccuracy.RowsLength | RAG_Accuracy/app.py:551-569 | when every query has one relevant id, there is one row per query |
| RagAccuracy.RowAt | RAG_Accuracy/app.py:551-569 | row k scores query k's search against its one relevant id (`RowFor` builds the row: the query, the top id, the relevant id and the scores) |
| RagAccuracy.RowsPrefix | RAG_Accuracy/app.py:551-569 | a later query leaves the rows of the earlier ones in place |
| RagAccuracy.RowsLast | RAG_Accuracy/app.py:551-569 | the last query's row comes last and scores that query |
| RagAccuracy.AllSingleRows | RAG_Accuracy/app.py:551-569 | one row per query, in order, each scoring that query's search |
| RagAccuracy.RowsStep | RAG_Accuracy/app.py:551-569 | a query with one relevant id adds its row at the end |
| RagAccuracy.ScoreQueries | RAG_Accuracy/app.py:551-569 | the method's loop, with its skip of queries lacking one id, yields the rows function; `Rows` holds one `RowFor` per query with exactly one relevant id, in order |
| RagAccuracy.RunRagEvaluation | RAG_Accuracy/app.py:262-599 | the two CSV error messages; a store failure exactly when the collection was not created or adding raised; an evaluation exactly when the CSV has a query column, the store was created and adding did not raise, and then one row per sorted query to evaluate, each scoring its top search result, and the three averages are the means of the columns, in [0, 1] |

## Left out

- The WhatsApp webhook, the Flask app and sending messages: transport, not part of the core.
- `download_audio_for_sarvam`, `configure_speech_processing` and the vendor client set-up: network and configuration.
- Vendor behaviour: OpenAI, Sarvam, Chroma, Firestore, ngrok and pandas are parameters, so what they return is not modelled.
- The sample-catalogue data used by the retrieval benchmark and its ground-truth dictionary: parameters of `RunRagEvaluation`, not literals.
- The search `limit` is passed to Chroma and enforced there. `RagAccuracy.VectorStore.Search` returns whatever the search outcome holds.
- HTML and text report formatting (`format_results`, the HTML table), `save_results`, `main`, logging, `tqdm` and `time.sleep`: output only.
- Floating point: every score is an exact real, so rounding and `:.4f` formatting are not modelled.
- Text.LowerChar and Text.Lower: lower-case ASCII letters only, not all of Unicode.
- JSON values of an unexpected type in the classifier's reply: each field is an `Option` of the expected type.
- `speaker_gender`: passed through to the vendor and never inspected.
- EcomAgent.GenerateResponse: does not model the fallback branches of `generate_response` (ecom_agent.py lines 142-168). `translate_and_speak` catches every exception, so they cannot be reached.
- The outer `except` of `process_voice_message` and `process_text_message` for exceptions other than a missing file or a failed translation: nothing else in the model raises.
- The `"error" in state` test in `generate_product_response`: no node sets an `error` key, so the test is always false and is modelled as such.
- LangGraph's `messages` channel and the classifier's system-prompt text: not read by any node.
- Python dictionaries keyed by intent or by language: the confusion matrix is a 6 by 6 sequence indexed by position in the intent list, and `by_language` is a sequence of records with distinct languages, since set iteration order is unspecified.
- The persistence directory of the test vector store and its `shutil.rmtree` clean-up: filesystem side effects.
- Import-time binding of the agent and of the catalogue's image URLs: each call takes the looked-up values as parameters.
- The `sarvam_client` copy that ecom_agent.py imports at line 10: `AgentServices.translatorAvailable` stands for whether that copy is set. The model leaves it free, so it covers both outcomes. In the app's import order the copy is taken before the client is configured and stays None. The translation branch of `process_text_message` (lines 593-600) then never runs in the deployed app.
- `src/llm/sarvam.py`, `scripts/` and `tests/` are not part of this model.
