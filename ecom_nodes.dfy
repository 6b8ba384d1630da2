/**
 * The nodes of the shopping agent's pipeline and the pure helpers they call:
 * intent identification with its defaults, the intent router, the embedding and
 * product-search stubs, the reply builders and the handlers.
 *
 * The agent's state is the `AgentState` record. Each node reads the state and
 * returns the updated state, which the graph runner passes to the next node.
 */
module EcomAgent {
  import opened Wrappers
  import opened Text
  import opened Classifier
  import opened SpeechProcessor

  // ---------------------------------------------------------------------------
  // State
  // ---------------------------------------------------------------------------

  /** A product record found by the search stub; `discount` and `sales` are optional keys. */
  datatype AgentProduct = AgentProduct(id: string, name: string, description: string, price: string,
                                       discount: Option<string>, sales: Option<string>, imageUrl: string)

  /** A reply to the user: text only, or text with a voice file path and an image URL. */
  datatype Reply = TextOnly(text: string) | Full(text: string, voicePath: Option<string>, imageUrl: Option<string>)

  /** The agent state; `None` fields are keys the run has not set. */
  datatype AgentState = AgentState(
    userLanguage: string,
    englishQuery: string,
    intentType: string,
    confidence: real,
    searchTerms: string,
    orderId: string,
    productId: string,
    cartAction: string,
    quantity: int,
    queryEmbedding: Option<string>,
    product: Option<AgentProduct>,
    llmResponse: Option<string>,
    response: Option<Reply>)

  /** The external services the nodes call. */
  datatype AgentServices = AgentServices(
    classify: (string, string) -> ClassifierReply,  // (english query, language note)
    cartChat: string -> Option<string>,             // the cart assistant's answer to the query; None when the call raises
    speech: SpeechService,
    translatorAvailable: bool)                      // whether the translation client is configured

  // ---------------------------------------------------------------------------
  // identify_intent and get_intent_type
  // ---------------------------------------------------------------------------

  /**
   * identify_intent: an empty query is routed to general information without a
   * classifier call; a parsed payload fills the intent fields, with defaults for
   * the keys it lacks; a raising call falls back to a product search on the query.
   */
  function IdentifyIntent(s: AgentState, services: AgentServices): (r: AgentState)
    ensures s.englishQuery == "" ==> r == s.(intentType := "general_info", confidence := 0.0)
    ensures s.englishQuery != "" && services.classify(s.englishQuery, LangNote(s.userLanguage)).ClassifierRaised? ==>
      r == s.(intentType := "product_query", searchTerms := s.englishQuery, confidence := 0.5)
    ensures s.englishQuery != "" && services.classify(s.englishQuery, LangNote(s.userLanguage)).IntentJson? ==>
      var j := services.classify(s.englishQuery, LangNote(s.userLanguage));
      && r.intentType == (if j.intentType.Some? then j.intentType.value else "product_query")
      && r.confidence == (if j.confidence.Some? then j.confidence.value else 0.0)
      && r.searchTerms == (if j.searchTerms.Some? then j.searchTerms.value else "")
      && r.orderId == (if j.orderId.Some? then j.orderId.value else "")
      && r.productId == (if j.productId.Some? then j.productId.value else "")
      && r.cartAction == (if j.cartAction.Some? then j.cartAction.value else "add")
      && r.quantity == (if j.quantity.Some? then j.quantity.value else 1)
    ensures r.englishQuery == s.englishQuery && r.userLanguage == s.userLanguage
    ensures r.queryEmbedding == s.queryEmbedding && r.product == s.product
    ensures r.llmResponse == s.llmResponse && r.response == s.response
  {
    if s.englishQuery == "" then
      s.(intentType := "general_info", confidence := 0.0)
    else
      match services.classify(s.englishQuery, LangNote(s.userLanguage))
      case ClassifierRaised(_) =>
        s.(intentType := "product_query", searchTerms := s.englishQuery, confidence := 0.5)
      case IntentJson(intentType, confidence, searchTerms, orderId, productId, cartAction, quantity) =>
        s.(intentType := intentType.GetOr("product_query"),
           confidence := confidence.GetOr(0.0),
           searchTerms := searchTerms.GetOr(""),
           orderId := orderId.GetOr(""),
           productId := productId.GetOr(""),
           cartAction := cartAction.GetOr("add"),
           quantity := quantity.GetOr(1))
  }

  /** The five intents the router knows. */
  const ValidIntents: set<string> := {"product_query", "cart_update", "summarize_cart", "initiate_payment", "general_info"}

  /** get_intent_type: a known intent is kept, anything else falls back to general information. */
  function GetIntentType(intentType: string): (r: string)
    ensures r in ValidIntents
    ensures intentType in ValidIntents ==> r == intentType
    ensures intentType !in ValidIntents ==> r == "general_info"
  {
    if intentType in ValidIntents then intentType else "general_info"
  }

  /** Routing an already routed intent changes nothing. */
  lemma GetIntentTypeIdempotent(intentType: string)
    ensures GetIntentType(GetIntentType(intentType)) == GetIntentType(intentType)
  {
  }

  // ---------------------------------------------------------------------------
  // text_to_embedding, query_vector_db and the two search nodes
  // ---------------------------------------------------------------------------

  /** The result of text_to_embedding: an error message, or the embedding. */
  datatype EmbeddingResult = EmbeddingError(message: string) | Embedded(embedding: string)

  const EmbeddingMissing: string := "English query not found for embedding."

  /** text_to_embedding: the stub uses the query text itself as its embedding. */
  function TextToEmbedding(englishQuery: string): (r: EmbeddingResult)
    ensures r.EmbeddingError? <==> englishQuery == ""
    ensures r.EmbeddingError? ==> r.message == EmbeddingMissing
    ensures r.Embedded? ==> r.embedding == englishQuery
  {
    if englishQuery == "" then EmbeddingError(EmbeddingMissing)
    else Embedded(englishQuery)
  }

  /** The result of query_vector_db: an error message, or the matching product. */
  datatype SearchResult = SearchError(message: string) | Found(product: AgentProduct)

  const ShirtDescription: string :=
    "A comfortable and stylish t-shirt made with 100% Indian cotton. Perfect for casual wear."

  function ShirtProduct(price: string): AgentProduct {
    AgentProduct("prod1", "Premium Cotton Red T-Shirt", ShirtDescription,
                 price, Some("₹2,000"), Some("1,20,000+ sold"), "http://example.com/tshirt.jpg")
  }

  const PantsProduct: AgentProduct :=
    AgentProduct("prod2", "Premium Slim-Fit Cotton Pants",
                 "Comfortable slim-fit pants made with breathable cotton. Perfect for formal and casual occasions.",
                 "₹1,999", Some("Original: ₹2,499"), Some("95,000+ sold"), "http://example.com/pants.jpg")

  const GiftCardProduct: AgentProduct :=
    AgentProduct("prod3", "IndicCommerce Gift Card", "Gift card valid across 10,000+ stores in India.",
                 "₹1,000", None, None, "http://example.com/giftcard.jpg")

  /** Whether the lower-cased query asks for a shirt. */
  predicate WantsShirt(terms: string) {
    Contains(terms, "shirt") || Contains(terms, "t-shirt")
  }

  /** Whether the lower-cased query asks for trousers. */
  predicate WantsPants(terms: string) {
    Contains(terms, "pant") || Contains(terms, "pants") || Contains(terms, "jeans") || Contains(terms, "trouser")
  }

  const QueryEmbeddingMissing: string := "Query embedding not found for DB query."

  /**
   * query_vector_db: a falsy embedding is an error; otherwise the lower-cased
   * query picks the shirt (cheaper "under thousand"), then the pants, then the gift card.
   */
  function QueryVectorDb(queryEmbedding: Option<string>, englishQuery: string): (r: SearchResult)
    ensures r.SearchError? <==> queryEmbedding.None? || queryEmbedding.value == ""
    ensures r.SearchError? ==> r.message == QueryEmbeddingMissing
    ensures r.Found? && WantsShirt(Lower(englishQuery)) ==>
      r.product == ShirtProduct(if Contains(Lower(englishQuery), "under thousand") then "₹999" else "₹1,499")
    ensures r.Found? && !WantsShirt(Lower(englishQuery)) && WantsPants(Lower(englishQuery)) ==> r.product == PantsProduct
    ensures r.Found? && !WantsShirt(Lower(englishQuery)) && !WantsPants(Lower(englishQuery)) ==> r.product == GiftCardProduct
  {
    if queryEmbedding.None? || queryEmbedding.value == "" then
      SearchError(QueryEmbeddingMissing)
    else
      var terms := Lower(englishQuery);
      if WantsShirt(terms) then
        Found(ShirtProduct(if Contains(terms, "under thousand") then "₹999" else "₹1,499"))
      else if WantsPants(terms) then Found(PantsProduct)
      else Found(GiftCardProduct)
  }

  /** The "t-shirt" and "pants" alternatives never decide anything: "shirt" and "pant" already match them. */
  lemma RedundantKeywords(terms: string)
    ensures WantsShirt(terms) <==> Contains(terms, "shirt")
    ensures WantsPants(terms) <==> Contains(terms, "pant") || Contains(terms, "jeans") || Contains(terms, "trouser")
  {
    assert OccursAt("t-shirt", "shirt", 2);
    assert OccursAt("pants", "pant", 0);
    if Contains(terms, "t-shirt") {
      ContainsTransitive(terms, "t-shirt", "shirt");
    }
    if Contains(terms, "pants") {
      ContainsTransitive(terms, "pants", "pant");
    }
  }

  /** generate_embedding: stores the embedding of the search terms, or leaves the state as it is. */
  function GenerateEmbedding(s: AgentState): (r: AgentState)
    ensures s.searchTerms == "" ==> r == s
    ensures s.searchTerms != "" ==> r == s.(queryEmbedding := Some(s.searchTerms))
  {
    match TextToEmbedding(s.searchTerms)
    case Embedded(e) => s.(queryEmbedding := Some(e))
    case EmbeddingError(_) => s
  }

  /** search_products: stores the product found for the search terms, or leaves the state as it is. */
  function SearchProducts(s: AgentState): (r: AgentState)
    ensures QueryVectorDb(s.queryEmbedding, s.searchTerms).SearchError? ==> r == s
    ensures QueryVectorDb(s.queryEmbedding, s.searchTerms).Found? ==>
      r == s.(product := Some(QueryVectorDb(s.queryEmbedding, s.searchTerms).product))
  {
    match QueryVectorDb(s.queryEmbedding, s.searchTerms)
    case Found(p) => s.(product := Some(p))
    case SearchError(_) => s
  }

  // ---------------------------------------------------------------------------
  // Reply builders
  // ---------------------------------------------------------------------------

  const NoMatchText: string :=
    "I'm sorry, but I couldn't find any products matching your request. Could you please try describing what you're looking for differently?"

  /** The product reply: name, price and description, then the optional sales and discount notes. */
  function ProductText(p: AgentProduct): (r: string)
    ensures p.sales.None? && p.discount.None? ==> r == "I found a " + p.name + " for " + p.price + ". " + p.description + " "
  {
    var head := "I found a " + p.name + " for " + p.price + ". " + p.description + " ";
    var salesNote := if p.sales.Some? then "Over " + p.sales.value + " " else "";
    var discountNote := if p.discount.Some? then "(Regular price: " + p.discount.value + ") " else "";
    assert salesNote == "" && discountNote == "" ==> head + salesNote + discountNote == head;
    head + salesNote + discountNote
  }

  /**
   * The product reply in each of its other three shapes: the sales note follows
   * the description exactly when there are sales, and the regular price closes
   * the reply exactly when there is a discount.
   */
  lemma ProductTextShapes(p: AgentProduct)
    ensures p.sales.Some? && p.discount.None? ==>
      ProductText(p) == "I found a " + p.name + " for " + p.price + ". " + p.description + " " + "Over " + p.sales.value + " "
    ensures p.sales.None? && p.discount.Some? ==>
      ProductText(p) == "I found a " + p.name + " for " + p.price + ". " + p.description + " "
                        + "(Regular price: " + p.discount.value + ") "
    ensures p.sales.Some? && p.discount.Some? ==>
      ProductText(p) == "I found a " + p.name + " for " + p.price + ". " + p.description + " " + "Over " + p.sales.value + " "
                        + "(Regular price: " + p.discount.value + ") "
  {
    var head := "I found a " + p.name + " for " + p.price + ". " + p.description + " ";
    var salesNote := if p.sales.Some? then "Over " + p.sales.value + " " else "";
    var discountNote := if p.discount.Some? then "(Regular price: " + p.discount.value + ") " else "";
    assert ProductText(p) == head + salesNote + discountNote;
    assert salesNote == "" ==> head + salesNote == head;
    assert discountNote == "" ==> head + salesNote + discountNote == head + salesNote;
  }

  /**
   * The product reply opens with the name, price and description, carries the
   * sales note when there is one, and closes with the regular price when there
   * is a discount.
   */
  lemma ProductTextLayout(p: AgentProduct)
    ensures StartsWith(ProductText(p), "I found a " + p.name + " for " + p.price + ". " + p.description + " ")
    ensures p.sales.Some? ==> Contains(ProductText(p), "Over " + p.sales.value + " ")
    ensures p.discount.Some? ==> EndsWith(ProductText(p), "(Regular price: " + p.discount.value + ") ")
  {
    var head := "I found a " + p.name + " for " + p.price + ". " + p.description + " ";
    var salesNote := if p.sales.Some? then "Over " + p.sales.value + " " else "";
    var discountNote := if p.discount.Some? then "(Regular price: " + p.discount.value + ") " else "";
    var r := ProductText(p);
    assert r == head + salesNote + discountNote;
    ContainsMiddle(head, salesNote, discountNote);
    assert r[..|head|] == head;
    assert r[|r| - |discountNote|..] == discountNote;
  }

  /** generate_product_response: the reply is text only, the no-match sentence when no product was found. */
  function GenerateProductResponse(s: AgentState): (r: AgentState)
    ensures s.product.None? ==> r == s.(response := Some(TextOnly(NoMatchText)))
    ensures s.product.Some? ==> r == s.(response := Some(TextOnly(ProductText(s.product.value))))
  {
    var text := if s.product.None? then NoMatchText else ProductText(s.product.value);
    s.(response := Some(TextOnly(text)))
  }

  /** The value of generate_response: an error when there is no text to send, else the reply. */
  datatype GenerateResult = NoLlmResponse | Responded(reply: Reply)

  /**
   * generate_response: the English text is translated into the user's language
   * (Hindi when none is given) and spoken; the product's image rides along.
   */
  function GenerateResponse(llmResponse: Option<string>, userLanguage: Option<string>,
                            product: Option<AgentProduct>, speech: SpeechService): (r: GenerateResult)
    ensures r.NoLlmResponse? <==> llmResponse.None? || llmResponse.value == ""
    ensures r.Responded? ==>
      var target := if userLanguage.Some? && userLanguage.value != "" then userLanguage.value else "hi-IN";
      && r.reply.Full?
      && (r.reply.text, r.reply.voicePath) == TranslateAndSpeak(llmResponse.value, "en-IN", target, speech)
      && r.reply.imageUrl == (if product.Some? then Some(product.value.imageUrl) else None)
  {
    if llmResponse.None? || llmResponse.value == "" then NoLlmResponse
    else
      var target := if userLanguage.Some? && userLanguage.value != "" then userLanguage.value else "hi-IN";
      var (text, voicePath) := TranslateAndSpeak(llmResponse.value, "en-IN", target, speech);
      Responded(Full(text, voicePath, if product.Some? then Some(product.value.imageUrl) else None))
  }

  /** When translation raises, the reply carries the English text and no voice. */
  lemma UntranslatedReplyIsSilent(llm: string, userLanguage: Option<string>, product: Option<AgentProduct>,
                                  speech: SpeechService)
    requires llm != ""
    requires speech.translate(llm, "en-IN", if userLanguage.Some? && userLanguage.value != "" then userLanguage.value else "hi-IN").TranslationRaised?
    ensures GenerateResponse(Some(llm), userLanguage, product, speech).reply.text == llm
    ensures GenerateResponse(Some(llm), userLanguage, product, speech).reply.voicePath.None?
  {
  }

  // ---------------------------------------------------------------------------
  // Handlers
  // ---------------------------------------------------------------------------

  const ErrorApology: string :=
    "Sorry, I encountered an error while processing your request. Please try again later."
  const UnknownError: string := "An unknown error occurred."

  /** The state keys handle_error returns. */
  datatype ErrorUpdate = ErrorUpdate(llmResponse: string, errorMessage: string)

  /** handle_error: a fixed apology, keeping the error (or a generic one) for the log. */
  function HandleError(error: Option<string>): (r: ErrorUpdate)
    ensures r.llmResponse == ErrorApology
    ensures error.Some? ==> r.errorMessage == error.value
    ensures error.None? ==> r.errorMessage == UnknownError
  {
    ErrorUpdate(ErrorApology,
                error.GetOr(UnknownError))
  }

  const CartApology: string :=
    "I'm having trouble updating your shopping cart. Please try again or visit our website to complete your purchase."

  /**
   * handle_cart_update: the assistant's answer is stored, but building the reply
   * reads a language variable the handler never binds, so the reply is always
   * the apology.
   */
  function HandleCartUpdate(s: AgentState, services: AgentServices): (r: AgentState)
    ensures r.response == Some(TextOnly(CartApology))
    ensures services.cartChat(s.englishQuery).Some? ==> r.llmResponse == services.cartChat(s.englishQuery)
    ensures services.cartChat(s.englishQuery).None? ==> r.llmResponse == s.llmResponse
    ensures r == s.(llmResponse := r.llmResponse, response := r.response)
  {
    match services.cartChat(s.englishQuery)
    case Some(text) => s.(llmResponse := Some(text), response := Some(TextOnly(CartApology)))
    case None => s.(response := Some(TextOnly(CartApology)))
  }

  const GeneralInfoOpening: string := "I understand you're asking about: '"
  const GeneralInfoHindi: string := "\n\nकृपया मुझे और जानकारी दें ताकि मैं आपकी मदद कर सकूं।"
  const GeneralInfoTamil: string := "\n\nதயவுசெய்து எனக்கு மேலும் தகவல் கொடுங்கள், அதனால் நான் உங்களுக்கு உதவ முடியும்."
  const GeneralInfoTelugu: string := "\n\nదయచేసి నాకు మరింత సమాచారం ఇవ్వండి, తద్వారా నేను మీకు సహాయం చేయగలను."

  /** The guidance text for a general question, with a request for details in Hindi, Tamil or Telugu. */
  function GeneralInfoText(englishQuery: string, userLanguage: string): (r: string)
    ensures StartsWith(r, GeneralInfoOpening + englishQuery + "'")
    ensures userLanguage == "hi-IN" ==> r == GeneralInfoOpening + englishQuery + "'" + GeneralInfoHindi
    ensures userLanguage == "ta-IN" ==> r == GeneralInfoOpening + englishQuery + "'" + GeneralInfoTamil
    ensures userLanguage == "te-IN" ==> r == GeneralInfoOpening + englishQuery + "'" + GeneralInfoTelugu
    ensures userLanguage !in {"hi-IN", "ta-IN", "te-IN"} ==> r == GeneralInfoOpening + englishQuery + "'"
  {
    var head := GeneralInfoOpening + englishQuery + "'";
    var r := if userLanguage == "hi-IN" then head + GeneralInfoHindi
             else if userLanguage == "ta-IN" then head + GeneralInfoTamil
             else if userLanguage == "te-IN" then head + GeneralInfoTelugu
             else head;
    assert r[..|head|] == head;
    r
  }

  /** handle_general_info: the guidance text, translated and spoken in the user's language. */
  function HandleGeneralInfo(s: AgentState, services: AgentServices): (r: AgentState)
    ensures r.llmResponse == Some(GeneralInfoText(s.englishQuery, s.userLanguage))
    ensures r.response.Some? && r.response.value.Full? && r.response.value.imageUrl.None?
    ensures r.response == Some(GenerateResponse(r.llmResponse, Some(s.userLanguage), None, services.speech).reply)
    ensures r == s.(llmResponse := r.llmResponse, response := r.response)
  {
    var text := GeneralInfoText(s.englishQuery, s.userLanguage);
    var result := GenerateResponse(Some(text), Some(s.userLanguage), None, services.speech);
    s.(llmResponse := Some(text), response := Some(if result.Responded? then result.reply else TextOnly(text)))
  }
}
