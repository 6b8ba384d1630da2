/**
 * The classifier-evaluation script's own copy of intent identification, the
 * normalisation of its result (every failure becomes the "error" intent), and
 * the fixed list of test cases.
 */
module IntentClassification {
  import opened Wrappers
  import opened Classifier

  /** The fields the identification node reports for a parsed payload. */
  datatype IntentFields = IntentFields(intentType: string, confidence: real, productId: string, cartAction: string,
                                       quantity: int, isProduct: bool)

  /** What the identification node returns: an error message, or the classified fields. */
  datatype NodeResult = NodeError(errorMessage: string) | Classified(fields: IntentFields)

  /**
   * identify_intent_node: an empty query is an error without a classifier call; a
   * parsed payload gets defaults for the keys it lacks; a raising call is an error.
   */
  function IdentifyIntentNode(englishQuery: string, userLanguage: string,
                              classify: (string, string) -> ClassifierReply): (r: NodeResult)
    ensures englishQuery == "" ==> r == NodeError("No query found for intent identification")
    ensures englishQuery != "" && classify(englishQuery, LangNote(userLanguage)).ClassifierRaised? ==>
      r == NodeError("Error in intent classification: " + classify(englishQuery, LangNote(userLanguage)).message)
    ensures englishQuery != "" && classify(englishQuery, LangNote(userLanguage)).IntentJson? ==>
      var j := classify(englishQuery, LangNote(userLanguage));
      && r.Classified?
      && r.fields.intentType == (if j.intentType.Some? then j.intentType.value else "")
      && r.fields.confidence == (if j.confidence.Some? then j.confidence.value else 0.0)
      && r.fields.productId == (if j.productId.Some? then j.productId.value else "")
      && r.fields.cartAction == (if j.cartAction.Some? then j.cartAction.value else "add")
      && r.fields.quantity == (if j.quantity.Some? then j.quantity.value else 1)
    ensures r.Classified? ==> (r.fields.isProduct <==> r.fields.intentType == "product_query")
  {
    if englishQuery == "" then NodeError("No query found for intent identification")
    else
      match classify(englishQuery, LangNote(userLanguage))
      case ClassifierRaised(e) => NodeError("Error in intent classification: " + e)
      case IntentJson(intentType, confidence, _, _, productId, cartAction, quantity) =>
        var intent := intentType.GetOr("");
        Classified(IntentFields(intent, confidence.GetOr(0.0), productId.GetOr(""), cartAction.GetOr("add"),
                                quantity.GetOr(1), intent == "product_query"))
  }

  /** What run_intent_classification returns: an error entry, or the node's fields unchanged. */
  datatype Classification =
    | ErrorResult(error: string)
    | IntentResult(fields: IntentFields)

  /** The intent a classification reports; every failure reports "error". */
  function ActualIntent(c: Classification): string {
    match c
    case ErrorResult(_) => "error"
    case IntentResult(f) => f.intentType
  }

  /** The confidence a classification reports; every failure reports 0.0. */
  function ReportedConfidence(c: Classification): real {
    match c
    case ErrorResult(_) => 0.0
    case IntentResult(f) => f.confidence
  }

  /** run_intent_classification: an error message becomes the "error" intent with zero confidence. */
  function RunIntentClassification(query: string, userLanguage: string,
                                   classify: (string, string) -> ClassifierReply): (r: Classification)
    ensures IdentifyIntentNode(query, userLanguage, classify).NodeError? ==>
      r == ErrorResult(IdentifyIntentNode(query, userLanguage, classify).errorMessage)
    ensures IdentifyIntentNode(query, userLanguage, classify).Classified? ==>
      r == IntentResult(IdentifyIntentNode(query, userLanguage, classify).fields)
    ensures r.ErrorResult? ==> ActualIntent(r) == "error" && ReportedConfidence(r) == 0.0
  {
    var result := IdentifyIntentNode(query, userLanguage, classify);
    match result
    case NodeError(message) => ErrorResult(message)
    case Classified(fields) => IntentResult(fields)
  }

  /** An empty query is always classified as "error", whatever the classifier would say. */
  lemma EmptyQueryIsError(userLanguage: string, classify: (string, string) -> ClassifierReply)
    ensures ActualIntent(RunIntentClassification("", userLanguage, classify)) == "error"
    ensures ReportedConfidence(RunIntentClassification("", userLanguage, classify)) == 0.0
  {
  }

  // ---------------------------------------------------------------------------
  // generate_test_cases
  // ---------------------------------------------------------------------------

  /** One test case; `language` is absent for the English cases. */
  datatype TestCase = TestCase(query: string, expectedIntent: string, language: Option<string>)

  /** One regional case before it is copied into the list. */
  datatype RegionalCase = RegionalCase(query: string, expectedIntent: string, language: string)

  /** A group of English cases that share one expected intent. */
  function Group(queries: seq<string>, intent: string): (cases: seq<TestCase>)
    ensures |cases| == |queries|
    ensures forall k :: 0 <= k < |queries| ==> cases[k] == TestCase(queries[k], intent, None)
  {
    seq(|queries|, k requires 0 <= k < |queries| => TestCase(queries[k], intent, None))
  }

  /** Product queries. */
  const ProductQueries: seq<string> := [
    "I want to buy a new phone",
    "Show me red sarees",
    "What are the best laptops under 50000 rupees?",
    "Do you have Nike shoes?",
    "I'm looking for kitchen appliances",
    "Show me Banarasi silk sarees",
    "Search for Patanjali products",
    "I need a washing machine with dryer",
    "Are OnePlus mobiles available?",
    "Show me cotton kurtas for men",
    "Find me good quality spices",
    "Do you sell Ayurvedic medicines?",
    "Looking for gold jewelry",
    "I need a good pressure cooker",
    "Show me Diwali gift hampers"
  ]

  /** Cart update queries. */
  const CartUpdateQueries: seq<string> := [
    "Add this product to my cart",
    "Remove the blue shirt from my cart",
    "I want to buy 3 of these",
    "Please add 2 more of this item",
    "Delete all items from my cart",
    "Increase the quantity of rice to 5kg",
    "Remove Himalaya face wash from cart",
    "I'd like to add this dupatta to my cart",
    "Add a dozen bananas to my order",
    "Put this masala in my basket",
    "I don't want the Haldiram's snacks anymore",
    "Change quantity of dal to 2kg"
  ]

  /** Summarize cart queries. */
  const SummarizeCartQueries: seq<string> := [
    "What's in my cart?",
    "Show me my shopping cart",
    "Can you tell me what I've added so far?",
    "List all items in my cart",
    "What is my cart total?",
    "How many items are in my basket?",
    "Show me the contents of my cart",
    "What am I buying today?",
    "Review my shopping list",
    "What's the total cost of my items?"
  ]

  /** Payment queries. */
  const PaymentQueries: seq<string> := [
    "I want to checkout",
    "Process my payment",
    "Pay with cash on delivery",
    "Can I pay using UPI?",
    "Complete my order",
    "Proceed to payment",
    "I want to pay through PhonePe",
    "Do you accept RuPay cards?",
    "Is Bharat QR payment available?",
    "I'd like to use my SBI debit card",
    "Does COD have extra charges?",
    "I want to use EMI option"
  ]

  /** General info queries. */
  const GeneralInfoQueries: seq<string> := [
    "What is your return policy?",
    "How long does shipping take?",
    "Do you deliver to Chennai?",
    "Is COD available?",
    "How to contact customer service?",
    "What are your store timings?",
    "Do you have any Diwali offers?",
    "How do I track my order?",
    "What is the warranty period for electronics?",
    "Do you have any offline stores in Mumbai?",
    "Is there a minimum order value for free shipping?",
    "How can I return a damaged product?",
    "Do you ship internationally?",
    "What's your GST number?",
    "Are you open during lockdown?"
  ]

  /** Edge cases and ambiguous queries. */
  const EdgeCases: seq<TestCase> := [
    TestCase("I like this", "product_query", None),
    TestCase("Can you help me?", "general_info", None),
    TestCase("Yes", "general_info", None),
    TestCase("No", "general_info", None),
    TestCase("Maybe", "general_info", None),
    TestCase("", "error", None)
  ]

  /** The English cases, group by group. */
  const BaseCases: seq<TestCase> :=
    Group(ProductQueries, "product_query") + Group(CartUpdateQueries, "cart_update")
    + Group(SummarizeCartQueries, "summarize_cart") + Group(PaymentQueries, "initiate_payment")
    + Group(GeneralInfoQueries, "general_info") + EdgeCases

  const RegionalCases: seq<RegionalCase> := [
    RegionalCase("मुझे एक नया फोन चाहिए", "product_query", "hi-IN"),
    RegionalCase("मेरे कार्ट में क्या है?", "summarize_cart", "hi-IN"),
    RegionalCase("इसे मेरे कार्ट में डालें", "cart_update", "hi-IN"),
    RegionalCase("ऑर्डर पूरा करें", "initiate_payment", "hi-IN"),
    RegionalCase("என் கார்ட்டில் என்ன இருக்கிறது?", "summarize_cart", "ta-IN"),
    RegionalCase("புதிய மொபைல் போன் வாங்க விரும்புகிறேன்", "product_query", "ta-IN"),
    RegionalCase("ఈ ఉత్పత్తిని నా కార్ట్‌కి జోడించండి", "cart_update", "te-IN"),
    RegionalCase("തിരിച്ചയയ്ക്കൽ നയം എന്താണ്?", "general_info", "ml-IN"),
    RegionalCase("আমি একটি নতুন মোবাইল কিনতে চাই", "product_query", "bn-IN"),
    RegionalCase("আমার কার্টে কী কী আছে?", "summarize_cart", "bn-IN")
  ]

  /** generate_test_cases: the English cases, then each regional case copied in with its language. */
  method GenerateTestCases() returns (cases: seq<TestCase>)
    ensures |cases| == |BaseCases| + |RegionalCases|
    ensures cases[..|BaseCases|] == BaseCases
    ensures forall k :: 0 <= k < |RegionalCases| ==>
      cases[|BaseCases| + k] == TestCase(RegionalCases[k].query, RegionalCases[k].expectedIntent, Some(RegionalCases[k].language))
  {
    cases := BaseCases;
    var i := 0;
    while i < |RegionalCases|
      invariant 0 <= i <= |RegionalCases|
      invariant |cases| == |BaseCases| + i
      invariant cases[..|BaseCases|] == BaseCases
      invariant forall k :: 0 <= k < i ==>
        cases[|BaseCases| + k] == TestCase(RegionalCases[k].query, RegionalCases[k].expectedIntent, Some(RegionalCases[k].language))
    {
      var c := RegionalCases[i];
      cases := cases + [TestCase(c.query, c.expectedIntent, Some(c.language))];
      i := i + 1;
    }
  }

  /** The six intents the evaluation reports on. */
  const IntentTypes: seq<string> := ["product_query", "cart_update", "summarize_cart", "initiate_payment", "general_info", "error"]

  /** Every English case expects one of the six intents, and expects "error" only for an empty query. */
  predicate EnglishCasesWellFormed(cases: seq<TestCase>) {
    forall k :: 0 <= k < |cases| ==>
      && cases[k].expectedIntent in IntentTypes
      && cases[k].language.None?
      && (cases[k].expectedIntent == "error" ==> cases[k].query == "")
  }

  /** Every regional case expects one of the five routed intents, in a language other than English. */
  predicate RegionalCasesWellFormed(cases: seq<RegionalCase>) {
    |cases| == 0 ||
    (&& cases[0].expectedIntent in IntentTypes
     && cases[0].expectedIntent != "error"
     && cases[0].language !in {"en-IN", "en"}
     && RegionalCasesWellFormed(cases[1..]))
  }

  lemma {:induction false} RegionalCasesEach(cases: seq<RegionalCase>, k: nat)
    requires RegionalCasesWellFormed(cases) && k < |cases|
    ensures cases[k].expectedIntent in IntentTypes && cases[k].expectedIntent != "error"
    ensures cases[k].language !in {"en-IN", "en"}
  {
    if k > 0 {
      RegionalCasesEach(cases[1..], k - 1);
    }
  }

  lemma EdgeCasesChecked()
    ensures EdgeCases[|EdgeCases| - 1] == TestCase("", "error", None)
    ensures EnglishCasesWellFormed(EdgeCases)
  {
    forall k | 0 <= k < |EdgeCases|
      ensures EdgeCases[k].expectedIntent in IntentTypes && EdgeCases[k].language.None?
      ensures EdgeCases[k].expectedIntent == "error" ==> EdgeCases[k].query == ""
    {
      assert k in {0, 1, 2, 3, 4, 5};
    }
  }

  lemma GroupWellFormed(queries: seq<string>, intent: string)
    requires intent in IntentTypes && intent != "error"
    ensures EnglishCasesWellFormed(Group(queries, intent))
  {
  }

  lemma EnglishCasesAppend(a: seq<TestCase>, b: seq<TestCase>)
    requires EnglishCasesWellFormed(a) && EnglishCasesWellFormed(b)
    ensures EnglishCasesWellFormed(a + b)
  {
    forall k | 0 <= k < |a + b|
      ensures (a + b)[k] == if k < |a| then a[k] else b[k - |a|]
    {
    }
  }

  lemma BaseCasesChecked()
    ensures |BaseCases| == 70
    ensures BaseCases[69] == TestCase("", "error", None)
    ensures EnglishCasesWellFormed(BaseCases)
  {
    var g1 := Group(ProductQueries, "product_query");
    var g2 := Group(CartUpdateQueries, "cart_update");
    var g3 := Group(SummarizeCartQueries, "summarize_cart");
    var g4 := Group(PaymentQueries, "initiate_payment");
    var g5 := Group(GeneralInfoQueries, "general_info");
    GroupWellFormed(ProductQueries, "product_query");
    GroupWellFormed(CartUpdateQueries, "cart_update");
    GroupWellFormed(SummarizeCartQueries, "summarize_cart");
    GroupWellFormed(PaymentQueries, "initiate_payment");
    GroupWellFormed(GeneralInfoQueries, "general_info");
    EdgeCasesChecked();
    EnglishCasesAppend(g1, g2);
    EnglishCasesAppend(g1 + g2, g3);
    EnglishCasesAppend(g1 + g2 + g3, g4);
    EnglishCasesAppend(g1 + g2 + g3 + g4, g5);
    EnglishCasesAppend(g1 + g2 + g3 + g4 + g5, EdgeCases);
    assert |g1 + g2 + g3 + g4 + g5| == 64;
  }

  lemma RegionalCasesChecked()
    ensures RegionalCasesWellFormed(RegionalCases)
  {
  }

  /**
   * The list holds 70 English and 10 regional cases, ending with the empty query;
   * every expected intent is one of the six, only an empty query expects "error",
   * and every regional case is in a language other than English.
   */
  lemma TestCaseShape()
    ensures |BaseCases| == 70 && |RegionalCases| == 10
    ensures BaseCases[69] == TestCase("", "error", None)
    ensures EnglishCasesWellFormed(BaseCases)
    ensures forall k :: 0 <= k < |RegionalCases| ==>
      RegionalCases[k].expectedIntent in IntentTypes && RegionalCases[k].expectedIntent != "error"
    ensures forall k :: 0 <= k < |RegionalCases| ==> RegionalCases[k].language !in {"en-IN", "en"}
  {
    BaseCasesChecked();
    RegionalCasesChecked();
    forall k | 0 <= k < |RegionalCases|
      ensures RegionalCases[k].expectedIntent in IntentTypes && RegionalCases[k].expectedIntent != "error"
      ensures RegionalCases[k].language !in {"en-IN", "en"}
    {
      RegionalCasesEach(RegionalCases, k);
    }
  }
}
