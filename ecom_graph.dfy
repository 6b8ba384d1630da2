/**
 * The agent's graph: intent identification at the entry, a conditional edge on
 * the routed intent, the three-node product-search chain, and one handler for
 * every other intent, each followed by the end of the run.
 */
module EcomGraph {
  import opened Wrappers
  import opened EcomAgent

  datatype Node =
    | IdentifyIntentNode
    | GenerateEmbeddingNode
    | SearchProductsNode
    | GenerateProductResponseNode
    | HandleCartUpdateNode
    | HandleSummarizeCartNode
    | HandleInitiatePaymentNode
    | HandleGeneralInfoNode

  /** Where an edge leads: another node, or the end of the run. */
  datatype Target = To(node: Node) | End

  /** The conditional edges out of intent identification, keyed by the routed intent. */
  function RouteIntent(intentType: string): (n: Node)
    ensures GetIntentType(intentType) == "product_query" <==> n == GenerateEmbeddingNode
    ensures GetIntentType(intentType) == "cart_update" <==> n == HandleCartUpdateNode
    ensures GetIntentType(intentType) == "summarize_cart" <==> n == HandleSummarizeCartNode
    ensures GetIntentType(intentType) == "initiate_payment" <==> n == HandleInitiatePaymentNode
    ensures GetIntentType(intentType) == "general_info" <==> n == HandleGeneralInfoNode
  {
    var intent := GetIntentType(intentType);
    if intent == "product_query" then GenerateEmbeddingNode
    else if intent == "cart_update" then HandleCartUpdateNode
    else if intent == "summarize_cart" then HandleSummarizeCartNode
    else if intent == "initiate_payment" then HandleInitiatePaymentNode
    else HandleGeneralInfoNode
  }

  /** The graph's edges as declared, independent of any state. */
  function Successors(n: Node): set<Node> {
    match n
    case IdentifyIntentNode =>
      {GenerateEmbeddingNode, HandleCartUpdateNode, HandleSummarizeCartNode, HandleInitiatePaymentNode, HandleGeneralInfoNode}
    case GenerateEmbeddingNode => {SearchProductsNode}
    case SearchProductsNode => {GenerateProductResponseNode}
    case _ => {}
  }

  /** The distance of a node from the end; every edge lowers it. */
  function Rank(n: Node): nat {
    match n
    case IdentifyIntentNode => 3
    case GenerateEmbeddingNode => 2
    case SearchProductsNode => 1
    case _ => 0
  }

  /** The edge taken out of `n` once it has produced state `s`. */
  function Next(n: Node, s: AgentState): (t: Target)
    ensures t.To? ==> t.node in Successors(n) && Rank(t.node) < Rank(n)
    ensures t.End? <==> Successors(n) == {}
  {
    match n
    case IdentifyIntentNode => To(RouteIntent(s.intentType))
    case GenerateEmbeddingNode => To(SearchProductsNode)
    case SearchProductsNode => To(GenerateProductResponseNode)
    case _ => End
  }

  /** What a node does to the state; the cart-summary and payment handlers leave it as it is. */
  function Step(n: Node, s: AgentState, services: AgentServices): (r: AgentState)
    ensures n == HandleSummarizeCartNode || n == HandleInitiatePaymentNode ==> r == s
    ensures n == IdentifyIntentNode ==> r == IdentifyIntent(s, services)
    ensures n == GenerateEmbeddingNode ==> r == GenerateEmbedding(s)
    ensures n == SearchProductsNode ==> r == SearchProducts(s)
    ensures n == GenerateProductResponseNode ==> r == GenerateProductResponse(s)
    ensures n == HandleCartUpdateNode ==> r == HandleCartUpdate(s, services)
    ensures n == HandleGeneralInfoNode ==> r == HandleGeneralInfo(s, services)
  {
    match n
    case IdentifyIntentNode => IdentifyIntent(s, services)
    case GenerateEmbeddingNode => GenerateEmbedding(s)
    case SearchProductsNode => SearchProducts(s)
    case GenerateProductResponseNode => GenerateProductResponse(s)
    case HandleCartUpdateNode => HandleCartUpdate(s, services)
    case HandleSummarizeCartNode => s
    case HandleInitiatePaymentNode => s
    case HandleGeneralInfoNode => HandleGeneralInfo(s, services)
  }

  /**
   * Runs the graph from node `n`: the final state and the nodes visited. The
   * visited nodes follow declared edges, never repeat, and end at a node with
   * no outgoing edge.
   */
  function Run(n: Node, s: AgentState, services: AgentServices): (r: (AgentState, seq<Node>))
    ensures 1 <= |r.1| <= Rank(n) + 1 && r.1[0] == n
    ensures forall i :: 0 <= i < |r.1| - 1 ==> r.1[i + 1] in Successors(r.1[i])
    ensures forall i, j :: 0 <= i < j < |r.1| ==> Rank(r.1[j]) < Rank(r.1[i])
    ensures Successors(r.1[|r.1| - 1]) == {}
    decreases Rank(n)
  {
    var s' := Step(n, s, services);
    match Next(n, s')
    case End => (s', [n])
    case To(m) =>
      var (final, path) := Run(m, s', services);
      (final, [n] + path)
  }

  // ---------------------------------------------------------------------------
  // invoke
  // ---------------------------------------------------------------------------

  /** The state keys a caller may set when invoking the agent. */
  datatype Key = EnglishQueryKey | UserLanguageKey | IntentTypeKey

  /** One entry of the caller's initial state. */
  datatype Setting = Setting(key: Key, value: string)

  /** The value the last setting of `key` gives, or `default` when none sets it. */
  function LastValue(settings: seq<Setting>, key: Key, default: string): (v: string)
    ensures (forall k :: 0 <= k < |settings| ==> settings[k].key != key) ==> v == default
  {
    if |settings| == 0 then default
    else if settings[|settings| - 1].key == key then settings[|settings| - 1].value
    else LastValue(settings[..|settings| - 1], key, default)
  }

  /** A setting that no later setting of the same key follows decides that key. */
  lemma {:induction false} LastSettingWins(settings: seq<Setting>, key: Key, default: string, k: nat)
    requires k < |settings| && settings[k].key == key
    requires forall j :: k < j < |settings| ==> settings[j].key != key
    ensures LastValue(settings, key, default) == settings[k].value
  {
    if k < |settings| - 1 {
      var prefix := settings[..|settings| - 1];
      assert forall j :: k < j < |prefix| ==> prefix[j].key != key;
      LastSettingWins(prefix, key, default, k);
    }
  }

  /** invoke's defaults, before the caller's entries are copied in. */
  const Defaults: AgentState :=
    AgentState("en-IN", "", "", 0.0, "", "", "", "", 0, None, None, None, None)

  /** The state invoke starts the graph with: the defaults, each key overridden by its last setting. */
  function InitialState(settings: seq<Setting>): (s: AgentState)
    ensures s == Defaults.(englishQuery := s.englishQuery, userLanguage := s.userLanguage, intentType := s.intentType)
    ensures (forall k :: 0 <= k < |settings| ==> settings[k].key != UserLanguageKey) ==> s.userLanguage == "en-IN"
  {
    Defaults.(englishQuery := LastValue(settings, EnglishQueryKey, ""),
              userLanguage := LastValue(settings, UserLanguageKey, "en-IN"),
              intentType := LastValue(settings, IntentTypeKey, ""))
  }

  /** Writes one entry into the state. */
  function Apply(s: AgentState, setting: Setting): AgentState {
    match setting.key
    case EnglishQueryKey => s.(englishQuery := setting.value)
    case UserLanguageKey => s.(userLanguage := setting.value)
    case IntentTypeKey => s.(intentType := setting.value)
  }

  /** invoke's copy loop: starts from the defaults and writes the caller's entries in order. */
  method Seed(settings: seq<Setting>) returns (s: AgentState)
    ensures s == InitialState(settings)
  {
    s := Defaults;
    var i := 0;
    while i < |settings|
      invariant 0 <= i <= |settings|
      invariant s == InitialState(settings[..i])
    {
      assert settings[..i + 1][..i] == settings[..i];
      s := Apply(s, settings[i]);
      i := i + 1;
    }
    assert settings[..i] == settings;
  }

  /** invoke: runs the graph from intent identification on the seeded state. */
  function Invoke(settings: seq<Setting>, services: AgentServices): (r: (AgentState, seq<Node>))
    ensures 1 <= |r.1| <= 4 && r.1[0] == IdentifyIntentNode
  {
    Run(IdentifyIntentNode, InitialState(settings), services)
  }

  // ---------------------------------------------------------------------------
  // The routes
  // ---------------------------------------------------------------------------

  /** One step of a run that continues: the node's step, then the run from the next node. */
  lemma RunThrough(n: Node, s: AgentState, services: AgentServices, m: Node, s': AgentState)
    requires s' == Step(n, s, services) && Next(n, s') == To(m)
    ensures Run(n, s, services).0 == Run(m, s', services).0
    ensures Run(n, s, services).1 == [n] + Run(m, s', services).1
  {
  }

  /** The last step of a run: the node's step, and the run ends there. */
  lemma RunEnds(n: Node, s: AgentState, services: AgentServices)
    requires Successors(n) == {}
    ensures Run(n, s, services).0 == Step(n, s, services)
    ensures Run(n, s, services).1 == [n]
  {
  }

  /** A product query runs the three-node search chain and ends with the product reply. */
  lemma ProductQueryRoute(s: AgentState, services: AgentServices)
    requires GetIntentType(IdentifyIntent(s, services).intentType) == "product_query"
    ensures Run(IdentifyIntentNode, s, services).1 ==
      [IdentifyIntentNode, GenerateEmbeddingNode, SearchProductsNode, GenerateProductResponseNode]
    ensures Run(IdentifyIntentNode, s, services).0 ==
      GenerateProductResponse(SearchProducts(GenerateEmbedding(IdentifyIntent(s, services))))
  {
    var s1 := IdentifyIntent(s, services);
    ProductChain(s1, services);
    IdentifyThen(s, services, GenerateEmbeddingNode);
  }

  /** A run from intent identification: the classification, then the run from the routed node. */
  lemma IdentifyThen(s: AgentState, services: AgentServices, m: Node)
    requires RouteIntent(IdentifyIntent(s, services).intentType) == m
    ensures Run(IdentifyIntentNode, s, services).0 == Run(m, IdentifyIntent(s, services), services).0
    ensures Run(IdentifyIntentNode, s, services).1 == [IdentifyIntentNode] + Run(m, IdentifyIntent(s, services), services).1
  {
    RunThrough(IdentifyIntentNode, s, services, m, IdentifyIntent(s, services));
  }

  /** From the embedding node the run is the three-node search chain. */
  lemma ProductChain(s1: AgentState, services: AgentServices)
    ensures Run(GenerateEmbeddingNode, s1, services).0 == GenerateProductResponse(SearchProducts(GenerateEmbedding(s1)))
    ensures Run(GenerateEmbeddingNode, s1, services).1 == [GenerateEmbeddingNode, SearchProductsNode, GenerateProductResponseNode]
  {
    var s2 := GenerateEmbedding(s1);
    SearchChain(s2, services);
    RunThrough(GenerateEmbeddingNode, s1, services, SearchProductsNode, s2);
  }

  /** From the search node the run is the search followed by the product reply. */
  lemma SearchChain(s2: AgentState, services: AgentServices)
    ensures Run(SearchProductsNode, s2, services).0 == GenerateProductResponse(SearchProducts(s2))
    ensures Run(SearchProductsNode, s2, services).1 == [SearchProductsNode, GenerateProductResponseNode]
  {
    var s3 := SearchProducts(s2);
    assert Step(SearchProductsNode, s2, services) == s3;
    RunEnds(GenerateProductResponseNode, s3, services);
    RunThrough(SearchProductsNode, s2, services, GenerateProductResponseNode, s3);
  }

  /** Every other intent runs exactly one handler, chosen by the routed intent. */
  lemma HandlerRoute(s: AgentState, services: AgentServices)
    requires GetIntentType(IdentifyIntent(s, services).intentType) != "product_query"
    ensures var h := RouteIntent(IdentifyIntent(s, services).intentType);
      && Run(IdentifyIntentNode, s, services).1 == [IdentifyIntentNode, h]
      && Run(IdentifyIntentNode, s, services).0 == Step(h, IdentifyIntent(s, services), services)
  {
    var s1 := IdentifyIntent(s, services);
    assert Step(IdentifyIntentNode, s, services) == s1;
    var h := RouteIntent(s1.intentType);
    RunEnds(h, s1, services);
    RunThrough(IdentifyIntentNode, s, services, h, s1);
  }

  /** An empty query is not an error: it is answered as a general question. */
  lemma EmptyQueryIsGeneralInfo(s: AgentState, services: AgentServices)
    requires s.englishQuery == ""
    ensures Run(IdentifyIntentNode, s, services).1 == [IdentifyIntentNode, HandleGeneralInfoNode]
    ensures Run(IdentifyIntentNode, s, services).0.intentType == "general_info"
    ensures Run(IdentifyIntentNode, s, services).0.confidence == 0.0
    ensures Run(IdentifyIntentNode, s, services).0.llmResponse == Some(GeneralInfoText("", s.userLanguage))
  {
    HandlerRoute(s, services);
  }

  /** Without search terms no embedding is made, so the product search ends in the no-match reply. */
  lemma EmptySearchTermsNoMatch(s: AgentState, services: AgentServices)
    requires GetIntentType(IdentifyIntent(s, services).intentType) == "product_query"
    requires IdentifyIntent(s, services).searchTerms == ""
    requires s.queryEmbedding.None? && s.product.None?
    ensures Run(IdentifyIntentNode, s, services).0.response == Some(TextOnly(NoMatchText))
    ensures Run(IdentifyIntentNode, s, services).0.product.None?
  {
    ProductQueryRoute(s, services);
  }

  /** A cart update always ends in the cart apology. */
  lemma CartUpdateApologises(s: AgentState, services: AgentServices)
    requires GetIntentType(IdentifyIntent(s, services).intentType) == "cart_update"
    ensures Run(IdentifyIntentNode, s, services).0.response == Some(TextOnly(CartApology))
  {
    HandlerRoute(s, services);
  }

  /** The cart-summary and payment routes set no reply of their own. */
  lemma NoOpRoutesSetNoReply(s: AgentState, services: AgentServices)
    requires GetIntentType(IdentifyIntent(s, services).intentType) in {"summarize_cart", "initiate_payment"}
    ensures Run(IdentifyIntentNode, s, services).0 == IdentifyIntent(s, services)
    ensures Run(IdentifyIntentNode, s, services).0.response == s.response
  {
    HandlerRoute(s, services);
  }

  /** A run that finds a product always answers with a text-only product reply. */
  lemma ProductImpliesTextReply(s: AgentState, services: AgentServices)
    requires s.product.None? && s.response.None?
    requires Run(IdentifyIntentNode, s, services).0.product.Some?
    ensures Run(IdentifyIntentNode, s, services).0.response ==
      Some(TextOnly(ProductText(Run(IdentifyIntentNode, s, services).0.product.value)))
  {
    if GetIntentType(IdentifyIntent(s, services).intentType) == "product_query" {
      ProductQueryRoute(s, services);
    } else {
      HandlerRoute(s, services);
    }
  }
}
