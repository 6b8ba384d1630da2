/**
 * The intent classifier's boundary, shared by the agent and the classifier
 * evaluation: the prompt's language note and the shape of the JSON payload the
 * language model answers with.
 */
module Classifier {
  import opened Wrappers

  /**
   * What one classification call yields: it raises (with the exception's text),
   * or its content parses to a JSON object; each field is `None` when the object
   * lacks that key.
   */
  datatype ClassifierReply =
    | ClassifierRaised(message: string)
    | IntentJson(intentType: Option<string>, confidence: Option<real>, searchTerms: Option<string>,
                 orderId: Option<string>, productId: Option<string>, cartAction: Option<string>,
                 quantity: Option<int>)

  /** The note appended to the query in the prompt: empty for English, the language code otherwise. */
  function LangNote(userLanguage: string): (r: string)
    ensures r == "" <==> userLanguage == "en-IN" || userLanguage == "en"
    ensures r != "" ==> r == "The original query was in " + userLanguage
  {
    if userLanguage != "en-IN" && userLanguage != "en" then "The original query was in " + userLanguage else ""
  }
}
