/** The prompt template that puts product context and the conversation history in front of the user's query. */
module ShoppingAssistant {
  import opened Text

  /** One stored exchange of the history: who spoke, and what was said. */
  datatype Exchange = Exchange(role: string, content: string)

  /** The fixed opening of the prompt around the JSON product details. */
  function Header(products: string): (r: string)
    ensures StartsWith(r, "\n        Here are the details of the relevant products in json format:\n        ")
    ensures EndsWith(r, "\n\n        Conversation History:\n\n    ")
  {
    "\n        Here are the details of the relevant products in json format:\n        " + products
      + "\n\n        Conversation History:\n\n    "
  }

  /** The line written for one exchange. */
  function Line(e: Exchange): string {
    e.role + ": " + e.content + "\n"
  }

  /** The history block: one line per exchange, oldest first. */
  function HistoryLines(history: seq<Exchange>): string {
    if |history| == 0 then "" else HistoryLines(history[..|history| - 1]) + Line(history[|history| - 1])
  }

  /** The closing line carrying the current query. */
  function QueryLine(query: string): string {
    "user: " + query + "\n"
  }

  /** get_prompt: builds the prompt by appending one line per exchange, then the query line. */
  method GetPrompt(history: seq<Exchange>, products: string, query: string) returns (prompt: string)
    ensures prompt == Header(products) + HistoryLines(history) + QueryLine(query)
  {
    prompt := Header(products);
    var i := 0;
    while i < |history|
      invariant 0 <= i <= |history|
      invariant prompt == Header(products) + HistoryLines(history[..i])
    {
      assert history[..i + 1][..i] == history[..i];
      prompt := prompt + Line(history[i]);
      i := i + 1;
    }
    assert history[..i] == history;
    prompt := prompt + QueryLine(query);
  }

  /** The history block of a concatenated history is the concatenation of the blocks. */
  lemma {:induction false} HistoryLinesAppend(a: seq<Exchange>, b: seq<Exchange>)
    ensures HistoryLines(a + b) == HistoryLines(a) + HistoryLines(b)
    decreases |b|
  {
    if |b| == 0 {
      assert a + b == a;
    } else {
      var b', last := b[..|b| - 1], b[|b| - 1];
      assert (a + b)[..|a + b| - 1] == a + b';
      assert (a + b)[|a + b| - 1] == last;
      assert HistoryLines(a + b) == HistoryLines(a + b') + Line(last);
      HistoryLinesAppend(a, b');
      assert HistoryLines(b) == HistoryLines(b') + Line(last);
    }
  }

  /** The history block splits around any one exchange. */
  lemma {:induction false} HistoryLinesSplit(history: seq<Exchange>, k: nat)
    requires k < |history|
    ensures HistoryLines(history) == HistoryLines(history[..k]) + Line(history[k]) + HistoryLines(history[k + 1..])
  {
    HistoryLinesAppend(history[..k], history[k..]);
    assert history[..k] + history[k..] == history;
    HistoryLinesAppend([history[k]], history[k + 1..]);
    assert [history[k]] + history[k + 1..] == history[k..];
    assert [history[k]][..0] == [];
  }

  /** Every exchange contributes its own line to the prompt. */
  lemma {:induction false} ExchangeLineInPrompt(history: seq<Exchange>, k: nat, products: string, query: string)
    requires k < |history|
    ensures Contains(Header(products) + HistoryLines(history) + QueryLine(query), Line(history[k]))
  {
    HistoryLinesSplit(history, k);
    var before := Header(products) + HistoryLines(history[..k]);
    var after := HistoryLines(history[k + 1..]) + QueryLine(query);
    assert Header(products) + HistoryLines(history) + QueryLine(query) == before + Line(history[k]) + after;
    ContainsMiddle(before, Line(history[k]), after);
  }

  /** The prompt starts with the header (so with the products) and ends with the query line. */
  lemma PromptFraming(history: seq<Exchange>, products: string, query: string)
    ensures StartsWith(Header(products) + HistoryLines(history) + QueryLine(query), Header(products))
    ensures EndsWith(Header(products) + HistoryLines(history) + QueryLine(query), QueryLine(query))
  {
    var h := Header(products);
    var q := QueryLine(query);
    var whole := h + HistoryLines(history) + q;
    assert whole[..|h|] == h;
    assert whole[|whole| - |q|..] == q;
  }

  /** With no history the prompt is just the header and the query line. */
  lemma EmptyHistoryPrompt(products: string, query: string)
    ensures Header(products) + HistoryLines([]) + QueryLine(query) == Header(products) + QueryLine(query)
  {
  }
}
