/** The keyword tests shared by the analyzer's scanners: `any(w in text
    for w in words)` and the three-level rule that ranks a text "high",
    "low" or "medium" by two word lists. */
module KeywordRules {
  import opened Text

  /** `any(w in text for w in words)` */
  predicate AnyIn(text: string, words: seq<string>)
  {
    exists w :: w in words && Contains(text, w)
  }

  /** The rule of the pitfall severity and of the gap impact: "high" when a
      word of `high` occurs, else "low" when a word of `low` occurs, else
      "medium". The three outcomes cover every text and exclude each other. */
  function Level(text: string, high: seq<string>, low: seq<string>): (r: string)
    ensures r in {"high", "low", "medium"}
    ensures r == "high" <==> AnyIn(text, high)
    ensures r == "low" <==> !AnyIn(text, high) && AnyIn(text, low)
    ensures r == "medium" <==> !AnyIn(text, high) && !AnyIn(text, low)
  {
    if AnyIn(text, high) then "high" else if AnyIn(text, low) then "low" else "medium"
  }

  /** A word that contains a word of `high` makes the text rank "high". */
  lemma ContainedWordRanksHigh(text: string, w: string, h: string, high: seq<string>, low: seq<string>)
    requires Contains(text, w) && h in high && Contains(w, h)
    ensures Level(text, high, low) == "high"
  {
    ContainsTransitive(text, w, h);
  }
}
