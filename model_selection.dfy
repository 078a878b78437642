/**
 * The model and tool selector: a first-match-wins table over the lower-cased
 * user message with four outcomes.
 */
module ModelSelection {
  import opened Text

  datatype GenerationConfig = NoConfig | ThinkingBudget(tokens: int)

  datatype Tool = GoogleSearch

  datatype Selection = Selection(model: string, config: GenerationConfig, tools: seq<Tool>)

  const CreativeKeywords: seq<string> :=
    ["imagine", "what if", "write a", "create a", "poem", "story", "code", "script",
     "plan", "analyze", "explain in detail", "philosophy"]

  const SearchKeywords: seq<string> :=
    ["who is", "what is", "latest", "news", "current", "how to", "what happened", "in 202"]

  /** The four outcomes. */
  const Deep := Selection("gemini-2.5-pro", ThinkingBudget(32768), [])
  const Grounded := Selection("gemini-2.5-flash", NoConfig, [GoogleSearch])
  const Quick := Selection("gemini-flash-lite-latest", NoConfig, [])
  const Balanced := Selection("gemini-2.5-flash", NoConfig, [])

  /** `query.split(' ').length`. */
  function Pieces(query: string): nat {
    |Split(query, ' ')|
  }

  /** The conditions of the first two rules, written over the raw query. */
  predicate IsCreative(query: string) {
    ContainsAny(Lower(query), CreativeKeywords)
  }

  predicate WantsSearch(query: string) {
    ContainsAny(Lower(query), SearchKeywords) || ('?' in query && CountChar(query, ' ') + 1 > 4)
  }

  /** `selectModelForQuery`. */
  function SelectModelForQuery(query: string): (r: Selection)
    // rule 1 wins whatever the length, a '?' or a search keyword
    ensures r == Deep <==> IsCreative(query)
    // rule 2: the only outcome with a tool, taken iff rule 1 does not apply and rule 2 does
    ensures r.tools != [] <==> !IsCreative(query) && WantsSearch(query)
    ensures r.tools != [] ==> r == Grounded
    // rule 3: fewer than five space-separated pieces
    ensures r == Quick <==> !IsCreative(query) && !WantsSearch(query) && CountChar(query, ' ') < 4
    // the fall-back leaves no '?' and at least five pieces
    ensures r == Balanced ==> '?' !in query && CountChar(query, ' ') >= 4
    ensures r == Balanced <==> !IsCreative(query) && !WantsSearch(query) && CountChar(query, ' ') >= 4
    ensures r == Deep || r == Grounded || r == Quick || r == Balanced
  {
    var lowerQuery := Lower(query);
    LowerKeepsChar(query, '?');
    ContainsChar(lowerQuery, '?');
    if ContainsAny(lowerQuery, CreativeKeywords) then
      Deep
    else if ContainsAny(lowerQuery, SearchKeywords) || (Contains(lowerQuery, "?") && Pieces(query) > 4) then
      Grounded
    else if Pieces(query) < 5 then
      Quick
    else
      Balanced
  }

  /** Only the case of the letters is looked at: a query and its lower-cased form get the same answer. */
  lemma CaseInsensitive(query: string)
    ensures SelectModelForQuery(Lower(query)) == SelectModelForQuery(query)
  {
    LowerIdempotent(query);
    LowerKeepsCount(query, ' ');
    LowerKeepsChar(query, '?');
  }
}
