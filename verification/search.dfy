/** The outcome of one knowledge-base search: whether the remote call
    succeeded, the term that was searched for, and the ranked hits. */
module Searches {
  import opened Options
  import opened SearchResults

  /** The raw success code as it arrives from the decoded response: an
      integer, a string, a boolean or `nil`. */
  datatype WireValue = Nil | Int(i: int) | Str(s: string) | Bool(b: bool)

  /** Ruby's `code == 1`: only the integer one is equal to 1; the string
      "1", `true` and `nil` are not. */
  predicate IsSuccessCode(code: WireValue)
  {
    match code
    case Int(i) => i == 1
    case _ => false
  }

  /** The success code is exactly the integer one. */
  lemma SuccessCodeIsOnlyOne(code: WireValue)
    ensures IsSuccessCode(code) <==> code == Int(1)
  {
  }

  datatype Search = Search(searchTerm: string, success: bool, results: seq<SearchResult>)

  /** Builds a search: the term is kept verbatim, the success flag holds
      exactly for the code 1, and there are no results yet. */
  function NewSearch(code: WireValue, searchTerm: string): (s: Search)
    ensures s.searchTerm == searchTerm
    ensures s.success <==> code == Int(1)
    ensures s.results == []
  {
    Search(searchTerm, IsSuccessCode(code), [])
  }

  /** `was_successful?`: the flag the constructor derived from the code. */
  function WasSuccessful(s: Search): bool
  {
    s.success
  }

  /** The `results=` writer: replaces the hit list and nothing else. */
  function WithResults(s: Search, results: seq<SearchResult>): (s': Search)
    ensures s'.results == results
    ensures s'.searchTerm == s.searchTerm && s'.success == s.success
  {
    s.(results := results)
  }

  /** Ruby's `Array#count` without a block: the number of elements,
      counted one by one. */
  function Count<T>(xs: seq<T>): (n: nat)
    ensures n == |xs|
  {
    if xs == [] then 0 else 1 + Count(xs[1..])
  }

  /** `empty?`: the hit count is zero, i.e. there are no hits at all. */
  function IsEmpty(s: Search): (b: bool)
    ensures b <==> s.results == []
  {
    Count(s.results) == 0
  }

  /** `top_result`: the first hit, or `nil` when there are none. */
  function TopResult(s: Search): (r: Option<SearchResult>)
    ensures r.None? <==> |s.results| == 0
    ensures r.Some? ==> r.value == s.results[0]
  {
    First(s.results)
  }

  /** A new search is successful exactly for the code 1, whatever the term. */
  lemma NewSearchSucceedsIff(code: WireValue, searchTerm: string)
    ensures WasSuccessful(NewSearch(code, searchTerm)) <==> code == Int(1)
    ensures code == Int(0) || code == Nil || code == Int(2) || code == Str("1") || code == Bool(true)
      ==> !WasSuccessful(NewSearch(code, searchTerm))
  {
  }

  /** A new search has no hits: it is empty and has no top result. */
  lemma NewSearchIsEmpty(code: WireValue, searchTerm: string)
    ensures IsEmpty(NewSearch(code, searchTerm))
    ensures TopResult(NewSearch(code, searchTerm)) == None
  {
  }

  /** After any assignment of hits, `empty?` holds exactly for the empty
      list and `top_result` is that list's first element; the term and the
      success flag are untouched. */
  lemma AssignedResultsAreObserved(s: Search, results: seq<SearchResult>)
    ensures IsEmpty(WithResults(s, results)) <==> |results| == 0
    ensures |results| > 0 ==> TopResult(WithResults(s, results)) == Some(results[0])
    ensures WasSuccessful(WithResults(s, results)) == WasSuccessful(s)
    ensures WithResults(s, results).searchTerm == s.searchTerm
  {
  }

  /** The two queries agree: a search is empty exactly when it has no top
      result, and a top result is always one of the hits. */
  lemma EmptyIffNoTopResult(s: Search)
    ensures IsEmpty(s) <==> TopResult(s).None?
    ensures TopResult(s).Some? ==> TopResult(s).value in s.results
  {
  }
}
