/** `MockSerpAPIClient`: the search client the agent imports, a canned list cut to size. */
module SerpMock {
  import opened Text
  import opened ResearchTypes

  /** The five canned hits; titles and snippets quote the query, URLs are fixed. */
  function MockResults(query: string): (hits: seq<SearchHit>)
    ensures |hits| == 5
  {
    [ SearchHit("Article about " + query + " - Wikipedia",
                "https://en.wikipedia.org/wiki/Artificial_intelligence",
                "Comprehensive information about " + query + " including history, applications, and future developments."),
      SearchHit(query + ": Complete Guide (2024)",
                "https://www.ibm.com/topics/artificial-intelligence",
                "Learn everything about " + query + " with our detailed guide covering fundamentals and advanced concepts."),
      SearchHit("Latest Research on " + query,
                "https://arxiv.org/list/cs.AI/recent",
                "Recent scientific papers and research findings about " + query + " from leading institutions."),
      SearchHit(query + " Applications and Use Cases",
                "https://www.mckinsey.com/capabilities/quantumblack/our-insights",
                "Real-world applications of " + query + " in business, healthcare, and technology sectors."),
      SearchHit("Future of " + query + " - Expert Analysis",
                "https://www.wired.com/tag/artificial-intelligence/",
                "Expert perspectives on the future trends and developments in " + query + " technology.") ]
  }

  /** `search(query, max_results)`: the canned list sliced to `max_results`. */
  function Search(query: string, maxResults: int := 5): (hits: seq<SearchHit>)
    ensures hits <= MockResults(query)
    ensures 0 <= maxResults ==> |hits| == if maxResults < 5 then maxResults else 5
    ensures maxResults < 0 ==> |hits| == if maxResults < -5 then 0 else 5 + maxResults
  {
    SliceTo(MockResults(query), maxResults)
  }

  /** The order and the URLs of the hits do not depend on the query. */
  lemma UrlsIgnoreQuery(q1: string, q2: string, maxResults: int)
    ensures |Search(q1, maxResults)| == |Search(q2, maxResults)|
    ensures forall i :: 0 <= i < |Search(q1, maxResults)| ==>
              Search(q1, maxResults)[i].url == Search(q2, maxResults)[i].url
  {
    var a, b := MockResults(q1), MockResults(q2);
    assert forall i :: 0 <= i < 5 ==> a[i].url == b[i].url;
  }

  /** Every canned title and snippet contains the query text. */
  lemma CannedHitsQuoteQuery(query: string)
    ensures forall i :: 0 <= i < 5 ==>
              Contains(MockResults(query)[i].title, query) && Contains(MockResults(query)[i].snippet, query)
  {
    ContainsMiddle("Article about ", query, " - Wikipedia");
    ContainsMiddle("Comprehensive information about ", query, " including history, applications, and future developments.");
    ContainsStart(query, ": Complete Guide (2024)");
    ContainsMiddle("Learn everything about ", query, " with our detailed guide covering fundamentals and advanced concepts.");
    ContainsEnd("Latest Research on ", query);
    ContainsMiddle("Recent scientific papers and research findings about ", query, " from leading institutions.");
    ContainsStart(query, " Applications and Use Cases");
    ContainsMiddle("Real-world applications of ", query, " in business, healthcare, and technology sectors.");
    ContainsMiddle("Future of ", query, " - Expert Analysis");
    ContainsMiddle("Expert perspectives on the future trends and developments in ", query, " technology.");
  }

  /** Every returned title and snippet contains the query text, whatever the bound. */
  lemma HitsQuoteQuery(query: string, maxResults: int)
    ensures forall h :: h in Search(query, maxResults) ==>
              Contains(h.title, query) && Contains(h.snippet, query)
  {
    CannedHitsQuoteQuery(query);
    var hits := Search(query, maxResults);
    forall h | h in hits
      ensures Contains(h.title, query) && Contains(h.snippet, query)
    {
      var i :| 0 <= i < |hits| && hits[i] == h;
      assert h == MockResults(query)[i];
    }
  }

  /** With the agent's bound of 5, mock mode always yields all five hits, so the result is never empty. */
  lemma AgentBoundYieldsAll(query: string)
    ensures Search(query, 5) == MockResults(query)
    ensures Search(query, 5) != []
  {
  }
}
