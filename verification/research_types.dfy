/** The records exchanged between the search client, the agent, the API and the client. */
module ResearchTypes {

  /** One search hit: `{"title", "url", "snippet"}`. */
  datatype SearchHit = SearchHit(title: string, url: string, snippet: string)

  /** One analysed source in the response: the hit's fields plus its bullet summary. */
  datatype Source = Source(title: string, url: string, snippet: string, summary: seq<string>)

  /** The body of a successful `/research` response (`ResearchResponse`): exactly these four fields. */
  datatype ResearchResult = ResearchResult(
    query: string,
    searchResults: seq<SearchHit>,
    sources: seq<Source>,
    report: string)

  /**
   * What one call to the language model yields: the text of the first
   * content block, or the text of the exception it raised.
   */
  datatype LlmReply = Reply(text: string) | Failed(error: string)
}
