/**
 * The HTTP routes of the API (`main.py`): `/research` validates the query,
 * hands the stripped query to the agent and maps an exception to status 500;
 * `/cache/clear` empties the agent's cache. The agent call in `/research` is
 * an oracle from the query it receives to its outcome.
 */
module Server {
  import opened Wrappers
  import opened Text
  import opened ResearchTypes
  import opened SummaryCache
  import opened Agent

  const MinQueryLength := 3
  const TooShortDetail := "Query must be at least 3 characters"
  const FailurePrefix := "Research failed: "

  /** What `agent.research(q)` does: return a result or raise an exception with a message. */
  datatype AgentOutcome = Returned(result: ResearchResult) | Raised(message: string)

  /** A response of the API: 200 with a `ResearchResponse` body, or an `HTTPException`. */
  datatype HttpResponse = Ok(body: ResearchResult) | HttpError(status: int, detail: string)

  /** The body of `/cache/clear`. */
  datatype StatusMessage = StatusMessage(status: string, message: string)

  /**
   * The guard of `/research`: `not request.query or len(request.query.strip()) < 3`
   * rejects; otherwise the stripped query goes on. The empty-string test is
   * subsumed by the length test.
   */
  function AcceptedQuery(query: string): (stripped: Option<string>)
    ensures stripped.None? <==> |Trim(query, Py)| < MinQueryLength
    ensures stripped.Some? ==>
              && stripped.value == Trim(query, Py)
              && |stripped.value| >= MinQueryLength
              && !IsSpace(stripped.value[0], Py)
              && !IsSpace(stripped.value[|stripped.value| - 1], Py)
  {
    if query == "" || |Trim(query, Py)| < MinQueryLength then None else Some(Trim(query, Py))
  }

  /** `POST /research`, with `agent` standing for `agent.research`. */
  function ResearchRoute(query: string, agent: string -> AgentOutcome): (response: HttpResponse)
    ensures |Trim(query, Py)| < MinQueryLength ==> response == HttpError(400, TooShortDetail)
    ensures |Trim(query, Py)| >= MinQueryLength ==>
              match agent(Trim(query, Py))
              case Returned(result) => response == Ok(result)
              case Raised(message) => response == HttpError(500, FailurePrefix + message)
    ensures response.HttpError? ==> response.status == 400 || response.status == 500
  {
    match AcceptedQuery(query)
    case None => HttpError(400, TooShortDetail)
    case Some(stripped) =>
      match agent(stripped)
      case Returned(result) => Ok(result)
      case Raised(message) => HttpError(500, FailurePrefix + message)
  }

  /** A rejected query never reaches the agent: the response is the same whatever the agent would do. */
  lemma RejectionIgnoresAgent(query: string, agent1: string -> AgentOutcome, agent2: string -> AgentOutcome)
    requires |Trim(query, Py)| < MinQueryLength
    ensures ResearchRoute(query, agent1) == ResearchRoute(query, agent2) == HttpError(400, TooShortDetail)
  {
  }

  /** Only the stripped query matters: stripping it beforehand changes no response. */
  lemma RouteSeesStrippedQuery(query: string, agent: string -> AgentOutcome)
    ensures ResearchRoute(Trim(query, Py), agent) == ResearchRoute(query, agent)
  {
    TrimIdempotent(query, Py);
  }

  /** The boundary: a stripped length of three is accepted as the stripped query, two is rejected. */
  lemma ThreeCharacterBoundary(query: string)
    ensures |Trim(query, Py)| == 3 ==> AcceptedQuery(query) == Some(Trim(query, Py))
    ensures |Trim(query, Py)| == 2 ==> AcceptedQuery(query) == None
  {
  }

  /** At the boundary: `"abc"` is accepted unchanged and `" ab "` is rejected. */
  lemma ThreeCharactersAccepted()
    ensures AcceptedQuery("abc") == Some("abc")
    ensures AcceptedQuery(" ab ") == None
  {
    TrimTrimmed("abc", Py);
    var t := Trim(" ab ", Py);
    assert |t| <= 2 by {
      assert LeadingSpaces(" ab ", Py) == 1;
    }
  }

  /** `GET /cache/clear`: empties the agent's cache and reports success. */
  method ClearCache(agent: DeepResearchAgent) returns (reply: StatusMessage)
    modifies agent.cache
    ensures agent.cache.entries == map[]
    ensures reply == StatusMessage("success", "Cache cleared")
  {
    agent.cache.Clear();
    reply := StatusMessage("success", "Cache cleared");
  }
}
