/**
 * How the layers meet: a response of the API as the client's `fetch` sees it,
 * and what the page ends up showing for it.
 */
module Interplay {
  import opened Wrappers
  import opened Text
  import opened ResearchTypes
  import opened Agent
  import opened Server
  import opened Client
  import opened Presenter

  /** FastAPI's rendering of a response: a 200 with the result, or the status with `{detail}`. */
  function Deliver(response: HttpResponse): (outcome: FetchOutcome)
    ensures outcome.Response? && outcome.body.Parsed?
    ensures response.Ok? ==> outcome.status == 200
    ensures response.Ok? ==> outcome.body.json == ResearchPayload(response.body)
    ensures response.HttpError? ==>
              outcome.status == response.status && outcome.body.json == DetailPayload(response.detail)
  {
    match response
    case Ok(body) => Response(200, Parsed(ResearchPayload(body)))
    case HttpError(status, detail) => Response(status, Parsed(DetailPayload(detail)))
  }

  /** The page after a submitted query reaches the route and its response comes back. */
  function RoundTrip(s: UiState, agent: string -> AgentOutcome): UiState
  {
    Resolved(Submitted(s), Deliver(ResearchRoute(RequestFor(s.query).query, agent)))
  }

  /**
   * Every error of the route reaches the page as "Research failed": the
   * route's detail, including the agent's exception message, is never shown.
   */
  lemma RouteErrorsShowFixedMessage(s: UiState, status: int, detail: string)
    requires status == 400 || status == 500
    ensures Resolved(s, Deliver(HttpError(status, detail))).error == Some(ResearchFailed)
    ensures Resolved(s, Deliver(HttpError(status, detail))).result == s.result
  {
  }

  /** A result returned by the agent is shown as the page's result, with no error. */
  lemma ReturnedResultShown(s: UiState, agent: string -> AgentOutcome)
    requires !IsBlank(s.query)
    requires |Trim(Trim(s.query, Js), Py)| >= MinQueryLength
    requires agent(Trim(Trim(s.query, Js), Py)).Returned?
    ensures RoundTrip(s, agent)
              == UiState(s.query, false, Some(ResearchPayload(agent(Trim(Trim(s.query, Js), Py)).result)), None)
  {
  }

  /**
   * A query that is not blank to the client but shorter than three characters
   * once the server strips it passes the button's check, is rejected by the
   * route whatever the agent, and shows "Research failed".
   */
  lemma ShortQueryFailsAfterClientAccepts(s: UiState, agent: string -> AgentOutcome)
    requires SubmitEnabled(s)
    requires |Trim(Trim(s.query, Js), Py)| < MinQueryLength
    ensures RoundTrip(s, agent) == UiState(s.query, false, None, Some(ResearchFailed))
  {
  }

  /** Such queries exist: `"ab"` is not blank for the client and too short for the route. */
  lemma TwoLetterQueryIsSuch()
    ensures SubmitEnabled(UiState("ab", false, None, None))
    ensures |Trim(Trim("ab", Js), Py)| < MinQueryLength
  {
    assert LeadingSpaces("ab", Js) == 0;
    assert Trim("ab", Js) != [];
  }

  /**
   * The failure bullet the agent writes for a failed summary is shown
   * without its dash and the space after it.
   */
  lemma ErrorBulletShownWithoutMarker(error: string)
    ensures CleanBullet(ErrorBullet(error)) == ErrorBullet(error)[2..]
    ensures CleanBullet(ErrorBullet(error)) == "Error summarizing content: " + SliceTo(error, MaxErrorChars)
  {
    var tail := "Error summarizing content: " + SliceTo(error, MaxErrorChars);
    assert ErrorBullet(error) == "- " + tail;
    assert !IsSpace(tail[0], Js);
    CleanMarker(tail);
  }
}
