/**
 * The state of the research page (`App`): the query being typed, the loading
 * flag, the last result and the last error. `handleSubmit` is split at its
 * `await`: `Submit` runs up to the request, `Resolve` runs when the request
 * settles. The pure step functions below are the specification the methods of
 * `App` are proved against; the lemmas after them are about those functions.
 */
module Client {
  import opened Wrappers
  import opened Text
  import opened ResearchTypes

  const ResearchPath := "/api/research"
  const ResearchFailed := "Research failed"

  /** A parsed JSON body: the research result, or an error object `{detail}`. */
  datatype Json = ResearchPayload(data: ResearchResult) | DetailPayload(detail: string)

  /** `response.json()`: a parsed body, or a parse error with its message. */
  datatype Body = Parsed(json: Json) | Malformed(parseError: string)

  /** What `fetch` settles to: a rejection with a message, or a response. */
  datatype FetchOutcome = NetworkFailure(message: string) | Response(status: int, body: Body)

  /** The request `handleSubmit` sends: a POST of `{query}` as JSON. */
  datatype Request = Request(path: string, httpMethod: string, query: string)

  /** The four pieces of React state. */
  datatype UiState = UiState(query: string, loading: bool, result: Option<Json>, error: Option<string>)

  /** `response.ok`: a status in the range 200 to 299. */
  predicate IsOkStatus(status: int)
  {
    200 <= status <= 299
  }

  /** `!query.trim()`: nothing but whitespace. */
  predicate IsBlank(query: string)
  {
    Trim(query, Js) == []
  }

  /** The initial state: empty query, not loading, no result, no error. */
  const Initial := UiState("", false, None, None)

  /** The input is disabled while loading. */
  predicate InputEnabled(s: UiState)
  {
    !s.loading
  }

  /** The button is disabled while loading or when the query is blank. */
  predicate SubmitEnabled(s: UiState)
  {
    !s.loading && !IsBlank(s.query)
  }

  /** The request for a query: the trimmed query posted to the research path. */
  function RequestFor(query: string): (request: Request)
    ensures request.path == ResearchPath && request.httpMethod == "POST"
    ensures request.query == Trim(query, Js)
    ensures !IsBlank(query) ==>
              && request.query != []
              && !IsSpace(request.query[0], Js)
              && !IsSpace(request.query[|request.query| - 1], Js)
  {
    Request(ResearchPath, "POST", Trim(query, Js))
  }

  /**
   * `handleSubmit` up to the `await`: a blank query changes nothing; otherwise
   * loading starts and the previous result and error are cleared.
   */
  function Submitted(s: UiState): (t: UiState)
    ensures IsBlank(s.query) ==> t == s
    ensures !IsBlank(s.query) ==> t == UiState(s.query, true, None, None)
  {
    if IsBlank(s.query) then s else s.(loading := true, error := None, result := None)
  }

  /** What the `try` block ends with: the parsed data, or the message of what it threw. */
  datatype Settlement = Data(json: Json) | Thrown(message: string)

  /**
   * The `try` block after the request: a rejected fetch throws its own
   * message, a status outside 200-299 throws "Research failed" whatever the
   * body, and a body that does not parse throws the parser's message.
   */
  function Settle(outcome: FetchOutcome): (r: Settlement)
    ensures outcome.NetworkFailure? ==> r == Thrown(outcome.message)
    ensures outcome.Response? && !IsOkStatus(outcome.status) ==> r == Thrown(ResearchFailed)
    ensures r.Data? <==> outcome.Response? && IsOkStatus(outcome.status) && outcome.body.Parsed?
    ensures r.Data? ==> r.json == outcome.body.json
    ensures outcome.Response? && IsOkStatus(outcome.status) && outcome.body.Malformed? ==>
              r == Thrown(outcome.body.parseError)
  {
    match outcome
    case NetworkFailure(message) => Thrown(message)
    case Response(status, body) =>
      if !IsOkStatus(status) then Thrown(ResearchFailed)
      else
        match body
        case Malformed(parseError) => Thrown(parseError)
        case Parsed(json) => Data(json)
  }

  /**
   * `handleSubmit` after the `await`: `setResult` on data or `setError` on a
   * throw, and then `setLoading(false)` in `finally`. The other piece of state
   * is left as it was.
   */
  function Resolved(s: UiState, outcome: FetchOutcome): (t: UiState)
    ensures !t.loading && t.query == s.query
    ensures Settle(outcome).Data? ==> t.result == Some(Settle(outcome).json) && t.error == s.error
    ensures Settle(outcome).Thrown? ==> t.error == Some(Settle(outcome).message) && t.result == s.result
  {
    match Settle(outcome)
    case Data(json) => s.(result := Some(json), loading := false)
    case Thrown(message) => s.(error := Some(message), loading := false)
  }

  class App {
    var query: string
    var loading: bool
    var result: Option<Json>
    var error: Option<string>

    function State(): UiState
      reads this
    {
      UiState(query, loading, result, error)
    }

    /** The four `useState` calls. */
    constructor ()
      ensures State() == Initial
    {
      query, loading, result, error := "", false, None, None;
    }

    /** The input's `onChange`. */
    method SetQuery(text: string)
      modifies this
      ensures State() == old(State()).(query := text)
    {
      query := text;
    }

    /** `handleSubmit` up to the `await`: returns the request it sends, if any. */
    method Submit() returns (request: Option<Request>)
      modifies this
      ensures State() == Submitted(old(State()))
      ensures request == if IsBlank(old(query)) then None else Some(RequestFor(old(query)))
    {
      if IsBlank(query) {
        return None;
      }
      loading := true;
      error := None;
      result := None;
      request := Some(RequestFor(query));
    }

    /** `handleSubmit` after the `await`, given how the request settled. */
    method Resolve(outcome: FetchOutcome)
      modifies this
      ensures State() == Resolved(old(State()), outcome)
    {
      match outcome {
        case NetworkFailure(message) =>
          error := Some(message);
        case Response(status, body) =>
          if !IsOkStatus(status) {
            error := Some(ResearchFailed);
          } else {
            match body {
              case Malformed(parseError) =>
                error := Some(parseError);
              case Parsed(json) =>
                result := Some(json);
            }
          }
      }
      loading := false;
    }
  }

  /** Only the trimmed query reaches the request: trimming first changes nothing. */
  lemma RequestIgnoresSurroundingSpace(query: string)
    ensures RequestFor(Trim(query, Js)) == RequestFor(query)
    ensures IsBlank(Trim(query, Js)) <==> IsBlank(query)
  {
    TrimIdempotent(query, Js);
  }

  /** A failing status yields "Research failed" whatever the body says, and keeps the old result. */
  lemma FailedStatusHidesBody(s: UiState, status: int, body1: Body, body2: Body)
    requires !IsOkStatus(status)
    ensures Resolved(s, Response(status, body1)) == Resolved(s, Response(status, body2))
    ensures Resolved(s, Response(status, body1)) == s.(error := Some(ResearchFailed), loading := false)
    ensures !IsBlank(s.query) ==>
              Resolved(Submitted(s), Response(status, body1)) == UiState(s.query, false, None, Some(ResearchFailed))
  {
  }

  /** A submitted request that settles leaves exactly one of result and error set. */
  lemma SettlingSubmittedSetsOne(s: UiState, outcome: FetchOutcome)
    requires !IsBlank(s.query)
    ensures var t := Resolved(Submitted(s), outcome);
            (t.result.Some? <==> t.error.None?) && !t.loading && t.query == s.query
  {
  }

  /** `handleSubmit` itself does not look at `loading`: a second submit while loading is accepted and resends. */
  lemma SubmitWhileLoadingAccepted(s: UiState)
    requires s.loading && !IsBlank(s.query)
    ensures Submitted(s) == UiState(s.query, true, None, None)
  {
  }

  /**
   * What the user can do, and the fetches still in flight: typing, pressing
   * the button (or Enter), and a pending request settling.
   */
  datatype Event = Typed(text: string) | Pressed | Settled(outcome: FetchOutcome)

  /** The page state together with the number of requests not yet settled. */
  datatype Session = Session(ui: UiState, pending: nat)

  /** A request can only settle while one is in flight. */
  predicate Possible(session: Session, e: Event)
  {
    e.Settled? ==> session.pending > 0
  }

  /** The event as the disabled attributes let it through. */
  predicate Guarded(session: Session, e: Event)
  {
    match e
    case Typed(_) => InputEnabled(session.ui)
    case Pressed => SubmitEnabled(session.ui)
    case Settled(_) => session.pending > 0
  }

  /** The effect of one event; a press on a blank query sends nothing. */
  function Apply(session: Session, e: Event): (next: Session)
    requires Possible(session, e)
    ensures e.Pressed? && !IsBlank(session.ui.query) ==> next.pending == session.pending + 1
    ensures e.Settled? ==> next.pending == session.pending - 1
    ensures e.Typed? || (e.Pressed? && IsBlank(session.ui.query)) ==> next.pending == session.pending
  {
    match e
    case Typed(text) => Session(session.ui.(query := text), session.pending)
    case Pressed =>
      if IsBlank(session.ui.query) then session else Session(Submitted(session.ui), session.pending + 1)
    case Settled(outcome) => Session(Resolved(session.ui, outcome), session.pending - 1)
  }

  /** A sequence of events each of which can happen, optionally each also let through by the guards. */
  predicate Run(session: Session, events: seq<Event>, guarded: bool)
    decreases |events|
  {
    events == [] ||
    (Possible(session, events[0]) && (guarded ==> Guarded(session, events[0]))
     && Run(Apply(session, events[0]), events[1..], guarded))
  }

  /** The session after a run. */
  function Replay(session: Session, events: seq<Event>, guarded: bool): Session
    requires Run(session, events, guarded)
    decreases |events|
  {
    if events == [] then session else Replay(Apply(session, events[0]), events[1..], guarded)
  }

  /**
   * What the guards maintain: at most one request in flight, exactly while
   * loading; nothing shown while loading; never a result and an error at once.
   */
  predicate Consistent(session: Session)
  {
    && session.pending == (if session.ui.loading then 1 else 0)
    && (session.ui.loading ==> session.ui.result.None? && session.ui.error.None?)
    && !(session.ui.result.Some? && session.ui.error.Some?)
  }

  /** One guarded event keeps the session consistent. */
  lemma GuardedStepConsistent(session: Session, e: Event)
    requires Consistent(session) && Possible(session, e) && Guarded(session, e)
    ensures Consistent(Apply(session, e))
  {
  }

  /** The page starts consistent, and every guarded run keeps it so. */
  lemma {:induction false} GuardedRunConsistent(session: Session, events: seq<Event>)
    requires Consistent(session) && Run(session, events, true)
    ensures Consistent(Replay(session, events, true))
    decreases |events|
  {
    if events != [] {
      GuardedStepConsistent(session, events[0]);
      GuardedRunConsistent(Apply(session, events[0]), events[1..]);
    }
  }

  /** The initial page is consistent. */
  lemma InitialConsistent()
    ensures Consistent(Session(Initial, 0))
  {
  }

  /**
   * Without the guards, two overlapping requests whose first fails and whose
   * second succeeds leave no request in flight, loading off, and both a
   * result and an error on the page; the guards rule this run out.
   */
  lemma UnguardedOverlapShowsBoth(query: string, failure: string, data: ResearchResult)
    requires !IsBlank(query)
    ensures var events := [Typed(query), Pressed, Pressed, Settled(NetworkFailure(failure)),
                           Settled(Response(200, Parsed(ResearchPayload(data))))];
            && Run(Session(Initial, 0), events, false)
            && !Run(Session(Initial, 0), events, true)
            && Replay(Session(Initial, 0), events, false)
                 == Session(UiState(query, false, Some(ResearchPayload(data)), Some(failure)), 0)
  {
    var events := [Typed(query), Pressed, Pressed, Settled(NetworkFailure(failure)),
                   Settled(Response(200, Parsed(ResearchPayload(data))))];
    var s0 := Session(Initial, 0);
    var s1 := Apply(s0, events[0]);
    var s2 := Apply(s1, events[1]);
    var s3 := Apply(s2, events[2]);
    var s4 := Apply(s3, events[3]);
    var s5 := Apply(s4, events[4]);
    assert s5 == Session(UiState(query, false, Some(ResearchPayload(data)), Some(failure)), 0);
    assert Run(s5, events[5..], false) && Replay(s5, events[5..], false) == s5;
    assert events[4..][1..] == events[5..];
    assert events[3..][1..] == events[4..];
    assert events[2..][1..] == events[3..];
    assert events[1..][1..] == events[2..];
    assert Run(s4, events[4..], false) && Replay(s4, events[4..], false) == s5;
    assert Run(s3, events[3..], false) && Replay(s3, events[3..], false) == s5;
    assert Run(s2, events[2..], false) && Replay(s2, events[2..], false) == s5;
    assert Run(s1, events[1..], false) && Replay(s1, events[1..], false) == s5;
    assert !Guarded(s2, events[2]);
    assert !Run(s2, events[2..], true);
  }
}
