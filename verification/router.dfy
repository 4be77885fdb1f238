/**
 * The HTTP layer: `build_response`, which flattens a session into the
 * response body, and the two endpoints, which turn a missing session into an
 * HTTP error.
 */
module Router {
  import opened Optional
  import opened Text
  import opened Story
  import opened Engine

  /** `GameStateResponse`: what the frontend receives after a start or a turn. */
  datatype Response = Response(
    sessionId: string,
    turnCount: nat,
    lastNarrative: string,
    imageUrl: string,
    activeActorName: string,
    currentLocation: string,
    currentQuest: string,
    inventory: seq<string>,
    history: seq<string>)

  const UnknownActor: string := "Unbekannt"
  const HistoryWindow: nat := 5

  /**
   * The name of the first active agent in roster order, or "Unbekannt". This is
   * not the agent rotated in for the turn: it ignores the turn count.
   */
  function FirstActiveName(agents: seq<Agent>): (name: string)
    ensures (forall a :: a in agents ==> !a.isActive) ==> name == UnknownActor
    ensures (exists a :: a in agents && a.isActive) ==>
      exists i :: 0 <= i < |agents| && agents[i].isActive && agents[i].name == name
              && forall j :: 0 <= j < i ==> !agents[j].isActive
  {
    if agents == [] then UnknownActor
    else if agents[0].isActive then agents[0].name
    else
      var rest := FirstActiveName(agents[1..]);
      assert forall a :: a in agents[1..] ==> a in agents;
      assert (exists a :: a in agents && a.isActive) ==> exists a :: a in agents[1..] && a.isActive;
      rest
  }

  /**
   * `build_response`: the newest prose block (or, before the first turn, the
   * plot summary) as the narrative, the first active agent's name, the state
   * fields, and the last five history entries.
   */
  function BuildResponse(g: Session): (r: Response)
    ensures r.sessionId == g.sessionId && r.turnCount == g.turnCount && r.imageUrl == g.lastImageUrl
    ensures r.currentLocation == g.state.location && r.currentQuest == g.state.currentQuest
    ensures r.inventory == g.state.inventory
    ensures g.history == [] ==> r.lastNarrative == g.plotSummary
    ensures g.history != [] ==> r.lastNarrative == g.history[|g.history| - 1]
    ensures r.activeActorName == FirstActiveName(g.agents)
    ensures |r.history| == Min(HistoryWindow, |g.history|)
    ensures r.history == g.history[|g.history| - |r.history|..]
  {
    var narrative := if g.history != [] then g.history[|g.history| - 1] else g.plotSummary;
    Response(g.sessionId, g.turnCount, narrative, g.lastImageUrl, FirstActiveName(g.agents),
             g.state.location, g.state.currentQuest, g.state.inventory, LastN(g.history, HistoryWindow))
  }

  /** What an endpoint answers: a body, an `HTTPException`, or an uncaught error (a 500). */
  datatype HttpOutcome =
    | Ok(body: Response)
    | HttpError(status: nat, detail: string)
    | ServerFault(message: string)

  const CreateFailedDetail: string := "Failed to create game"
  const NotFoundDetail: string := "Game session not found"
  const NoAgentsMessage: string := "No agents available in game session."

  /** `POST /story/start`: a session that could not be created is a 500. */
  function StartGameEndpoint(store: Store, freshId: string, scenario: string, reply: CastReply): (r: (Store, HttpOutcome))
    ensures var c := CreateGame(store, freshId, scenario, reply);
      && r.0 == c.store
      && (c.session.None? <==> r.1 == HttpError(500, CreateFailedDetail))
      && (c.session.Some? ==> r.1 == Ok(BuildResponse(c.session.value)))
  {
    var c := CreateGame(store, freshId, scenario, reply);
    match c.session
    case None => (c.store, HttpError(500, CreateFailedDetail))
    case Some(g) => (c.store, Ok(BuildResponse(g)))
  }

  /**
   * `POST /story/turn`: an unknown id is a 404; the rotation's `IndexError` on
   * an empty roster escapes the handler, which the framework answers with a 500.
   */
  function PlayTurnEndpoint(store: Store, id: string, intervention: Option<string>, o: Replies): (r: (Store, HttpOutcome))
    ensures var t := ProcessTurn(store, id, intervention, o);
      && r.0 == t.store
      && (id !in store <==> r.1 == HttpError(404, NotFoundDetail))
      && (id in store && store[id].agents == [] <==> r.1.ServerFault?)
      && (r.1.Ok? <==> id in store && store[id].agents != [])
      && (r.1.Ok? ==> r.1.body == BuildResponse(t.store[id]))
  {
    var t := ProcessTurn(store, id, intervention, o);
    match t.outcome
    case NotFound => (t.store, HttpError(404, NotFoundDetail))
    case NoAgents => (t.store, ServerFault(NoAgentsMessage))
    case Played(g, _, _, _) => (t.store, Ok(BuildResponse(g)))
  }

  /**
   * The start response of a new game: turn 0, no history, and the plot
   * summary's opening sentence as the narrative.
   */
  lemma StartShowsOpening(store: Store, freshId: string, scenario: string, reply: CastReply)
    requires CreateGame(store, freshId, scenario, reply).session.Some?
    ensures var r := StartGameEndpoint(store, freshId, scenario, reply).1;
      && r.Ok?
      && r.body.sessionId == freshId
      && r.body.turnCount == 0
      && r.body.history == []
      && r.body.lastNarrative == SummaryIntro + scenario
      && r.body.imageUrl == ""
  {
  }

  /** After a played turn, the narrative shown is that turn's prose and the newest history entry. */
  lemma TurnShowsNewProse(store: Store, id: string, intervention: Option<string>, o: Replies)
    requires id in store && store[id].agents != []
    ensures var r := PlayTurnEndpoint(store, id, intervention, o).1;
      && r.Ok?
      && r.body.lastNarrative == o.prose
      && r.body.history != [] && r.body.history[|r.body.history| - 1] == o.prose
      && r.body.turnCount == store[id].turnCount + 1
  {
    var g' := ProcessTurn(store, id, intervention, o).store[id];
    assert g'.history == store[id].history + [o.prose];
  }

  /**
   * The name shown is not the actor of the turn: with two protagonists a, b
   * (distinct names), the first turn is played by b but the response names a.
   */
  lemma ShownNameIsNotTheActor(store: Store, id: string, intervention: Option<string>, o: Replies, a: Agent, b: Agent)
    requires id in store && store[id].turnCount == 0
    requires store[id].agents == [a, b] && a.isActive && b.isActive && a.name != b.name
    ensures var t := ProcessTurn(store, id, intervention, o);
      && t.outcome.Played? && t.outcome.actor == b
      && PlayTurnEndpoint(store, id, intervention, o).1.body.activeActorName == a.name
      && a.name != t.outcome.actor.name
  {
    var e := Eligible(store[id].agents);
    assert e == [a, b] by {
      assert forall x :: x in e <==> x in [a, b];
      assert Eligible([b]) == [b];
    }
  }
}
