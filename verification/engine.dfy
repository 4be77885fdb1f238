/**
 * `GameManager`: the session registry `GAMES`, session creation, and the
 * six-stage turn. Every language-model or image call is an oracle: its reply
 * is an input of the model, never something the model computes.
 */
module Engine {
  import opened Optional
  import opened Text
  import opened Story

  /** `GAMES`: the process-wide registry from session id to session. */
  type Store = map<string, Session>

  /** Every registered session sits under its own id and keeps its invariant. */
  predicate StoreWellFormed(store: Store)
  {
    forall id :: id in store ==> WellFormed(store[id], id)
  }

  // ---------------------------------------------------------------- state update

  /**
   * The two fields of the game master's JSON reply that the turn reads. A field
   * that is absent or null is None; the failed JSON call yields the empty
   * object, which is `EmptyDelta()`. The prompt also asks for inventory changes
   * and a success flag: the former is never read, the latter only feeds the
   * narrator's prompt.
   */
  datatype GmDelta = GmDelta(
    newLocation: Option<string>,
    questUpdate: Option<string>)

  function EmptyDelta(): GmDelta
  {
    GmDelta(None, None)
  }

  /** Python truthiness of an optional string: present and not empty. */
  predicate Truthy(v: Option<string>)
  {
    v.Some? && v.value != ""
  }

  /**
   * The state-update stage: location and quest are overwritten only by a truthy
   * field; inventory and threats are not touched.
   */
  function ApplyDelta(st: StoryState, d: GmDelta): (r: StoryState)
    ensures r.inventory == st.inventory && r.activeThreats == st.activeThreats
    ensures Truthy(d.newLocation) ==> r.location == d.newLocation.value
    ensures r.location != st.location ==> Truthy(d.newLocation)
    ensures Truthy(d.questUpdate) ==> r.currentQuest == d.questUpdate.value
    ensures r.currentQuest != st.currentQuest ==> Truthy(d.questUpdate)
  {
    var withLocation := if Truthy(d.newLocation) then st.(location := d.newLocation.value) else st;
    if Truthy(d.questUpdate) then withLocation.(currentQuest := d.questUpdate.value) else withLocation
  }

  /** A failed game-master call leaves the state as it was. */
  lemma EmptyDeltaKeepsState(st: StoryState)
    ensures ApplyDelta(st, EmptyDelta()) == st
  {
  }

  /** An empty string is falsy: it never overwrites location or quest. */
  lemma EmptyFieldsKeepState(st: StoryState)
    ensures ApplyDelta(st, GmDelta(Some(""), Some(""))) == st
  {
  }

  /** Applying the same delta twice changes nothing more. */
  lemma ApplyDeltaIdempotent(st: StoryState, d: GmDelta)
    ensures ApplyDelta(ApplyDelta(st, d), d) == ApplyDelta(st, d)
  {
  }

  // ---------------------------------------------------------------- reaction

  const PassToken: string := "PASS"

  /** `passive_agents`: the agents whose name differs from the actor's, in roster order. */
  function Passive(agents: seq<Agent>, actor: Agent): (p: seq<Agent>)
    ensures |p| <= |agents|
  {
    if agents == [] then []
    else (if agents[0].name != actor.name then [agents[0]] else []) + Passive(agents[1..], actor)
  }

  /** The passive agents are exactly the roster members not named like the actor. */
  lemma {:induction false} PassiveMembers(agents: seq<Agent>, actor: Agent)
    ensures forall a :: a in Passive(agents, actor) <==> a in agents && a.name != actor.name
    decreases |agents|
  {
    if agents != [] {
      PassiveMembers(agents[1..], actor);
      assert agents == [agents[0]] + agents[1..];
    }
  }

  /**
   * The reaction stage: the co-author's reply is kept unless nobody else is
   * present or the reply contains "PASS" anywhere.
   */
  function Reaction(agents: seq<Agent>, actor: Agent, reply: string): (r: string)
    ensures r == "" || r == reply
  {
    var passive := Passive(agents, actor);
    if passive != [] && !Contains(reply, PassToken) then reply else ""
  }

  /** A reaction is shown exactly when another agent is present and the reply is non-empty and free of "PASS". */
  lemma ReactionShown(agents: seq<Agent>, actor: Agent, reply: string)
    ensures Reaction(agents, actor, reply) != "" <==>
      (exists a :: a in agents && a.name != actor.name) && !Contains(reply, PassToken) && reply != ""
  {
    var passive := Passive(agents, actor);
    PassiveMembers(agents, actor);
    assert passive != [] ==> passive[0] in passive;
  }

  /** "PASS" is matched as a substring: a verbose reply that mentions it is dropped too. */
  lemma PassAnywhereSuppresses(agents: seq<Agent>, actor: Agent, before: string, after: string)
    ensures Reaction(agents, actor, before + PassToken + after) == ""
  {
    ContainsInfix(before, PassToken, after);
  }

  /** A reply without "PASS" is kept verbatim when another agent is present. */
  lemma ReplyKeptWithAudience(agents: seq<Agent>, actor: Agent, other: Agent, reply: string)
    requires other in agents && other.name != actor.name
    requires !Contains(reply, PassToken)
    ensures Reaction(agents, actor, reply) == reply
  {
    ReactionShown(agents, actor, reply);
  }

  // ---------------------------------------------------------------- compaction

  const SummaryEvery: nat := 3

  /** What the summarizer reads: the whole history, one block per line. */
  function CompactionInput(g: Session): string
  {
    Join("\n", g.history)
  }

  /** `_update_summary`: only the summary changes. */
  function UpdateSummary(g: Session, summarize: string -> string): (r: Session)
    ensures r.(plotSummary := g.plotSummary) == g
  {
    g.(plotSummary := summarize(CompactionInput(g)))
  }

  /** The new summary replaces the old one: the result does not depend on it. */
  lemma SummaryReplacedWholesale(g: Session, previous: string, summarize: string -> string)
    ensures UpdateSummary(g.(plotSummary := previous), summarize) == UpdateSummary(g, summarize)
  {
  }

  /** Unlike the prompt context, the summarizer sees every block of the history. */
  lemma CompactionSeesWholeHistory(g: Session)
    ensures forall i :: 0 <= i < |g.history| ==> Contains(CompactionInput(g), g.history[i])
  {
    forall i | 0 <= i < |g.history|
      ensures Contains(CompactionInput(g), g.history[i])
    {
      JoinContainsPart("\n", g.history, i);
    }
  }

  // ---------------------------------------------------------------- the turn

  /** The oracle replies one turn consumes, in stage order. */
  datatype Replies = Replies(
    action: string,                // ACT
    reactionReply: string,         // REACT, before the "PASS" rule
    delta: GmDelta,                // UPDATE STATE
    prose: string,                 // NARRATE
    imageUrl: string,              // VISUALIZE ("" when image generation fails)
    summarize: string -> string)   // COMPACT, applied to the compaction input

  datatype TurnOutcome =
    | NotFound                     // unknown session id: `None`
    | NoAgents                     // empty roster: rotate_active_actor raises IndexError
    | Played(session: Session, actor: Agent, action: string, reaction: string)

  /**
   * The six stages on the fetched session: count, pick the actor, react,
   * update the state, narrate, illustrate, and compact every third turn. On an
   * empty roster the rotation raises after the count was already advanced, so
   * the advanced session is what remains.
   */
  function TakeTurn(g: Session, o: Replies): (r: (Session, TurnOutcome))
    ensures !r.1.NotFound?
    ensures r.0.turnCount == g.turnCount + 1
    ensures r.1.NoAgents? <==> g.agents == []
    ensures r.1.NoAgents? ==> r.0 == g.(turnCount := g.turnCount + 1)
    ensures r.1.Played? ==>
      var g' := r.0;
      && r.1.session == g'
      && Some(r.1.actor) == RotateActiveActor(g.agents, g'.turnCount)
      && r.1.action == o.action
      && r.1.reaction == Reaction(g.agents, r.1.actor, o.reactionReply)
      && g'.sessionId == g.sessionId && g'.setting == g.setting
      && g'.agents == g.agents && g'.visualStyle == g.visualStyle
      && g'.state == ApplyDelta(g.state, o.delta)
      && g'.history == g.history + [o.prose]
      && g'.lastImageUrl == o.imageUrl
      && (g'.turnCount % SummaryEvery == 0 ==> g'.plotSummary == o.summarize(CompactionInput(g')))
      && (g'.turnCount % SummaryEvery != 0 ==> g'.plotSummary == g.plotSummary)
  {
    var counted := g.(turnCount := g.turnCount + 1);
    match RotateActiveActor(counted.agents, counted.turnCount)
    case None => (counted, NoAgents)
    case Some(actor) =>
      var reaction := Reaction(counted.agents, actor, o.reactionReply);
      var updated := counted.(state := ApplyDelta(counted.state, o.delta));
      var narrated := updated.(history := updated.history + [o.prose]);
      var pictured := narrated.(lastImageUrl := o.imageUrl);
      var done := if pictured.turnCount % SummaryEvery == 0 then UpdateSummary(pictured, o.summarize) else pictured;
      (done, Played(done, actor, o.action, reaction))
  }

  /** The agent who acted in a turn; None when there was no turn to play. */
  function ActorOf(t: TurnOutcome): Option<Agent>
  {
    if t.Played? then Some(t.actor) else None
  }

  /** The actor of a turn is the rotation's pick for the already incremented count. */
  lemma TurnActor(g: Session, o: Replies)
    ensures ActorOf(TakeTurn(g, o).1) == RotateActiveActor(g.agents, g.turnCount + 1)
  {
  }

  datatype Turn = Turn(store: Store, outcome: TurnOutcome)

  /**
   * `process_turn`: look the session up, run the turn on it, and leave the
   * changed session in the registry (the Python object is changed in place).
   * The intervention only feeds prompts, whose replies are the oracle values.
   */
  function ProcessTurn(store: Store, id: string, intervention: Option<string>, o: Replies): (r: Turn)
    ensures id !in store <==> r.outcome.NotFound?
    ensures id !in store ==> r.store == store
    ensures id in store ==>
      (r.store.Keys == store.Keys && (r.store[id], r.outcome) == TakeTurn(store[id], o))
    ensures forall other :: other in store && other != id ==> other in r.store && r.store[other] == store[other]
  {
    if id !in store then Turn(store, NotFound)
    else
      var t := TakeTurn(store[id], o);
      Turn(store[id := t.0], t.1)
  }

  /** A turn keeps the registry invariant, whether it plays, fails on an empty roster, or misses. */
  lemma TurnPreservesWellFormed(store: Store, id: string, intervention: Option<string>, o: Replies)
    requires StoreWellFormed(store)
    ensures StoreWellFormed(ProcessTurn(store, id, intervention, o).store)
  {
  }

  /** An unknown id leaves the registry as it was and registers nothing under that id. */
  lemma UnknownIdRegistersNothing(store: Store, id: string, intervention: Option<string>, o: Replies)
    requires id !in store
    ensures ProcessTurn(store, id, intervention, o) == Turn(store, NotFound)
  {
  }

  /**
   * Fail-soft: with every text and image call failed (empty replies, empty
   * delta), a turn on a non-empty roster still completes, with no reaction,
   * the state unchanged, an empty prose block appended and the image cleared.
   */
  lemma FailedCallsStillCompleteTurn(g: Session, summarize: string -> string)
    requires g.agents != []
    ensures var r := TakeTurn(g, Replies("", "", EmptyDelta(), "", "", summarize));
      && r.1.Played?
      && r.1.reaction == ""
      && r.0.state == g.state
      && r.0.history == g.history + [""]
      && r.0.lastImageUrl == ""
  {
  }

  /** On an empty roster the count still advances but no prose is appended. */
  lemma EmptyRosterSkipsNarration(store: Store, id: string, intervention: Option<string>, o: Replies)
    requires id in store && store[id].agents == []
    ensures var r := ProcessTurn(store, id, intervention, o);
      && r.outcome.NoAgents?
      && |r.store[id].history| == |store[id].history|
      && r.store[id].turnCount == store[id].turnCount + 1
  {
  }

  // ---------------------------------------------------------------- creation

  /**
   * The cast generator's JSON reply. `Malformed` stands for every reply whose
   * shape makes the Python code raise (not an object, `agents` not a list of
   * objects). A missing key is None.
   */
  datatype CastReply =
    | CastObject(
        agents: Option<seq<map<string, string>>>,
        visualStyle: Option<string>,
        startingLocation: Option<string>)
    | Malformed

  /** The keyword arguments `Agent(**a, is_active=...)` accepts besides `is_active`. */
  const AgentFields: set<string> := {"name", "role", "description", "personality"}
  const ProtagonistRole: string := "Protagonist"
  const DefaultStyle: string := "Cinematic"
  const DefaultStartLocation: string := "Unknown"

  /** The agent built from one valid cast entry. */
  function ToAgent(entry: map<string, string>): (a: Agent)
    requires entry.Keys == AgentFields
    ensures a.isActive <==> a.role == ProtagonistRole
  {
    Agent(entry["name"], entry["role"], entry["description"], entry["personality"],
          entry["role"] == ProtagonistRole)
  }

  /**
   * The list comprehension over `data.get("agents", [])`: one agent per entry,
   * in order; any entry with a missing or an extra key makes the constructor
   * raise, and the whole creation fails.
   */
  function ToAgents(entries: seq<map<string, string>>): (r: Option<seq<Agent>>)
    ensures r.Some? <==> forall i :: 0 <= i < |entries| ==> entries[i].Keys == AgentFields
    ensures r.Some? ==> |r.value| == |entries|
    ensures r.Some? ==> forall i :: 0 <= i < |entries| ==>
      && r.value[i].name == entries[i]["name"]
      && r.value[i].role == entries[i]["role"]
      && r.value[i].description == entries[i]["description"]
      && r.value[i].personality == entries[i]["personality"]
      && (r.value[i].isActive <==> entries[i]["role"] == ProtagonistRole)
  {
    if entries == [] then Some([])
    else if entries[0].Keys != AgentFields then None
    else
      match ToAgents(entries[1..])
      case None => None
      case Some(rest) => Some([ToAgent(entries[0])] + rest)
  }

  datatype Created = Created(store: Store, session: Option<Session>)

  /**
   * `create_game` with the fresh id as a parameter (the Python code draws a UUID). A
   * failed language-model call yields `{}`, which is a well-formed reply with
   * no cast; only a reply the code cannot digest yields no session.
   */
  function CreateGame(store: Store, freshId: string, scenario: string, reply: CastReply): (r: Created)
    ensures r.session.None? <==> reply.Malformed? || ToAgents(reply.agents.GetOr([])).None?
    ensures r.session.None? ==> r.store == store
    ensures r.session.Some? ==>
      var g := r.session.value;
      && r.store == store[freshId := g]
      && WellFormed(g, freshId)
      && g.history == [] && g.turnCount == 0 && g.lastImageUrl == ""
      && g.setting == scenario
      && g.plotSummary == SummaryIntro + scenario
      && Some(g.agents) == ToAgents(reply.agents.GetOr([]))
      && |g.agents| == |reply.agents.GetOr([])|
      && (forall a :: a in g.agents ==> (a.isActive <==> a.role == ProtagonistRole))
      && g.visualStyle == reply.visualStyle.GetOr(DefaultStyle)
      && g.state == InitialState().(location := reply.startingLocation.GetOr(DefaultStartLocation))
  {
    match reply
    case Malformed => Created(store, None)
    case CastObject(entries, style, start) =>
      match ToAgents(entries.GetOr([]))
      case None => Created(store, None)
      case Some(agents) =>
        var initial := NewSession(freshId, scenario, agents, style.GetOr(DefaultStyle));
        var g := initial.(state := initial.state.(location := start.GetOr(DefaultStartLocation)));
        Created(store[freshId := g], Some(g))
  }

  /** Creation keeps the registry invariant and, under a fresh id, adds exactly one entry. */
  lemma CreatePreservesWellFormed(store: Store, freshId: string, scenario: string, reply: CastReply)
    requires StoreWellFormed(store)
    ensures StoreWellFormed(CreateGame(store, freshId, scenario, reply).store)
    ensures freshId !in store && CreateGame(store, freshId, scenario, reply).session.Some? ==>
      |CreateGame(store, freshId, scenario, reply).store| == |store| + 1
  {
  }

  /** A present but empty style or start location is kept; only absent keys take the defaults. */
  lemma DefaultsOnlyForAbsentKeys(store: Store, freshId: string, scenario: string)
    ensures var r := CreateGame(store, freshId, scenario, CastObject(Some([]), Some(""), Some("")));
      r.session.Some? && r.session.value.visualStyle == "" && r.session.value.state.location == ""
    ensures var r := CreateGame(store, freshId, scenario, CastObject(Some([]), None, None));
      r.session.Some? && r.session.value.visualStyle == DefaultStyle
      && r.session.value.state.location == DefaultStartLocation
  {
  }

  /**
   * A failed cast call (`{}`) registers a session without agents, and the first
   * turn on it fails on the empty roster after advancing the count.
   */
  lemma FailedCastCallBreaksFirstTurn(store: Store, freshId: string, scenario: string, o: Replies)
    ensures var c := CreateGame(store, freshId, scenario, CastObject(None, None, None));
      && c.session.Some? && c.session.value.agents == []
      && ProcessTurn(c.store, freshId, None, o).outcome.NoAgents?
  {
  }

  /** An entry with an extra key (here `is_active` itself) makes creation fail. */
  lemma ExtraKeyFailsCreation(store: Store, freshId: string, scenario: string, entry: map<string, string>)
    requires entry.Keys == AgentFields + {"is_active"}
    ensures CreateGame(store, freshId, scenario, CastObject(Some([entry]), None, None)) == Created(store, None)
  {
    assert "is_active" !in AgentFields;
    assert entry.Keys != AgentFields;
  }
}
