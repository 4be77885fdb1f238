# Agentic Storyteller game engine in Dafny

This project models the core of the Agentic Storyteller backend. It covers the game
engine, which keeps running story sessions and advances them turn by turn. It also
covers the HTTP layer that turns a session into the response the frontend shows.

- **Data.** `Story.Agent`, `Story.StoryState` and `Story.Session` model the three
  classes of the engine. `Engine.Store` models the process-wide registry `GAMES`,
  a map from session id to session.
- **Queries on a session.** The model covers the status line (`to_string`), the
  prompt context (`get_context_for_llm`), `get_agent` and the round-robin
  rotation (`rotate_active_actor`).
- **The turn.** `Engine.TakeTurn` and `Engine.ProcessTurn` model `process_turn`.
  They advance the count, pick the actor and apply the PASS rule to the reaction.
  They update location and quest from the game master's reply, append the prose
  and set the image. On every third turn they replace the summary with the
  summarizer's reply over the whole history (`_update_summary`).
- **Creation.** `Engine.CreateGame` models `create_game`. It builds the cast from
  the cast generator's reply and fills in the defaults for absent keys.
- **Runs.** `Runs.After` is a run of consecutive turns. The lemmas in `Runs`
  state what such a run does to count, history and summary.
- **HTTP.** `Router.BuildResponse` models `build_response`.
  `Router.StartGameEndpoint` and `Router.PlayTurnEndpoint` model the two
  endpoints: a missing session becomes a 500 on start and a 404 on a turn.

Every language-model and image call is an oracle. Its reply is an input of the
model, never something the model computes:

- A turn takes a `Replies` record: the action, the raw reaction, the game master's
  delta, the prose, the image URL, and the summarizer as a function from its input
  text to the new summary.
- Creation takes a `CastReply`.
- The fresh session id, a UUID in the code, is a parameter.

A failed call is the value the code falls back to: `""`, `{}`, or `""` for the
image.

Where the code and its own documentation differ, the model follows the code:

- **The rotation starts at the second eligible agent.** `process_turn` increments
  `turn_count` before `rotate_active_actor` indexes with it. A new game with two
  protagonists A, B is therefore played B, A, B, …
  (`Runs.FirstTurnSkipsFirstEligible`, `Story.TwoEligibleAlternate`).
- **The response does not name the turn's actor.** The docstring of
  `build_response` says it names the agent who was active this round. The code
  names the first active agent in roster order, whatever the turn count
  (`Router.ShownNameIsNotTheActor`).
- **A failed cast call still creates a game.** `create_game` is documented to
  return None on failure. A failed cast call, however, yields `{}`, which creates
  a session with no agents. Only a reply the code cannot digest yields None
  (`Engine.FailedCastCallBreaksFirstTurn`).
- **A turn on an empty roster is an uncaught error.** The `IndexError` from
  `rotate_active_actor` escapes `process_turn` after the count was already
  advanced in place. The framework answers with a 500. The session stays
  registered with the advanced count and no new prose.

## Model

| member | source | states |
|---|---|---|
| Text.JoinLength | backend/app/services/game_engine.py:390 | `sep.join(parts)` has the length of all parts plus one separator between neighbours; the join of no parts is empty |
| Text.JoinSnoc | backend/app/services/game_engine.py:390 | appending one part to a join adds exactly one separator and that part at the end |
| Text.ContainsIffOccurs | backend/app/services/game_engine.py:311 | the left-to-right substring scan (`sub in s`) holds exactly when `sub` occurs at some position of `s` |
| Text.ContainsWithin | backend/app/services/game_engine.py:311 | a substring of `s` remains a substring after text is added on either side of `s` |
| Text.ContainsInfix | backend/app/services/game_engine.py:311 | a string placed anywhere inside another is found by `in` |
| Text.JoinContainsPart | backend/app/services/game_engine.py:390 | every part of a join appears verbatim in the joined text |
| Text.LastN | backend/app/services/game_engine.py:142 | the negative slice `xs[-n:]` has min(n, len) entries and is a suffix of `xs` |
| Text.LastNIgnoresOlder | backend/app/services/game_engine.py:142 | entries further back than the last n never reach the slice |
| Story.InitialState | backend/app/services/game_engine.py:78-81 | a fresh state has location "Startpunkt", quest "Erkunde die Welt", and no inventory or threats |
| Story.RenderInitialState | backend/app/services/game_engine.py:91 | the default state renders as the fixed line with place "Startpunkt", an empty inventory between two spaces, and goal "Erkunde die Welt" |
| Story.RenderShowsStateFields | backend/app/services/game_engine.py:91 | threats never change the status line; location, quest and each inventory item always appear in it |
| Story.NewSessionShape | backend/app/services/game_engine.py:116-129 | a new session is at turn 0 with no prose and no image; its summary is the fixed intro followed by the setting; it satisfies the session invariant |
| Story.ContextDependsOnWindowOnly | backend/app/services/game_engine.py:142-147 | prose older than the last three blocks has no effect on the prompt context |
| Story.ContextShowsWindow | backend/app/services/game_engine.py:142-147 | the context contains the status line, the summary and each of the last min(3, len) prose blocks verbatim |
| Story.ContextEndsWithWindow | backend/app/services/game_engine.py:142-146 | the context ends with the scene header followed by the last min(3, len) prose blocks, in order, separated by blank lines |
| Story.GetAgent | backend/app/services/game_engine.py:159 | None exactly when no agent has the name; otherwise the first agent in roster order with that name |
| Story.Eligible | backend/app/services/game_engine.py:174 | the eligible agents are exactly the roster's active agents, in roster order |
| Story.EligibleCount | backend/app/services/game_engine.py:174 | the filter keeps each active agent exactly as often as it occurs in the roster and drops every inactive one |
| Story.WrapIsMod | backend/app/services/game_engine.py:184 | the repeated-subtraction index equals Python's `turn_count % len(actives)` for a non-negative count |
| Story.RotateActiveActor | backend/app/services/game_engine.py:174-185 | no actor exactly when the roster is empty (the IndexError); the actor is always a roster member; it is active whenever anyone is active |
| Story.EligiblePosition | backend/app/services/game_engine.py:174 | the i-th eligible agent sits at a roster position that is active and has exactly i active agents before it |
| Story.RotationPosition | backend/app/services/game_engine.py:174-185 | with someone active, the actor for count k is the active agent with exactly k mod n active agents before it |
| Story.FallbackRotation | backend/app/services/game_engine.py:176-184 | with nobody active and a non-empty roster, count k picks roster entry k mod n, n being the roster length |
| Story.RotationPeriodic | backend/app/services/game_engine.py:184 | the pick repeats with period equal to the rotation roster's length |
| Story.TwoEligibleAlternate | backend/app/services/game_engine.py:184 | with eligible agents [a, b], counts 1, 2, 3 pick b, a, b |
| Story.RotationFair | backend/app/services/game_engine.py:174-185 | every member of the rotation roster is picked at some count within any window of n consecutive counts |
| Engine.ApplyDelta | backend/app/services/game_engine.py:328-331 | location and quest change only when the reply's field is truthy, and then to that value; inventory and threats never change |
| Engine.EmptyDeltaKeepsState | backend/app/services/game_engine.py:328-331 | the `{}` of a failed game-master call leaves the state unchanged |
| Engine.EmptyFieldsKeepState | backend/app/services/game_engine.py:328-331 | empty strings are falsy and never overwrite location or quest |
| Engine.ApplyDeltaIdempotent | backend/app/services/game_engine.py:328-331 | applying the same reply twice changes nothing beyond the first application |
| Engine.PassiveMembers | backend/app/services/game_engine.py:305 | the passive agents are exactly the roster members whose name differs from the actor's |
| Engine.Reaction | backend/app/services/game_engine.py:303-312 | the reaction is either empty or the co-author's reply verbatim |
| Engine.ReactionShown | backend/app/services/game_engine.py:303-312 | a reaction is shown exactly when another agent is present and the reply is non-empty and free of "PASS" |
| Engine.PassAnywhereSuppresses | backend/app/services/game_engine.py:311 | a reply that mentions "PASS" anywhere is dropped |
| Engine.ReplyKeptWithAudience | backend/app/services/game_engine.py:305-312 | with another agent present, a reply without "PASS" is kept verbatim |
| Engine.UpdateSummary | backend/app/services/game_engine.py:390-391 | compaction changes the summary and nothing else |
| Engine.SummaryReplacedWholesale | backend/app/services/game_engine.py:391 | the new summary does not depend on the old one |
| Engine.CompactionSeesWholeHistory | backend/app/services/game_engine.py:390 | the summarizer's input contains every prose block of the history |
| Engine.TakeTurn | backend/app/services/game_engine.py:286-375 | the count always advances; on an empty roster nothing else changes; otherwise the actor is the rotation's pick for the new count, the reaction follows the PASS rule, the state follows the game-master reply, the prose is appended, the image is replaced, and the summary is replaced by the summarizer's reply over the whole history exactly when the new count is a multiple of 3 |
| Engine.TurnActor | backend/app/services/game_engine.py:286-287 | the actor of a turn is the rotation's pick for the incremented count |
| Engine.ProcessTurn | backend/app/services/game_engine.py:282-287 | an unknown id changes nothing; otherwise only that session is replaced, by the turn's result, and every other session is kept |
| Engine.TurnPreservesWellFormed | backend/app/services/game_engine.py:282-375 | a turn keeps every session stored under its own id with no more prose blocks than turns |
| Engine.UnknownIdRegistersNothing | backend/app/services/game_engine.py:282-284 | an unknown id yields None and leaves the registry untouched |
| Engine.FailedCallsStillCompleteTurn | backend/app/services/game_engine.py:299-369 | with every model and image call failed, a turn on a non-empty roster still completes: no reaction, unchanged state, an empty prose block, no image |
| Engine.EmptyRosterSkipsNarration | backend/app/services/game_engine.py:286-287 | on an empty roster the count advances but no prose is appended |
| Engine.ToAgent | backend/app/services/game_engine.py:241 | an agent is active exactly when its role is "Protagonist" |
| Engine.ToAgents | backend/app/services/game_engine.py:240-243 | the cast builds exactly when every entry has exactly the keys name, role, description, personality; it then has one agent per entry, in order, with the entry's fields |
| Engine.CreateGame | backend/app/services/game_engine.py:238-257 | None exactly for an undigestible reply or an invalid entry, leaving the registry as it was; otherwise a new session is registered under the fresh id whose agents are the cast built from the reply's entries, in order, with the scenario, the defaults "Cinematic" and "Unknown" for absent keys, and the session invariant |
| Engine.CreatePreservesWellFormed | backend/app/services/game_engine.py:253 | creation keeps the registry invariant and, under a fresh id, adds exactly one session |
| Engine.DefaultsOnlyForAbsentKeys | backend/app/services/game_engine.py:249-251 | a present but empty style or start location is kept; only absent keys get the defaults |
| Engine.FailedCastCallBreaksFirstTurn | backend/app/services/game_engine.py:239-253 | a failed cast call registers a session without agents, and the first turn on it hits the empty-roster error |
| Engine.ExtraKeyFailsCreation | backend/app/services/game_engine.py:241 | a cast entry that carries `is_active` itself makes creation fail |
| Runs.Proses | backend/app/services/game_engine.py:357 | a run has one prose reply per turn |
| Runs.RunCounts | backend/app/services/game_engine.py:286 | k turns advance the count by k and never change the roster |
| Runs.RunHistory | backend/app/services/game_engine.py:357 | on a non-empty roster, k turns append exactly the k prose replies, in order |
| Runs.LastCompaction | backend/app/services/game_engine.py:372 | the last multiple of 3 not above k, which is at most 2 below it |
| Runs.SummaryAfterLastCompaction | backend/app/services/game_engine.py:372-373 | the summary after k turns is the reply of the last turn that is a multiple of 3, applied to all prose up to that turn, or the initial summary before turn 3 |
| Runs.RunFromCreation | backend/app/services/game_engine.py:286-373 | from a new session, k turns give a count and a history length of k, and the summary compacted every third turn |
| Runs.LastTurnOfRun | backend/app/services/game_engine.py:286-373 | the k-th turn of a run from a new session leaves count k and the k proses; its summary is the summarizer's reply over the whole history when k is a multiple of 3, and the previous summary otherwise |
| Runs.RunPreservesWellFormed | backend/app/services/game_engine.py:282-375 | the session invariant holds across any number of turns |
| Runs.FirstTurnSkipsFirstEligible | backend/app/services/game_engine.py:286-287 | with at least two eligible agents, the first turn of a new session is played by the second one |
| Runs.ThreeTurnsCompactOnce | backend/app/services/game_engine.py:372-373 | three turns from a new session leave count 3, three prose blocks, and the summary compacted from all three |
| Router.FirstActiveName | backend/app/routers/story.py:54 | "Unbekannt" when nobody is active; otherwise the name of the first active agent in roster order |
| Router.BuildResponse | backend/app/routers/story.py:47-68 | the response copies id, count, image and state fields; its narrative is the newest prose block, or the summary before the first turn; its history is the last min(5, len) blocks |
| Router.StartGameEndpoint | backend/app/routers/story.py:93-97 | a session that cannot be created becomes a 500 "Failed to create game"; otherwise the response is built from the new session |
| Router.PlayTurnEndpoint | backend/app/routers/story.py:123-128 | 404 "Game session not found" exactly for an unknown id; a server error exactly for an empty roster; otherwise the response is built from the updated session |
| Router.StartShowsOpening | backend/app/routers/story.py:93-97 | a new game's response is turn 0 with no history and no image; its narrative is the summary's opening sentence |
| Router.TurnShowsNewProse | backend/app/routers/story.py:123-128 | after a played turn, the narrative is that turn's prose, which is also the newest history entry |
| Router.ShownNameIsNotTheActor | backend/app/routers/story.py:54 | with two protagonists a, b, the first turn is played by b but the response names a |

## Left out

- Prompts and temperatures are left out. Every prompt only feeds an oracle call, and the model takes that call's reply as an input. This includes the intervention text, the context and the `success` flag.
- The network, the OpenAI client, configuration and `main.py` are left out. Their only effect on the core is the reply values, and those are oracle inputs.
- UUID generation is left out: the fresh id is a parameter of `Engine.CreateGame`.
- Logging (`print`) is left out. It has no effect on any state.
- Concurrency is left out. Two requests on the same session at once, which the Python code does not guard against, are not modelled.
- Engine.GmDelta: only string-or-absent values are modelled. A JSON value of another type (a number, a list) in `new_location` or `quest_update`, and a game-master reply that is not an object, are left out.
- Engine.CastReply: replies that make the code raise are one case, `Malformed`. This covers a non-object reply, non-object entries and a JSON `null` for `agents`. Non-string values in an entry or for `visual_style` / `starting_location` are left out.
- Inventory changes are not modelled: the game-master prompt asks for `inventory_changes`, but the turn never reads the field (`# Inventar-Logik hier vereinfacht`), so `Engine.GmDelta` has no such field. The `success` flag only feeds the narrator's prompt, whose reply is the oracle prose, so it is left out of `Engine.GmDelta` too.
- Router.PlayTurnEndpoint: an empty roster is `ServerFault`, standing for the framework's 500 answer to an uncaught exception. The exact body of that response is not modelled.
- Runs: the actor over a whole run is stated per turn (`Engine.TurnActor` with `Runs.RunCounts`). There is no single lemma about the sequence of actors of a run.
- The pydantic request/response schemas are left out. Only the response's fields are modelled, as `Router.Response`.
