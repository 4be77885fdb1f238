/**
 * The data model of the game engine: agents, the story state, one game
 * session, and the two queries the turn engine asks of a session (the prompt
 * context and the actor of the turn).
 */
module Story {
  import opened Optional
  import opened Text

  /** A character of the story. Only agents with `isActive` take part in the rotation. */
  datatype Agent = Agent(
    name: string,
    role: string,
    description: string,
    personality: string,
    isActive: bool)

  /** The world state that the game master updates every turn. */
  datatype StoryState = StoryState(
    location: string,
    inventory: seq<string>,
    currentQuest: string,
    activeThreats: seq<string>)

  const DefaultLocation: string := "Startpunkt"
  const DefaultQuest: string := "Erkunde die Welt"

  /** The state a session starts with (the dataclass defaults). */
  function InitialState(): (st: StoryState)
    ensures st.inventory == [] && st.activeThreats == []
    ensures st.location == DefaultLocation && st.currentQuest == DefaultQuest
  {
    StoryState(DefaultLocation, [], DefaultQuest, [])
  }

  /** `StoryState.to_string`: place, inventory and goal on one line; threats are not shown. */
  function Render(st: StoryState): string
  {
    "Ort: " + st.location + " | Inventar: " + Join(", ", st.inventory) + " | Ziel: " + st.currentQuest
  }

  /** The rendering of the default state, with its empty inventory between two spaces. */
  lemma RenderInitialState()
    ensures Render(InitialState()) == "Ort: Startpunkt | Inventar:  | Ziel: Erkunde die Welt"
  {
    var st := InitialState();
    assert Join(", ", st.inventory) == "";
    assert Render(st) == "Ort: " + "Startpunkt" + " | Inventar: " + "" + " | Ziel: " + "Erkunde die Welt";
    assert "Ort: " + "Startpunkt" == "Ort: Startpunkt";
    assert "Ort: Startpunkt" + " | Inventar: " + "" == "Ort: Startpunkt | Inventar: ";
    assert "Ort: Startpunkt | Inventar: " + " | Ziel: " == "Ort: Startpunkt | Inventar:  | Ziel: ";
    assert "Ort: Startpunkt | Inventar:  | Ziel: " + "Erkunde die Welt"
      == "Ort: Startpunkt | Inventar:  | Ziel: Erkunde die Welt";
  }

  /** Threats never reach the prompt; location, inventory and quest always do. */
  lemma RenderShowsStateFields(st: StoryState, threats: seq<string>)
    ensures Render(st.(activeThreats := threats)) == Render(st)
    ensures Contains(Render(st), st.location)
    ensures Contains(Render(st), st.currentQuest)
    ensures forall i :: 0 <= i < |st.inventory| ==> Contains(Render(st), st.inventory[i])
  {
    var inv := Join(", ", st.inventory);
    RenderShowsLocation(st, inv);
    RenderShowsQuest(st, inv);
    forall i | 0 <= i < |st.inventory|
      ensures Contains(Render(st), st.inventory[i])
    {
      RenderShowsItem(st, inv, i);
    }
  }

  lemma RenderShowsLocation(st: StoryState, inv: string)
    requires inv == Join(", ", st.inventory)
    ensures Contains(Render(st), st.location)
  {
    var rest := " | Inventar: " + inv + " | Ziel: " + st.currentQuest;
    assert Render(st) == "Ort: " + st.location + rest;
    ContainsInfix("Ort: ", st.location, rest);
  }

  lemma RenderShowsQuest(st: StoryState, inv: string)
    requires inv == Join(", ", st.inventory)
    ensures Contains(Render(st), st.currentQuest)
  {
    var front := "Ort: " + st.location + " | Inventar: " + inv + " | Ziel: ";
    assert Render(st) == front + st.currentQuest + "";
    ContainsInfix(front, st.currentQuest, "");
  }

  lemma RenderShowsItem(st: StoryState, inv: string, i: nat)
    requires inv == Join(", ", st.inventory) && i < |st.inventory|
    ensures Contains(Render(st), st.inventory[i])
  {
    JoinContainsPart(", ", st.inventory, i);
    var front := "Ort: " + st.location + " | Inventar: ";
    var back := " | Ziel: " + st.currentQuest;
    assert Render(st) == front + inv + back;
    ContainsWithin(front, inv, back, st.inventory[i]);
  }

  /** One running game (`GameSession`). */
  datatype Session = Session(
    sessionId: string,
    setting: string,
    agents: seq<Agent>,
    visualStyle: string,
    state: StoryState,
    history: seq<string>,       // full prose, one block per completed turn
    plotSummary: string,        // compacted memory, replaced wholesale
    turnCount: nat,
    lastImageUrl: string)

  const SummaryIntro: string := "Die Geschichte beginnt: "

  /** `GameSession.__init__`. */
  function NewSession(id: string, setting: string, agents: seq<Agent>, style: string): Session
  {
    Session(id, setting, agents, style, InitialState(), [], SummaryIntro + setting, 0, "")
  }

  /** The session-wide invariant: stored under its own id, at most one prose block per turn. */
  predicate WellFormed(g: Session, id: string)
  {
    g.sessionId == id && |g.history| <= g.turnCount
  }

  /**
   * A new session starts at turn zero with no prose and no image, its summary
   * begins with the fixed introduction followed by the setting, and it already
   * satisfies the session invariant.
   */
  lemma NewSessionShape(id: string, setting: string, agents: seq<Agent>, style: string)
    ensures var g := NewSession(id, setting, agents, style);
      && WellFormed(g, id)
      && g.history == [] && g.turnCount == 0 && g.lastImageUrl == ""
      && g.state.inventory == [] && g.state.activeThreats == []
      && g.plotSummary[..|SummaryIntro|] == SummaryIntro
      && g.plotSummary[|SummaryIntro|..] == setting
      && g.agents == agents && g.visualStyle == style && g.setting == setting
  {
  }

  const RecentWindow: nat := 3

  /** `get_context_for_llm`: status line, summary, and the last three prose blocks. */
  function ContextForLlm(g: Session): string
  {
    "--- STORY STATUS ---\n" + Render(g.state) + "\n"
    + "--- ZUSAMMENFASSUNG ---\n" + g.plotSummary + "\n"
    + "--- AKTUELLE SZENE ---\n" + Join("\n\n", LastN(g.history, RecentWindow))
  }

  /**
   * Only the last three prose blocks matter: two sessions with the same state,
   * the same summary and the same last three blocks get the same context, however
   * much older history either has.
   */
  lemma ContextDependsOnWindowOnly(g: Session, older: seq<string>)
    requires |g.history| >= RecentWindow
    ensures ContextForLlm(g.(history := older + g.history)) == ContextForLlm(g)
  {
    LastNIgnoresOlder(older, g.history, RecentWindow);
  }

  /** The rendering, the summary and each of the last min(3, |history|) blocks appear verbatim. */
  lemma ContextShowsWindow(g: Session)
    ensures Contains(ContextForLlm(g), Render(g.state))
    ensures Contains(ContextForLlm(g), g.plotSummary)
    ensures forall i :: (0 <= i < |g.history| && i >= |g.history| - RecentWindow
      ==> Contains(ContextForLlm(g), g.history[i]))
  {
    var recent := Join("\n\n", LastN(g.history, RecentWindow));
    ContextShowsStatus(g, recent);
    ContextShowsSummary(g, recent);
    forall i | 0 <= i < |g.history| && i >= |g.history| - RecentWindow
      ensures Contains(ContextForLlm(g), g.history[i])
    {
      ContextShowsBlock(g, recent, i);
    }
  }

  /** The context ends with the scene header and the last min(3, |history|) blocks, in order, separated by blank lines. */
  lemma ContextEndsWithWindow(g: Session)
    ensures var c := ContextForLlm(g);
      var w := "--- AKTUELLE SZENE ---\n" + Join("\n\n", g.history[|g.history| - Min(RecentWindow, |g.history|)..]);
      |w| <= |c| && c[|c| - |w|..] == w
  {
    var c := ContextForLlm(g);
    var w := "--- AKTUELLE SZENE ---\n" + Join("\n\n", LastN(g.history, RecentWindow));
    var front := "--- STORY STATUS ---\n" + Render(g.state) + "\n" + "--- ZUSAMMENFASSUNG ---\n" + g.plotSummary + "\n";
    assert c == front + w;
  }

  lemma ContextShowsStatus(g: Session, recent: string)
    requires recent == Join("\n\n", LastN(g.history, RecentWindow))
    ensures Contains(ContextForLlm(g), Render(g.state))
  {
    var rest := "\n" + "--- ZUSAMMENFASSUNG ---\n" + g.plotSummary + "\n" + "--- AKTUELLE SZENE ---\n" + recent;
    assert ContextForLlm(g) == "--- STORY STATUS ---\n" + Render(g.state) + rest;
    ContainsInfix("--- STORY STATUS ---\n", Render(g.state), rest);
  }

  lemma ContextShowsSummary(g: Session, recent: string)
    requires recent == Join("\n\n", LastN(g.history, RecentWindow))
    ensures Contains(ContextForLlm(g), g.plotSummary)
  {
    var front := "--- STORY STATUS ---\n" + Render(g.state) + "\n" + "--- ZUSAMMENFASSUNG ---\n";
    var rest := "\n" + "--- AKTUELLE SZENE ---\n" + recent;
    assert ContextForLlm(g) == front + g.plotSummary + rest;
    ContainsInfix(front, g.plotSummary, rest);
  }

  lemma ContextShowsBlock(g: Session, recent: string, i: nat)
    requires recent == Join("\n\n", LastN(g.history, RecentWindow))
    requires i < |g.history| && i >= |g.history| - RecentWindow
    ensures Contains(ContextForLlm(g), g.history[i])
  {
    var window := LastN(g.history, RecentWindow);
    var k := i - (|g.history| - |window|);
    assert window[k] == g.history[i];
    JoinContainsPart("\n\n", window, k);
    var front := "--- STORY STATUS ---\n" + Render(g.state) + "\n" + "--- ZUSAMMENFASSUNG ---\n"
      + g.plotSummary + "\n" + "--- AKTUELLE SZENE ---\n";
    assert ContextForLlm(g) == front + recent + "";
    ContainsWithin(front, recent, "", g.history[i]);
  }

  /** `get_agent`: the first agent with the given name, if any. */
  function GetAgent(agents: seq<Agent>, name: string): (r: Option<Agent>)
    ensures r.None? <==> forall a :: a in agents ==> a.name != name
    ensures r.Some? ==> exists j :: (0 <= j < |agents| && agents[j] == r.value && r.value.name == name
      && forall i :: 0 <= i < j ==> agents[i].name != name)
  {
    if agents == [] then None
    else if agents[0].name == name then Some(agents[0])
    else
      var r := GetAgent(agents[1..], name);
      assert forall a :: a in agents[1..] ==> a in agents;
      if r.Some? then
        var j :| 0 <= j < |agents[1..]| && agents[1..][j] == r.value && r.value.name == name
          && forall i :: 0 <= i < j ==> agents[1..][i].name != name;
        assert agents[j + 1] == r.value;
        r
      else r
  }

  /** The agents marked `is_active`, in roster order. */
  function Eligible(agents: seq<Agent>): (e: seq<Agent>)
    ensures |e| <= |agents|
    ensures forall a :: a in e <==> a in agents && a.isActive
  {
    if agents == [] then []
    else (if agents[0].isActive then [agents[0]] else []) + Eligible(agents[1..])
  }

  /**
   * The filter keeps every active entry as often as it occurs in the roster and
   * drops every inactive one.
   */
  lemma {:induction false} EligibleCount(agents: seq<Agent>, a: Agent)
    ensures multiset(Eligible(agents))[a] == if a.isActive then multiset(agents)[a] else 0
    decreases |agents|
  {
    if agents != [] {
      EligibleCount(agents[1..], a);
      assert agents == [agents[0]] + agents[1..];
    }
  }

  /** The roster the rotation runs over: the eligible agents, or everybody when nobody is eligible. */
  function Rotation(agents: seq<Agent>): seq<Agent>
  {
    if Eligible(agents) == [] then agents else Eligible(agents)
  }

  /** `k % n` for a positive n, by repeated subtraction (see `WrapIsMod`). */
  function Wrap(k: nat, n: nat): (r: nat)
    requires n > 0
    ensures r < n
    decreases k
  {
    if k < n then k else Wrap(k - n, n)
  }

  /** The subtraction form is Python's `%` on a non-negative count. */
  lemma {:induction false} WrapIsMod(k: nat, n: nat)
    requires n > 0
    ensures Wrap(k, n) == k % n
    decreases k
  {
    if k < n {
      ModOfSplit(k, n, 0, k);
    } else {
      WrapIsMod(k - n, n);
      var q, r := (k - n) / n, (k - n) % n;
      assert k - n == q * n + r;
      assert k == (q + 1) * n + r;
      ModOfSplit(k, n, q + 1, r);
    }
  }

  /**
   * `rotate_active_actor` with the session's `turn_count`: the agent at position
   * turnCount mod n of the rotation roster; None (the Python code raises IndexError)
   * for an empty roster.
   */
  function RotateActiveActor(agents: seq<Agent>, turnCount: nat): (r: Option<Agent>)
    ensures r.None? <==> agents == []
    ensures r.Some? ==> r.value in agents
    ensures r.Some? && Eligible(agents) != [] ==> r.value.isActive
  {
    var e := Rotation(agents);
    if e == [] then None else Some(e[Wrap(turnCount, |e|)])
  }

  /** With nobody active, the rotation runs over the whole roster: count k picks entry k mod n. */
  lemma FallbackRotation(agents: seq<Agent>, k: nat)
    requires agents != [] && Eligible(agents) == []
    ensures RotateActiveActor(agents, k) == Some(agents[k % |agents|])
  {
    WrapIsMod(k, |agents|);
  }

  /**
   * Where the i-th eligible agent stands in the roster: at a position j that is
   * active and has exactly i eligible agents before it.
   */
  lemma {:induction false} EligiblePosition(agents: seq<Agent>, i: nat)
    requires i < |Eligible(agents)|
    ensures exists j :: (0 <= j < |agents| && agents[j] == Eligible(agents)[i]
      && agents[j].isActive && |Eligible(agents[..j])| == i)
    decreases |agents|
  {
    var a := agents[0];
    var rest := agents[1..];
    var front := if a.isActive then [a] else [];
    assert Eligible(agents) == front + Eligible(rest);
    if a.isActive && i == 0 {
      assert agents[..0] == [];
    } else {
      var i' := i - |front|;
      assert Eligible(agents)[i] == Eligible(rest)[i'];
      EligiblePosition(rest, i');
      var j' :| 0 <= j' < |rest| && rest[j'] == Eligible(rest)[i']
        && rest[j'].isActive && |Eligible(rest[..j'])| == i';
      EligiblePrefixStep(agents, j');
      assert agents[j' + 1] == rest[j'];
    }
  }

  /** Counting the eligible agents of a prefix one roster entry at a time. */
  lemma EligiblePrefixStep(agents: seq<Agent>, j: nat)
    requires j < |agents| - 1
    ensures |Eligible(agents[..j + 1])| == (if agents[0].isActive then 1 else 0) + |Eligible(agents[1..][..j])|
  {
    var prefix := agents[..j + 1];
    assert prefix[0] == agents[0] && prefix[1..] == agents[1..][..j];
  }

  /**
   * Round robin, stated by position: when some agent is eligible, the actor of
   * turn k is the active agent with exactly k mod n eligible agents before it in
   * the roster, n being the number of eligible agents.
   */
  lemma RotationPosition(agents: seq<Agent>, k: nat)
    requires Eligible(agents) != []
    ensures exists j :: (0 <= j < |agents| && Some(agents[j]) == RotateActiveActor(agents, k)
      && agents[j].isActive && |Eligible(agents[..j])| == k % |Eligible(agents)|)
  {
    WrapIsMod(k, |Eligible(agents)|);
    EligiblePosition(agents, k % |Eligible(agents)|);
  }

  /** Euclidean remainder is determined by any quotient-remainder split. */
  lemma ModOfSplit(x: int, n: int, q: int, r: int)
    requires n > 0 && 0 <= r < n && x == q * n + r
    ensures x % n == r
  {
    var q', r' := x / n, x % n;
    var d := q - q';
    assert d * n == r' - r by {
      assert q * n - q' * n == (q - q') * n;
    }
    if d > 0 {
      MulAtLeast(d, n);
    } else if d < 0 {
      MulAtLeast(-d, n);
    }
  }

  /** A positive multiple of n is at least n. */
  lemma {:induction false} MulAtLeast(d: int, n: int)
    requires d >= 1 && n >= 0
    ensures d * n >= n
    decreases d
  {
    if d > 1 {
      MulAtLeast(d - 1, n);
      assert d * n == (d - 1) * n + n;
    }
  }

  /** The rotation repeats with a period of the roster length. */
  lemma RotationPeriodic(agents: seq<Agent>, k: nat)
    ensures RotateActiveActor(agents, k + |Rotation(agents)|) == RotateActiveActor(agents, k)
  {
  }

  /**
   * With two eligible agents a, b in roster order, counts 1, 2, 3 pick b, a, b:
   * since the count is advanced before the pick, a new game's first three
   * turns are played by b, a, b.
   */
  lemma TwoEligibleAlternate(agents: seq<Agent>, a: Agent, b: Agent)
    requires Eligible(agents) == [a, b]
    ensures RotateActiveActor(agents, 1) == Some(b)
    ensures RotateActiveActor(agents, 2) == Some(a)
    ensures RotateActiveActor(agents, 3) == Some(b)
  {
    assert a in Eligible(agents);
  }

  /** Within any n consecutive counts there is one that wraps to a given position. */
  lemma WrapWindow(k: nat, n: nat, i: nat) returns (t: nat)
    requires i < n
    ensures k <= t < k + n && Wrap(t, n) == i
  {
    var q, m := k / n, k % n;
    assert k == q * n + m;
    if m <= i {
      t := k + (i - m);
      ModOfSplit(t, n, q, i);
    } else {
      t := k + (i - m + n);
      assert t == (q + 1) * n + i;
      ModOfSplit(t, n, q + 1, i);
    }
    WrapIsMod(t, n);
  }

  /** Fairness: every member of the rotation roster acts within any n consecutive turns. */
  lemma RotationFair(agents: seq<Agent>, k: nat, i: nat)
    requires i < |Rotation(agents)|
    ensures exists t :: (k <= t < k + |Rotation(agents)|
      && RotateActiveActor(agents, t) == Some(Rotation(agents)[i]))
  {
    var t := WrapWindow(k, |Rotation(agents)|, i);
    assert RotateActiveActor(agents, t) == Some(Rotation(agents)[i]);
  }
}
