/**
 * Consecutive turns on one session: what a sequence of `process_turn` calls
 * does to the turn count, the history, the rotation and the summary.
 */
module Runs {
  import opened Optional
  import opened Text
  import opened Story
  import opened Engine

  /** The session after turns taken one after another. */
  function After(g: Session, rs: seq<Replies>): Session
    decreases |rs|
  {
    if rs == [] then g else TakeTurn(After(g, rs[..|rs| - 1]), rs[|rs| - 1]).0
  }

  /** The prose replies of a sequence of turns. */
  function Proses(rs: seq<Replies>): (ps: seq<string>)
    ensures |ps| == |rs|
    decreases |rs|
  {
    if rs == [] then [] else Proses(rs[..|rs| - 1]) + [rs[|rs| - 1].prose]
  }

  /** k turns advance the count by k and never touch the roster, whatever the roster is. */
  lemma {:induction false} RunCounts(g: Session, rs: seq<Replies>)
    ensures After(g, rs).turnCount == g.turnCount + |rs|
    ensures After(g, rs).agents == g.agents
    decreases |rs|
  {
    if rs != [] {
      RunCounts(g, rs[..|rs| - 1]);
    }
  }

  /** On a session with agents, k turns append exactly the k prose replies, in order. */
  lemma {:induction false} RunHistory(g: Session, rs: seq<Replies>)
    requires g.agents != []
    ensures After(g, rs).history == g.history + Proses(rs)
    decreases |rs|
  {
    if rs != [] {
      var init := rs[..|rs| - 1];
      RunHistory(g, init);
      RunCounts(g, init);
    }
  }

  /** The last turn, among the first k, at which the summary was compacted (0 for none). */
  function LastCompaction(k: nat): (m: nat)
    ensures m <= k && m % SummaryEvery == 0 && k - m < SummaryEvery
  {
    if k % SummaryEvery == 0 then k else LastCompaction(k - 1)
  }

  /**
   * The summary after a run from a new session, turn by turn: replaced by the
   * summarizer's reply on every third turn, kept otherwise.
   */
  function SummaryAfter(initial: string, rs: seq<Replies>): string
    decreases |rs|
  {
    if rs == [] then initial
    else if |rs| % SummaryEvery == 0 then rs[|rs| - 1].summarize(Join("\n", Proses(rs)))
    else SummaryAfter(initial, rs[..|rs| - 1])
  }

  /**
   * The same summary in closed form: the reply of the last turn that is a
   * multiple of three, applied to all prose up to that turn; or the initial
   * summary before turn three.
   */
  lemma {:induction false} SummaryAfterLastCompaction(initial: string, rs: seq<Replies>)
    ensures var m := LastCompaction(|rs|);
      && (m == 0 ==> SummaryAfter(initial, rs) == initial)
      && (m > 0 ==> SummaryAfter(initial, rs) == rs[m - 1].summarize(Join("\n", Proses(rs[..m]))))
    decreases |rs|
  {
    var k := |rs|;
    if k > 0 {
      if k % SummaryEvery == 0 {
        assert rs[..k] == rs;
      } else {
        var init := rs[..k - 1];
        SummaryAfterLastCompaction(initial, init);
        var m := LastCompaction(k - 1);
        assert init[..m] == rs[..m];
        if m > 0 {
          assert init[m - 1] == rs[m - 1];
        }
      }
    }
  }

  /**
   * From a new session: after k turns, history length and turn count both
   * equal k, and the summary is `SummaryAfter` of the initial one.
   */
  lemma {:induction false} RunFromCreation(g: Session, rs: seq<Replies>)
    requires g.agents != [] && g.turnCount == 0 && g.history == []
    ensures var g' := After(g, rs);
      && |g'.history| == g'.turnCount == |rs|
      && g'.plotSummary == SummaryAfter(g.plotSummary, rs)
    decreases |rs|
  {
    RunCounts(g, rs);
    RunHistory(g, rs);
    if rs != [] {
      var init := rs[..|rs| - 1];
      RunFromCreation(g, init);
      LastTurnOfRun(g, rs);
      SummaryStep(g.plotSummary, rs, After(g, init).plotSummary, After(g, rs));
    }
  }

  /** What the last turn of a run from a new session does to count, history and summary. */
  lemma LastTurnOfRun(g: Session, rs: seq<Replies>)
    requires g.agents != [] && g.turnCount == 0 && g.history == [] && rs != []
    ensures var after := After(g, rs);
      && after.turnCount == |rs| && after.history == Proses(rs)
      && (after.turnCount % SummaryEvery == 0 ==> after.plotSummary == rs[|rs| - 1].summarize(CompactionInput(after)))
      && (after.turnCount % SummaryEvery != 0 ==> after.plotSummary == After(g, rs[..|rs| - 1]).plotSummary)
  {
    var init := rs[..|rs| - 1];
    RunCounts(g, rs);
    RunCounts(g, init);
    RunHistory(g, rs);
    assert After(g, rs) == TakeTurn(After(g, init), rs[|rs| - 1]).0;
  }

  /** One step of `SummaryAfter`, given what a turn does to the summary. */
  lemma SummaryStep(initial: string, rs: seq<Replies>, previous: string, g': Session)
    requires rs != [] && g'.turnCount == |rs| && g'.history == Proses(rs)
    requires previous == SummaryAfter(initial, rs[..|rs| - 1])
    requires g'.turnCount % SummaryEvery == 0 ==> g'.plotSummary == rs[|rs| - 1].summarize(CompactionInput(g'))
    requires g'.turnCount % SummaryEvery != 0 ==> g'.plotSummary == previous
    ensures g'.plotSummary == SummaryAfter(initial, rs)
  {
  }

  /** The session invariant holds across any number of turns. */
  lemma {:induction false} RunPreservesWellFormed(g: Session, id: string, rs: seq<Replies>)
    requires WellFormed(g, id)
    ensures WellFormed(After(g, rs), id)
    decreases |rs|
  {
    if rs != [] {
      RunPreservesWellFormed(g, id, rs[..|rs| - 1]);
    }
  }

  /**
   * The count is incremented before the actor is picked, so the first turn of a
   * new session is played by the second eligible agent, not the first.
   */
  lemma FirstTurnSkipsFirstEligible(g: Session, o: Replies)
    requires g.turnCount == 0
    requires |Eligible(g.agents)| >= 2
    ensures TakeTurn(g, o).1.Played?
    ensures TakeTurn(g, o).1.actor == Eligible(g.agents)[1]
  {
    var e := Eligible(g.agents);
    assert e[0] in e;
  }

  /**
   * Three turns from a new session: count and history length are 3, and the
   * summary is the one compacted after turn 3 from all three prose blocks.
   */
  lemma ThreeTurnsCompactOnce(g: Session, rs: seq<Replies>)
    requires g.agents != [] && g.turnCount == 0 && g.history == []
    requires |rs| == 3
    ensures After(g, rs).turnCount == 3 && |After(g, rs).history| == 3
    ensures After(g, rs).plotSummary == rs[2].summarize(Join("\n", Proses(rs)))
  {
    RunFromCreation(g, rs);
  }
}
