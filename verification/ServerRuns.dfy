/** Prompts drive the engine: a hand answered through them is a hand of allowed play. */
module ServerRuns {
  import opened Types
  import opened Betting
  import opened Tree
  import opened Forced
  import opened Order
  import opened Invariants
  import opened Theorems
  import Prompts

  // ---------------------------------------------------------------------------
  // Prompts to engine
  // ---------------------------------------------------------------------------

  /** Some call of a remote agent's `act` was asked this question and returned this action. */
  ghost predicate SomeAnswer(s: Prompts.State, legal: LegalActions, a: Action) {
    exists k :: 0 <= k < |s.answers| && s.answers[k].legal == legal && s.answers[k].action == a
  }

  /** Every action fed to the hand is an answer to the question asked at that point. */
  ghost predicate Answered(s: Prompts.State, e: Engine, t: Node, script: seq<Action>)
    requires WellFormed(t)
    decreases |script|
  {
    t.phase.Terminal? || script == [] ||
    (SomeAnswer(s, LegalAt(e, t), script[0]) &&
     (StepWellFormed(e, t, script[0]); Answered(s, e, Step(e, t, script[0]), script[1..])))
  }

  lemma {:induction false} AnsweredIsAllowed(links: map<nat, nat>, moves: seq<Prompts.Move>, e: Engine, t: Node,
      script: seq<Action>)
    requires WellFormed(t) && Answered(Prompts.Run(Prompts.Fresh(links), moves), e, t, script)
    ensures AllowedRun(e, t, script)
    decreases |script|
  {
    hide Prompts.Run, Step, LegalAt;
    if t.phase.Decision? && script != [] {
      var s := Prompts.Run(Prompts.Fresh(links), moves);
      var k :| 0 <= k < |s.answers| && s.answers[k].legal == LegalAt(e, t) && s.answers[k].action == script[0];
      Prompts.AnswersAreLegal(links, moves, k);
      StepWellFormed(e, t, script[0]);
      AnsweredIsAllowed(links, moves, e, Step(e, t, script[0]), script[1..]);
    }
  }

  /** A hand whose decisions are answered through prompts ends, whatever the players, their
      connections and the clock do: after finitely many answers, in a bound known beforehand. */
  lemma PromptedHandEnds(links: map<nat, nat>, moves: seq<Prompts.Move>, e: Engine, u: Setup, script: seq<Action>)
    requires Playable(u) && ForcedWithin(e.rules, u) && e.rules.bigBlind > 0
    requires Answered(Prompts.Run(Prompts.Fresh(links), moves), e, New(e, u), script) && |script| >= MostDecisions(u)
    ensures Played(e, u, script).phase.Terminal?
  {
    hide New, MostDecisions, Answered, AllowedRun, Prompts.Run;
    AnsweredIsAllowed(links, moves, e, New(e, u), script);
    WithinIsForced(e.rules, u);
    HandEnds(e, u, script);
  }
}
