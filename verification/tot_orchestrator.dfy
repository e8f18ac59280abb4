/** The single-pass Tree-of-Thought driver of src/tot/tot_orchestrator.py:
    one generation call, one scoring call per thought, then selection.
    Unlike the graph driver it never raises: a failed generation becomes an
    empty batch, a failed scoring call becomes a score-0 record, and an
    empty batch yields no selection. */
module Orchestrator {
  import opened Results
  import opened Evaluations

  /** Justification stored for a thought whose scoring call failed; the
      exception's text follows it. */
  const EvaluationFailedPrefix: string := "评估失败: "

  /** Justification stored when the scoring reply has no `reason`. */
  const MissingReason: string := "N/A"

  /** The backend. `generate(problem, k, attempt)` is the parsed `thoughts`
      list of the generation call made after `attempt` earlier calls, or
      `None` when the call, the JSON parse or the key lookup raised; the
      attempt index lets a retrying driver be told apart from a single-pass
      one. `score(problem, thought)` is the parsed scoring reply, or `Err`
      with the exception's text when the call or the parse raised. */
  datatype Backend = Backend(
    generate: (Problem, int, nat) -> Option<seq<Thought>>,
    score: (Problem, Thought) -> Result<ScoreReply>)

  /** `generate_thoughts`: fail-closed. The batch is either empty or
      exactly the list the backend returned, never a part of it. */
  function GenerateThoughts(reply: Option<seq<Thought>>): (thoughts: seq<Thought>)
    ensures reply.None? ==> thoughts == []
    ensures reply.Some? ==> thoughts == reply.value
  {
    match reply
    case None => []
    case Some(ts) => ts
  }

  /** `evaluate_thought`: a failed call degrades to a score-0 reply whose
      reason names the failure; it is never propagated. */
  function EvaluateThought(reply: Result<ScoreReply>): (r: ScoreReply)
    ensures reply.Err? ==> r.score == Some(0) && r.reason == Some(EvaluationFailedPrefix + reply.message)
    ensures reply.Ok? ==> r == reply.value
  {
    match reply
    case Ok(payload) => payload
    case Err(message) => ScoreReply(Some(0), Some(EvaluationFailedPrefix + message))
  }

  /** The record the driver stores for one thought: the thought itself, the
      reply's score or 0, the reply's reason or "N/A". */
  function MakeRecord(thought: Thought, reply: ScoreReply): (e: Evaluation)
    ensures e.thought == thought
    ensures e.reason.Some?
    ensures Some(e.score) == reply.score || (reply.score.None? && e.score == 0)
    ensures e.reason == reply.reason || (reply.reason.None? && e.reason == Some(MissingReason))
  {
    Evaluation(thought, reply.score.GetOr(0), Some(reply.reason.GetOr(MissingReason)))
  }

  /** The stored record for one thought, after the scoring call. */
  function EvaluateRecord(b: Backend, problem: Problem, thought: Thought): (e: Evaluation)
    ensures e.thought == thought
    ensures b.score(problem, thought).Err? ==>
      e.score == 0 && e.reason == Some(EvaluationFailedPrefix + b.score(problem, thought).message)
    ensures e.score != 0 ==> b.score(problem, thought).Ok? && b.score(problem, thought).value.score == Some(e.score)
    ensures b.score(problem, thought).Ok? ==>
      && e.score == b.score(problem, thought).value.score.GetOr(0)
      && e.reason == Some(b.score(problem, thought).value.reason.GetOr(MissingReason))
  {
    MakeRecord(thought, EvaluateThought(b.score(problem, thought)))
  }

  /** The evaluation loop: one record per thought, in the same order. */
  function EvaluateAll(b: Backend, problem: Problem, thoughts: seq<Thought>): (evals: seq<Evaluation>)
    ensures |evals| == |thoughts|
    ensures forall i :: 0 <= i < |thoughts| ==> evals[i] == EvaluateRecord(b, problem, thoughts[i])
    decreases |thoughts|
  {
    if |thoughts| == 0 then []
    else
      assert forall i :: 1 <= i < |thoughts| ==> thoughts[i] == thoughts[1..][i - 1];
      [EvaluateRecord(b, problem, thoughts[0])] + EvaluateAll(b, problem, thoughts[1..])
  }

  /** The evaluation loop keeps the batch's shape: each record carries the
      thought at its own position, and a failed scoring call only lowers
      that one record to 0. */
  lemma EvaluateAllShape(b: Backend, problem: Problem, thoughts: seq<Thought>)
    ensures var evals := EvaluateAll(b, problem, thoughts);
      && |evals| == |thoughts|
      && (forall i :: 0 <= i < |thoughts| ==> evals[i].thought == thoughts[i])
      && (forall i :: 0 <= i < |thoughts| && b.score(problem, thoughts[i]).Err? ==> evals[i].score == 0)
  {
  }

  /** `run_tot_orchestrator`: the best record of the single batch, or
      `None` when generation produced nothing. The one generation call is
      attempt 0. */
  function RunOrchestrator(b: Backend, problem: Problem, k: int): (r: Option<Evaluation>)
    ensures r.None? <==> GenerateThoughts(b.generate(problem, k, 0)) == []
    ensures b.generate(problem, k, 0).None? ==> r.None?
    ensures r.Some? ==>
      var evals := EvaluateAll(b, problem, b.generate(problem, k, 0).value);
      && b.generate(problem, k, 0).Some?
      && (exists i :: IsFirstMax(evals, i) && r.value == evals[i])
      && r.value.thought in b.generate(problem, k, 0).value
  {
    var thoughts := GenerateThoughts(b.generate(problem, k, 0));
    var evals := if |thoughts| > 0 then EvaluateAll(b, problem, thoughts) else [];
    if |evals| > 0 then
      assert b.generate(problem, k, 0) == Some(thoughts);
      assert EvaluateAll(b, problem, b.generate(problem, k, 0).value) == evals;
      var i := FirstMaxIndex(evals);
      assert SelectBest(evals) == evals[i] by {
        var w :| IsFirstMax(evals, w) && evals[w] == SelectBest(evals);
        FirstMaxUnique(evals, i, w);
      }
      Some(SelectBest(evals))
    else None
  }

  /** There is exactly one generation call and no retry: the result
      depends on the generation backend only through its first attempt, so
      backends that differ on every later attempt give the same result. */
  lemma SingleGeneration(b1: Backend, b2: Backend, problem: Problem, k: int)
    requires b1.generate(problem, k, 0) == b2.generate(problem, k, 0)
    requires b1.score == b2.score
    ensures RunOrchestrator(b1, problem, k) == RunOrchestrator(b2, problem, k)
  {
    var thoughts := GenerateThoughts(b1.generate(problem, k, 0));
    assert forall i :: 0 <= i < |thoughts| ==>
      EvaluateRecord(b1, problem, thoughts[i]) == EvaluateRecord(b2, problem, thoughts[i]);
    assert EvaluateAll(b1, problem, thoughts) == EvaluateAll(b2, problem, thoughts);
  }
}
