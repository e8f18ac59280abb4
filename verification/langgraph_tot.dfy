/** The graph-driven Tree-of-Thought loop of src/tot/langgraph_tot.py:
    generate -> evaluate -> decide -> (generate | select_best) -> END,
    written as an explicit transition function over a run configuration.
    The generation and scoring backends are the fields of `Backend`; their
    failures (transport errors, malformed JSON, a missing key) are not
    caught in this driver, so they end the run in the `Raised` node. */
module TreeOfThought {
  import opened Results
  import opened Evaluations

  /** Quality threshold on the 0-10 scale. */
  const MinQualityScore: int := 7
  /** Ceiling on the number of generation attempts. */
  const MaxRetries: int := 3

  /** The backend. `generate(problem, attempt)` is the parsed `thoughts`
      list of one generation call, made when `attempt` generations have
      completed, or `None` when the call, the JSON parse or the key lookup
      raised. `score(problem, thought)` is the parsed scoring reply, or
      `None` when the call or the parse raised. */
  datatype Backend = Backend(
    generate: (Problem, nat) -> Option<seq<Thought>>,
    score: (Problem, Thought) -> Option<ScoreReply>)

  /** The shared state threaded through the graph (`ToTState`). */
  datatype ToTState = ToTState(
    problem: Problem,
    thoughts: seq<Thought>,
    evaluations: seq<Evaluation>,
    best: Option<Evaluation>,
    retries: nat)

  /** The route names `decide_next_step` returns. */
  datatype Route = Regenerate | Select

  /** The graph node about to run; `Finished` is END and `Raised` stands for
      an exception escaping the graph. */
  datatype Node = AtGenerate | AtEvaluate | AtSelect | Finished | Raised

  datatype Config = Config(node: Node, state: ToTState)

  /** The input `run_tot` streams into the graph: retries at 0, entry at `generate`. */
  function Initial(problem: Problem): Config {
    Config(AtGenerate, ToTState(problem, [], [], None, 0))
  }

  predicate Terminal(c: Config) {
    c.node == Finished || c.node == Raised
  }

  /** The `generate` node's state update for a successful backend reply:
      the batch is replaced wholesale and one more attempt is counted. */
  function GenerateNode(s: ToTState, batch: seq<Thought>): (r: ToTState)
    ensures r.retries == s.retries + 1
    ensures r.thoughts == batch
    ensures r.(thoughts := s.thoughts, retries := s.retries) == s
  {
    s.(thoughts := batch, retries := s.retries + 1)
  }

  /** A scoring reply the `evaluate` node and the router can consume
      without raising: the call succeeded and the object has a `score`. */
  predicate Scored(reply: Option<ScoreReply>) {
    reply.Some? && reply.value.score.Some?
  }

  /** The `evaluate` node: one scoring call per thought, in order, each
      reply tagged with its thought. `None` when some reply would make the
      run raise. */
  function EvaluateBatch(b: Backend, problem: Problem, thoughts: seq<Thought>): (r: Option<seq<Evaluation>>)
    ensures r.Some? <==> forall i :: 0 <= i < |thoughts| ==> Scored(b.score(problem, thoughts[i]))
    ensures r.Some? ==> |r.value| == |thoughts|
    ensures r.Some? ==> forall i :: 0 <= i < |thoughts| ==>
      && r.value[i].thought == thoughts[i]
      && Some(r.value[i].score) == b.score(problem, thoughts[i]).value.score
      && r.value[i].reason == b.score(problem, thoughts[i]).value.reason
    decreases |thoughts|
  {
    if |thoughts| == 0 then Some([])
    else
      var reply := b.score(problem, thoughts[0]);
      var rest := EvaluateBatch(b, problem, thoughts[1..]);
      assert forall i :: 1 <= i < |thoughts| ==> thoughts[i] == thoughts[1..][i - 1];
      if !Scored(reply) then None
      else if rest.None? then None
      else Some([Evaluation(thoughts[0], reply.value.score.value, reply.value.reason)] + rest.value)
  }

  /** The router `decide_next_step`: regenerate while the batch is below the
      quality threshold and attempts remain. Python's `max` raises on an
      empty batch, hence the precondition. */
  function DecideNextStep(evals: seq<Evaluation>, retries: int): (r: Route)
    requires |evals| > 0
    ensures r == Regenerate <==>
      (forall i :: 0 <= i < |evals| ==> evals[i].score < MinQualityScore) && retries < MaxRetries
    ensures retries >= MaxRetries ==> r == Select
    ensures (exists i :: 0 <= i < |evals| && evals[i].score >= MinQualityScore) ==> r == Select
  {
    var bestScore := BestScore(evals);
    if bestScore < MinQualityScore && retries < MaxRetries then Regenerate else Select
  }

  /** The `select_best` node. */
  function SelectBestNode(s: ToTState): (r: ToTState)
    requires |s.evaluations| > 0
    ensures exists i :: IsFirstMax(s.evaluations, i) && r.best == Some(s.evaluations[i])
    ensures r.(best := s.best) == s
  {
    s.(best := Some(SelectBest(s.evaluations)))
  }

  /** The quality gate was passed: good enough, or out of attempts. */
  ghost predicate GatePassed(evals: seq<Evaluation>, retries: int)
    requires |evals| > 0
  {
    BestScore(evals) >= MinQualityScore || retries >= MaxRetries
  }

  /** What every configuration reachable from `Initial` satisfies. */
  ghost predicate Inv(c: Config) {
    && c.state.retries <= MaxRetries
    && (c.node == AtGenerate ==> c.state.retries < MaxRetries)
    && (c.node == AtSelect ==> |c.state.evaluations| > 0 && GatePassed(c.state.evaluations, c.state.retries))
    && (c.node == Finished ==>
          && |c.state.evaluations| > 0
          && GatePassed(c.state.evaluations, c.state.retries)
          && c.state.best == Some(SelectBest(c.state.evaluations)))
  }

  /** Termination measure: two steps per remaining attempt, plus selection. */
  function Potential(c: Config): nat {
    var left := if c.state.retries <= MaxRetries then MaxRetries - c.state.retries else 0;
    match c.node
    case AtGenerate => 2 * left + 1
    case AtEvaluate => 2 * left + 2
    case AtSelect => 1
    case Finished => 0
    case Raised => 0
  }

  /** One transition of the compiled graph (`create_tot_workflow`): the
      `generate -> evaluate` edge, the conditional edge after `evaluate`
      chosen by `decide_next_step`, and `select_best -> END`. */
  function Step(b: Backend, c: Config): (r: Config)
    ensures Terminal(c) ==> r == c
    ensures c.state.retries <= r.state.retries <= c.state.retries + 1
    ensures r.state.retries == c.state.retries + 1 <==> c.node == AtGenerate && r.node == AtEvaluate
    ensures c.node == AtGenerate && r.node == AtEvaluate ==>
      b.generate(c.state.problem, c.state.retries).Some? &&
      r.state == GenerateNode(c.state, b.generate(c.state.problem, c.state.retries).value)
    ensures r.node == AtSelect ==> c.node == AtEvaluate
    ensures r.state.problem == c.state.problem
    ensures c.node == AtGenerate ==>
      (r.node == AtEvaluate <==> b.generate(c.state.problem, c.state.retries).Some?)
      && (r.node == AtEvaluate || r.node == Raised)
    ensures c.node == AtEvaluate ==>
      var batch := EvaluateBatch(b, c.state.problem, c.state.thoughts);
      if batch.Some? && |batch.value| > 0 then
        && r.state == c.state.(evaluations := batch.value)
        && (r.node == AtGenerate <==> DecideNextStep(batch.value, c.state.retries) == Regenerate)
        && (r.node == AtSelect <==> DecideNextStep(batch.value, c.state.retries) == Select)
      else r.node == Raised
    ensures c.node == AtSelect && |c.state.evaluations| > 0 ==>
      r == Config(Finished, SelectBestNode(c.state))
    ensures Inv(c) ==> Inv(r)
    ensures Inv(c) && !Terminal(c) ==> Potential(r) < Potential(c)
  {
    var s := c.state;
    match c.node
    case AtGenerate =>
      (match b.generate(s.problem, s.retries)
       case None => Config(Raised, s)
       case Some(batch) => Config(AtEvaluate, GenerateNode(s, batch)))
    case AtEvaluate =>
      (match EvaluateBatch(b, s.problem, s.thoughts)
       case None => Config(Raised, s)
       case Some(evals) =>
         var s' := s.(evaluations := evals);
         if |evals| == 0 then Config(Raised, s')
         else if DecideNextStep(evals, s'.retries) == Regenerate then Config(AtGenerate, s')
         else Config(AtSelect, s'))
    case AtSelect =>
      if |s.evaluations| == 0 then Config(Raised, s)
      else Config(Finished, SelectBestNode(s))
    case Finished => c
    case Raised => c
  }

  /** The sequence of configurations the graph passes through from `c`
      until END or an exception. */
  function Run(b: Backend, c: Config): (t: seq<Config>)
    requires Inv(c)
    ensures |t| >= 1 && t[0] == c && Terminal(t[|t| - 1])
    ensures forall i :: 0 <= i < |t| - 1 ==> !Terminal(t[i]) && t[i + 1] == Step(b, t[i])
    ensures forall i :: 0 <= i < |t| ==> Inv(t[i])
    decreases Potential(c)
  {
    if Terminal(c) then [c] else [c] + Run(b, Step(b, c))
  }

  /** `run_tot`: stream the graph from its initial input. */
  function RunToT(b: Backend, problem: Problem): (t: seq<Config>)
    ensures |t| >= 1 && t[0] == Initial(problem) && Terminal(t[|t| - 1])
    ensures forall i :: 0 <= i < |t| - 1 ==> t[i + 1] == Step(b, t[i])
  {
    Run(b, Initial(problem))
  }

  /** Number of `generate` node executions in a trace. */
  function CountGenerate(t: seq<Config>): nat {
    if |t| == 0 then 0
    else (if t[0].node == AtGenerate then 1 else 0) + CountGenerate(t[1..])
  }

  /** From any reachable configuration, at most `MaxRetries - retries` more
      generation attempts happen. */
  lemma {:induction false} GenerationsBounded(b: Backend, c: Config)
    requires Inv(c)
    ensures CountGenerate(Run(b, c)) <= MaxRetries - c.state.retries
    decreases Potential(c)
  {
    var t := Run(b, c);
    if !Terminal(c) {
      var c' := Step(b, c);
      GenerationsBounded(b, c');
      assert t == [c] + Run(b, c');
      assert t[1..] == Run(b, c');
    }
  }

  /** Termination: a run performs at most three generation attempts before
      reaching END (or raising). */
  lemma AtMostThreeGenerations(b: Backend, problem: Problem)
    ensures CountGenerate(RunToT(b, problem)) <= MaxRetries
  {
    GenerationsBounded(b, Initial(problem));
  }

  /** The retry counter never decreases along a run and stays within the ceiling. */
  lemma {:induction false} RetriesMonotone(b: Backend, c: Config, i: int, j: int)
    requires Inv(c)
    requires 0 <= i <= j < |Run(b, c)|
    ensures Run(b, c)[i].state.retries <= Run(b, c)[j].state.retries <= MaxRetries
    decreases j - i
  {
    var t := Run(b, c);
    if i < j {
      RetriesMonotone(b, c, i + 1, j);
      assert t[i + 1] == Step(b, t[i]);
    }
  }

  /** A run that reaches END exposes the first best-scoring record of its
      last batch, and the quality gate let it through: the score meets the
      threshold, or all three attempts were used. */
  lemma FinishedResult(b: Backend, problem: Problem)
    ensures var last := RunToT(b, problem)[|RunToT(b, problem)| - 1];
      last.node == Finished ==>
      && |last.state.evaluations| > 0
      && last.state.best.Some?
      && (exists i :: IsFirstMax(last.state.evaluations, i) && last.state.best.value == last.state.evaluations[i])
      && (last.state.best.value.score >= MinQualityScore || last.state.retries == MaxRetries)
  {
    var t := RunToT(b, problem);
    assert Inv(t[|t| - 1]);
  }

  /** A batch reply the run can use: the generation call succeeded with at
      least one thought, and every thought's scoring reply has a score. */
  ghost predicate UsableBatch(b: Backend, problem: Problem, reply: Option<seq<Thought>>) {
    && reply.Some?
    && |reply.value| > 0
    && forall i :: 0 <= i < |reply.value| ==> Scored(b.score(problem, reply.value[i]))
  }

  /** The backend answers every one of the (at most three) generation
      attempts of a run on `problem` with a usable batch. */
  ghost predicate Reliable(b: Backend, problem: Problem) {
    forall n: nat :: n < MaxRetries ==> UsableBatch(b, problem, b.generate(problem, n))
  }

  /** From a reachable configuration, a reliable backend drives the run to
      END: it never raises. */
  lemma {:induction false} ReliableRunFinishes(b: Backend, c: Config)
    requires Inv(c) && Reliable(b, c.state.problem)
    requires c.node != Raised
    requires c.node == AtEvaluate ==> UsableBatch(b, c.state.problem, Some(c.state.thoughts))
    ensures Run(b, c)[|Run(b, c)| - 1].node == Finished
    decreases Potential(c)
  {
    if c.node != Finished {
      var c' := Step(b, c);
      if c.node == AtGenerate {
        assert UsableBatch(b, c.state.problem, b.generate(c.state.problem, c.state.retries));
      } else if c.node == AtEvaluate {
        var batch := EvaluateBatch(b, c.state.problem, c.state.thoughts);
        assert batch.Some? && |batch.value| > 0;
      }
      assert c'.node != Raised;
      ReliableRunFinishes(b, c');
      assert Run(b, c) == [c] + Run(b, c');
    }
  }

  /** A run ends normally whenever the backend answers each generation
      attempt with a non-empty batch that can be scored: the retry loop
      reaches select_best and END. */
  lemma ReliableBackendFinishes(b: Backend, problem: Problem)
    requires Reliable(b, problem)
    ensures RunToT(b, problem)[|RunToT(b, problem)| - 1].node == Finished
  {
    ReliableRunFinishes(b, Initial(problem));
  }

  /** A backend whose every batch is one low-scoring thought. */
  function LowQualityBackend(): Backend {
    Backend((p: Problem, n: nat) => Some(["step A"]),
            (p: Problem, th: Thought) => Some(ScoreReply(Some(2), None)))
  }

  /** One step of `LowQualityBackend` from an `evaluate` node: the batch is
      the single record scoring 2, and the router sends it back to
      `generate` until the third attempt. */
  lemma LowQualityEvaluateStep(s: ToTState)
    requires s.thoughts == ["step A"] && 1 <= s.retries <= MaxRetries
    ensures var evals := [Evaluation("step A", 2, None)];
      Step(LowQualityBackend(), Config(AtEvaluate, s))
        == Config(if s.retries < MaxRetries then AtGenerate else AtSelect, s.(evaluations := evals))
  {
    var b := LowQualityBackend();
    var evals := [Evaluation("step A", 2, None)];
    var reply := b.score(s.problem, s.thoughts[0]);
    assert reply == Some(ScoreReply(Some(2), None));
    assert Scored(reply);
    assert s.thoughts[1..] == [];
    assert EvaluateBatch(b, s.problem, s.thoughts[1..]) == Some([]);
    assert [Evaluation(s.thoughts[0], reply.value.score.value, reply.value.reason)] + [] == evals;
    assert EvaluateBatch(b, s.problem, s.thoughts) == Some(evals);
    assert BestScore(evals) == 2;
  }

  /** One step of `LowQualityBackend` from a `generate` node. */
  lemma LowQualityGenerateStep(s: ToTState)
    ensures Step(LowQualityBackend(), Config(AtGenerate, s))
      == Config(AtEvaluate, s.(thoughts := ["step A"], retries := s.retries + 1))
  {
    assert LowQualityBackend().generate(s.problem, s.retries) == Some(["step A"]);
  }

  /** The configurations `LowQualityBackend` drives a run through. */
  lemma LowQualityTrace(problem: Problem) returns (t: seq<Config>)
    ensures RunToT(LowQualityBackend(), problem) == t
    ensures |t| == 8
    ensures t[0].node == AtGenerate && t[2].node == AtGenerate && t[4].node == AtGenerate
    ensures t[1].node == AtEvaluate && t[3].node == AtEvaluate && t[5].node == AtEvaluate
    ensures t[6].node == AtSelect
    ensures t[7].node == Finished && t[7].state.retries == MaxRetries
    ensures t[7].state.best == Some(Evaluation("step A", 2, None))
  {
    var b := LowQualityBackend();
    var evals := [Evaluation("step A", 2, None)];
    var s0 := ToTState(problem, [], [], None, 0);
    var s1 := s0.(thoughts := ["step A"], retries := s0.retries + 1);
    var s2 := s1.(evaluations := evals);
    var s3 := s2.(thoughts := ["step A"], retries := s2.retries + 1);
    var s4 := s3.(evaluations := evals);
    var s5 := s4.(thoughts := ["step A"], retries := s4.retries + 1);
    var s6 := s5.(evaluations := evals);
    var s7 := s6.(best := Some(evals[0]));
    t := RunToT(b, problem);
    assert t[0] == Config(AtGenerate, s0);
    assert t[1] == Config(AtEvaluate, s1) by {
      LowQualityGenerateStep(s0);
    }
    assert t[2] == Config(AtGenerate, s2) by {
      LowQualityEvaluateStep(s1);
    }
    assert t[3] == Config(AtEvaluate, s3) by {
      LowQualityGenerateStep(s2);
    }
    assert t[4] == Config(AtGenerate, s4) by {
      LowQualityEvaluateStep(s3);
    }
    assert t[5] == Config(AtEvaluate, s5) by {
      LowQualityGenerateStep(s4);
    }
    assert t[6] == Config(AtSelect, s6) by {
      LowQualityEvaluateStep(s5);
    }
    assert t[7] == Config(Finished, s7) by {
      assert SelectBest(evals) == evals[0];
    }
  }

  /** The ceiling is reached as a normal exit: with every batch scoring 2,
      the run makes exactly three attempts and then selects from the third
      batch. */
  lemma CeilingIsReached(problem: Problem)
    ensures var t := RunToT(LowQualityBackend(), problem);
      && CountGenerate(t) == 3
      && t[|t| - 1].node == Finished
      && t[|t| - 1].state.retries == MaxRetries
      && t[|t| - 1].state.best == Some(Evaluation("step A", 2, None))
  {
    var t := LowQualityTrace(problem);
    assert t[7..][1..] == [];
    assert CountGenerate(t[7..]) == 0;
    assert t[6..][1..] == t[7..];
    assert CountGenerate(t[6..]) == 0;
    assert t[5..][1..] == t[6..];
    assert CountGenerate(t[5..]) == 0;
    assert t[4..][1..] == t[5..];
    assert CountGenerate(t[4..]) == 1;
    assert t[3..][1..] == t[4..];
    assert CountGenerate(t[3..]) == 1;
    assert t[2..][1..] == t[3..];
    assert CountGenerate(t[2..]) == 2;
    assert t[1..][1..] == t[2..];
    assert CountGenerate(t[1..]) == 2;
  }
}
