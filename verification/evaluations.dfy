/** Thoughts, scored evaluation records, and the two reductions both
    Tree-of-Thought drivers apply to a batch of records: the best score
    (`max(e["score"] for e in evals)`) and the selection of the best record
    (`max(evals, key=lambda x: x["score"])`). */
module Evaluations {
  import opened Results

  /** The problem statement every backend call is given. */
  type Problem = string

  /** One candidate reasoning step, as produced by the generation backend. */
  type Thought = string

  /** The mapping the scoring backend returns once parsed: both keys may be
      missing from the JSON object. */
  datatype ScoreReply = ScoreReply(score: Option<int>, reason: Option<string>)

  /** One evaluated thought: the thought it scores, its score and the
      justification (absent when the backend did not supply one). */
  datatype Evaluation = Evaluation(thought: Thought, score: int, reason: Option<string>)

  /** `i` is the first position among the first `n` records whose score is
      not exceeded by any of them. */
  ghost predicate IsFirstMaxIn(evals: seq<Evaluation>, n: int, i: int) {
    && 0 <= i < n <= |evals|
    && (forall j :: 0 <= j < n ==> evals[j].score <= evals[i].score)
    && (forall j :: 0 <= j < i ==> evals[j].score < evals[i].score)
  }

  /** `i` is the first position of a maximal score in the whole batch. */
  ghost predicate IsFirstMax(evals: seq<Evaluation>, i: int) {
    IsFirstMaxIn(evals, |evals|, i)
  }

  /** The first maximal position is unique: ties never yield two answers. */
  lemma FirstMaxUnique(evals: seq<Evaluation>, i: int, k: int)
    requires IsFirstMax(evals, i) && IsFirstMax(evals, k)
    ensures i == k
  {
    assert evals[i].score <= evals[k].score && evals[k].score <= evals[i].score;
  }

  /** The highest score of a non-empty batch. Python's `max` over an empty
      sequence raises, hence the precondition. */
  function BestScore(evals: seq<Evaluation>): (m: int)
    requires |evals| > 0
    ensures forall j :: 0 <= j < |evals| ==> evals[j].score <= m
    ensures exists j :: 0 <= j < |evals| && evals[j].score == m
    decreases |evals|
  {
    if |evals| == 1 then evals[0].score
    else
      var rest := BestScore(evals[1..]);
      assert forall j :: 1 <= j < |evals| ==> evals[j] == evals[1..][j - 1];
      if evals[0].score >= rest then evals[0].score else rest
  }

  /** The left-to-right scan CPython's `max(iterable, key=...)` performs:
      `best` is the record kept so far, and a later record replaces it only
      when its key is strictly greater, so the first of equal maxima wins. */
  function ScanFrom(evals: seq<Evaluation>, i: int, best: int): (r: int)
    requires 0 < i <= |evals|
    requires IsFirstMaxIn(evals, i, best)
    ensures IsFirstMax(evals, r)
    decreases |evals| - i
  {
    if i == |evals| then best
    else ScanFrom(evals, i + 1, if evals[i].score > evals[best].score then i else best)
  }

  /** Position of the record `max(evals, key=score)` returns. */
  function FirstMaxIndex(evals: seq<Evaluation>): (i: int)
    requires |evals| > 0
    ensures IsFirstMax(evals, i)
  {
    ScanFrom(evals, 1, 0)
  }

  /** The selector: the record with the highest score, the first one on ties. */
  function SelectBest(evals: seq<Evaluation>): (e: Evaluation)
    requires |evals| > 0
    ensures e in evals
    ensures e.score == BestScore(evals)
    ensures exists i :: IsFirstMax(evals, i) && evals[i] == e
  {
    var i := FirstMaxIndex(evals);
    var m := BestScore(evals);
    assert evals[i].score == m by {
      var w :| 0 <= w < |evals| && evals[w].score == m;
      assert evals[w].score <= evals[i].score;
    }
    evals[i]
  }
}
