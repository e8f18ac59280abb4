/** The planner/executor agent of src/agent/planner_agent.py: a planning
    call whose reply is cut down to its outermost brace pair and parsed,
    then an executor that walks the plan one step per visit, and a router
    that ends the graph once the step counter passes the plan's end. */
module Planner {
  import opened Results

  type Task = string

  /** The parsed planning reply. Only its `plan` key is ever read, so a
      dictionary is modelled by that key alone; `EmptyDict` is `{}`. */
  datatype PlanDict = PlanDict(plan: Option<seq<Task>>)

  const EmptyDict: PlanDict := PlanDict(None)

  /** The result the executor reports when called without a step to run. */
  const ExecutionError: string := "执行错误"

  /** The result the executor reports after running `task`. */
  function Completed(task: Task): string {
    "成功完成了 '" + task + "'"
  }

  /** `str.find(c)`: the first position of `c`, or -1. */
  function Find(s: string, c: char): (r: int)
    ensures r == -1 <==> c !in s
    ensures r != -1 ==> 0 <= r < |s| && s[r] == c && c !in s[..r]
    decreases |s|
  {
    if |s| == 0 then -1
    else if s[0] == c then 0
    else
      var r := Find(s[1..], c);
      assert s[1..][..if r == -1 then 0 else r] == s[1..if r == -1 then 1 else r + 1];
      if r == -1 then -1 else r + 1
  }

  /** `str.rfind(c)`: the last position of `c`, or -1. */
  function RFind(s: string, c: char): (r: int)
    ensures r == -1 <==> c !in s
    ensures r != -1 ==> 0 <= r < |s| && s[r] == c && c !in s[r + 1..]
    decreases |s|
  {
    if |s| == 0 then -1
    else if s[|s| - 1] == c then |s| - 1
    else
      var r := RFind(s[..|s| - 1], c);
      assert s == s[..|s| - 1] + [s[|s| - 1]];
      if r == -1 then -1
      else
        assert s[r + 1..] == s[..|s| - 1][r + 1..] + [s[|s| - 1]];
        r
  }

  /** Python's slice `s[a:b]` for in-range bounds: empty when `a > b`. */
  function Slice(s: string, a: nat, b: nat): (r: string)
    requires a <= |s| && b <= |s|
    ensures a <= b ==> r == s[a..b]
    ensures a > b ==> r == []
  {
    if a <= b then s[a..b] else []
  }

  /** The brace scan of `generate_plan`: from the first '{' to the last '}'
      inclusive, or `None` when either brace is missing. */
  function ExtractJson(text: string): (r: Option<string>)
    ensures r.None? <==> '{' !in text || '}' !in text
    ensures r.Some? && r.value != [] ==>
      |r.value| >= 2 && r.value[0] == '{' && r.value[|r.value| - 1] == '}'
  {
    var start := Find(text, '{');
    var end := RFind(text, '}');
    if start == -1 || end == -1 then None
    else Some(Slice(text, start, end + 1))
  }

  /** A non-empty extraction splits the reply into a prefix without '{',
      the payload, and a suffix without '}'. */
  lemma ExtractJsonSplits(text: string)
    requires ExtractJson(text).Some? && ExtractJson(text).value != []
    ensures exists pre, post :: text == pre + ExtractJson(text).value + post && '{' !in pre && '}' !in post
  {
    var start := Find(text, '{');
    var end := RFind(text, '}');
    var v := ExtractJson(text).value;
    assert v == text[start..end + 1];
    assert text == text[..start] + v + text[end + 1..];
  }

  /** When the last '}' comes before the first '{', the slice is empty. */
  lemma ExtractJsonEmptySlice(text: string)
    requires '{' in text && '}' in text
    requires Find(text, '{') > RFind(text, '}')
    ensures ExtractJson(text) == Some([])
  {
  }

  /** The extraction is the unique split of the reply into a prefix without
      '{', a payload opening with '{' and closing with '}', and a suffix
      without '}'. */
  lemma ExtractJsonUnique(text: string, pre: string, v: string, post: string)
    requires text == pre + v + post
    requires '{' !in pre && '}' !in post
    requires |v| >= 1 && v[0] == '{' && v[|v| - 1] == '}'
    ensures ExtractJson(text) == Some(v)
  {
    var start := Find(text, '{');
    var end := RFind(text, '}');
    assert text[|pre|] == '{';
    assert text[|pre| + |v| - 1] == '}';
    assert forall j :: 0 <= j < |pre| ==> text[j] == pre[j];
    assert forall j :: 0 <= j < start ==> text[..start][j] == text[j];
    assert start == |pre|;
    assert forall j :: |pre| + |v| <= j < |text| ==> text[j] == post[j - |pre| - |v|];
    assert forall j :: end < j < |text| ==> text[end + 1..][j - end - 1] == text[j];
    assert end == |pre| + |v| - 1;
    assert text[start..end + 1] == v;
  }

  /** `generate_plan`: any failure of the planning call, of the brace scan
      or of the JSON parse yields `{}`. `reply` is the reply text, `None`
      when the call raised; `parse` stands for `json.loads`, `None` when it
      raises. An empty slice is never handed to `parse`: `json.loads` of
      the empty string always raises, so it yields `{}` directly. */
  function GeneratePlan(reply: Option<string>, parse: string -> Option<PlanDict>): (d: PlanDict)
    ensures reply.None? ==> d == EmptyDict
    ensures reply.Some? && ExtractJson(reply.value).None? ==> d == EmptyDict
    ensures reply.Some? && ExtractJson(reply.value) == Some([]) ==> d == EmptyDict
    ensures d != EmptyDict ==>
      && reply.Some? && ExtractJson(reply.value).Some? && ExtractJson(reply.value).value != []
      && parse(ExtractJson(reply.value).value) == Some(d)
    ensures reply.Some? && ExtractJson(reply.value).Some? && ExtractJson(reply.value).value != []
            && parse(ExtractJson(reply.value).value).Some? ==>
      d == parse(ExtractJson(reply.value).value).value
  {
    match reply
    case None => EmptyDict
    case Some(text) =>
      match ExtractJson(text)
      case None => EmptyDict
      case Some(json) =>
        if json == [] then EmptyDict
        else match parse(json)
        case None => EmptyDict
        case Some(plan) => plan
  }

  /** The graph state `AgentState`. */
  datatype AgentState = AgentState(problem: string, plan: seq<Task>, step: int, result: string)

  /** The input the graph is streamed: only the problem is set. */
  function Initial(problem: string): AgentState {
    AgentState(problem, [], 0, "")
  }

  /** `planner_node`: adopt the dictionary's plan, or [] when it has none,
      and point the step counter at its first entry. */
  function PlannerNode(s: AgentState, d: PlanDict): (r: AgentState)
    ensures r.step == 1
    ensures d.plan.Some? ==> r.plan == d.plan.value
    ensures d.plan.None? ==> r.plan == []
    ensures r.problem == s.problem && r.result == s.result
  {
    s.(plan := d.plan.GetOr([]), step := 1)
  }

  /** Python's `xs[i]`, negative positions counting from the end; `None`
      where it raises `IndexError`. */
  function PyIndex<T>(xs: seq<T>, i: int): (r: Option<T>)
    ensures 0 <= i < |xs| ==> r == Some(xs[i])
    ensures -|xs| <= i < 0 ==> r == Some(xs[|xs| + i])
    ensures r.None? <==> i >= |xs| || i < -|xs|
  {
    if 0 <= i < |xs| then Some(xs[i])
    else if -|xs| <= i < 0 then Some(xs[|xs| + i])
    else None
  }

  /** `executor_node`. With no plan, or a step past its end, it reports an
      error and leaves the step alone; otherwise it runs `plan[step - 1]`
      and advances the step. `None` where that index raises. */
  function ExecutorNode(s: AgentState): (r: Option<AgentState>)
    ensures (|s.plan| == 0 || s.step > |s.plan|) ==> r == Some(s.(result := ExecutionError))
    ensures 1 <= s.step <= |s.plan| ==>
      r == Some(s.(step := s.step + 1, result := Completed(s.plan[s.step - 1])))
    ensures 1 - |s.plan| <= s.step <= 0 ==>
      r == Some(s.(step := s.step + 1, result := Completed(s.plan[|s.plan| + s.step - 1])))
    ensures r.None? <==> |s.plan| > 0 && s.step < 1 - |s.plan|
  {
    if |s.plan| == 0 || s.step > |s.plan| then Some(s.(result := ExecutionError))
    else
      match PyIndex(s.plan, s.step - 1)
      case None => None
      case Some(task) => Some(s.(step := s.step + 1, result := Completed(task)))
  }

  /** The route names `should_continue` returns. */
  datatype Route = ToExecutor | ToEnd

  /** `should_continue`: the graph ends once the step passes the plan's end. */
  function ShouldContinue(s: AgentState): (r: Route)
    ensures r == ToEnd <==> s.step > |s.plan|
  {
    if s.step > |s.plan| then ToEnd else ToExecutor
  }

  /** The executor's guard and the router agree: from a positive step,
      the executor reports an error exactly when the router then ends, and
      it never raises. */
  lemma ExecutorAndRouterAgree(s: AgentState)
    requires s.step >= 1
    ensures ExecutorNode(s).Some?
    ensures ExecutorNode(s).value.result == ExecutionError ==> ShouldContinue(ExecutorNode(s).value) == ToEnd
    ensures ShouldContinue(s) == ToExecutor ==> ExecutorNode(s).value.step == s.step + 1
  {
    if |s.plan| == 0 || s.step > |s.plan| {
    } else {
      assert Completed(s.plan[s.step - 1]) != ExecutionError by {
        assert Completed(s.plan[s.step - 1])[0] == '成';
      }
    }
  }

  /** The results the executor reports during one run, and the final state. */
  datatype Execution = Execution(results: seq<string>, final: AgentState)

  /** The executor/router loop from a state the planner produced: run the
      executor, then follow `should_continue`. */
  function ExecuteFrom(s: AgentState): (x: Execution)
    requires s.step >= 1
    ensures s.step <= |s.plan| ==>
      && |x.results| == |s.plan| - s.step + 1
      && (forall i :: 0 <= i < |x.results| ==> x.results[i] == Completed(s.plan[s.step - 1 + i]))
      && x.final.step == |s.plan| + 1
    ensures s.step > |s.plan| ==> x.results == [ExecutionError] && x.final == s.(result := ExecutionError)
    ensures x.final.plan == s.plan && x.final.problem == s.problem
    decreases |s.plan| + 1 - s.step
  {
    match ExecutorNode(s)
    case None =>
      assert false;
      Execution([], s)
    case Some(s') =>
      if ShouldContinue(s') == ToEnd then Execution([s'.result], s')
      else
        var rest := ExecuteFrom(s');
        Execution([s'.result] + rest.results, rest.final)
  }

  /** `run_planner_agent`: plan once, then execute. */
  function RunPlannerAgent(problem: string, reply: Option<string>, parse: string -> Option<PlanDict>): (x: Execution)
    ensures var plan := GeneratePlan(reply, parse).plan.GetOr([]);
      && x.final.plan == plan
      && (|plan| == 0 ==> x.results == [ExecutionError])
      && (|plan| > 0 ==> |x.results| == |plan| && forall i :: 0 <= i < |plan| ==> x.results[i] == Completed(plan[i]))
  {
    ExecuteFrom(PlannerNode(Initial(problem), GeneratePlan(reply, parse)))
  }
}
