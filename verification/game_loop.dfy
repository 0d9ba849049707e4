/**
 * The game graph: host and player nodes, each followed by the router, and a
 * tool node that hands control back to whichever node sent the request.  The
 * models' replies and the tools' language-model outputs arrive as one
 * `StepInput` per graph step.
 */
module GameLoop {
  import opened Wrappers
  import opened AgentState
  import opened Agent
  import Node
  import Tools

  datatype GraphNode = HostNode | PlayerNode | ToolNode | Finished

  /** The outside world's contribution to one step. */
  datatype StepInput = StepInput(reply: Node.AgentReply, toolOutput: string)

  datatype GameError =
    | NodeFailed(nodeError: Node.NodeError)
    | RouterFailed(routeError: RouteError)
    | ToolFailed(toolError: Tools.ToolError)
    | NoToolRequest
    | UnknownSender(sender: Option<string>)
    | RecursionLimit

  /** The graph's step budget for one game. */
  const RecursionLimitSteps: nat := 200

  /** The router's edges out of an agent node. */
  function AfterAgent(role: Role, d: Decision): GraphNode {
    match d
    case End => Finished
    case CallTool => ToolNode
    case Continue => if role == Host then PlayerNode else HostNode
  }

  /** The tool node's edge: back to the node named in `sender`. */
  function AfterTools(sender: Option<string>): Result<GraphNode, GameError> {
    if sender == Some("host") then Success(HostNode)
    else if sender == Some("player") then Success(PlayerNode)
    else Failure(UnknownSender(sender))
  }

  /** Every requested call executed in order, one tool message per call. */
  function RunTools(calls: seq<ToolCall>, llmOut: string): (r: Result<seq<Message>, Tools.ToolError>)
    ensures r.Success? ==> |r.value| == |calls|
    ensures r.Success? ==> forall k :: 0 <= k < |calls| ==>
      r.value[k].ToolMessage? && r.value[k].name == Some(calls[k].name) && r.value[k].toolCallId == calls[k].id
    ensures r.Success? ==> forall k :: 0 <= k < |calls| ==> Tools.InvokeTool(calls[k], llmOut) == Success(r.value[k].content)
    ensures r.Success? <==> forall k :: 0 <= k < |calls| ==> Tools.InvokeTool(calls[k], llmOut).Success?
    ensures r.Failure? ==> exists k :: 0 <= k < |calls| && Tools.InvokeTool(calls[k], llmOut) == Failure(r.error)
  {
    if |calls| == 0 then Success([])
    else
      match Tools.InvokeTool(calls[0], llmOut)
      case Failure(e) => Failure(e)
      case Success(out) =>
        match RunTools(calls[1..], llmOut)
        case Failure(e) => Failure(e)
        case Success(rest) => Success([ToolMessage(out, Some(calls[0].name), calls[0].id)] + rest)
  }

  function RoleAt(at: GraphNode): Role
    requires at == HostNode || at == PlayerNode
  {
    if at == HostNode then Host else Player
  }

  /** One graph step; the finished graph stays where it is. */
  function Step(at: GraphNode, s: State, input: StepInput): (r: Result<(GraphNode, State), GameError>)
    ensures at == Finished ==> r == Success((Finished, s))
    ensures r.Success? && at == ToolNode ==> r.value.0 == HostNode || r.value.0 == PlayerNode
    ensures r.Success? && r.value.0 == ToolNode ==> at == HostNode || at == PlayerNode
  {
    if at == Finished then Success((Finished, s))
    else if at == ToolNode then
      if |s.messages| == 0 || !Last(s.messages).AiMessage? then Failure(NoToolRequest)
      else
        match RunTools(Last(s.messages).toolCalls, input.toolOutput)
        case Failure(e) => Failure(ToolFailed(e))
        case Success(results) =>
          match AfterTools(s.sender)
          case Failure(e) => Failure(e)
          case Success(next) => Success((next, s.(messages := s.messages + results)))
    else
      var role := RoleAt(at);
      match Node.CallAgent(role, s, input.reply)
      case Failure(e) => Failure(NodeFailed(e))
      case Success(u) =>
        match Route(Merge(s, u))
        case Failure(e) => Failure(RouterFailed(e))
        case Success((d, t)) => Success((AfterAgent(role, d), t))
  }

  /** The shape of a graph step, so that the driver can be stated for any step. */
  type StepFn = (GraphNode, State, StepInput) -> Result<(GraphNode, State), GameError>

  /**
   * Driving the graph over a sequence of inputs until it finishes, the inputs
   * run out, or the step budget is spent.
   */
  function Run(step: StepFn, at: GraphNode, s: State, inputs: seq<StepInput>, budget: nat): (r: Result<(GraphNode, State), GameError>)
    ensures r.Success? && r.value.0 != Finished ==> |inputs| <= budget
    ensures at == Finished ==> r == Success((at, s))
    decreases |inputs|
  {
    if at == Finished || |inputs| == 0 then Success((at, s))
    else if budget == 0 then Failure(RecursionLimit)
    else
      match step(at, s, inputs[0])
      case Failure(e) => Failure(e)
      case Success((next, t)) => Run(step, next, t, inputs[1..], budget - 1)
  }

  /** A whole game from the starting record, entered at the host node. */
  function Game(inputs: seq<StepInput>): Result<(GraphNode, State), GameError> {
    Run(Step, HostNode, InitialState(), inputs, RecursionLimitSteps)
  }

  /**
   * The budget only caps a run: a game offered no more steps than the budget
   * never stops with `RecursionLimit`.
   */
  lemma {:induction false} WithinBudget(at: GraphNode, s: State, inputs: seq<StepInput>, budget: nat)
    requires |inputs| <= budget
    ensures Run(Step, at, s, inputs, budget) != Failure(RecursionLimit)
    decreases |inputs|
  {
    if at != Finished && |inputs| > 0 {
      match Step(at, s, inputs[0])
      case Failure(e) =>
        assert Run(Step, at, s, inputs, budget) == Failure(e);
        assert e != RecursionLimit by {
          assert Step(at, s, inputs[0]) != Failure(RecursionLimit);
        }
      case Success((next, t)) =>
        WithinBudget(next, t, inputs[1..], budget - 1);
    }
  }

  /** The values `task_for_host` can hold. */
  predicate ValidTask(task: string) {
    task in {GenerateTopicTool, AnswerQuestionTool, CheckGuessTool}
  }

  /** Per-step facts: counters move by at most one, the task stays a task, the transcript grows. */
  predicate StepBounds(s: State, t: State) {
    && s.numQuestionsAsked <= t.numQuestionsAsked <= s.numQuestionsAsked + 1
    && s.numQuestionsAnswered <= t.numQuestionsAnswered <= s.numQuestionsAnswered + 1
    && (ValidTask(s.taskForHost) ==> ValidTask(t.taskForHost))
    && |s.messages| <= |t.messages|
  }

  /** Every successful step respects the per-step bounds. */
  lemma StepRespectsBounds(at: GraphNode, s: State, input: StepInput)
    requires Step(at, s, input).Success?
    ensures StepBounds(s, Step(at, s, input).value.1)
  {
  }

  /** Run-level facts over `n` steps. */
  predicate RunBounds(s: State, t: State, n: nat) {
    && s.numQuestionsAsked <= t.numQuestionsAsked <= s.numQuestionsAsked + n
    && s.numQuestionsAnswered <= t.numQuestionsAnswered <= s.numQuestionsAnswered + n
    && (ValidTask(s.taskForHost) ==> ValidTask(t.taskForHost))
  }

  /** A step function whose every successful step keeps the per-step bounds. */
  ghost predicate BoundedSteps(step: StepFn) {
    forall at, s, i :: step(at, s, i).Success? ==> StepBounds(s, step(at, s, i).value.1)
  }

  /** The game's step function is bounded. */
  lemma StepIsBounded()
    ensures BoundedSteps(Step)
  {
    forall at, s, i | Step(at, s, i).Success?
      ensures StepBounds(s, Step(at, s, i).value.1)
    {
      StepRespectsBounds(at, s, i);
    }
  }

  /** Bounded steps give bounded runs: `n` steps move each counter by at most `n`. */
  lemma {:induction false} RunBoundsHold(step: StepFn, at: GraphNode, s: State, inputs: seq<StepInput>, budget: nat)
    requires BoundedSteps(step)
    requires Run(step, at, s, inputs, budget).Success?
    ensures RunBounds(s, Run(step, at, s, inputs, budget).value.1, |inputs|)
    decreases |inputs|
  {
    if at != Finished && |inputs| > 0 {
      var st := step(at, s, inputs[0]).value;
      RunBoundsHold(step, st.0, st.1, inputs[1..], budget - 1);
    }
  }

  /**
   * Over any game the counters never decrease, each grows by at most one per
   * step taken, and `task_for_host` never leaves its three values.
   */
  lemma GameCounters(inputs: seq<StepInput>)
    requires Game(inputs).Success?
    ensures var t := Game(inputs).value.1;
      && 0 <= t.numQuestionsAsked <= |inputs|
      && 0 <= t.numQuestionsAnswered <= |inputs|
      && ValidTask(t.taskForHost)
  {
    StepIsBounded();
    RunBoundsHold(Step, HostNode, InitialState(), inputs, RecursionLimitSteps);
  }

  /**
   * The router truncates before the tool node runs: whenever an agent step
   * leads to the tool node, the record holds exactly one tool request.
   */
  lemma ToolNodeSeesOneCall(at: GraphNode, s: State, input: StepInput)
    requires at == HostNode || at == PlayerNode
    requires Step(at, s, input).Success? && Step(at, s, input).value.0 == ToolNode
    ensures var t := Step(at, s, input).value.1;
      |t.messages| > 0 && Last(t.messages).AiMessage? && |Last(t.messages).toolCalls| == 1
  {
  }

  /** A tool step hands control back to the node that sent the request. */
  lemma ToolStepReturnsToSender(s: State, input: StepInput, role: Role)
    requires s.sender == Some(RoleName(role))
    requires Step(ToolNode, s, input).Success?
    ensures Step(ToolNode, s, input).value.0 == (if role == Host then HostNode else PlayerNode)
  {
  }

  /**
   * Once a guess-check result has come back, the host's step ends the game
   * whenever guess and topic agree up to case, whatever the counters, the
   * check's text and the host model's reply.
   */
  lemma MatchingGuessEndsGame(s: State, input: StepInput)
    requires |s.messages| > 0 && Last(s.messages).ToolMessage? && Last(s.messages).name == Some(CheckGuessTool)
    requires GuessIsTopic(s)
    ensures Step(HostNode, s, input).Success?
    ensures Step(HostNode, s, input).value.0 == Finished
  {
  }
}
