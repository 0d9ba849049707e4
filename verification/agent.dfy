/**
 * The game's router and the tool-call corrector it runs before every tool
 * execution.  The corrector works on the last message's tool calls against
 * the authoritative record; the router returns the corrected record together
 * with its decision, since the correction is made in place.
 */
module Agent {
  import opened Wrappers
  import opened Text
  import opened AgentState
  import Tools

  /** The router's three answers, in the graph's edge labels. */
  datatype Decision = End | CallTool | Continue

  datatype CorrectError =
    | NoToolCall                    // indexing the first of no tool calls
    | MissingArg(key: string)       // a KeyError while reading a call's arguments

  datatype RouteError =
    | NoMessageToRoute              // indexing the last of no messages
    | NoToolCallsField              // the last message is not a model message
    | CorrectionFailed(e: CorrectError)

  /** The only quota the router knows: both counters exactly twenty. */
  const Quota: int := 20

  /** The argument set the corrector writes for a misrouted guess check. */
  function AnswerArgs(s: State): map<string, string> {
    map["topic" := s.topic, "question" := s.mostRecentQuestion, "task_for_host" := s.taskForHost]
  }

  /** Keys other than `a` and `b` keep their values from `m` to `m'`. */
  predicate OthersKept(m: map<string, string>, m': map<string, string>, a: string, b: string) {
    forall k :: k in m && k != a && k != b ==> k in m' && m'[k] == m[k]
  }

  /** Calls no repair rule applies to. */
  predicate UntouchedByCorrector(c: ToolCall, s: State) {
    && c.name != AnswerQuestionTool
    && (c.name != CheckGuessTool || s.taskForHost !in {AnswerQuestionTool, CheckGuessTool})
  }

  /**
   * Repairing one tool call against the record:
   * - a `check_guess` issued while the task is to answer becomes an
   *   `answer_question` call with the record's topic, question and task;
   * - a `check_guess` issued while the task is to check gets the record's
   *   topic and guess;
   * - an `answer_question` call gets the record's topic;
   * - anything else passes unchanged.
   * Reading an argument the call does not have fails, as the dictionary
   * lookup does; `guess` is only read when `topic` already agrees.
   */
  function CorrectCall(c: ToolCall, s: State): (r: Result<ToolCall, CorrectError>)
    ensures r.Success? ==> r.value.id == c.id
    ensures c.name == CheckGuessTool && s.taskForHost == AnswerQuestionTool ==>
      && r.Success?
      && r.value.name == AnswerQuestionTool
      && r.value.args.Keys == {"topic", "question", "task_for_host"}
      && r.value.args["topic"] == s.topic
      && r.value.args["question"] == s.mostRecentQuestion
      && r.value.args["task_for_host"] == AnswerQuestionTool
    ensures c.name == CheckGuessTool && s.taskForHost == CheckGuessTool ==>
      && (r.Success? <==> "topic" in c.args && (c.args["topic"] != s.topic || "guess" in c.args))
      && (r.Success? ==>
            && r.value.name == c.name
            && r.value.args.Keys == c.args.Keys + {"topic", "guess"}
            && r.value.args["topic"] == s.topic
            && r.value.args["guess"] == s.guess
            && OthersKept(c.args, r.value.args, "topic", "guess"))
    ensures c.name == AnswerQuestionTool ==>
      && (r.Success? <==> "topic" in c.args)
      && (r.Success? ==>
            && r.value.name == c.name
            && r.value.args.Keys == c.args.Keys
            && r.value.args["topic"] == s.topic
            && OthersKept(c.args, r.value.args, "topic", "topic"))
    ensures UntouchedByCorrector(c, s) ==> r == Success(c)
  {
    if c.name == CheckGuessTool && s.taskForHost == AnswerQuestionTool then
      Success(c.(name := s.taskForHost, args := AnswerArgs(s)))
    else if c.name == CheckGuessTool && s.taskForHost == CheckGuessTool then
      if "topic" !in c.args then Failure(MissingArg("topic"))
      else if c.args["topic"] != s.topic then
        Success(c.(args := c.args["topic" := s.topic]["guess" := s.guess]))
      else if "guess" !in c.args then Failure(MissingArg("guess"))
      else if c.args["guess"] != s.guess then
        Success(c.(args := c.args["topic" := s.topic]["guess" := s.guess]))
      else Success(c)
    else if c.name == AnswerQuestionTool then
      if "topic" !in c.args then Failure(MissingArg("topic"))
      else if c.args["topic"] != s.topic then Success(c.(args := c.args["topic" := s.topic]))
      else Success(c)
    else
      Success(c)
  }

  /** The corrector on the whole request list: keep the first call only, then repair it. */
  function CorrectCalls(calls: seq<ToolCall>, s: State): (r: Result<seq<ToolCall>, CorrectError>)
    ensures |calls| == 0 ==> r == Failure(NoToolCall)
    ensures r.Success? ==> |r.value| == 1 && CorrectCall(calls[0], s) == Success(r.value[0])
    ensures |calls| > 0 && CorrectCall(calls[0], s).Success? ==> r.Success?
  {
    if |calls| == 0 then Failure(NoToolCall)
    else
      match CorrectCall(calls[0], s)
      case Failure(e) => Failure(e)
      case Success(c) => Success([c])
  }

  /** A misrouted `check_guess` is rewritten into a call that the answering tool's gate lets through. */
  lemma MisroutedCheckPassesAnswerGate(c: ToolCall, s: State, llmOut: string)
    requires c.name == CheckGuessTool && s.taskForHost == AnswerQuestionTool
    ensures CorrectCall(c, s).Success?
    ensures Tools.InvokeTool(CorrectCall(c, s).value, llmOut) == Success(llmOut)
  {
  }

  /** After a successful correction of a `check_guess` while checking, the check runs on the record's topic and guess. */
  lemma CorrectedCheckUsesRecord(c: ToolCall, s: State)
    requires c.name == CheckGuessTool && s.taskForHost == CheckGuessTool
    requires CorrectCall(c, s).Success?
    requires "task_for_host" in c.args
    ensures Tools.InvokeTool(CorrectCall(c, s).value, "") ==
            Tools.CheckGuess(s.topic, s.guess, c.args["task_for_host"])
  {
  }

  /** Correcting an already corrected call changes nothing. */
  lemma CorrectCallIdempotent(c: ToolCall, s: State)
    requires CorrectCall(c, s).Success?
    ensures CorrectCall(CorrectCall(c, s).value, s) == CorrectCall(c, s)
  {
  }

  /** The list-level corrector is idempotent as well. */
  lemma CorrectCallsIdempotent(calls: seq<ToolCall>, s: State)
    requires CorrectCalls(calls, s).Success?
    ensures CorrectCalls(CorrectCalls(calls, s).value, s) == CorrectCalls(calls, s)
  {
  }

  /** The record with the last message's tool calls replaced (the in-place repair). */
  function WithLastToolCalls(s: State, calls: seq<ToolCall>): (t: State)
    requires |s.messages| > 0 && Last(s.messages).AiMessage?
    ensures |t.messages| == |s.messages|
    ensures t.messages[..|s.messages| - 1] == s.messages[..|s.messages| - 1]
    ensures Last(t.messages) == Last(s.messages).(toolCalls := calls)
    ensures t.(messages := s.messages) == s
  {
    var n := |s.messages| - 1;
    s.(messages := s.messages[..n] + [s.messages[n].(toolCalls := calls)])
  }

  /** Case-insensitive equality of guess and topic, with no check that the guess is non-empty. */
  predicate GuessIsTopic(s: State) {
    Lower(s.guess) == Lower(s.topic)
  }

  /**
   * The router: end on exactly twenty questions asked and answered; else, if
   * the last message requests tools, correct the request and call the tool;
   * else end if the guess equals the topic; else hand over to the other node.
   * Reading the last message of an empty transcript, or the tool calls of a
   * message that has none, raises.
   */
  function Route(s: State): (r: Result<(Decision, State), RouteError>)
    ensures r.Success? ==> r.value.1.(messages := s.messages) == s
    ensures r.Success? ==> |r.value.1.messages| == |s.messages|  // also follows from the next two; stated for callers
    ensures r.Success? && r.value.0 != CallTool ==> r.value.1 == s
    ensures r.Success? && r.value.0 == CallTool ==>
      && |s.messages| > 0 && Last(s.messages).AiMessage?
      && Last(r.value.1.messages).AiMessage?
      && r.value.1 == WithLastToolCalls(s, Last(r.value.1.messages).toolCalls)
  {
    if s.numQuestionsAsked == Quota && s.numQuestionsAnswered == Quota then
      Success((End, s))
    else if |s.messages| == 0 then
      Failure(NoMessageToRoute)
    else if !Last(s.messages).AiMessage? then
      Failure(NoToolCallsField)
    else if |Last(s.messages).toolCalls| > 0 then
      match CorrectCalls(Last(s.messages).toolCalls, s)
      case Failure(e) => Failure(CorrectionFailed(e))
      case Success(calls) => Success((CallTool, WithLastToolCalls(s, calls)))
    else if GuessIsTopic(s) then
      Success((End, s))
    else
      Success((Continue, s))
  }

  /** Exactly twenty and twenty ends the game, whatever the transcript holds. */
  lemma QuotaEndsGame(s: State)
    requires s.numQuestionsAsked == 20 && s.numQuestionsAnswered == 20
    ensures Route(s) == Success((End, s))
  {
  }

  /**
   * The quota rule is an equality test: with any other counter values (more
   * than twenty included) a message without tool calls ends the game only if
   * the guess matches, and otherwise hands over.
   */
  lemma QuotaIsExactEquality(s: State)
    requires !(s.numQuestionsAsked == 20 && s.numQuestionsAnswered == 20)
    requires |s.messages| > 0 && Last(s.messages).AiMessage? && Last(s.messages).toolCalls == []
    ensures Route(s) == Success((if GuessIsTopic(s) then End else Continue, s))
  {
  }

  /**
   * Below the quota a tool request always leads to the tool node (never to
   * the win check), and the stored request is then the single repaired first
   * call.
   */
  lemma ToolRequestRoutesToTool(s: State)
    requires !(s.numQuestionsAsked == 20 && s.numQuestionsAnswered == 20)
    requires |s.messages| > 0 && Last(s.messages).AiMessage? && |Last(s.messages).toolCalls| > 0
    ensures Route(s).Success? <==> CorrectCall(Last(s.messages).toolCalls[0], s).Success?
    ensures Route(s).Success? ==>
      && Route(s).value.0 == CallTool
      && var t := Route(s).value.1;
         Last(t.messages).toolCalls == [CorrectCall(Last(s.messages).toolCalls[0], s).value]
  {
  }

  /**
   * Since the win check has no emptiness guard, a host reply without a tool
   * call on the starting record ends the game at once: empty guess, empty topic.
   */
  lemma InitialPlainReplyEndsGame(content: string)
    ensures var s := InitialState().(messages := InitialState().messages + [AiMessage(content, Some("host"), [])]);
      Route(s) == Success((End, s))
  {
  }

  /**
   * A host reply on the starting record that asks for a topic goes to the
   * tool node, and the topic tool then runs (its gate reads the call's own
   * task argument).
   */
  lemma InitialTopicRequestRuns(id: string, llmOut: string)
    ensures var c := ToolCall(GenerateTopicTool, map["task_for_host" := GenerateTopicTool], id);
      var s := InitialState().(messages := InitialState().messages + [AiMessage("", Some("host"), [c])]);
      && Route(s) == Success((CallTool, s))
      && Tools.InvokeTool(c, llmOut) == Success(llmOut)
  {
  }

  /**
   * The corrector never touches a `generate_topic` call and the topic tool's
   * gate reads the call's argument, not the record: mid-game a call that
   * claims the topic task still runs.
   */
  lemma TopicGateTrustsArgument(s: State, id: string, llmOut: string)
    requires s.taskForHost != GenerateTopicTool
    ensures var c := ToolCall(GenerateTopicTool, map["task_for_host" := GenerateTopicTool], id);
      && CorrectCall(c, s) == Success(c)
      && Tools.InvokeTool(c, llmOut) == Success(llmOut)
  {
  }
}
