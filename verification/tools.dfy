/**
 * The five tools and the tool node that serves them.  The language-model
 * half of each tool is an arbitrary string `llmOut`; what remains is the
 * task gate of the three host tools and the deterministic guess check.
 */
module Tools {
  import opened Wrappers
  import opened Text
  import opened AgentState

  datatype ToolError =
    | WrongTask(tool: string, task: string)
    | MissingArgument(tool: string, arg: string)
    | UnknownTool(name: string)

  const HostTools: seq<string> := [GenerateTopicTool, AnswerQuestionTool, CheckGuessTool]
  const PlayerTools: seq<string> := [GenerateQuestionTool, MakeGuessTool]

  /** The tools the graph's tool node is built over. */
  const ToolNodeTools: seq<string> := HostTools + PlayerTools

  const Congratulations: string := "Congratulations, you are right!"
  const Rejection: string := "Sorry, you are wrong. Please ask another question."

  /** The host's topic tool: usable only while the task is to generate a topic. */
  function GenerateTopic(taskForHost: string, llmOut: string): (r: Result<string, ToolError>)
    ensures r.Success? <==> taskForHost == GenerateTopicTool
    ensures r.Success? ==> r.value == llmOut
  {
    if taskForHost != GenerateTopicTool then Failure(WrongTask(GenerateTopicTool, taskForHost))
    else Success(llmOut)
  }

  /** The host's answering tool: usable only while the task is to answer. */
  function AnswerQuestion(topic: string, question: string, taskForHost: string, llmOut: string): (r: Result<string, ToolError>)
    ensures r.Success? <==> taskForHost == AnswerQuestionTool
    ensures r.Success? ==> r.value == llmOut
  {
    if taskForHost != AnswerQuestionTool then Failure(WrongTask(AnswerQuestionTool, taskForHost))
    else Success(llmOut)
  }

  /** The guess is right when, ignoring case, it is the topic or has the topic inside it. */
  predicate GuessMatches(topic: string, guess: string) {
    Lower(guess) == Lower(topic) || Contains(Lower(guess), Lower(topic))
  }

  /** The equality half of the guess rule is subsumed by the substring half. */
  lemma GuessMatchesIffOccurs(topic: string, guess: string)
    ensures GuessMatches(topic, guess) <==> Occurs(Lower(guess), Lower(topic))
  {
    var g, t := Lower(guess), Lower(topic);
    ContainsIffOccurs(g, t);
    if g == t {
      assert g[0..|t|] == t;
      assert OccursAt(g, t, 0);
    }
  }

  /**
   * The host's guess check.  Usable only while the task is to check a guess;
   * then it congratulates exactly when the lower-cased topic occurs somewhere
   * in the lower-cased guess, and rejects otherwise.
   */
  function CheckGuess(topic: string, guess: string, taskForHost: string): (r: Result<string, ToolError>)
    ensures r.Success? <==> taskForHost == CheckGuessTool
    ensures r.Success? ==> r.value == Congratulations || r.value == Rejection
    ensures r.Success? ==>
      (r.value == Congratulations <==> Occurs(Lower(guess), Lower(topic)))
  {
    GuessMatchesIffOccurs(topic, guess);
    if taskForHost != CheckGuessTool then Failure(WrongTask(CheckGuessTool, taskForHost))
    else if GuessMatches(topic, guess) then Success(Congratulations)
    else Success(Rejection)
  }

  /** An argument of a call, or the validation error naming it. */
  function Arg(call: ToolCall, key: string): Result<string, ToolError> {
    if key in call.args then Success(call.args[key]) else Failure(MissingArgument(call.name, key))
  }

  /**
   * Running one tool call in the tool node: look the tool up, read its
   * arguments, run it.  The player tools are pure language-model calls.
   */
  function InvokeTool(call: ToolCall, llmOut: string): (r: Result<string, ToolError>)
    ensures call.name !in ToolNodeTools ==> r == Failure(UnknownTool(call.name))
    ensures r.Success? && call.name in HostTools ==>
      "task_for_host" in call.args && call.args["task_for_host"] == call.name
    ensures r.Success? && call.name == CheckGuessTool ==> r.value == Congratulations || r.value == Rejection
    ensures r.Success? && call.name != CheckGuessTool ==> r.value == llmOut
  {
    if call.name == GenerateTopicTool then
      match Arg(call, "task_for_host")
      case Failure(e) => Failure(e)
      case Success(task) => GenerateTopic(task, llmOut)
    else if call.name == AnswerQuestionTool then
      match (Arg(call, "topic"), Arg(call, "question"), Arg(call, "task_for_host"))
      case (Success(topic), Success(question), Success(task)) => AnswerQuestion(topic, question, task, llmOut)
      case (Failure(e), _, _) => Failure(e)
      case (_, Failure(e), _) => Failure(e)
      case (_, _, Failure(e)) => Failure(e)
    else if call.name == CheckGuessTool then
      match (Arg(call, "topic"), Arg(call, "guess"), Arg(call, "task_for_host"))
      case (Success(topic), Success(guess), Success(task)) => CheckGuess(topic, guess, task)
      case (Failure(e), _, _) => Failure(e)
      case (_, Failure(e), _) => Failure(e)
      case (_, _, Failure(e)) => Failure(e)
    else if call.name == GenerateQuestionTool || call.name == MakeGuessTool then
      match Arg(call, "messages")
      case Failure(e) => Failure(e)
      case Success(_) => Success(llmOut)
    else
      Failure(UnknownTool(call.name))
  }

  /** An empty topic is inside every guess, so a gated check always congratulates. */
  lemma EmptyTopicAlwaysWins(guess: string)
    ensures CheckGuess("", guess, CheckGuessTool) == Success(Congratulations)
  {
  }

  /** A guess equal to the topic up to case is accepted. */
  lemma ExactMatchWins(topic: string, guess: string)
    requires Lower(guess) == Lower(topic)
    ensures CheckGuess(topic, guess, CheckGuessTool) == Success(Congratulations)
  {
  }

  /** A guess that merely embeds the topic is accepted too. */
  lemma EmbeddedTopicWins(topic: string, prefix: string, suffix: string)
    ensures CheckGuess(topic, prefix + topic + suffix, CheckGuessTool) == Success(Congratulations)
  {
    var g := Lower(prefix + topic + suffix);
    assert g[|prefix|..|prefix| + |topic|] == Lower(topic);
    assert OccursAt(g, Lower(topic), |prefix|);
  }

  /**
   * The host and player tool lists split the tool node's five tools: every
   * tool belongs to exactly one role.
   */
  lemma ToolPartition()
    ensures forall t :: t in HostTools ==> t !in PlayerTools
    ensures forall t :: t in ToolNodeTools <==> t in HostTools || t in PlayerTools
    ensures |ToolNodeTools| == 5
    ensures forall i, j :: 0 <= i < j < |ToolNodeTools| ==> ToolNodeTools[i] != ToolNodeTools[j]
  {
  }
}
