/**
 * The shared game record (the `AgentState` dictionary) and the messages and
 * tool calls it carries.  A node never mutates the record: it returns a
 * partial update, and the graph merges it — the `messages` channel by list
 * concatenation, every other key by overwriting.
 */
module AgentState {
  import opened Wrappers

  /** The two agent nodes of the game. */
  datatype Role = Host | Player

  /** The name a node writes into `sender` and into the messages it emits. */
  function RoleName(r: Role): string {
    match r
    case Host => "host"
    case Player => "player"
  }

  /*
   * Tool names.  The three host tool names double as the values of
   * `task_for_host`; both are plain strings in the record.
   */
  const GenerateTopicTool: string := "generate_topic"
  const AnswerQuestionTool: string := "answer_question"
  const CheckGuessTool: string := "check_guess"
  const GenerateQuestionTool: string := "generate_question"
  const MakeGuessTool: string := "make_guess"

  /** A structured tool request: tool name, argument mapping and call id. */
  datatype ToolCall = ToolCall(name: string, args: map<string, string>, id: string)

  /** The message kinds that appear in a game transcript. */
  datatype Message =
    | SystemMessage(content: string, name: Option<string>)
    | HumanMessage(content: string, name: Option<string>)
    | AiMessage(content: string, name: Option<string>, toolCalls: seq<ToolCall>)
    | ToolMessage(content: string, name: Option<string>, toolCallId: string)

  /** The game record. `sender` is absent until the first node has run. */
  datatype State = State(
    messages: seq<Message>,
    sender: Option<string>,
    topic: string,
    numQuestionsAsked: int,
    numQuestionsAnswered: int,
    guess: string,
    taskForHost: string,
    mostRecentQuestion: string)

  /** A node's return value: the keys it sets (`None` = key not returned). */
  datatype Update = Update(
    messages: seq<Message>,
    sender: Option<string>,
    topic: Option<string>,
    numQuestionsAsked: Option<int>,
    numQuestionsAnswered: Option<int>,
    guess: Option<string>,
    taskForHost: Option<string>,
    mostRecentQuestion: Option<string>)

  /** An update that sets nothing but the emitted messages and the sender. */
  function MessageUpdate(msgs: seq<Message>, sender: string): Update {
    Update(msgs, Some(sender), None, None, None, None, None, None)
  }

  function Pick<T>(o: Option<T>, current: T): T {
    match o
    case Some(v) => v
    case None => current
  }

  /**
   * Folding a node's update into the record: messages are appended and a key
   * changes only when the update sets it.
   */
  function Merge(s: State, u: Update): (t: State)
    ensures |t.messages| == |s.messages| + |u.messages|
    ensures t.messages[..|s.messages|] == s.messages
    ensures t.messages[|s.messages|..] == u.messages
    ensures t.topic != s.topic ==> u.topic == Some(t.topic)
    ensures t.guess != s.guess ==> u.guess == Some(t.guess)
    ensures t.taskForHost != s.taskForHost ==> u.taskForHost == Some(t.taskForHost)
    ensures t.mostRecentQuestion != s.mostRecentQuestion ==> u.mostRecentQuestion == Some(t.mostRecentQuestion)
    ensures t.numQuestionsAsked != s.numQuestionsAsked ==> u.numQuestionsAsked == Some(t.numQuestionsAsked)
    ensures t.numQuestionsAnswered != s.numQuestionsAnswered ==> u.numQuestionsAnswered == Some(t.numQuestionsAnswered)
    ensures t.sender != s.sender ==> u.sender == t.sender && t.sender.Some?
    ensures u.topic.Some? ==> t.topic == u.topic.value
    ensures u.guess.Some? ==> t.guess == u.guess.value
    ensures u.taskForHost.Some? ==> t.taskForHost == u.taskForHost.value
    ensures u.mostRecentQuestion.Some? ==> t.mostRecentQuestion == u.mostRecentQuestion.value
    ensures u.numQuestionsAsked.Some? ==> t.numQuestionsAsked == u.numQuestionsAsked.value
    ensures u.numQuestionsAnswered.Some? ==> t.numQuestionsAnswered == u.numQuestionsAnswered.value
    ensures u.sender.Some? ==> t.sender == u.sender
  {
    State(
      s.messages + u.messages,
      if u.sender.Some? then u.sender else s.sender,
      Pick(u.topic, s.topic),
      Pick(u.numQuestionsAsked, s.numQuestionsAsked),
      Pick(u.numQuestionsAnswered, s.numQuestionsAnswered),
      Pick(u.guess, s.guess),
      Pick(u.taskForHost, s.taskForHost),
      Pick(u.mostRecentQuestion, s.mostRecentQuestion))
  }

  /** The record a game starts from. */
  function InitialState(): State {
    State(
      [SystemMessage("Let's play a game of 20 questions", None)],
      None, "", 0, 0, "", GenerateTopicTool, "")
  }

  function Last<T>(xs: seq<T>): T
    requires |xs| > 0
  {
    xs[|xs| - 1]
  }
}
