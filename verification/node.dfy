/**
 * An agent node of the game graph: what it returns when it receives an
 * executed tool's result, how it filters the transcript before prompting its
 * model, and how it chooses between the two paths.  The model's own reply is
 * a parameter (`AgentReply`).
 */
module Node {
  import opened Wrappers
  import opened AgentState
  import Tools

  /** The fixed text the host emits instead of the topic it has just drawn. */
  const Handshake: string := "I have a secret topic for you to guess. Let's start the game."

  datatype NodeError =
    | UnknownToolResult(name: Option<string>)
    | EmptyTranscript

  /** What the node's language model answered: text and any tool requests. */
  datatype AgentReply = AgentReply(content: string, toolCalls: seq<ToolCall>)

  /** The names the tool-result handler table has an entry for. */
  predicate HasHandler(name: Option<string>) {
    name.Some? &&
    name.value in {GenerateTopicTool, AnswerQuestionTool, MakeGuessTool, GenerateQuestionTool, CheckGuessTool}
  }

  /**
   * The update a node returns for an executed tool's result: one message in
   * the node's own name, `sender` set to the node, plus the tool's effect on
   * the record.  A name without a handler raises.
   */
  function HandleToolMessage(role: Role, tm: Message, s: State): (r: Result<Update, NodeError>)
    ensures r.Success? <==> HasHandler(tm.name)
    ensures r.Failure? ==> r.error == UnknownToolResult(tm.name)
    ensures r.Success? ==> r.value.sender == Some(RoleName(role))
    ensures r.Success? ==> |r.value.messages| == 1
    ensures r.Success? ==> r.value.messages[0].AiMessage?
    ensures r.Success? ==> r.value.messages[0].name == Some(RoleName(role))
    ensures r.Success? ==> r.value.messages[0].toolCalls == []
  {
    var me := RoleName(role);
    var result := MessageUpdate([AiMessage(tm.content, Some(me), [])], me);
    if !HasHandler(tm.name) then
      Failure(UnknownToolResult(tm.name))
    else if tm.name.value == GenerateTopicTool then
      Success(result.(
        topic := Some(tm.content),
        taskForHost := Some(AnswerQuestionTool),
        messages := [AiMessage(Handshake, Some(me), [])]))
    else if tm.name.value == AnswerQuestionTool then
      Success(result.(numQuestionsAnswered := Some(s.numQuestionsAnswered + 1)))
    else if tm.name.value == MakeGuessTool then
      Success(result.(guess := Some(tm.content), taskForHost := Some(CheckGuessTool)))
    else if tm.name.value == GenerateQuestionTool then
      Success(result.(
        numQuestionsAsked := Some(s.numQuestionsAsked + 1),
        taskForHost := Some(AnswerQuestionTool),
        mostRecentQuestion := Some(tm.content)))
    else
      Success(result)
  }

  /** The text a handled tool result puts into the transcript. */
  function EmittedText(tm: Message): string {
    if tm.name == Some(GenerateTopicTool) then Handshake else tm.content
  }

  /** 1 when the result is from `tool`, else 0. */
  function CountIf(tm: Message, tool: string): int {
    if tm.name == Some(tool) then 1 else 0
  }

  /**
   * The record after the graph merges the node's update: exactly one message
   * appended, each counter raised by exactly one for its own tool and by
   * nothing otherwise, and topic, guess, task and question changed only by the
   * tool that owns them.
   */
  function ApplyToolMessage(role: Role, tm: Message, s: State): (r: Result<State, NodeError>)
    ensures r.Success? <==> tm.name.Some? && tm.name.value in Tools.ToolNodeTools
    ensures r.Success? ==> r.value.messages == s.messages + [AiMessage(EmittedText(tm), Some(RoleName(role)), [])]
    ensures r.Success? ==> r.value.sender == Some(RoleName(role))
    ensures r.Success? ==> r.value.numQuestionsAsked == s.numQuestionsAsked + CountIf(tm, GenerateQuestionTool)
    ensures r.Success? ==> r.value.numQuestionsAnswered == s.numQuestionsAnswered + CountIf(tm, AnswerQuestionTool)
    ensures r.Success? ==> r.value.topic == (if tm.name == Some(GenerateTopicTool) then tm.content else s.topic)
    ensures r.Success? ==> r.value.guess == (if tm.name == Some(MakeGuessTool) then tm.content else s.guess)
    ensures r.Success? && tm.name != Some(GenerateQuestionTool) ==> r.value.mostRecentQuestion == s.mostRecentQuestion
    ensures r.Success? && tm.name in {Some(AnswerQuestionTool), Some(CheckGuessTool)} ==> r.value.taskForHost == s.taskForHost
  {
    match HandleToolMessage(role, tm, s)
    case Failure(e) => Failure(e)
    case Success(u) => Success(Merge(s, u))
  }

  /** `generate_topic`: the topic is stored, the task moves on, the transcript only sees the handshake. */
  lemma GenerateTopicEffect(role: Role, tm: Message, s: State)
    requires tm.name == Some(GenerateTopicTool)
    ensures ApplyToolMessage(role, tm, s).Success?
    ensures var t := ApplyToolMessage(role, tm, s).value;
      && t.topic == tm.content
      && t.taskForHost == AnswerQuestionTool
      && Last(t.messages).content == Handshake
      && t.numQuestionsAsked == s.numQuestionsAsked
      && t.numQuestionsAnswered == s.numQuestionsAnswered
  {
  }

  /** `answer_question`: one more answer, the answer emitted verbatim, the task untouched. */
  lemma AnswerQuestionEffect(role: Role, tm: Message, s: State)
    requires tm.name == Some(AnswerQuestionTool)
    ensures ApplyToolMessage(role, tm, s).Success?
    ensures var t := ApplyToolMessage(role, tm, s).value;
      && t.numQuestionsAnswered == s.numQuestionsAnswered + 1
      && t.numQuestionsAsked == s.numQuestionsAsked
      && Last(t.messages).content == tm.content
      && t.taskForHost == s.taskForHost
  {
  }

  /** `generate_question`: one more question, which becomes the question to answer. */
  lemma GenerateQuestionEffect(role: Role, tm: Message, s: State)
    requires tm.name == Some(GenerateQuestionTool)
    ensures ApplyToolMessage(role, tm, s).Success?
    ensures var t := ApplyToolMessage(role, tm, s).value;
      && t.numQuestionsAsked == s.numQuestionsAsked + 1
      && t.numQuestionsAnswered == s.numQuestionsAnswered
      && t.taskForHost == AnswerQuestionTool
      && t.mostRecentQuestion == tm.content
      && Last(t.messages).content == tm.content
  {
  }

  /** `make_guess`: the guess is stored and the host is told to check it. */
  lemma MakeGuessEffect(role: Role, tm: Message, s: State)
    requires tm.name == Some(MakeGuessTool)
    ensures ApplyToolMessage(role, tm, s).Success?
    ensures var t := ApplyToolMessage(role, tm, s).value;
      && t.guess == tm.content
      && t.taskForHost == CheckGuessTool
      && t.numQuestionsAsked == s.numQuestionsAsked
      && t.numQuestionsAnswered == s.numQuestionsAnswered
  {
  }

  /** `check_guess`: only the transcript and the sender change. */
  lemma CheckGuessEffect(role: Role, tm: Message, s: State)
    requires tm.name == Some(CheckGuessTool)
    ensures ApplyToolMessage(role, tm, s).Success?
    ensures var t := ApplyToolMessage(role, tm, s).value;
      t == s.(messages := s.messages + [AiMessage(tm.content, Some(RoleName(role)), [])],
               sender := Some(RoleName(role)))
  {
  }

  /**
   * A topic result followed by an answer result: the answer is emitted
   * verbatim, one answer is counted, and the topic drawn first stays.
   */
  lemma TopicThenAnswer(s: State, topic: string, answer: string)
    ensures var t1 := ApplyToolMessage(Host, ToolMessage(topic, Some(GenerateTopicTool), "1"), s);
      && t1.Success?
      && var t2 := ApplyToolMessage(Host, ToolMessage(answer, Some(AnswerQuestionTool), "2"), t1.value);
      && t2.Success?
      && t2.value.topic == topic
      && t2.value.numQuestionsAnswered == s.numQuestionsAnswered + 1
      && Last(t2.value.messages) == AiMessage(answer, Some("host"), [])
      && t2.value.taskForHost == AnswerQuestionTool
  {
  }

  // ---------------------------------------------------------------------
  // Chat history

  datatype ChatTag = TagAi | TagHuman

  /** One line of the history handed to a node's model. */
  datatype ChatEntry = ChatEntry(tag: ChatTag, content: string)

  /** Tool results and empty messages are not shown to the model. */
  predicate Shown(m: Message) {
    !m.ToolMessage? && m.content != ""
  }

  /** A node sees its own messages as `ai` and everybody else's as `human`. */
  function Tagged(role: Role, m: Message): ChatEntry {
    ChatEntry(if m.name == Some(RoleName(role)) then TagAi else TagHuman, m.content)
  }

  /** The filtered history, defined message by message. */
  function History(role: Role, ms: seq<Message>): (r: seq<ChatEntry>)
    ensures |r| <= |ms|
    ensures forall k :: 0 <= k < |r| ==> r[k].content != ""
    decreases |ms|
  {
    if |ms| == 0 then []
    else (if Shown(ms[0]) then [Tagged(role, ms[0])] else []) + History(role, ms[1..])
  }

  /** Filtering a concatenation filters each part. */
  lemma {:induction false} HistoryAppend(role: Role, a: seq<Message>, b: seq<Message>)
    ensures History(role, a + b) == History(role, a) + History(role, b)
    decreases |a|
  {
    if |a| == 0 {
      assert a + b == b;
    } else {
      assert (a + b)[1..] == a[1..] + b;
      HistoryAppend(role, a[1..], b);
    }
  }

  /** Every position moved one place to the right. */
  function Shift(xs: seq<nat>): (ys: seq<nat>)
    ensures |ys| == |xs|
    ensures forall k :: 0 <= k < |xs| ==> ys[k] == xs[k] + 1
  {
    seq(|xs|, k requires 0 <= k < |xs| => xs[k] + 1)
  }

  /** The positions of the shown messages, in increasing order. */
  function ShownPositions(ms: seq<Message>): (idx: seq<nat>)
    ensures forall k :: 0 <= k < |idx| ==> idx[k] < |ms|
    decreases |ms|
  {
    if |ms| == 0 then []
    else (if Shown(ms[0]) then [0] else []) + Shift(ShownPositions(ms[1..]))
  }

  /** Entry `k` of the history is the `k`-th shown message, tagged. */
  lemma {:induction false} HistoryFromPositions(role: Role, ms: seq<Message>)
    ensures |ShownPositions(ms)| == |History(role, ms)|
    ensures forall k :: 0 <= k < |ShownPositions(ms)| ==>
      Shown(ms[ShownPositions(ms)[k]]) && History(role, ms)[k] == Tagged(role, ms[ShownPositions(ms)[k]])
    decreases |ms|
  {
    if |ms| > 0 {
      var tail := ms[1..];
      HistoryFromPositions(role, tail);
      var idx, rest := ShownPositions(ms), ShownPositions(tail);
      var h, hr := History(role, ms), History(role, tail);
      var head: seq<ChatEntry> := if Shown(ms[0]) then [Tagged(role, ms[0])] else [];
      var n := |head|;
      assert h == head + hr;
      assert idx == (if Shown(ms[0]) then [0] else []) + Shift(rest);
      forall k | 0 <= k < |idx|
        ensures Shown(ms[idx[k]]) && h[k] == Tagged(role, ms[idx[k]])
      {
        if k >= n {
          assert idx[k] == rest[k - n] + 1;
          assert ms[idx[k]] == tail[rest[k - n]];
          assert h[k] == hr[k - n];
        }
      }
    }
  }

  /** The positions are strictly increasing: the history keeps transcript order. */
  lemma {:induction false} ShownPositionsIncreasing(ms: seq<Message>)
    ensures forall k, l :: 0 <= k < l < |ShownPositions(ms)| ==> ShownPositions(ms)[k] < ShownPositions(ms)[l]
    decreases |ms|
  {
    if |ms| > 0 {
      ShownPositionsIncreasing(ms[1..]);
      var idx, rest := ShownPositions(ms), ShownPositions(ms[1..]);
      var n := if Shown(ms[0]) then 1 else 0;
      forall k, l | 0 <= k < l < |idx|
        ensures idx[k] < idx[l]
      {
        assert idx[l] == rest[l - n] + 1;
        if k >= n {
          assert idx[k] == rest[k - n] + 1;
        }
      }
    }
  }

  /** No shown message is left out of the history. */
  lemma {:induction false} ShownPositionsComplete(ms: seq<Message>)
    ensures forall i :: 0 <= i < |ms| && Shown(ms[i]) ==> i in ShownPositions(ms)
    decreases |ms|
  {
    if |ms| > 0 {
      var tail := ms[1..];
      ShownPositionsComplete(tail);
      var idx, rest := ShownPositions(ms), ShownPositions(tail);
      var n := if Shown(ms[0]) then 1 else 0;
      forall i | 0 <= i < |ms| && Shown(ms[i])
        ensures i in idx
      {
        if i == 0 {
          assert idx[0] == 0;
        } else {
          assert tail[i - 1] == ms[i];
          var k :| 0 <= k < |rest| && rest[k] == i - 1;
          assert idx[n + k] == i;
        }
      }
    }
  }

  /**
   * The filtered history is exactly the shown messages, in transcript order,
   * each tagged by its author: `idx` lists the positions they come from.
   */
  lemma HistoryIsShownInOrder(role: Role, ms: seq<Message>) returns (idx: seq<nat>)
    ensures |idx| == |History(role, ms)|
    ensures forall k :: 0 <= k < |idx| ==> idx[k] < |ms| && Shown(ms[idx[k]])
    ensures forall k :: 0 <= k < |idx| ==> History(role, ms)[k] == Tagged(role, ms[idx[k]])
    ensures forall k, l :: 0 <= k < l < |idx| ==> idx[k] < idx[l]
    ensures forall i :: 0 <= i < |ms| && Shown(ms[i]) ==> i in idx
  {
    idx := ShownPositions(ms);
    HistoryFromPositions(role, ms);
    ShownPositionsIncreasing(ms);
    ShownPositionsComplete(ms);
  }

  /** Nothing is dropped exactly when every message is shown. */
  lemma {:induction false} HistoryKeepsAll(role: Role, ms: seq<Message>)
    ensures |History(role, ms)| == |ms| <==> forall i :: 0 <= i < |ms| ==> Shown(ms[i])
    decreases |ms|
  {
    if |ms| > 0 {
      HistoryKeepsAll(role, ms[1..]);
      assert forall i :: 1 <= i < |ms| ==> ms[i] == ms[1..][i - 1];
    }
  }

  /**
   * `format_chat_history`: one pass over the transcript, appending each shown
   * message with its tag.
   */
  method FormatChatHistory(role: Role, messages: seq<Message>) returns (filtered: seq<ChatEntry>)
    ensures filtered == History(role, messages)
    ensures |filtered| <= |messages|
  {
    filtered := [];
    for i := 0 to |messages|
      invariant filtered == History(role, messages[..i])
    {
      var m := messages[i];
      HistoryAppend(role, messages[..i], [m]);
      assert messages[..i + 1] == messages[..i] + [m];
      if !m.ToolMessage? && m.content != "" {
        if m.name == Some(RoleName(role)) {
          filtered := filtered + [ChatEntry(TagAi, m.content)];
        } else {
          filtered := filtered + [ChatEntry(TagHuman, m.content)];
        }
      }
    }
    assert messages[..|messages|] == messages;
  }

  // ---------------------------------------------------------------------
  // Dispatch

  /**
   * A node's entry point: if the last message is an executed tool's result it
   * folds that result in, otherwise it emits its model's reply under its own
   * name.  Either way the node names itself as sender.
   */
  function CallAgent(role: Role, s: State, reply: AgentReply): (r: Result<Update, NodeError>)
    ensures |s.messages| == 0 ==> r == Failure(EmptyTranscript)
    ensures r.Success? ==> r.value.sender == Some(RoleName(role)) && |r.value.messages| == 1
    ensures r.Success? ==> r.value.messages[0].AiMessage? && r.value.messages[0].name == Some(RoleName(role))
    ensures |s.messages| > 0 && Last(s.messages).ToolMessage? ==>
      r == HandleToolMessage(role, Last(s.messages), s) && (r.Success? ==> r.value.messages[0].toolCalls == [])
    ensures |s.messages| > 0 && !Last(s.messages).ToolMessage? ==>
      r.Success? && r.value.messages[0].content == reply.content && r.value.messages[0].toolCalls == reply.toolCalls
      && r.value.topic.None? && r.value.guess.None? && r.value.taskForHost.None?
      && r.value.numQuestionsAsked.None? && r.value.numQuestionsAnswered.None?
      && r.value.mostRecentQuestion.None?
  {
    if |s.messages| == 0 then Failure(EmptyTranscript)
    else
      var last := Last(s.messages);
      if last.ToolMessage? then HandleToolMessage(role, last, s)
      else Success(MessageUpdate([AiMessage(reply.content, Some(RoleName(role)), reply.toolCalls)], RoleName(role)))
  }
}
