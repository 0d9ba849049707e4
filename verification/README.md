# 20 Questions turn engine — a Dafny model

This project models the turn-coordination engine of a two-role "20 Questions"
game. A **host** node picks a secret topic and answers yes/no questions. A
**player** node asks questions and eventually guesses. Every language-model call
is replaced by an arbitrary string (or an arbitrary list of tool requests). What
remains is exact:

- the **router** (`Game._router`), which ends the game, sends a tool request to
  the tool node, or hands over to the other node;
- the **tool-call corrector** (`Game._correct_tool_call`), which keeps only the
  first tool request and repairs it against the authoritative record;
- the **effect applier** (`GameAgentNode.handle_tool_message`), which folds an
  executed tool's result into the record;
- the **chat-history filter** (`format_chat_history`) and the node's dispatch
  (`call_agent`);
- the **tools' task gates**, the deterministic **guess check**, and the
  host/player tool partition;
- the graph itself, as a step function driven for at most 200 steps
  (the graph's `recursion_limit`).

The record is `AgentState.State`. Nodes return partial updates
(`AgentState.Update`). `AgentState.Merge` folds an update into the record: the
message list by concatenation, every other key by overwriting.

Files, one module each: `wrappers.dfy` (Option/Result), `text.dfy` (ASCII
`lower()` and substring search), `agent_state.dfy` (utils/state.py and the
initial record), `tools.dfy` (utils/tools.py), `node.dfy` (utils/node.py),
`agent.dfy` (router and corrector from agent.py), `game_loop.dfy` (the graph
wiring of agent.py).

Behaviours of the code as written worth noting:

- The quota rule is an exact `== 20` on both counters. `Agent.QuotaIsExactEquality`
  shows that 21/21 does not end the game by quota.
- The win check compares guess and topic with no emptiness test. `Agent.InitialPlainReplyEndsGame`
  shows that the starting record ends the game if the host answers without a tool call.
- The corrector runs on any node's request, not only the host's.
- The guess check also accepts a guess that merely contains the topic.
- The task gates read the **call's own** `task_for_host` argument, not the record.
  The corrector never repairs `generate_topic` calls, so a mid-game call that
  claims the topic task still runs (`Agent.TopicGateTrustsArgument`).

## Model

| member | source | states |
|---|---|---|
| Text.ContainsIffOccurs | utils/tools.py:110 | The scanning substring test (`topic in guess`) holds exactly when the topic occurs at some position of the guess; the empty string is found everywhere. |
| Tools.GenerateTopic | utils/tools.py:62-63 | The topic tool succeeds iff its `task_for_host` argument is `generate_topic`; on success it returns the model's topic. |
| Tools.AnswerQuestion | utils/tools.py:85-86 | The answering tool succeeds iff its `task_for_host` argument is `answer_question`; on success it returns the model's answer. |
| Tools.CheckGuess | utils/tools.py:107-113 | The guess check succeeds iff its `task_for_host` argument is `check_guess`; it then returns only the congratulation or the rejection text, congratulating exactly when the lower-cased topic occurs in the lower-cased guess. |
| Tools.GuessMatchesIffOccurs | utils/tools.py:110 | The two-part rule (equal, or contained) is the same as "the topic occurs in the guess": the equality half adds nothing. |
| Tools.EmptyTopicAlwaysWins | utils/tools.py:110-111 | With an empty topic every gated guess check congratulates. |
| Tools.ExactMatchWins | utils/tools.py:110-111 | A guess equal to the topic up to ASCII case is congratulated. |
| Tools.EmbeddedTopicWins | utils/tools.py:110-111 | Any guess of the form prefix + topic + suffix is congratulated. |
| Tools.InvokeTool | utils/tools.py:116-128 | The tool node rejects a name outside its five tools; a host tool succeeds only if the call's own `task_for_host` argument names that tool; a guess check yields one of its two texts; every other tool yields the model's output. |
| Tools.ToolPartition | utils/tools.py:116-128 | The host tools and the player tools are disjoint, together make up the tool node's list, and that list holds five distinct names. |
| AgentState.Merge | utils/state.py:5-13 | Merging a node's update appends its messages after the old transcript, which stays a prefix; every other key the update sets takes the update's value, and a key changes only when the update sets it. |
| Node.HandleToolMessage | utils/node.py:43-93 | A tool result with a handler yields one AI message in the node's own name, without tool calls, and `sender` set to the node; a name without a handler raises and yields no update. |
| Node.ApplyToolMessage | utils/node.py:43-93 | After merging, a handled result adds exactly one message; the question counter rises by exactly one for `generate_question` and not otherwise; the answer counter likewise for `answer_question`; topic and guess change only through their own tools; `answer_question` and `check_guess` leave the task alone; handling succeeds iff the name is one of the tool node's tools. |
| Node.GenerateTopicEffect | utils/node.py:45-52 | `generate_topic` stores the topic, moves the task to `answer_question`, emits only the handshake text and leaves both counters alone. |
| Node.AnswerQuestionEffect | utils/node.py:54-56 | `answer_question` adds one answer, emits the answer verbatim and keeps the task. |
| Node.MakeGuessEffect | utils/node.py:58-61 | `make_guess` stores the guess, moves the task to `check_guess` and leaves both counters alone. |
| Node.GenerateQuestionEffect | utils/node.py:63-67 | `generate_question` adds one question, makes it the question to answer, moves the task to `answer_question` and emits the question. |
| Node.CheckGuessEffect | utils/node.py:69-71 | `check_guess` changes nothing but the transcript and the sender. |
| Node.TopicThenAnswer | utils/node.py:43-93 | A topic result then an answer result leaves the drawn topic in place, counts one answer, emits the answer verbatim and leaves the task at `answer_question`. |
| Node.History | utils/node.py:95-108 | The filtered history is never longer than the transcript and has no empty entry. |
| Node.HistoryAppend | utils/node.py:95-108 | Filtering a concatenated transcript filters each part and concatenates, so appending messages only appends history. |
| Node.HistoryIsShownInOrder | utils/node.py:95-108 | The filtered history is exactly the non-tool, non-empty messages, in transcript order, each tagged `ai` when its name is the node's role and `human` otherwise. |
| Node.HistoryKeepsAll | utils/node.py:95-108 | The history is as long as the transcript iff no message is a tool message or empty. |
| Node.FormatChatHistory | utils/node.py:95-108 | The loop over the transcript produces the filtered history, never longer than the transcript. |
| Node.CallAgent | utils/node.py:137-151 | A node takes the tool-result path iff the last message is a tool message, and then emits a message without tool requests; otherwise it emits its model's reply with its tool requests and sets no other key (topic, guess, task, question, counters); an empty transcript raises; either way the node names itself as sender. |
| Agent.CorrectCall | agent.py:70-102 | A misrouted `check_guess` (task `answer_question`) becomes exactly `answer_question` with the record's topic, question and task; a `check_guess` while checking gets the record's topic and guess with other arguments kept, failing only on the missing keys Python would read; an `answer_question` call gets the record's topic with other arguments kept; every other call is returned unchanged; the call id is kept. |
| Agent.CorrectCalls | agent.py:65-71 | After correction the request list holds exactly one call, the repaired first request; an empty list fails. |
| Agent.MisroutedCheckPassesAnswerGate | agent.py:75-83 | A rewritten misrouted `check_guess` passes the answering tool's gate. |
| Agent.CorrectedCheckUsesRecord | agent.py:87-94 | A corrected `check_guess` runs the check on the record's topic and guess, whatever the request carried. |
| Agent.CorrectCallIdempotent | agent.py:56-102 | Correcting a corrected call changes nothing. |
| Agent.CorrectCallsIdempotent | agent.py:56-102 | Correcting a corrected request list changes nothing. |
| Agent.WithLastToolCalls | agent.py:66-67 | The in-place repair changes only the last message's tool requests. |
| Agent.Route | agent.py:104-130 | The router changes nothing but the last message's tool requests: on `call_tool` the record is the old one with only that message's requests replaced; on any other answer nothing changes. |
| Agent.QuotaEndsGame | agent.py:113-115 | Exactly 20 questions asked and 20 answered ends the game before any tool request is looked at. |
| Agent.QuotaIsExactEquality | agent.py:113-130 | With any other counter values a message without requests ends the game iff guess and topic agree up to case, and hands over otherwise. |
| Agent.ToolRequestRoutesToTool | agent.py:118-123 | Below the quota a message with requests routes to the tool node (never to the win check) iff its first request can be corrected, and the stored request is that single corrected call. |
| Agent.InitialPlainReplyEndsGame | agent.py:136-148 | On the starting record (empty guess, empty topic) a host reply without a tool call ends the game. |
| Agent.InitialTopicRequestRuns | agent.py:136-148 | On the starting record a host request for a topic passes the router unchanged and the topic tool runs. |
| Agent.TopicGateTrustsArgument | utils/tools.py:62-63 | Mid-game, a `generate_topic` call that claims the topic task passes the corrector unchanged and the tool runs. |
| GameLoop.RunTools | utils/tools.py:128 | The tool node yields one tool message per request, in order, named after the tool, carrying the request's id and holding that tool's output; it fails iff some request's tool fails, with that tool's error. |
| GameLoop.Step | agent.py:27-47 | The tool node never ends the game and always returns to an agent node; only an agent node's router leads to the tool node. |
| GameLoop.Run | agent.py:149 | A run that has not finished has used no more steps than the 200-step budget allows. |
| GameLoop.WithinBudget | agent.py:149 | The step budget only caps a run: a game given no more inputs than the budget never aborts with the recursion-limit error, so that error means the game ran out of steps and nothing else. |
| GameLoop.StepRespectsBounds | agent.py:27-47 | Each graph step raises each counter by at most one, never lowers one, keeps the task among its three values and never shortens the transcript. |
| GameLoop.RunBoundsHold | agent.py:133-151 | Over n steps each counter grows by at most n and never decreases. |
| GameLoop.GameCounters | agent.py:133-151 | Over any game from the starting record the counters stay between 0 and the number of steps, and the task stays one of its three values. |
| GameLoop.ToolNodeSeesOneCall | agent.py:119-123 | Whenever an agent step leads to the tool node, the record holds exactly one tool request. |
| GameLoop.ToolStepReturnsToSender | agent.py:40-47 | After the tool node, control returns to the node named in `sender`. |
| GameLoop.MatchingGuessEndsGame | agent.py:126-128 | After a guess-check result, the host's step ends the game whenever guess and topic agree up to case, for any counters, check text and host reply. |

## Left out

- All language-model inference: the model halves of `generate_topic`,
  `answer_question`, `generate_question` and `make_guess`, `create_agent` and
  `handle_regular_message`'s prompt. Their outputs are parameters
  (`llmOut`, `AgentReply`).
- Topic-list loading from the CSV file and `random.sample`: file I/O and randomness.
- Logging (`ExperimentLogger`, every `logger.log` call) and printing: side effects only.
- Graph construction, the mermaid image export and streaming. The graph is
  modelled by `GameLoop.Step` and `GameLoop.Run`.
- `GameLoop.Run`: one string of tool output per graph step serves every call
  in that step. After correction there is only one call.
- What the graph library's tool node does with a tool that raises (it may turn
  the error into a message). The model stops the game with `ToolFailed`.
- Argument values are strings. Python would accept any JSON value.
- `str.lower()` covers ASCII letters only. Full Unicode case mapping is not modelled.
- The two-chatbot demo (agent_exp.py) and the tests. They depend on live model
  output or threading.
- Mismatched imports and constructor arguments between agent.py and
  utils/node.py / utils/logger.py. These are wiring errors outside the engine.
