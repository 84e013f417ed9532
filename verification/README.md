# A model of the pi_agent runtime

This project models the parts of `pi_agent` in which many things happen in an order nobody controls, and the
parsers and bounded algorithms they rest on, and proves what they keep.

| file | what it models |
|---|---|
| `Transcript.dfy`, `Reducer.dfy` | messages, agent events, the state an `Agent` rebuilds from events, and the grammar of a run's event log |
| `Queues.dfy` | the steering and follow-up queues |
| `Observations.dfy` | what the loop's copies of the transcript must be at every event, determined by the log before it |
| `LoopWorld.dfy`, `LoopStory.dfy` | what the environment of a run answers, and what a run does then, as a function of it |
| `RunLog.dfy` | what a run's log tells of its tools, turn by turn, and of the context in use at every event |
| `AgentLoop.dfy`, `Agents.dfy` | the agent loop: streaming an answer, tool batches one after the other or side by side, injected messages, failures; and one run of an `Agent` |
| `CodePoints.dfy`, `PartialJson.dfy`, `JsonText.dfy`, `JsonPrefix.dfy`, `JsonNumerals.dfy` | the parser of JSON text still arriving, JSON text as RFC 8259 defines it, and what the parser makes of every prefix |
| `StrictJson.dfy`, `StrictText.dfy`, `StrictOnly.dfy` | the strict decoder of the standard library, what it makes of texts and prefixes, and that it decodes nothing else |
| `StreamingJson.dfy`, `JsonEscapes.dfy` | the two parsers together, and an encoder whose strings they read back |
| `EventStreams.dfy` | the buffer between a provider and its consumer |
| `Chunks.dfy`, `Providers.dfy` | what a provider reads and what it adds up to; one response assembled from it, and the retries around it |
| `Splitting.dfy`, `Utf8.dfy`, `Truncation.dfy` | output cut to a number of lines and of UTF-8 bytes, and the encoding those are the bytes of |
| `PathLocks.dfy` | one mutation of a file at a time |
| `AuthRefresh.dfy` | stored credentials and their refresh |
| `Spans.dfy` | the spans that tracing opens and closes as events go by |
| `Settings.dfy`, `SettingLayers.dfy` | the nested form of saved settings, and their resolution from layers |
| `JsonValues.dfy`, `Schema.dfy`, `MessageCodec.dfy` | JSON values as Python compares them, schema validation, messages as dictionaries |

Objects that the source updates in place are classes with the same fields, and their methods are proved against
a function of the old state or an invariant.  The environment is unrestricted: what hooks, queue callbacks, providers
and tools answer, what other tasks do to the queues, and when a run is cancelled are parameters, any of them; the
order in which tasks finish and the progress they report are chosen arbitrarily.  A section of a coroutine without an
`await` is one step.  Strings in the parsers and in truncation are sequences of Unicode code points, lone surrogates
included.

## Main results

* **Three transcripts, one content.**  At every event of every run the loop's context, its new messages and the
  transcript that the reducer rebuilds agree, up to prompts not reported yet and the one message that is
  streaming; the log before the event says which.  Once a hook has handed over another context, the context is what
  that one had and what the transcript got since; which one is in use follows from the log and the hooks' answers.  A run's result is its prompts followed by its turns, each what
  was injected, what the provider answered and what its calls came to.  The result is what the run added to the
  transcript, except after a failure in mid-stream: then the result, and the context, still hold the message that
  was in flight, and the transcript does not.  It happens exactly when a message was open.
* **A run does what its environment determines.**  The loop, with its events, contexts and queues, refines a small
  function of the environment's answers.  Unless an exception, a failed answer or a
  hook ends the run, another turn follows exactly when some executed call's tool did not ask to stop, or a queue gave
  something.  A run ends by itself exactly when its last answer failed, or the hook after
  it says stop, or neither and nothing more is wanted and both queues have just been drained empty; it breaks off
  exactly when an answer it meets raises, or it is found cancelled before a request.  The result of a run that broke
  off is determined, too: its turns, what the turn under way had begun with, and the failure.
* **The event log is well bracketed** in every run.
* **No queued message is lost** unless a callback raises right after the queue was drained, the hook between turns
  raises after a callback gave something, or a busy agent is asked to continue; then exactly the messages named are.
* **Completion order does not show.**  A batch of tools comes to the same result messages in call order and the
  same decision, whatever order its tools finish in; over whole runs each outcome has its one end event, a batch that
  must be sequential never has two tools open, and calls with distinct ids never share an open id.
* **Every prefix of a JSON text** gives what has arrived, which approximates the value of the whole text, and the
  whole text gives its value under RFC 8259, surrogate pairs joined; the call raises exactly when an integer of more
  than 4300 digits is met.  An encoder that names every character of a text writes a string that reads back as that
  text.  Numerals are those that section 6 of the standard writes down, and the strict decoder decodes nothing but
  texts of the standard, Python's three number words apart.
* **Nothing is lost in the event stream** exactly when no consumer is cancelled between being woken and resuming.
* **A provider's answer is what it read**: one block for the text, one for the reasoning and one for each provider
  index, in the order of their first pieces, each the concatenation of its pieces, and stopped for the reason that
  came last.  Its events tell its message, and
  a reader of all attempts is content exactly when no response starts after another one did that was not told to
  its end, and no delay overflows.
* **Truncation keeps as much as fits**, at line or code-point boundaries, and counts its bytes exactly: they are those
  of the one UTF-8 encoding that decodes to the text, with `?` for a lone surrogate.
* **A value passes its schema** exactly when every keyword says so, equality being that of a normal form in which
  numbers and truth values are their real number.
* **One mutation of a file at a time**, with a lock that lives exactly as long as somebody uses it; **one refresh
  at a time**, and one for a whole batch of callers; **every span emitted once** exactly when no tool call starts
  under an id that is still open, and nested properly in every session, failed runs included; **settings come back** from their nested form exactly when their keys do not
  get in each other's way.

## Where the code departs from what one may expect

* A failure in mid-stream leaves the partial message in `context.messages` and in the run's result, before the
  failure's own message, while the agent's transcript has only the latter (`FailureKeepsTranscript`,
  `BreakInStream`).
* A callback that raises after the agent's own queue has been drained loses what that queue gave (`AskNow`), and a
  `prepare_next_turn` that raises loses the messages that wait for the next turn (`LeftBehind`, `HookLoses`).
* An agent that is asked to continue drains its queues before it notices that it is busy, and the messages are lost;
  so are they when the callback raises (`ContinueRun`, `LosesExactly`, `LoseQueued`).
* An exception from closing the connection replaces the one that carries `response_started`, so that a response can
  start twice (`StartsTwice`, `WhenRestarted`).
* The delay before retry 1024 overflows when the provider asks for none, and the stream then ends without a terminal
  event (`RetryDelay`, `Run`, `NeverEnds`).
* `parse_streaming_json` raises a plain `ValueError` on an integer of more than 4300 digits, and on the beginning of
  a float of as many digits before its dot (`LongIntegerRaises`); the partial parser alone has such an integer
  missing (`LongIntegerIsMissing`).
* Escaped surrogate pairs stay two code points in a partial parse (`WholeIsRfcValue`, `PairStaysApart`), and become
  one when the text is complete.
* A consumer cancelled after it was woken loses its event (`LateCancellationLoses`).
* `truncated_by` says lines although the lines are few enough when a final newline is the one byte too many, and
  when the one line allowed is cut (`HeadCause`, `TailCause`, `NewlineTooMany`).
* A setting whose key begins with a dot is saved under another key (`LeadingDot`).
* A tool call that starts under an open id leaves the first span open for ever (`EmittedOnceByClose`, `ReuseLoses`).

## Model

| member | source | states |
|---|---|---|
| `Transcript.FinishedLogIsBracketed` | src/pi_agent/agent/agent_loop.py:247-336 | a finished log begins with its only start and ends with its only end, whose payload is the messages the log closed, in order |
| `Transcript.ToolExecutionsAreBracketed` | src/pi_agent/agent/agent_loop.py:694-752 | an update or end of a tool comes only while an execution under its id is open, and none is open at a turn's end |
| `Transcript.PendingIsOpen` | src/pi_agent/agent/agent.py:526-540 | pending tool calls always belong to open executions; outside a turn there are none |
| `Transcript.PendingIsExactlyOpen` | src/pi_agent/agent/agent.py:526-540 | with distinct ids, pending tool calls are exactly the open executions |
| `Transcript.OpenToolsCount` | src/pi_agent/agent/agent_loop.py:802-811 | starts minus ends of an id is the number of its open executions |
| `Transcript.EndedIsClosed` | src/pi_agent/agent/agent_loop.py:336 | the messages the grammar tracks are the ones the log's message-end events carry |
| `Transcript.NothingAfterEnd` | src/pi_agent/agent/agent_loop.py:295-336 | no event is accepted after a run's end |
| `Transcript.CallsInOrder` | src/pi_agent/agent/agent_loop.py:300 | the calls of an answer are its call blocks, in order |
| `Reducer.AgentState.ApplyEvent` | src/pi_agent/agent/agent.py:526-540 | one event changes messages, streaming message, pending calls and error as the reducer function says, and nothing else |
| `Queues.MessageQueue.Push` | src/pi_agent/agent/queues.py:19-20 | a message goes to the end; what left, followed by what waits, is still all that was pushed |
| `Queues.MessageQueue.Drain` | src/pi_agent/agent/queues.py:25-32 | takes the oldest message or all of them by mode, in order, never nothing when something waits; drains are a prefix of the pushes while nothing is cleared |
| `Queues.MessageQueue.Clear` | src/pi_agent/agent/queues.py:34-35 | empties the queue and drains nothing |
| `Queues.MessageQueue.SetMode` | src/pi_agent/agent/queues.py:37-50 | a mode is taken exactly when it is one of the two |
| `Observations.AgreeAt` | src/pi_agent/agent/agent_loop.py:231-446 | at any event the copies agree as the log before it determines: ahead of the reducer by the prompts not reported yet or by the one message in flight; in a failure's report by the message that was cut short |
| `RunLog.ContextAt` | src/pi_agent/agent/agent_loop.py:260-282 | at every event of every run before a failure's report, the context is what the transcript has, or what a hook's context had when it was handed over and what the transcript got since; which one follows from the log and the hooks' answers |
| `RunLog.ContextIsTranscript` | src/pi_agent/agent/agent_loop.py:275-282 | when no hook that the run met handed over a context, the context is the first one and the reducer's transcript at every event, plus the unreported prompts, or plus the one message in flight, which is an assistant's and the event's subject |
| `Observations.InFlightIsTheAnswer` | src/pi_agent/agent/agent_loop.py:389-416 | the message in flight in a turn is the answer that the turn's end event names |
| `Observations.NoFailureBefore` | src/pi_agent/agent/agent_loop.py:850-870 | a run whose last event is no failure's reported no failure at any event |
| `AgentLoop.AgentLoop.constructor` | src/pi_agent/agent/agent_loop.py:84-118 | a run starts with its prompts in the context and among the new messages, and nothing reported |
| `AgentLoop.AgentLoop.Emit` | src/pi_agent/agent/agent.py:542-547 | an event changes the log and the reducer's state together, and the copies agree at it |
| `AgentLoop.AgentLoop.AskNow` | src/pi_agent/agent/agent.py:506-518 | gives the agent's own queue first and then the callback's messages; if the callback raises, what left the queue is lost, and nothing else |
| `AgentLoop.AgentLoop.Ask` | src/pi_agent/agent/agent.py:506-518 | the next callback of the run, after whatever other tasks did to the queues: what it gives waits then, and what left the queues was given or is the one loss of a raising callback |
| `AgentLoop.AgentLoop.InjectPending` | src/pi_agent/agent/agent_loop.py:275-282 | all waiting messages enter the transcript and the new messages, in order, and none waits afterwards |
| `AgentLoop.AgentLoop.Open` | src/pi_agent/agent/agent_loop.py:389-394 | the first partial is the one message in flight, last in the context and in the new messages |
| `AgentLoop.AgentLoop.Finish` | src/pi_agent/agent/agent_loop.py:397-416 | the final message is the only one the answer adds, opened as a pending copy if nothing came before it |
| `AgentLoop.AgentLoop.StreamAssistantResponse` | src/pi_agent/agent/agent_loop.py:339-446 | the answer is the message of the terminal event the provider pushed, or what the stream resolves to without one, and is the one message added; a call that raises leaves exactly the partial it last reported |
| `AgentLoop.AgentLoop.ExecuteOne` | src/pi_agent/agent/agent_loop.py:523-551 | one call adds its one result message and one end event, both with the call's id and name and what the tool gave, with no other tool open; or it throws and adds no message |
| `AgentLoop.AgentLoop.ExecuteSequential` | src/pi_agent/agent/agent_loop.py:511-554 | the calls are run in order up to the first that throws or after which the run is found cancelled, and their results are reported; no two tools are open at once |
| `LoopStory.ShortExactly` | src/pi_agent/agent/agent_loop.py:552-553 | a batch in sequence is short exactly when the run is found cancelled after its last executed call and after none before |
| `AgentLoop.AgentLoop.ExecuteParallel` | src/pi_agent/agent/agent_loop.py:557-618 | for every completion order the results are those of all calls in call order, with one end event for each, or none if a call throws |
| `AgentLoop.AgentLoop.AwaitTasks` | src/pi_agent/agent/agent_loop.py:600-609 | tasks finishing in any order each end their own execution once; one that raises leaves no message in flight |
| `AgentLoop.AgentLoop.RefuseTruncated` | src/pi_agent/agent/agent_loop.py:461-481 | a response cut off by the token limit runs nothing, and every call gets its error result |
| `AgentLoop.AgentLoop.ExecuteToolBatch` | src/pi_agent/agent/agent_loop.py:449-508 | the mode follows from configuration, tools and the answer's stop reason, and the batch is what that mode makes of its calls; one in sequence never overlaps tools |
| `AgentLoop.AgentLoop.ExecuteCalls` | src/pi_agent/agent/agent_loop.py:300-311 | another turn is wanted exactly when some executed call's behavior does not ask to stop; the results have the ids, names and payloads of their calls and tools |
| `LoopStory.WantsExactly` | src/pi_agent/agent/agent_loop.py:310-311 | the decision on a batch's outcomes, told by the behaviors of its executed calls; calls cut off by the token limit never ask to stop |
| `LoopStory.BothMustStop` | src/pi_agent/agent/agent_loop.py:260-333 | two calls and empty queues: the run falls through if both ask to stop, and else makes a second request |
| `LoopStory.SequentialExactly` | src/pi_agent/agent/agent_loop.py:483-489 | calls run in sequence exactly when the agent is configured so or the last tool of a called name asks for it |
| `AgentLoop.AgentLoop.PrepareNextTurn` | src/pi_agent/agent/agent_loop.py:262-270 | a context that the hook hands over is taken over with its messages, and otherwise nothing changes; a hook that raises leaves what waits |
| `AgentLoop.AgentLoop.OpenTurn` | src/pi_agent/agent/agent_loop.py:261-273 | the hook, then the steering queue exactly when nothing waits; then a turn is open, on the context that the hook's answers determine |
| `AgentLoop.AgentLoop.Respond` | src/pi_agent/agent/agent_loop.py:284-309 | a turn is what was injected, the response's answer and its calls' outcomes; a failed answer runs no tools; an exception leaves what had been added until then |
| `AgentLoop.AgentLoop.Answer` | src/pi_agent/agent/agent_loop.py:275-309 | all waiting messages are injected first; a run that is cancelled by then does not reach the provider |
| `AgentLoop.AgentLoop.TakeTurn` | src/pi_agent/agent/agent_loop.py:261-316 | one turn from its opening to its end event, as the environment determines it, on the context in use, with one end event for each outcome |
| `AgentLoop.AgentLoop.AfterTurn` | src/pi_agent/agent/agent_loop.py:317-326 | the run stops exactly when the hook says so; else the steering queue is asked |
| `AgentLoop.AgentLoop.RunPass` | src/pi_agent/agent/agent_loop.py:260-326 | one pass does what the environment determines: it goes on, ends, or breaks off with the state, the context in use and the tool events that its story says |
| `AgentLoop.AgentLoop.RunLoop` | src/pi_agent/agent/agent_loop.py:231-336 | whatever the environment, the loop reaches exactly the states of its story, context in use and tool events of every turn included; it ends as the story ends, with the log finished, and breaks off as it does |
| `LoopStory.HowRunsGo` | src/pi_agent/agent/agent_loop.py:231-336 | at any time every turn is what the environment answered, its results with their calls' ids, names and payloads, and was followed by another only if the hooks let it and some executed call did not ask to stop or something was injected; what callbacks gave was injected, or waits |
| `LoopStory.HowRunsEnd` | src/pi_agent/agent/agent_loop.py:290-336 | a run ended by an answer with stop reason error or aborted, by the hook, or with both queues just drained empty after an answer of which no executed call goes on: which of them, exactly, and none of them at an earlier turn |
| `LoopStory.HowRunsBreak` | src/pi_agent/agent/agent_loop.py:187-228 | the one answer of the environment that broke a run off, and the messages of the turn it had begun |
| `LoopStory.BreaksExactly` | src/pi_agent/agent/agent_loop.py:260-333 | a step breaks off exactly when an answer that it meets raises or the run is found cancelled before the request |
| `LoopStory.OneEnding` | src/pi_agent/agent/agent_loop.py:231-336 | the environment determines how a run ends |
| `LoopStory.LeftBehind` | src/pi_agent/agent/agent_loop.py:262-273 | a finished run leaves messages behind exactly when the hook between turns raised and the last callback had given something |
| `LoopStory.HookLoses` | src/pi_agent/agent/agent_loop.py:262-273 | a run that loses the second of two queued messages at a hook that raises |
| `LoopStory.CallbackLoses` | src/pi_agent/agent/agent.py:506-518 | a callback that raises loses what the queue gave, something exactly when the queue had something |
| `AgentLoop.AgentLoop.FinishAfterFailure` | src/pi_agent/agent/agent_loop.py:850-870 | a failure reports its own message, turn end and run end, and its message goes to the context the run began with |
| `AgentLoop.AgentLoop.FailureKeepsTranscript` | src/pi_agent/agent/agent_loop.py:850-870 | after a failure the transcript and the result agree exactly when no message was in flight |
| `AgentLoop.AgentLoop.BreakInStream` | src/pi_agent/agent/agent_loop.py:850-870 | a provider that reports one partial and then raises: the result and the context keep the partial, the transcript does not |
| `AgentLoop.AgentLoop.RunGuarded` | src/pi_agent/agent/agent_loop.py:187-228 | every run is reported finished or failed; its result is the prompts and the turns of its story, and after a failure what the turn under way had begun with, the message in flight and the failure; at every event the copies agree on the context in use |
| `Agents.Agent.StartRun` | src/pi_agent/agent/agent.py:449-504 | one run at a time, which follows the story of its environment and queues; its result and its log tell that story, the copies of the transcript agree at every event, and the transcript is the reducer's over the log |
| `Agents.Agent.DrainForContinue` | src/pi_agent/agent/agent.py:520-524 | what the steering source gives, or else the follow-up source, and exactly what leaves each queue, a raising callback included |
| `Agents.Agent.ContinueRun` | src/pi_agent/agent/agent.py:390-401 | refused, or a run whose prompts are what was gathered and which follows the story of the queues left; without a run everything that left the queues is lost, and with one nothing, for all callback answers, busy or not |
| `Agents.LosesExactly` | src/pi_agent/agent/agent.py:390-401 | continuing loses messages exactly when a queue it drains has some and its callback raises or the agent is busy by then |
| `Agents.LoseQueued` | src/pi_agent/agent/agent.py:390-401 | a busy agent that loses the one message of its steering queue |
| `Agents.RunIsTraced` | src/pi_agent/agent/agent_loop.py:850-870 | the log of every run is one that tracing follows, and a failed run's result ends with the failure |
| `Agents.RunStartsApart` | src/pi_agent/agent/agent_loop.py:523-575 | a run whose answers have calls with distinct ids starts no tool under an open id, and its log is one on which tracing loses no span |
| `RunLog.DistinctCallsAreApart` | src/pi_agent/agent/agent_loop.py:523-575 | the same of any log whose turns are tallied |
| `LoopStory.WhenThrown` | src/pi_agent/agent/agent_loop.py:511-618 | a batch throws exactly when some call does: any side by side, in sequence one with no throw before it and no cancellation found before it |
| `PartialJson.ParseValue` | src/pi_agent/ai/json_parse.py:38-65 | parsing ends for every text, and a value that is not missing consumes some of it |
| `PartialJson.PartialJsonParser.ReadValue` | src/pi_agent/ai/json_parse.py:38-65 | the cursor method reads what the recursive specification reads, and stays within the text |
| `PartialJson.PartialJsonParser.ReadObject` | src/pi_agent/ai/json_parse.py:67-99 | members up to where the text stops making sense, the cursor reset before a missing value |
| `PartialJson.PartialJsonParser.ReadArray` | src/pi_agent/ai/json_parse.py:101-122 | elements up to where the text stops making sense |
| `PartialJson.PartialJsonParser.ReadString` | src/pi_agent/ai/json_parse.py:124-157 | the characters and escapes that arrived, and whether the string is closed |
| `PartialJson.PartialJsonParser.ReadNumber` | src/pi_agent/ai/json_parse.py:159-172 | the longest numeral with its dangling tail cut off, or nothing |
| `JsonPrefix.CompleteText` | src/pi_agent/ai/json_parse.py:38-172 | every RFC 8259 text, with any spacing and escapes, parses to its value |
| `JsonPrefix.ArrivedText` | src/pi_agent/ai/json_parse.py:38-172 | every proper prefix of a text parses to exactly what has arrived, and with distinct keys that approximates the whole value |
| `JsonPrefix.CutApproximates` | src/pi_agent/ai/json_parse.py:67-122 | what has arrived is a member prefix, element prefix, string prefix or shortened number of the whole, only its last leaf differing |
| `JsonPrefix.LongIntegerIsMissing` | src/pi_agent/ai/json_parse.py:169-172 | to the partial parser a numeral gives a number exactly when Python converts it |
| `JsonNumerals.NumeralsHaveParts` | src/pi_agent/ai/json_parse.py:23 | the accepted numerals are exactly those of section 6 of RFC 8259: an optional minus, a whole part without leading zeros, an optional fraction and an optional exponent |
| `JsonNumerals.LongestMatch` | src/pi_agent/ai/json_parse.py:9 | the number pattern takes the longest beginning of the text that has its parts, Unicode digits included, or nothing |
| `JsonNumerals.ArrivedNumeral` | src/pi_agent/ai/json_parse.py:159-172 | what is shown of a numeral that is still arriving is the longest numeral that has arrived, or nothing |
| `JsonNumerals.ConvertibleByDigits` | src/pi_agent/ai/json_parse.py:165-172 | a numeral is refused exactly when it is an integer of more than 4300 digits |
| `JsonPrefix.WholeIsRfcValue` | src/pi_agent/ai/json_parse.py:149-154 | the partial parser gives a whole text its RFC value if no string or name in it has an escaped surrogate pair, and only then when names are distinct |
| `JsonPrefix.PairStaysApart` | src/pi_agent/ai/json_parse.py:149-154 | an escaped pair that parses to two code points instead of one |
| `StrictText.CompleteLoads` | src/pi_agent/ai/json_parse.py:23 | the strict decoder gives every RFC 8259 text its standard value, or a `ValueError` exactly when an integer has too many digits |
| `StrictText.ArrivedLoads` | src/pi_agent/ai/json_parse.py:23-24 | the strict decoder refuses every proper prefix with a decoding error, unless it is a numeral itself or has an integer of too many digits |
| `StrictOnly.DecodedIsText` | src/pi_agent/ai/json_parse.py:23 | whatever the strict decoder decodes is a text of RFC 8259 between whitespace, the words NaN, Infinity and -Infinity apart, and without them its value is the standard one |
| `StreamingJson.ParseStreamingJson` | src/pi_agent/ai/json_parse.py:13-28 | the strict reading if there is one, the partial one after a decoding error, an empty object for nothing, and an exception otherwise |
| `StreamingJson.CompleteStreamed` | src/pi_agent/ai/json_parse.py:13-28 | a complete text gives its RFC value, and raises exactly when an integer has too many digits |
| `StreamingJson.ArrivedStreamed` | src/pi_agent/ai/json_parse.py:13-28 | a proper prefix gives exactly what has arrived, and raises exactly when an integer of too many digits is in it |
| `StreamingJson.LongIntegerRaises` | src/pi_agent/ai/json_parse.py:22-24 | 4301 digits raise; so does the beginning of a float with as many before its dot, though the float itself is read |
| `JsonEscapes.EscapedStringIsRead` | src/pi_agent/ai/json_parse.py:124-157 | whatever text an encoder writes with the escapes of section 7 of RFC 8259, hexadecimal digits in either case, the strict decoder reads back, and the partial parser reads back its code units |
| `JsonEscapes.EscapedStringIsStreamed` | src/pi_agent/ai/json_parse.py:13-28 | the same of the whole call: the text when the string is closed, its code units while the closing quote is missing |
| `JsonEscapes.Spaces` | src/pi_agent/ai/json_parse.py:21 | whitespace is the 29 code points that Python's `isspace` accepts |
| `EventStreams.EventStream.Push` | src/pi_agent/ai/event_stream.py:45-59 | pushing wakes the first live waiter or queues the event, and a terminal event sets the result |
| `EventStreams.EventStream.End` | src/pi_agent/ai/event_stream.py:61-69 | ending wakes every live waiter and sets a result only if none is set |
| `EventStreams.EventStream.Advance` | src/pi_agent/ai/event_stream.py:71-83 | the consumer takes the next event, finishes, or parks |
| `EventStreams.EventStream.Abandon` | src/pi_agent/ai/event_stream.py:78-83 | a consumer cancelled while parked leaves a dead future behind, or loses what was set on it |
| `EventStreams.Run` | src/pi_agent/ai/event_stream.py:45-83 | over every interleaving nobody waits beside a queued event or after the end, and the result is the terminal event's |
| `EventStreams.Conservation` | src/pi_agent/ai/event_stream.py:45-83 | delivered, in-flight and queued events are the accepted ones in order exactly when no step cancels a consumer whose event is in flight |
| `EventStreams.LostByLateAbandon` | src/pi_agent/ai/event_stream.py:78-83 | an event is lost exactly when such a step occurs |
| `EventStreams.LateCancellationLoses` | src/pi_agent/ai/event_stream.py:78-83 | three steps after which an accepted event reaches nobody |
| `EventStreams.AcceptedExactly` | src/pi_agent/ai/event_stream.py:45-59 | what is accepted is what was pushed before `end`, up to the first terminal event; done means one of the two |
| `EventStreams.DoneIsFinal` | src/pi_agent/ai/event_stream.py:61-69 | once done, nothing is accepted, nobody comes to wait, and a result stays |
| `EventStreams.DoneDrains` | src/pi_agent/ai/event_stream.py:71-83 | a done stream yields all it holds and then ends |
| `EventStreams.FinishedGotAll` | src/pi_agent/ai/event_stream.py:71-83 | a finished consumer got every accepted event exactly when nobody was cancelled late |
| `Providers.StartsOnceEndsOnce` | src/pi_agent/ai/openai_compatible.py:273-277 | an accepted response starts at most once and has at most one terminal event, its last |
| `Providers.DoneIsItsDeltas` | src/pi_agent/ai/openai_compatible.py:358-393 | each block of the final message is its concatenated deltas, decoded for a tool call, and has one end event |
| `Providers.TextIsDeltas` | src/pi_agent/ai/openai_compatible.py:291-317 | the deltas of an index concatenate to what its block has become |
| `Providers.Response.AddText` | src/pi_agent/ai/openai_compatible.py:291-299 | text grows the one text block, opened at the next position; the blocks hold exactly what has been read |
| `Providers.Response.AddThinking` | src/pi_agent/ai/openai_compatible.py:301-317 | reasoning grows the one thinking block likewise |
| `Providers.Response.AddCall` | src/pi_agent/ai/openai_compatible.py:319-356 | a call's chunks go to the one block its provider index opened, which holds the last id, all of the name, and the arguments as last decoded; it raises exactly for a missing index or arguments that make the decoder raise |
| `Providers.Response.Complete` | src/pi_agent/ai/openai_compatible.py:358-393 | every block closes once, tool calls in ascending provider index, and `Done` follows with the message that what was read adds up to, its stop reason told by the last finish reason read, exactly when all arguments decode to objects and the run is not cancelled |
| `Providers.Response.ReadLines` | src/pi_agent/ai/openai_compatible.py:248-356 | the lines read to the end mark, the end or the first exception; the partial message holds exactly their pieces |
| `Providers.RunOnce` | src/pi_agent/ai/openai_compatible.py:220-417 | what a request raises, and that it ends the stream exactly when its response was read and told to its end, with the message and the stop reason of what was read; a response that was not started pushes nothing, one that fails leaves blocks that repeat what was told |
| `Chunks.StopIsLastFinish` | src/pi_agent/ai/openai_compatible.py:652-658 | the stop reason is the token limit's exactly when the last finish reason says so, a tool use's exactly when it says so or there is none and some call came, and else an ordinary stop |
| `Providers.StartsTwice` | src/pi_agent/ai/openai_compatible.py:411-417 | two requests, the first tried again, of which both start a response |
| `Chunks.WhenRestarted` | src/pi_agent/ai/openai_compatible.py:168-218 | a response starts again exactly when two requests start one and none was told to its end before the second |
| `Chunks.TriedAgainAfterItsStart` | src/pi_agent/ai/openai_compatible.py:394-417 | a request that started a response is tried again only for an error that closing its connection raised |
| `Providers.Run` | src/pi_agent/ai/openai_compatible.py:168-218 | attempts go on exactly while an error asks for it, the delay is allowed and nobody cancels, each wait is the one prescribed, the backoff is the sum of those nobody asked for and at most the doubling sum; one terminal event, the first complete answer or a failure with its reason, unless a delay overflows; a reader is content exactly when there is one and no response started again |
| `Providers.RetryDelay` | src/pi_agent/ai/retry.py:45-68 | what the provider asks for, or the backoff, or a smaller positive maximum instead; refused exactly when the provider asks for more than that, and an overflow exactly from attempt 1024 when it asks for none |
| `Providers.NeverEnds` | src/pi_agent/ai/retry.py:65 | a provider that fails 1025 times, after which the stream ends without a terminal event |
| `Providers.BackoffGrows` | src/pi_agent/ai/retry.py:65 | the first delays add up to the base times a power of two less one |
| `Providers.BackoffDoubles` | src/pi_agent/ai/retry.py:65 | the backoff is the base, none if that is negative, and doubles with each retry |
| `Splitting.JoinSplit` | src/pi_agent/harness/truncate.py:213-219 | splitting text and joining the pieces gives it back |
| `Splitting.SplitJoin` | src/pi_agent/harness/truncate.py:213-219 | pieces without the separator come apart again as they were, so that a text has one splitting |
| `Truncation.JoinCounted` | src/pi_agent/harness/truncate.py:213-219 | the counted lines are the content without one trailing newline |
| `Truncation.CountedLinesExactly` | src/pi_agent/harness/truncate.py:213-219 | the counted lines are the one list of lines without newlines that joins to the content without one trailing newline, and none for no content |
| `Utf8.Utf8Length` | src/pi_agent/harness/truncate.py:237-238 | the length of a text is that of its UTF-8 encoding, with `?` for what cannot be encoded |
| `Utf8.DecodeUtf8` | src/pi_agent/harness/truncate.py:237-238 | the encoding decodes to the text, with `?` for its surrogates |
| `Utf8.Utf8Decode` | src/pi_agent/harness/truncate.py:237-238 | no other bytes decode to the text: overlong forms and encoded surrogates are none |
| `Truncation.TruncateHead` | src/pi_agent/harness/truncate.py:43-97 | refused for negative limits, unchanged when it fits, else the longest run of first lines within both limits, with its exact size |
| `Truncation.TruncateTail` | src/pi_agent/harness/truncate.py:100-146 | refused for negative limits, unchanged when it fits, else the longest run of last lines, or the longest suffix of the last one |
| `Truncation.TakeLines` | src/pi_agent/harness/truncate.py:72-83 | no more lines from the start would fit both limits |
| `Truncation.TakeLastLines` | src/pi_agent/harness/truncate.py:113-132 | no more lines from the end would fit both limits |
| `Truncation.TruncateUtf8Suffix` | src/pi_agent/harness/truncate.py:222-234 | the longest suffix of whole code points within a number of bytes |
| `Truncation.HeadIsPrefix` | src/pi_agent/harness/truncate.py:72-84 | first lines are a prefix of the content, and a newline follows |
| `Truncation.TailIsSuffix` | src/pi_agent/harness/truncate.py:113-133 | last lines are a suffix of the content without its final newline, and a newline precedes |
| `Truncation.PartialIsSuffix` | src/pi_agent/harness/truncate.py:121-128 | a cut last line is such a suffix too |
| `Truncation.HeadCause` | src/pi_agent/harness/truncate.py:72-83 | when the cause given for a cut head is the true one |
| `Truncation.TailCause` | src/pi_agent/harness/truncate.py:113-132 | when the cause given for a cut tail is the true one |
| `Truncation.NewlineTooMany` | src/pi_agent/harness/truncate.py:72-83 | one letter and a newline, cut to one byte, are put down to lines |
| `PathLocks.NoOverlap` | src/pi_agent/harness/mutation_queue.py:58-60 | between two operations that begin on one file the first has ended |
| `PathLocks.EnvironmentState.Register` | src/pi_agent/harness/mutation_queue.py:51-56 | a caller gets the one lock of its key, made if there is none |
| `PathLocks.EnvironmentState.Acquire` | src/pi_agent/harness/mutation_queue.py:59-60 | an operation begins only when the lock is free |
| `PathLocks.EnvironmentState.Return` | src/pi_agent/harness/mutation_queue.py:59-60 | the operation's end frees the lock |
| `PathLocks.EnvironmentState.Cancel` | src/pi_agent/harness/mutation_queue.py:58-61 | a caller cancelled while waiting begins nothing |
| `PathLocks.EnvironmentState.Deregister` | src/pi_agent/harness/mutation_queue.py:61-65 | the lock leaves the map exactly with its last user |
| `PathLocks.EnvironmentState.Perform` | src/pi_agent/harness/mutation_queue.py:30-65 | one step moves its own caller and leaves the others where they are |
| `PathLocks.EnvironmentState.Run` | src/pi_agent/harness/mutation_queue.py:30-65 | for any number of callers and any interleaving, cancellations included, the invariant holds |
| `PathLocks.EnvironmentState.MutualExclusion` | src/pi_agent/harness/mutation_queue.py:51-60 | callers of one key share its lock, and at most one runs |
| `PathLocks.EnvironmentState.KeptWhileUsed` | src/pi_agent/harness/mutation_queue.py:51-65 | the map holds a key exactly while it is used, and `users` is the number of its callers |
| `AuthRefresh.SingleFlight` | src/pi_agent/coding_agent/auth.py:170-185 | at most one refresh callback of a provider is active, in every reachable state |
| `AuthRefresh.SoundRun` | src/pi_agent/coding_agent/auth.py:158-185 | over every run a refresh lock is held by exactly the resolver inside it |
| `AuthRefresh.NoLostUpdate` | src/pi_agent/coding_agent/auth.py:172-184 | if nobody else writes, the credential a callback was given is the stored one for as long as it works |
| `AuthRefresh.OneRefreshForAll` | src/pi_agent/coding_agent/auth.py:158-185 | a batch that finds an expired credential makes one refresh, and all that are done got the fresh one, which is stored |
| `AuthRefresh.AuthStorage.Look` | src/pi_agent/coding_agent/auth.py:165-170 | the first look returns a credential that never expires or outlives both now and the margin, or that cannot be refreshed, and else waits for the lock |
| `AuthRefresh.AuthStorage.Enter` | src/pi_agent/coding_agent/auth.py:170-171 | a waiting resolver gets the refresh lock only when it is free |
| `AuthRefresh.AuthStorage.LookAgain` | src/pi_agent/coding_agent/auth.py:171-175 | inside the lock the callback is given the credential read there, or not called exactly when that one can be used by now and for the margin |
| `AuthRefresh.AuthStorage.Accept` | src/pi_agent/coding_agent/auth.py:175-183 | an exception or a credential of another provider leaves the store alone |
| `AuthRefresh.AuthStorage.Finish` | src/pi_agent/coding_agent/auth.py:184-185 | the fresh credential is stored and returned, and the lock left |
| `AuthRefresh.AuthStorage.Abort` | src/pi_agent/coding_agent/auth.py:171-185 | a cancelled resolver leaves the lock; a write already handed to its thread still lands |
| `AuthRefresh.AuthStorage.SetCredential` | src/pi_agent/coding_agent/auth.py:150-152 | stores the credential under its own provider and touches no resolver |
| `AuthRefresh.AuthStorage.RemoveCredential` | src/pi_agent/coding_agent/auth.py:154-156 | removes the credential, and says whether there was one |
| `Spans.LostStep` | src/pi_agent/telemetry/instrumentation.py:63-90 | an open span stops being held only when a tool call starts under its id |
| `Spans.EmittedOnceByClose` | src/pi_agent/telemetry/instrumentation.py:134-152 | after `close` no span is held, none was emitted twice, and each was emitted exactly when no open id was reused |
| `Spans.EmittedOnceByEnd` | src/pi_agent/telemetry/instrumentation.py:108-129 | the same after a run's end event |
| `Spans.ReuseLoses` | src/pi_agent/telemetry/instrumentation.py:77-90 | two executions under one id, of which the first is never emitted |
| `Spans.SpansFollowTheLog` | src/pi_agent/telemetry/instrumentation.py:57-83 | on every log the grammar accepts, after whatever came before, tool spans are children of the current turn's span and turn spans of the run's |
| `Spans.SessionIsNested` | src/pi_agent/telemetry/instrumentation.py:44-83 | the same over any number of runs, finished, failed or broken off |
| `Spans.StatusesTell` | src/pi_agent/telemetry/instrumentation.py:97-129 | a held tool's span ends as an error exactly if its end event says so, a turn's span as cancelled or as an error exactly if its answer was aborted or failed, and the run's span likewise by the last answer closed, or fine without one |
| `Spans.FailureStatusesTell` | src/pi_agent/telemetry/instrumentation.py:97-129 | a failure's report ends the run's and the open turn's span with the failure's status, and the tools' as cancelled |
| `Spans.LeftOpenIsCancelled` | src/pi_agent/telemetry/instrumentation.py:44-45 | what a run that was broken off left open is cancelled when the next run begins |
| `Spans.DistinctIdsAreNotReused` | src/pi_agent/telemetry/instrumentation.py:77-90 | in a session of runs with distinct open ids, failed ones included, no span is lost |
| `Spans.Instrumentation.End` | src/pi_agent/telemetry/tracing.py:72-99 | ending a span twice emits it once |
| `Spans.Instrumentation.OnEvent` | src/pi_agent/telemetry/instrumentation.py:43-132 | one event changes spans and what is held as specified, and what is held stays open and of its kind |
| `Spans.Instrumentation.Close` | src/pi_agent/telemetry/instrumentation.py:134-152 | closing ends whatever is held |
| `Settings.RoundTrip` | src/pi_agent/coding_agent/settings.py:425-453 | nested and flattened again, settings come back exactly when no key goes on from another or from a declared one, and dictionaries are under declared keys |
| `Settings.LeadingDot` | src/pi_agent/coding_agent/settings.py:425-453 | the exact condition when keys may begin with a dot: those never come back |
| `Settings.SavedIsSerializable` | src/pi_agent/coding_agent/settings.py:456-461 | a saved value is the value, but for tuples, which are lists, in tuples and dictionaries too |
| `Settings.DotNests` | src/pi_agent/coding_agent/settings.py:425-453 | a key with one dot is saved as a dictionary in a dictionary |
| `Settings.UndottedIsFlat` | src/pi_agent/coding_agent/settings.py:447-453 | without dots both branches give the same |
| `Settings.FlattenAssign` | src/pi_agent/coding_agent/settings.py:436-444 | assigning a free path adds one flat setting and changes no other |
| `SettingLayers.ApplyMapping` | src/pi_agent/coding_agent/settings.py:333-364 | a layer is taken exactly when each of its settings is, and overrides exactly those |
| `SettingLayers.LayersAscend` | src/pi_agent/coding_agent/settings.py:244-288 | the layers applied are exactly those given, global, project, environment, command line and runtime from weakest to strongest |
| `SettingLayers.Resolve` | src/pi_agent/coding_agent/settings.py:227-290 | each value comes from the strongest layer that sets it, and its origin names that layer; else some setting or the check across fields was refused |
| `SettingLayers.ResolvedIsUnique` | src/pi_agent/coding_agent/settings.py:227-290 | the layers determine values, origins and warnings |
| `JsonValues.Symmetric` | src/pi_agent/agent/schema.py:38-45 | Python equality of JSON values is symmetric |
| `JsonValues.Transitive` | src/pi_agent/agent/schema.py:85-88 | and transitive, across numbers of different types |
| `JsonValues.EqualByForm` | src/pi_agent/agent/schema.py:38-45 | values are equal exactly when they have one normal form: numbers and truth values as their real number, the rest by contents |
| `Schema.Validate` | src/pi_agent/agent/schema.py:11-112 | a value passes exactly when it has what every keyword of the schema says |
| `Schema.TypeNames` | src/pi_agent/agent/schema.py:144-171 | a value matches the one name that is reported for its type, and an integer matches the name of numbers, too |
| `Schema.CheckType` | src/pi_agent/agent/schema.py:47-56 | the type keyword: one name or a list of names of which one matches; null allows all |
| `Schema.CheckSize` | src/pi_agent/agent/schema.py:129-141 | a size is within the limits that are integers or truth values |
| `Schema.CheckRange` | src/pi_agent/agent/schema.py:101-112 | a number is within the four bounds that are numbers |
| `Schema.OneOf` | src/pi_agent/agent/schema.py:26-30 | exactly one of the schemas holds |
| `Schema.AllUnique` | src/pi_agent/agent/schema.py:85-88 | no two items are equal |
| `Schema.ValidateObject` | src/pi_agent/agent/schema.py:58-81 | required keys, every property by its schema, and the size |
| `Schema.ValidateArray` | src/pi_agent/agent/schema.py:83-92 | size, uniqueness and every item by its schema |
| `MessageCodec.BlockRoundTrip` | src/pi_agent/ai/types.py:238-291 | every content block comes back from its dictionary |
| `MessageCodec.UsageRoundTrip` | src/pi_agent/ai/types.py:294-335 | token usage comes back, absent counts included |
| `MessageCodec.MessageRoundTrip` | src/pi_agent/ai/types.py:338-426 | every message comes back from its dictionary, so that no two messages share one |
| `MessageCodec.MissingFields` | src/pi_agent/ai/types.py:381-426 | what each kind of message reads as when its dictionary has nothing but the role |
| `MessageCodec.ChooseRates` | src/pi_agent/ai/types.py:217-223 | a request is priced by the first tier with the highest threshold below its tokens, else by the base rates |

## Left out

- Preparing and running one tool call (argument validation, approval hooks, time limits, result overrides): a call is refused, runs to any result with any progress reports, or throws.
- AgentLoop.AgentLoop.RunLoop: watched for a number of passes that the caller chooses, since a run need not end; what is stated holds for every finite prefix of a run.
- AgentLoop.AgentLoop.Emit: `stream.emit` is taken to return.  A listener that suspends while the run's own task is cancelled would leave the reducer one message ahead of the loop.
- A cancellation of the loop's own task while it waits for parallel tools is the behavior of a call that throws a cancellation; while it waits for a hook, a callback or a provider it is that one's answer; elsewhere it is not modelled.
- AgentLoop.AgentLoop.PrepareNextTurn: models the context that is handed over, not the model or the thinking level.  A hook that changes the messages of the context in use counts as one that hands it over with those messages; a context's tools do not change; deep copies are immutable values.
- Providers.Run: delays are real numbers, so that a product of floats that is infinite is only a long wait; what the transport raises carries no partial message of its own.
- StreamingJson.ParseStreamingJson: numerals stay text, NaN and the infinities included, and the recursion limit of Python is not modelled.
- Agents.Agent.ContinueRun: what other tasks push or clear while a callback is awaited is not modelled there, only whether one starts a run.
- EventStreams.Conservation: one consumer at a time, as the agent uses the stream; several consumers of one stream would share its events.
- PathLocks.EnvironmentState.Run: the lock of the standard library is a holder that one caller can be; the order in which waiters get it is left open.
- AuthRefresh.OneRefreshForAll: within one process; the file lock against other processes, the file's own format and its rewriting are effects.
- Settings.FlattenAssign: nested dictionaries are values, so that sharing a dictionary between two settings is not modelled.
- SettingLayers.Resolve: warnings are a set, without their order; coercers, validators, the cross-field check and file parsing are parameters.
- Schema.Validate: the pattern search of the standard library is a parameter that never raises, errors carry no path or text, and floats are real numbers without NaN.
- MessageCodec.MessageRoundTrip: what `str`, `int`, `float` and `bool` make of values of other types in a foreign dictionary is not modelled.
- MessageCodec.ChooseRates: the products and sums of the price itself are plain arithmetic on the chosen rates.
- Spans.Instrumentation.OnEvent: attributes, times, metrics, redaction and exporting are left out; `BatchSpanProcessor` only batches what is emitted.
- `FauxProvider`: its chunks are one instance of the arbitrary provider the loop is proved against.
- Building HTTP requests, reading lines from a connection, subprocesses, files and terminals: effects, chosen arbitrarily where they matter.
- Sessions, compaction, extensions, packages, approval policy, redaction and the terminal interface: they would add easier members or rest on libraries.
