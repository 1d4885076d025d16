# LLM tooling demos, modelled in Dafny

This project models the core of a small collection of Python scripts around
mocked large language models, and proves properties of that model.

- **Endpoint tester** (`endpoint_tester.dfy`, module `EndpointTester`). It
  sends a list of prompts to a model endpoint one after the other, records one
  latency per prompt, and writes the per-request records (CSV) and a run
  summary (JSON). In mock mode the latency is a uniform draw in [0.3, 1.2]
  seconds. In real mode a configuration of endpoint, API key and model is
  loaded first from the environment, and a failed request ends the run.
- **Terminal chatbot with memory** (`chatbot.dfy`, module `Chatbot`). A graph
  user_input → memory → llm → output runs once per typed line over one mutable
  state. The memory node appends the user's entry. The llm node answers the
  memory joined with newlines and appends the answer. The mock model refuses
  to recall names, follows along once the conversation has more than four
  lines, and otherwise asks for more. Typing `exit` or `quit` ends the session.
- **LangChain/LangGraph basics** (`langchain_basics.dfy`, module
  `LangchainBasics`). The mock model echoes the first 200 characters of its
  prompt between a header and "...". A conversation fills a prompt template
  with its history and then extends the history by the user's entry and the
  reply. A one-node graph answers its input.
- **DAG with a conditional entry point** (`dag_router.dfy`, module
  `DagRouter`). A router sends inputs made only of digits, `+ - * /`,
  parentheses, dot and space to the calculator node. All other inputs go to
  the mock model's node.

Shared modules:

- `text.dfy` (`Text`) restates the Python string operations the scripts use
  on `seq<char>`: `lower`, `in`, `join`, `splitlines`, `strip` and slicing.
- `metrics.dfy` (`Metrics`) holds `min`, `max`, `statistics.mean` and
  `round` on exact reals, with `round` rounding half to even.
- `wrappers.dfy` (`Wrappers`) holds `Option` and `Result`.

Python objects that the scripts mutate in place are Dafny classes:

- the chat state;
- the LangChain conversation's history list, which `run_turn` closes over;
- the DAG's state dictionary.

Everything else is a function over values. The outside world is passed in as
parameters:

- the process environment is a map;
- each request's random draw, network reply and timestamp form one `Sample`;
- the clock span of a whole run is a number;
- the lines typed at the terminal are a sequence;
- Python's `eval` is a function from text to its outcome.

Two details of the code that the model keeps:

- The error of `load_config` names the keys of its dictionary (`endpoint`,
  `api_key`, `model`), not the environment variable names
  (`test_endpoint.py:38`).
- The mode is written `mock` or `real` (`test_endpoint.py:122`).

## Model

| member | source | states |
|---|---|---|
| Text.LowerPointwise | combact_solutions/task3/chatbot.py:60 | lowering keeps the length and maps every character on its own: ASCII capitals to small letters, everything else unchanged |
| Text.ContainsMeansOccurs | combact_solutions/task3/chatbot.py:62 | the substring test holds exactly when the phrase occurs at some position of the text |
| Text.JoinSnoc | combact_solutions/task3/chatbot.py:95 | joining one more part onto a non-empty list appends the separator and then that part |
| Text.SplitLinesOfJoin | combact_solutions/task3/chatbot.py:65 | splitting a newline-join of break-free lines (the last one non-empty) into lines gives back exactly those lines |
| Text.StripLeftRemovesLeadingSpace | combact_solutions/task3/chatbot.py:144 | left stripping leaves a suffix, removes only whitespace, and leaves no leading whitespace |
| Text.StripRightRemovesTrailingSpace | combact_solutions/task3/chatbot.py:144 | right stripping leaves a prefix, removes only whitespace, and leaves no trailing whitespace |
| Text.StripIsTrimmedSlice | combact_solutions/task3/chatbot.py:144 | the stripped line is a contiguous slice, everything cut off on either side is whitespace, and the result neither starts nor ends with whitespace |
| Text.Take | combact_solutions/task2/langchain_langgraphbasics.py:50 | the slice `s[:n]` is the prefix of `s` of length min(\|s\|, n) |
| Text.AssistantEntryInjective | combact_solutions/task3/chatbot.py:99 | two assistant entries are equal exactly when the replies are equal |
| Metrics.Min | combact_solutions/task1/test_endpoint.py:136 | `min` is an element of the list and no element is smaller |
| Metrics.Max | combact_solutions/task1/test_endpoint.py:137 | `max` is an element of the list and no element is larger |
| Metrics.MeanBounds | combact_solutions/task1/test_endpoint.py:135 | the mean of values between two bounds lies between those bounds |
| Metrics.MeanBetweenMinAndMax | combact_solutions/task1/test_endpoint.py:135-137 | min ≤ mean ≤ max |
| Metrics.RoundHalfEven | combact_solutions/task1/test_endpoint.py:120 | the rounded integer is within one half of the value |
| Metrics.RoundHalfEvenMonotone | combact_solutions/task1/test_endpoint.py:120 | rounding to an integer never reverses the order of two values |
| Metrics.RoundHalfEvenOfInt | combact_solutions/task1/test_endpoint.py:120 | an integer rounds to itself |
| Metrics.RoundAtMonotone | combact_solutions/task1/test_endpoint.py:120 | rounding to a multiple of 1/p keeps order |
| Metrics.RoundAtError | combact_solutions/task1/test_endpoint.py:120 | rounding to a multiple of 1/p moves a value by at most 1/(2p) |
| Metrics.RoundToMonotone | combact_solutions/task1/test_endpoint.py:134-138 | `round(x, d)` keeps the order of two values |
| Metrics.RoundToError | combact_solutions/task1/test_endpoint.py:134-138 | `round(x, d)` is within 1/(2·10^d) of x |
| EndpointTester.FalsyKeysOfConfig | combact_solutions/task1/test_endpoint.py:32-38 | the missing list holds `endpoint`, `api_key`, `model` in that order, each exactly when its variable is unset or empty |
| EndpointTester.LoadConfig | combact_solutions/task1/test_endpoint.py:30-42 | fails exactly when some variable is unset or empty; the error names every such key and no other, in dictionary order; on success each value is its variable's non-empty value |
| EndpointTester.LoadConfigExample | combact_solutions/task1/test_endpoint.py:38-40 | with only the API key set, the error names endpoint and model |
| EndpointTester.MissingMessageExample | combact_solutions/task1/test_endpoint.py:40 | the error message renders the list as Python's repr: `['endpoint', 'model']` |
| EndpointTester.Uniform | combact_solutions/task1/test_endpoint.py:68 | `random.uniform(a, b)` lies between a and b in either order of the bounds |
| EndpointTester.UniformCoversInterval | combact_solutions/task1/test_endpoint.py:68 | every value of [a, b) is reached by some draw |
| EndpointTester.MockLlmCall | combact_solutions/task1/test_endpoint.py:66-70 | the mock returns the uniform sample, fails with the sleep error exactly when that sample is negative, and lies in [min, max] when 0 ≤ min ≤ max |
| EndpointTester.DefaultMockLatency | combact_solutions/task1/test_endpoint.py:66 | with the default delays the mock never fails and reports a latency in [0.3, 1.2] |
| EndpointTester.Summarize | combact_solutions/task1/test_endpoint.py:127-139 | a zero time span fails with a division by zero before anything else; otherwise an empty latency list fails the mean; on success the summary carries the run id, mode, request count, rounded total time and rounded mean |
| EndpointTester.SummaryOrdered | combact_solutions/task1/test_endpoint.py:135-137 | reported min ≤ reported average ≤ reported max |
| EndpointTester.SummaryExtrema | combact_solutions/task1/test_endpoint.py:136-137 | the reported min and max are each the rounded latency of some request and bound every rounded latency |
| EndpointTester.ThroughputAccuracy | combact_solutions/task1/test_endpoint.py:128-138 | the reported throughput is within 0.005 of requests / total time |
| EndpointTester.RecordKeys | combact_solutions/task1/test_endpoint.py:116-123 | a record's keys, which become the CSV header, are run_id, prompt_id, prompt, latency_seconds, timestamp_utc, mode in that order |
| EndpointTester.LookupRecordItems | combact_solutions/task1/test_endpoint.py:78 | looking a column name up in a record's dictionary finds that field's value |
| EndpointTester.CsvRowReadsBack | combact_solutions/task1/test_endpoint.py:76-78 | under the written header, a record's row reads back as that record |
| EndpointTester.CsvRoundTrip | combact_solutions/task1/test_endpoint.py:73-78 | a non-empty record list is written with the fixed six-column header and one row per record, and reading every row back gives its record |
| EndpointTester.SummaryKeyOrder | combact_solutions/task1/test_endpoint.py:130-139 | the summary object's keys are, in order, run_id, mode, total_requests, total_time_seconds, average/min/max latency and throughput_rps |
| EndpointTester.SendRequests | combact_solutions/task1/test_endpoint.py:102-123 | one latency and one record per prompt, numbered from 1, with the rounded latency, its timestamp and the mode; in real mode the first failed request stops the loop and is reported with every earlier request successful; mock latencies lie in [0.3, 1.2] |
| EndpointTester.RunTests | combact_solutions/task1/test_endpoint.py:87-142 | real mode with missing settings aborts with ConfigMissing before any request, and only then; mock mode never loads the configuration; in real mode with a valid configuration any failed request aborts the run with RequestFailed, numbered as the first failed request, after exactly that many requests; every other abort is ZeroDivision for a zero time span, else EmptyMean; a completed run writes one record per prompt in order and the summary of those latencies, whose min and max are latencies of actual records and bound every record |
| Chatbot.InvokeReplies | combact_solutions/task3/chatbot.py:59-68 | a name question gets the refusal whatever the length; otherwise the reply follows along exactly when there are more than four lines, and is the default reply else |
| Chatbot.ChatState.constructor | combact_solutions/task3/chatbot.py:135-139 | the state starts with the given input, memory and response |
| Chatbot.ChatState.UserInputNode | combact_solutions/task3/chatbot.py:83-84 | hands the state on unchanged: no field can change |
| Chatbot.ChatState.MemoryNode | combact_solutions/task3/chatbot.py:87-89 | the memory grows by exactly the user's entry; nothing else changes |
| Chatbot.ChatState.LlmNode | combact_solutions/task3/chatbot.py:92-101 | the response is the model's answer to the memory joined with newlines; the memory grows by exactly the assistant entry of that response |
| Chatbot.ChatState.OutputNode | combact_solutions/task3/chatbot.py:104-106 | hands the state on unchanged; only the print, which is left out, happens |
| Chatbot.ChatState.RunGraph | combact_solutions/task3/chatbot.py:111-126 | one pass of the graph appends the user's entry and then the answer to the memory including that entry |
| Chatbot.TurnsStopAtFirstExit | combact_solutions/task3/chatbot.py:143-148 | no line before the turn count is an exit command, and the line at the count is one |
| Chatbot.TurnsBeforeExitIsFirstExit | combact_solutions/task3/chatbot.py:143-148 | the turn count is the index of the first exit command (or the number of lines when there is none) |
| Chatbot.StrippedLineAt | combact_solutions/task3/chatbot.py:144 | each typed line is taken stripped |
| Chatbot.TranscriptExtends | combact_solutions/task3/chatbot.py:88 | later turns only append: the memory after j turns is a prefix of the memory after n |
| Chatbot.TranscriptEntries | combact_solutions/task3/chatbot.py:88-99 | entry 2j is the user's text j; entry 2j+1 is the answer to the memory up to and including entry 2j |
| Chatbot.Session | combact_solutions/task3/chatbot.py:132-151 | the session takes every stripped line before the first exit or quit as a turn; the final memory is the transcript of those turns, the input is the last text taken and the response the last answer |
| Chatbot.NameReplyHasNoLineBreak | combact_solutions/task3/chatbot.py:63 | the refusal is one line |
| Chatbot.FollowReplyHasNoLineBreak | combact_solutions/task3/chatbot.py:66 | the follow-along reply is one line |
| Chatbot.CannedReplyHasNoLineBreak | combact_solutions/task3/chatbot.py:63-68 | none of the three canned replies holds a line break |
| Chatbot.RepliesHaveNoLineBreak | combact_solutions/task3/chatbot.py:59-68 | every answer of the model, and its assistant entry, is one line |
| Chatbot.ConversationLines | combact_solutions/task3/chatbot.py:95 | the joined memory of break-free entries plus the user's entry has one line per entry |
| Chatbot.FollowsAlongFromThirdTurn | combact_solutions/task3/chatbot.py:65-66 | unless a name is asked for, the reply follows along exactly when the memory before the user's entry already holds four entries |
| Chatbot.StripHasNoLineBreak | combact_solutions/task3/chatbot.py:144 | stripping a break-free line keeps it break-free |
| Chatbot.TranscriptHasNoLineBreak | combact_solutions/task3/chatbot.py:88-99 | every memory entry is one line when the typed texts are |
| Chatbot.StrippedLinesHaveNoLineBreak | combact_solutions/task3/chatbot.py:144 | the stripped lines of break-free lines are break-free |
| Chatbot.TurnFollowsAlong | combact_solutions/task3/chatbot.py:65-66 | in a session of break-free lines, unless a name is asked for, turn j (from 0) gets the follow-along reply exactly from the third turn on |
| LangchainBasics.Invoke | combact_solutions/task2/langchain_langgraphbasics.py:48-51 | the reply is the header, then the first min(\|prompt\|, 200) characters of the prompt, then "..." |
| LangchainBasics.ShortPromptEchoedWhole | combact_solutions/task2/langchain_langgraphbasics.py:50 | a prompt of at most 200 characters is echoed whole |
| LangchainBasics.EchoIsBoundedPrefix | combact_solutions/task2/langchain_langgraphbasics.py:50 | the echo is a prefix of the prompt of length min(\|prompt\|, 200) |
| LangchainBasics.LongPromptsShareReply | combact_solutions/task2/langchain_langgraphbasics.py:50 | two prompts with the same first 200 characters get the same reply |
| LangchainBasics.FormatPromptPlaces | combact_solutions/task2/langchain_langgraphbasics.py:58-78 | the filled template holds the history right after its head and the user's input right after the history and the "User: " label |
| LangchainBasics.LongHistoryHidesInput | combact_solutions/task2/langchain_langgraphbasics.py:75-80 | once the template head and history reach 200 characters, the reply is the same whatever the user's input |
| LangchainBasics.HistoryAfterExtends | combact_solutions/task2/langchain_langgraphbasics.py:82-83 | later turns never change earlier history entries |
| LangchainBasics.HistoryAfterEntries | combact_solutions/task2/langchain_langgraphbasics.py:74-85 | entry 2j is the user's input j; entry 2j+1 is the reply to the template filled with the history of the first 2j entries |
| LangchainBasics.Conversation.constructor | combact_solutions/task2/langchain_langgraphbasics.py:72 | the history starts empty |
| LangchainBasics.Conversation.RunTurn | combact_solutions/task2/langchain_langgraphbasics.py:74-85 | the reply answers the template filled with the history before the turn; the history grows by exactly the user's entry and then the reply's entry |
| LangchainBasics.LangchainDemo | combact_solutions/task2/langchain_langgraphbasics.py:87-89 | two turns on a fresh conversation leave the two-turn history, whose assistant entries hold the returned replies |
| LangchainBasics.FirstDemoTurnEchoesPrompt | combact_solutions/task2/langchain_langgraphbasics.py:88 | the first demo reply echoes its whole prompt, which is the template with an empty history |
| LangchainBasics.LlmNode | combact_solutions/task2/langchain_langgraphbasics.py:100-107 | the node keeps the input and sets the output to the model's reply to it |
| LangchainBasics.LanggraphDemoEchoesQuestion | combact_solutions/task2/langchain_langgraphbasics.py:119-123 | the one-node graph answers the demo question with the header, the whole question and "..." |
| DagRouter.AllAllowed | combact_solutions/task5/dag_langgraph.py:77 | holds exactly when every character of the text is an allowed one |
| DagRouter.RouterNode | combact_solutions/task5/dag_langgraph.py:74-79 | the route is "calculator" exactly when every character is allowed, and "llm" exactly when some character is not |
| DagRouter.RouteAlwaysResolves | combact_solutions/task5/dag_langgraph.py:90-96 | every route is a key of the entry map and maps to the node of the same name |
| DagRouter.EmptyInputRoutesToCalculator | combact_solutions/task5/dag_langgraph.py:77 | the empty input goes to the calculator |
| DagRouter.CalculatorDemoRoute | combact_solutions/task5/dag_langgraph.py:110 | "10 * (2 + 3)" goes to the calculator |
| DagRouter.LlmDemoRoute | combact_solutions/task5/dag_langgraph.py:113 | "What is LangGraph?" goes to the model |
| DagRouter.LlmResponseQuotesInput | combact_solutions/task5/dag_langgraph.py:55 | the model's reply holds the input in single quotes after a fixed prefix, so it can be read back |
| DagRouter.CalculatorResponseShape | combact_solutions/task5/dag_langgraph.py:62-68 | the reply is "Invalid calculation." exactly when eval raised; otherwise it is the result prefix followed by the value's text |
| DagRouter.GraphState.constructor | combact_solutions/task5/dag_langgraph.py:110 | the state starts with the given input and response |
| DagRouter.GraphState.LlmNode | combact_solutions/task5/dag_langgraph.py:54-56 | the response becomes the model's reply to the input; the input is kept |
| DagRouter.GraphState.CalculatorNode | combact_solutions/task5/dag_langgraph.py:62-68 | the response becomes the calculator's reply to eval's outcome; the input is kept |
| DagRouter.GraphState.Run | combact_solutions/task5/dag_langgraph.py:84-101 | the entry node chosen by the router runs once: the calculator's reply for an allowed input, the model's reply otherwise |
| DagRouter.Demo | combact_solutions/task5/dag_langgraph.py:106-113 | the arithmetic test gets the calculator's reply to eval of it, and the question gets the model's quoted reply |

## Left out

- HTTP in `call_llm`: headers, payload, the 30-second timeout and `raise_for_status`. A real request is a `Reply` parameter: a response after some seconds, or a failure. The configuration values are checked but never sent anywhere.
- Clocks and randomness. `time.perf_counter`, `datetime.now` and `random.random` are inputs: a draw in [0, 1) and a timestamp per request, and the run's total time span. `time.sleep` is not modelled beyond its refusal of a negative delay.
- Floating point. Latencies, means and rounding are exact reals, and `round` rounds half to even on the exact value, not on the binary float. `EndpointTester.SummaryOrdered` and the other rounding results hold for reals, not for IEEE doubles.
- File output. `write_csv` and `write_json` are modelled as the data they write: the header and rows, and the ordered key/value list. CSV quoting, JSON indentation and the files themselves are left out.
- `print`, `argparse` and the built-in prompt list, because they are console and process plumbing.
- `input()`. The typed lines are a sequence, and running out of lines ends the session. Python would raise `EOFError` there instead.
- LangGraph and LangChain internals, because they are library code. Each compiled graph is modelled as its nodes called in edge order on one state. `PromptTemplate.format` is modelled as literal substitution into the template.
- `eval`: the calculator node gets eval's outcome as a value, either the `str` of the result or "raised". Python expression evaluation itself is not modelled.
- `str.lower`: lowers ASCII letters only. Python lowers all of Unicode, so a non-ASCII exit word or name question can differ.
- Chatbot.TurnFollowsAlong: states the follow-along rule only for typed lines with no line break, where each memory entry is one line. Input from `input()` ends at the newline, but other break characters, such as `\r` or `\x1c`, would add lines of their own.
- Chatbot.Session: does not itself restate the follow-along rule. That rule is stated about the session's memory by `Chatbot.TurnFollowsAlong`, on `Chatbot.Transcript`, which Session's postcondition equals.
- EndpointTester.ThroughputAccuracy: relates the throughput to `requestCount / totalTime`, with the request count as a parameter of the summary. `EndpointTester.RunTests` passes the number of prompts.
- LangchainBasics.LanggraphDemoEchoesQuestion: the demo graph is invoked without an "output" key. The model's state always has an output, so the demo starts it as the empty string, which the node then overwrites.
- The process exit status is left out, because it is not part of the model's state.
