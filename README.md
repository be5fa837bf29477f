# A verified model of the AgenticAI tool-calling agent

AgenticAI is a small Python agent. It keeps a bounded short-term memory of chat messages. It asks a language model for the next turn, runs the tools the model requests (web search, page fetch, calculator) and feeds their results back. It stops at the first turn that requests no tools, or when its step budget runs out.

This project models the core of that agent in Dafny and proves properties of the model.

- `wrappers.dfy`: `Option` and `Result`.
- `json.dfy`: JSON values and the JSON library, modelled as an abstract `loads`/`dumps` pair.
- `memory.dfy`: `ShortTermMemory`, a class whose `Add` and `Get` methods are proved against the functions `Retained` and `AddAll`. These reproduce Python's `messages[-max_messages:]` for every integer capacity, including zero and negative ones.
- `whitespace.dfy`: the Python string operations the fetch tool uses, over the characters `str.isspace` accepts:
  - `str.split()` with no separator;
  - `" ".join(...)`;
  - `str.strip()`.
- `tools.dfy`: the tool records, the three-tool registry, the conversion to the provider's function-calling format, dispatch by name, and the pure parts of the three handlers.
  - `web_search` renames keys.
  - `fetch_url` collapses whitespace, caps the text at 20000 characters and strips the title.
  - `calculator` has an allow-list gate.
  
  Everything a handler reaches outside the process is a function passed in (`Services`).
- `agent.dfy`: the `Agent` class.
  - The constructor seeds memory with the system prompt.
  - `Run` is the loop of `run`, with an inner loop over the requested tool calls (`ExecuteToolCalls`).
  - `Run` is proved to compute the function `RunLoop`, and the lemmas about `RunLoop` state what a run does: how many queries it makes, what it appends and in what order, which answer it returns, and what memory it leaves.
  - The language model is a pure function from the model name, the history and the advertised tool specs to a response or a provider error (`Gateway`).
- `scenario.dfy`: a worked run. A scripted model asks the calculator for an expression and then answers with the tool's result. It is proved for any calculator call whose expression passes the allow-list and evaluates, and for `17*23` giving `"391"` in two queries.

A handler either returns a value or raises; a raised exception is the `Err` case of its result. Nothing catches such an exception on its way out: `call_tool` (agentic_ai/tools.py:123-128) calls the handler directly, and `run` (agentic_ai/agent.py:48-51) catches only `json.JSONDecodeError`. So a raising tool aborts the run with a `ToolFault`, and the messages added before it stay in memory.

## Model

| member | source | states |
|---|---|---|
| Memory.ShortTermMemory.constructor | agentic_ai/memory.py:5-7 | A new memory holds no message and keeps the given capacity. |
| Memory.ShortTermMemory.Add | agentic_ai/memory.py:9-12 | The new list is the old one plus the message, trimmed to its last `max_messages` entries when too long. With a capacity of at least 1, it is at most that long and ends with the message. Nothing is dropped while there was room. A first add with capacity at least 1 yields exactly the message. |
| Memory.ShortTermMemory.Get | agentic_ai/memory.py:14-15 | Returns exactly the current messages and changes nothing. |
| Memory.SliceFrom | agentic_ai/memory.py:12 | Python's `s[start:]` for any integer start. A start from 0 to `len(s)` drops that many elements, and a larger one gives `[]`. A negative start keeps that many elements from the end, or all of `s` when it exceeds the length. The result is never longer than `s`. |
| Memory.Retained | agentic_ai/memory.py:9-12 | The list after one `add`: the message appended, then the slice `[-max_messages:]` when the list is too long. Its meaning is stated by `RetainedIsWindow` and `RetainedNonPositive`. |
| Memory.RetainedIsWindow | agentic_ai/memory.py:10-12 | With a capacity of at least 1, one add keeps the last `min(len+1, cap)` elements of `old + [m]` in order. The result is within the bound and ends with `m`, and equals `old + [m]` when there was room. |
| Memory.RetainedNonPositive | agentic_ai/memory.py:11-12 | With capacity 0 the slice `[-0:]` keeps the whole list, so the bound fails. A negative capacity drops entries from the front. |
| Memory.AddAllIsWindow | agentic_ai/memory.py:9-12 | After any sequence of adds to a memory within a positive capacity, it holds exactly the last `cap` messages of everything it was given, in order, and stays within the bound. |
| Memory.AddAllAppend | agentic_ai/memory.py:9-12 | Adding one batch of messages and then another is the same as adding their concatenation. |
| Memory.AddAllSnoc | agentic_ai/memory.py:9-12 | Adding a batch and then one more message is adding the extended batch. |
| Whitespace.IsSpace | agentic_ai/tools.py:87-88 | The characters `str.isspace()` accepts, which are where `split()` cuts and what `strip()` removes. |
| Whitespace.LeadingWord | agentic_ai/tools.py:87 | The leading run of non-whitespace: a prefix of the input, free of whitespace, followed by whitespace or the end. |
| Whitespace.Split | agentic_ai/tools.py:87 | `str.split()` yields only non-empty whitespace-free words, and the first is the leading run when the text starts with a non-space. `SplitAtSpace`, `SplitOfWord` and `SplitOfSpaces` pin it down completely. |
| Whitespace.SplitAtSpace | agentic_ai/tools.py:87 | `split()` cuts at every whitespace character: the words of `a + c + b`, for a whitespace `c`, are the words of `a` followed by those of `b`. |
| Whitespace.SplitOfWord | agentic_ai/tools.py:87 | A run of non-whitespace is never cut: it splits into itself alone. |
| Whitespace.SplitOfSpaces | agentic_ai/tools.py:87 | Text made only of whitespace has no words. |
| Whitespace.Join | agentic_ai/tools.py:87 | `" ".join(words)`: the words with one separator between neighbours. Its meaning is stated by `JoinOfWords`, `VisibleOfJoin` and `SplitOfJoin`. |
| Whitespace.Collapse | agentic_ai/tools.py:87 | `" ".join(text.split())`. Its meaning is stated by `CollapseNormalized`, `SplitOfCollapse`, `CollapseKeepsVisible` and `CollapseIdempotent`. |
| Whitespace.JoinOfWords | agentic_ai/tools.py:87 | Joining words with one space gives text with no edge whitespace, no whitespace run and only plain spaces. The result is non-empty when there are words. |
| Whitespace.CollapseNormalized | agentic_ai/tools.py:87 | `" ".join(s.split())` has no whitespace at either end, no run of whitespace, and no whitespace other than plain spaces. |
| Whitespace.NormalizedStep | agentic_ai/tools.py:87 | Normalized text of several words is its first word, one space and normalized rest; `split()` of it yields that word followed by the words of the rest. |
| Whitespace.CollapseFixesNormalized | agentic_ai/tools.py:87 | Text already in collapsed form is left unchanged by collapsing. |
| Whitespace.SplitOfJoin | agentic_ai/tools.py:87 | Splitting words joined by single spaces gives back exactly those words, so `" ".join` and `split()` round-trip. |
| Whitespace.SplitOfCollapse | agentic_ai/tools.py:87 | Collapsed text has exactly the words of the original, in order, none merged or broken. |
| Whitespace.CollapseIdempotent | agentic_ai/tools.py:87 | Collapsing twice equals collapsing once. |
| Whitespace.VisibleOfSplit | agentic_ai/tools.py:87 | The words of `split()`, concatenated, are exactly the non-whitespace characters of the text in order. |
| Whitespace.VisibleOfJoin | agentic_ai/tools.py:87 | The non-whitespace characters of words joined by spaces are the words' characters in order. |
| Whitespace.CollapseKeepsVisible | agentic_ai/tools.py:87 | Collapsing changes only whitespace: every other character survives, in order. |
| Whitespace.VisibleStart | agentic_ai/tools.py:88 | The first non-whitespace position at or after `i`, with only whitespace before it. |
| Whitespace.VisibleEnd | agentic_ai/tools.py:88 | The position just past the last non-whitespace character, with only whitespace after it. |
| Whitespace.Strip | agentic_ai/tools.py:88 | `str.strip()` leaves no whitespace at either end. |
| Whitespace.StripBounds | agentic_ai/tools.py:88 | `strip()` returns a contiguous part `s[a..b]` of the text with only whitespace before `a` and from `b` on. |
| Whitespace.StripFixesNoEdgeSpace | agentic_ai/tools.py:88 | Text without whitespace at its ends is unchanged by `strip()`. |
| Whitespace.StripIdempotent | agentic_ai/tools.py:88 | Stripping twice equals stripping once. |
| JsonModel.Get | agentic_ai/tools.py:71-73 | `dict.get(key)`: the member's value when present, `None` (JSON null) otherwise. |
| Tools.MakeTool | agentic_ai/tools.py:14-25 | The tool record's fields are exactly the given name, description, parameters and handler. |
| Tools.SearchEntry | agentic_ai/tools.py:70-74 | An entry has exactly the keys `title`, `href` and `snippet`, holding the hit's `title`, `url` and `content`, or null for a missing key. |
| Tools.SearchEntries | agentic_ai/tools.py:69-76 | One entry per provider hit, in the provider's order. |
| Tools.WebSearch | agentic_ai/tools.py:66-76 | `tool_web_search(**args)`. Its meaning is stated by `WebSearchShape`, `SearchEntries` and `SearchEntry`. |
| Tools.WebSearchShape | agentic_ai/tools.py:66-76 | Arguments other than `query` plus optional `max_results` raise. A missing `max_results` acts as 5. A search failure propagates. Otherwise the result lists one renamed entry per hit, in order. |
| Tools.PageText | agentic_ai/tools.py:87-89 | `" ".join(text.split())[:20000]`. Its meaning is stated by `PageTextClean` and `PageTextMayEndInSpace`. |
| Tools.PageTitle | agentic_ai/tools.py:88 | `soup.title.string.strip()` for a non-empty title string, `""` otherwise. The meaning of the strip is stated by `StripBounds`, `StripFixesNoEdgeSpace` and `StripIdempotent`. |
| Tools.PageTextClean | agentic_ai/tools.py:87-89 | The fetched text is the collapsed text cut to `min(len, 20000)` characters: a prefix of that length, and the whole collapsed text when it fits. It starts with no whitespace and contains only single plain spaces. It is fully normalized when the collapsed text fits. |
| Tools.PageTextMayEndInSpace | agentic_ai/tools.py:89 | Some page yields text that ends in a space, because the cap is applied after collapsing. |
| Tools.FetchUrl | agentic_ai/tools.py:79-89 | `tool_fetch_url(**args)`. Its meaning is stated by `FetchUrlShape`. |
| Tools.FetchUrlShape | agentic_ai/tools.py:79-89 | Only a `url` argument is accepted, and a fetch failure propagates. Otherwise the result holds exactly `title`, `text` and `url`. The title is the page's title string stripped, with no edge whitespace. The text is the page text collapsed and cut to 20000 characters. The URL is echoed. |
| Tools.OnlyAllowedChars | agentic_ai/tools.py:92-97 | `set(expression).issubset(ALLOWED_CHARS)`. Its meaning is stated by `AllowListGate`. |
| Tools.Calculator | agentic_ai/tools.py:95-103 | `tool_calculator(expression)` for a string. Its meaning is stated by `CalculatorRejectsUnlisted`, `CalculatorAnswerShape` and `CalculatorRefusesInjection`. |
| Tools.AllowListGate | agentic_ai/tools.py:92-97 | The gate passes an expression if and only if every character is one of `0123456789+-*/(). `. |
| Tools.CalculatorRejectsUnlisted | agentic_ai/tools.py:92-98 | An expression with any unlisted character gets `"Error: unsupported characters."`, whatever the evaluator would do; it is never evaluated. |
| Tools.CalculatorAnswerShape | agentic_ai/tools.py:95-103 | The answer is the evaluator's rendering of an allowed expression, or a text starting with `"Error: "`. An allowed expression that evaluates gives exactly its rendering. |
| Tools.CalculatorRefusesInjection | tests/test_tools.py:7 | The injection attempt from the test is refused before evaluation with an answer containing `Error`. |
| Tools.CalculatorTool | agentic_ai/tools.py:95-103 | `tool_calculator(**args)` for whatever JSON value `expression` is. Its meaning is stated by `CalculatorToolShape`. |
| Tools.CalculatorToolShape | agentic_ai/tools.py:95-103 | The tool raises exactly for a wrong signature, for an `expression` that `set()` cannot iterate, or for a list holding a list or a dictionary. A string is answered as `tool_calculator` answers it. Any other value never reaches the evaluator, and when it is answered the answer starts with `"Error: "`. |
| Tools.Registry | agentic_ai/tools.py:28-63 | `registry()`. Its meaning is stated by `RegistryShape`. |
| Tools.RegistryShape | agentic_ai/tools.py:28-63 | The registry has exactly three tools, `web_search`, `fetch_url` and `calculator`, in that order, with pairwise distinct names, each dispatching to its handler. |
| Tools.OpenAIToolSpecs | agentic_ai/tools.py:106-120 | One spec per tool, in order, each of type `"function"` and copying the tool's name, description and parameters. The list equals `ProviderSpecs`. |
| Tools.ProviderSpecs | agentic_ai/tools.py:106-120 | The value `openai_tool_specs` returns, as a function, which the agent's specification uses. Its meaning is stated by `ProviderSpecsAt`. |
| Tools.ProviderSpecsAt | agentic_ai/tools.py:106-120 | One spec per tool, in order, each declaring that tool as a function. |
| Tools.Mapping | agentic_ai/tools.py:125 | `{t["name"]: t["handler"] for t in tools}`. Its meaning is stated by `MappingKeys` and `MappingLastWins`. |
| Tools.MappingKeys | agentic_ai/tools.py:125-126 | A name is a key of the dispatch dictionary if and only if some tool carries it. |
| Tools.MappingLastWins | agentic_ai/tools.py:125 | With repeated names, the dictionary maps a name to the handler of its last registration. |
| Tools.UnknownTool | agentic_ai/tools.py:127 | The error value is a dictionary with the single key `error`, holding `"Unknown tool: "` followed by the name. |
| Tools.CallTool | agentic_ai/tools.py:123-128 | `call_tool(tools, name, args)`. Its meaning is stated by `CallToolUnknown`, `CallToolDispatch` and `CallToolNotAMapping`. |
| Tools.CallToolUnknown | agentic_ai/tools.py:126-127 | An unregistered name yields the unknown-tool value, and no handler runs. |
| Tools.CallToolDispatch | agentic_ai/tools.py:125-128 | A registered name runs the handler of the last tool with that name on the given arguments. |
| Tools.CallToolNotAMapping | agentic_ai/tools.py:128 | A registered name with arguments that are not a dictionary raises, as `**args` does. |
| Agent.ParseArguments | agentic_ai/agent.py:48-51 | The arguments `run` passes to `call_tool`. Its meaning is stated by `ArgumentsLenient`. |
| Agent.Render | agentic_ai/agent.py:57-61 | A tool result as stored: a string verbatim, anything else through `json.dumps`. Its meaning is stated by `ToolTurnContent`. |
| Agent.ArgumentsLenient | agentic_ai/agent.py:48-51 | Missing or empty arguments are read as `"{}"`. Unparseable arguments become an empty dictionary. Parseable ones are used as parsed. |
| Agent.ToolTurn | agentic_ai/agent.py:45-69 | One pass of the inner loop: the tool message for one call, or the exception its tool raised. Its meaning is stated by `ToolTurnShape` and `ToolTurnContent`. |
| Agent.ToolTurnShape | agentic_ai/agent.py:44-69 | Every call that does not raise is answered by a tool message with the call's id. A non-function call gets `"Unsupported tool call type"` without a handler. Only a registered tool can raise. |
| Agent.ToolTurnContent | agentic_ai/agent.py:53-62 | A tool message holds the serialised unknown-tool error for an unregistered name, a string result verbatim, and any other result serialised. |
| Agent.ToolTurns | agentic_ai/agent.py:44-69 | The inner loop over the requested calls. Its meaning is stated by `ToolTurnsShape`. |
| Agent.ToolTurnsShape | agentic_ai/agent.py:44-69 | A round answers the calls in the order listed, one message per call. It stops short exactly when a tool raised, and the fault is the one raised by the first unanswered call. |
| Agent.Iteration | agentic_ai/agent.py:32-75 | One pass of the outer loop. Its meaning is stated by `IterationShape`. |
| Agent.IterationShape | agentic_ai/agent.py:32-75 | A provider error appends nothing. The final answer, the reply's text or `""`, is appended alone exactly when the reply has no tool calls; an empty call list still continues. Otherwise the iteration appends a tool round, complete unless a tool raised, and memory receives exactly what was appended. |
| Agent.RunLoop | agentic_ai/agent.py:31-77 | The outer loop with its budget. Its meaning is stated by `RunLoopQueries`, `RunLoopMemory`, `RunLoopOutcome`, `RunLoopLog`, `LoopStep` and `LoopExhausted`. |
| Agent.RunLoopQueries | agentic_ai/agent.py:31-77 | A run makes at most `max_steps` model queries, and at least one when the budget allows. With no budget it makes none and returns the fallback. |
| Agent.RunLoopMemory | agentic_ai/agent.py:27-75 | The memory after a run is the memory before it with every appended message added in order. |
| Agent.RunLoopOutcome | agentic_ai/agent.py:72-77 | An answer is either the content of the final assistant message that ends the log, or the fallback text after the whole budget was spent. A run that stopped early either answered that way or failed. |
| Agent.RunLoopLog | agentic_ai/agent.py:36-75 | The log splits into at most `queries` blocks. Every block but the last is a complete tool round: the assistant message with the calls, then one tool message per call in order, each with that call's id. The last block is a tool round or the final answer. |
| Agent.LoopStep | agentic_ai/agent.py:31-75 | One iteration either ends the run with everything appended so far, or the run goes on from the memory it left, with one step fewer. |
| Agent.LoopExhausted | agentic_ai/agent.py:77 | With the budget spent, the run returns the fallback and appends nothing more. |
| Agent.Agent.constructor | agentic_ai/agent.py:19-25 | The configuration is the given one or the default. The tools are the registry. The memory is fresh, holds 60 messages, and contains exactly the system prompt. |
| Agent.Agent.ExecuteToolCalls | agentic_ai/agent.py:44-69 | Memory receives the round's tool messages in call order, and the loop stops at the first raising tool with its fault. |
| Agent.Agent.ToolRound | agentic_ai/agent.py:36-70 | Memory receives the assistant message with the calls, then the round's tool messages. |
| Agent.Agent.Iterate | agentic_ai/agent.py:32-75 | One query of the model with the current memory and advertised specs, then the final answer or a tool round, as `Iteration` describes. |
| Agent.Agent.Loop | agentic_ai/agent.py:31-77 | Up to `max_steps` iterations, stopping at the first final answer or fault, and the fallback otherwise. The answer, the memory, the appended messages and the query count are those of `RunLoop`. |
| Agent.Agent.Run | agentic_ai/agent.py:27-77 | The goal is added as a user message before any query. The specs come from `openai_tool_specs`. The rest is the loop: answer, memory, appended messages and query count as `RunLoop` gives them. |
| Scenario.CalculatorAnswers | agentic_ai/tools.py:95-101 | Through dispatch, the calculator tool answers an allowed expression with the evaluator's rendering. |
| Scenario.CalculatorRun | agentic_ai/agent.py:27-77 | A model that asks the calculator once and then repeats the tool's answer makes the run answer that result after exactly two queries. The run appends the assistant turn, the correlated tool message and the final answer, in that order. |
| Scenario.SeventeenTimesTwentyThree | agentic_ai/agent.py:27-77 | Asked for 17*23 with an evaluator giving 391, the agent answers `"391"` after two queries. |

## Left out

- The language-model client (agentic_ai/llm.py) and its network call: the model is the `Gateway` function, and a provider error is a fault that ends the run.
- agentic_ai/config.py: `temperature` and `top_p` are floats the loop never reads. Only `model` and `max_steps` (default 8) are kept.
- examples/demo_cli.py, the command-line front end, is not part of this model.
- The Tavily client and its credentials, the HTTP fetch with its timeout and redirects, and the BeautifulSoup parsing: these are the `search` and `fetch` functions of `Services`. A non-2xx status or a network error is their `Err` case.
- Python's `eval` of the calculator expression: the `eval` function of `Services` returns the `str()` of the value or the exception's message. Floating-point results are not modelled.
- Tools.CalculatorTool: the `TypeError` messages of `set()` are abstract. The message of the caught `eval` error is CPython's own.
- JSON numbers with a fraction or an exponent: `json.loads` gives Python floats for them, and the JSON model has integers only. A float `expression` or `max_results`, or a float in a tool result, is not modelled.
- The internals of `json.loads` and `json.dumps`: the model keeps an abstract parser that may reject its input and an abstract serialiser. The text of exception messages is abstract too.
- Dictionary key order and the message dictionaries themselves: messages are a datatype with one case per role.
- Tools.SearchEntries: provider hits that are not dictionaries are not modelled; a hit is a map from keys to JSON values.
- Tools.PageTextClean: states no trailing whitespace only when the collapsed text fits in 20000 characters. The cap can leave a trailing space, as Tools.PageTextMayEndInSpace shows.
- Agent.Agent.Run: `log` and `queries` are ghost results describing the run. Python keeps no such record.
- Concurrency: the agent is single-threaded.
