# Investment assistant core, modelled in Dafny

This project models the deterministic core of a conversational investment
assistant. It covers four parts.

- **Portfolio calculators** (`InvestmentTools`, `investment_tools.dfy`):
  - portfolio metrics: total, per-ticker percentage allocation, count and largest position;
  - the profile-based stock/bond split;
  - the count-based diversification score;
  - the first-keyword recommendation text.
- **Turn state** (`State`, `state.dfy`): the `AgentState` record, a class whose fields the pipeline nodes update in place.
- **Turn pipeline** (`InvestmentAgent`, `investment_agent.dfy`):
  - the `process`, `format` and `end` nodes, as methods that update that state;
  - the graph as `add_node`/`add_edge`/`set_entry_point` build it;
  - one full run in the fixed order process → format → end.
- **Language-model client** (`LlmClient`, `llm_client.dfy`):
  - key and model resolution at construction, and stub mode versus live mode;
  - parameter defaulting and message composition in `invoke`;
  - the stub reply;
  - text extraction from dictionary-shaped and object-shaped responses.

`Wrappers` (`wrappers.dfy`) holds `Option` and `Result`.

Abstract inputs:
- The prompt-and-model chain the pipeline calls is a parameter: a total function from the state's messages to a `ChainOutcome`, either a returned response or a raised exception with its message.
- The remote completion endpoint the client calls is a parameter too: a function from the `Request` it is sent to a `RemoteOutcome`.
- Whether the remote library can be imported is a boolean constructor argument.
- The process-wide configuration is an explicit `Config` value given to the client's constructor. `DefaultConfig` holds its defaults: empty key, `"gpt-4"`, temperature 0.7, 2048 tokens.

Representation choices:
- A ticker→amount dictionary is a sequence of `Holding`s in iteration order with distinct tickers (`DistinctTickers`). Amounts are `real`, so divisions are exact.
- A ticker→sector dictionary is a `map`, because only its size is used.
- The recommended split is two whole percentages: the source's 0.3/0.7 becomes `Split(30, 70)`, so stocks plus bonds is 100.
- Lower-casing is ASCII only.
- Default arguments keep their defaults: `AnalyzeRisk`'s profile defaults to `"moderate"`; the client's key and model default to None; `Invoke`'s `system`, `model`, `temperature` and `maxTokens` are name-only parameters defaulting to None, as the Python's keyword-only ones do.
- The `process` node sends `state.messages` to the chain; it does not read `user_input`.
- The nodes update one state object in place and return that same object.
- For non-empty holdings whose amounts sum to zero, `calculate_portfolio_metrics` raises a division by zero. The model returns that exception as `Failure(DivisionByZero)`. Empty holdings do not fail: total 0, no allocation, no largest position.
- `format_output` tests `not state.output`. The model treats an unset `output` attribute (`None`) like an empty one; see "## Left out".

## Model

| member | source | states |
|---|---|---|
| InvestmentTools.CalculatePortfolioMetrics | src/tools/investment_tools.py:18-25 | fails exactly when holdings are non-empty and sum to 0; otherwise total = sum of amounts, allocation keys = tickers and each value = amount/total·100, count = number of entries = number of allocation keys, largest position None exactly for empty holdings and otherwise the first ticker with maximal amount |
| InvestmentTools.Total | src/tools/investment_tools.py:18 | the sum of the amounts: 0 for no holdings, and with no negative amount at least 0 and at least every single amount |
| InvestmentTools.Allocation | src/tools/investment_tools.py:19 | the dict comprehension has exactly the tickers as keys and gives each its amount/total·100 |
| InvestmentTools.FirstLargestIndex | src/tools/investment_tools.py:25 | `max` with a key returns a position whose amount is maximal and strictly exceeds every earlier amount (first on ties) |
| InvestmentTools.LargestAtIsUnique | src/tools/investment_tools.py:25 | that characterisation picks one position only, so the largest position is determined |
| InvestmentTools.TickerCount | src/tools/investment_tools.py:24 | a dictionary has as many keys as entries, so `num_holdings` is the key count |
| InvestmentTools.PercentagesSum | src/tools/investment_tools.py:19 | adding up amount/total·100 over the holdings gives (sum of amounts)/total·100 |
| InvestmentTools.AllocationSumsToHundred | src/tools/investment_tools.py:18-19 | with a non-zero total the allocation percentages add up to exactly 100 |
| InvestmentTools.ExampleFacts | tests/test_tools.py:16-19 | the test holdings have distinct tickers, total 18000, and their first entry is the largest |
| InvestmentTools.ExamplePortfolioMetrics | tests/test_tools.py:14-23 | AAPL 10000, MSFT 5000, GOOGL 3000 give total 18000, three allocation keys, three holdings, AAPL at 500/9 percent and AAPL as largest position |
| InvestmentTools.AnalyzeRisk | src/tools/investment_tools.py:29-49 | the profile defaults to "moderate" and is echoed unchanged; conservative 30/70, moderate 60/40, aggressive 90/10, any other profile 60/40; stocks + bonds = 100 |
| InvestmentTools.RiskDefaultsToModerate | src/tools/investment_tools.py:29 | called without a profile, the analysis is for "moderate" with the 60/40 split |
| InvestmentTools.RiskIgnoresHoldings | src/tools/investment_tools.py:29-46 | the analysis does not depend on the holdings |
| InvestmentTools.GetDiversificationScore | src/tools/investment_tools.py:66-83 | count below 3 ⇔ score 20, 3..7 ⇔ 60, 8 or more ⇔ 85, each with its advice text; `num_holdings` is the count |
| InvestmentTools.DiversificationMonotone | src/tools/investment_tools.py:69-77 | the score never decreases as the count grows |
| InvestmentTools.FirstMatch | src/tools/investment_tools.py:108-110 | returns the first rule whose keyword occurs in the query, with no earlier keyword occurring; None exactly when no keyword occurs |
| InvestmentTools.GenerateInvestmentRecommendation | src/tools/investment_tools.py:97-112 | the result is one of the six fixed texts; it is the text of keyword i exactly when keyword i occurs in the lower-cased query and no earlier keyword does; it is the balanced-approach text exactly when no keyword occurs |
| InvestmentTools.LowerChar | src/tools/investment_tools.py:106 | a capital A–Z becomes its small letter, any other character is kept, and the result is never a capital |
| InvestmentTools.Lower | src/tools/investment_tools.py:106 | the lower-cased query has the same length, no capital letter, and every non-capital character unchanged |
| InvestmentTools.RecommendationIgnoresCase | src/tools/investment_tools.py:106 | queries equal up to ASCII case get the same text |
| InvestmentTools.RecommendationIgnoresContext | src/tools/investment_tools.py:86 | the context argument has no influence |
| InvestmentTools.RiskBeforeBonds | src/tools/investment_tools.py:97-110 | "Risk or bonds" gets the risk text, because table order decides between keywords |
| State.AgentState.Default | src/agent/state.py:8-11 | a default state has no messages, empty user input, no steps and no output yet |
| State.AgentState.constructor | src/agent/state.py:8-11 | the given messages, user input and steps are stored as given, with no output yet |
| InvestmentAgent.ContentOf | src/agent/investment_agent.py:109 | the response text is its `content` attribute when it has one, else its string form |
| InvestmentAgent.ProcessInput | src/agent/investment_agent.py:97-119 | the chain gets the state's messages; on a response, output = content (the `content` attribute, else the string form) and exactly one ("llm_response", content) step is appended; on an exception, output = error prefix + message and the steps are unchanged; messages and user input are untouched; the same state is returned |
| InvestmentAgent.FormatOutput | src/agent/investment_agent.py:121-125 | an unset or empty output becomes the fallback text, a non-empty one is kept; nothing else changes |
| InvestmentAgent.EndNode | src/agent/investment_agent.py:133 | returns its argument unchanged |
| InvestmentAgent.RunTurn | src/agent/investment_agent.py:97-138 | process, then format, then end: the output is non-empty and equals TurnOutput of the chain's outcome, the steps gain the one response record on success only, and messages and user input are unchanged |
| InvestmentAgent.TurnOutputNonEmpty | src/agent/investment_agent.py:112-125 | whatever the chain does, the final output is non-empty |
| InvestmentAgent.FailureIsReported | src/agent/investment_agent.py:117-118 | after a raised exception the output starts with "I encountered an error" and ends with the exception's message |
| InvestmentAgent.Workflow.constructor | src/agent/investment_agent.py:128 | a new graph has no nodes, no edges and no entry point |
| InvestmentAgent.Workflow.AddNode | src/agent/investment_agent.py:131-133 | appends one named node and changes nothing else |
| InvestmentAgent.Workflow.AddEdge | src/agent/investment_agent.py:137-138 | appends one edge and changes nothing else |
| InvestmentAgent.Workflow.SetEntryPoint | src/agent/investment_agent.py:136 | sets the entry point and changes nothing else |
| InvestmentAgent.CreateWorkflow | src/agent/investment_agent.py:128-138 | the built graph has the process, format and end nodes, the edges process→format and format→end, and entry point process; following its edges from the entry point visits process, format, end and stops |
| InvestmentAgent.Successor | src/agent/investment_agent.py:137-138 | the successor is the target of the first edge leaving the node; None means no edge leaves it |
| InvestmentAgent.RunOrder | src/agent/investment_agent.py:136-138 | following the two edges from "process" visits process, format, end and stops |
| LlmClient.LLMClient.constructor | src/agent/clients/llm_client.py:20-33 | key and model default to None; key = explicit key if non-empty, else the configured key; model likewise; the client is live exactly when the key is non-empty and the library imports |
| LlmClient.LLMClient.Invoke | src/agent/clients/llm_client.py:35-76 | system, model, temperature and token budget are name-only and default to None; in stub mode the reply is "[llm_stub] " + prompt; in live mode the endpoint receives the resolved model, MessagesFor(system, prompt), and the temperature and token budget that fall back to the config only when absent; a remote error is re-raised unchanged and a response without text gives "" |
| LlmClient.StubReplyExample | src/agent/clients/llm_client.py:61-63 | with no key anywhere, invoke("hello") replies exactly "[llm_stub] hello" |
| LlmClient.OrElse | src/agent/clients/llm_client.py:21-22 | `value or fallback`: a non-empty value wins, None or "" gives the fallback, and the result is empty only when the fallback is |
| LlmClient.IfNone | src/agent/clients/llm_client.py:51-54 | `value if value is not None else fallback`: any given value wins, even a falsy one; only None gives the fallback |
| LlmClient.MessagesFor | src/agent/clients/llm_client.py:56-59 | one or two messages: a system message first exactly when a non-empty system text is given, and the user prompt always last |
| LlmClient.DefaultingDiffers | src/agent/clients/llm_client.py:50-54 | an explicit temperature or token budget of 0 is kept, while an empty model name falls back |
| LlmClient.ExtractText | src/agent/clients/llm_client.py:85-108 | no first choice gives None in both shapes; a dictionary choice that is falsy or not a dictionary gives None; otherwise a dictionary choice gives its non-empty message content, else its text, or None when `message` is a non-dictionary; an object choice gives its message's content whenever a message is present, else its text |
| LlmClient.ShapesCompared | src/agent/clients/llm_client.py:92-103 | the two shapes agree on non-empty content and on a missing message; on empty or missing content the dictionary falls back to the text and the object does not |

## Left out

- The analysis sentence and timestamp of `analyze_risk`: the sentence's text depends on how floating-point percentages are printed, and the timestamp reads the clock.
- Unicode lower-casing. `Lower` changes only the ASCII letters A–Z.
- Floating-point arithmetic. Amounts are exact reals, and the risk split is whole percentages.
- Reading the environment and parsing numbers in `src/config.py`. The client receives a `Config` value instead. Only its defaults appear here, as `DefaultConfig`.
- The tool wrappers in `src/agent/investment_agent.py:38-62`, which `eval` their input and are never wired into the graph.
- The prompt template and chain construction. The chain is an abstract function of the messages.
- How the graph library copies or merges state between nodes. The model passes one state object from node to node, as the node code reads.
- The remote completion call, the lazy import of its library, and the assignment of the key to the library's global setting.
- The Streamlit interface in `app.py`.
- Response values the extraction does not distinguish: a `content` or `text` that is not a string, and a `choices` value that is neither a list nor None.
- InvestmentAgent.FormatOutput: an unset `output` is treated like an empty one. The Python would raise an attribute error if `format` ran before `process`, which the fixed edge order rules out.
