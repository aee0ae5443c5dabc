# Collaborative AI debate — a Dafny model

This project models the core of `main.py` of the Collaborative AI System. In that system, local language models debate a topic in fixed roles: an Advocate, a Critic and a Summarizer. During its turn a model may ask for a Wikipedia lookup through a `wiki_search` tool call.

The model covers four pieces of the core:

- `WikiSearcher.search` turns the outcome of the Wikipedia request into exactly one result: a title, a snippet and a URL.
- `CollaborativeAI.wiki_tool` renders the results as the text that goes back to the model.
- `CollaborativeAI.call_model` runs one agent turn. It makes a first chat call, then handles each `wiki_search` tool call with a lookup and a follow-up chat call made without tools. It has fallbacks for failed calls.
- `CollaborativeAI.debate` runs `rounds` Advocate/Critic rounds. Each turn's output is threaded into the next prompt. A final Summarizer call, made without tools, produces `final`.

The model is split into these files:

- `text.dfy`: the parts of Python's `str` that the core relies on. These are `split()`, `strip()`, `' '.join`, `replace(' ', '_')`, list slicing `[:k]`, and decimal formatting of the `enumerate` counter. Whitespace is Python's `str.isspace` set.
- `wiki.dfy`: `search`, starting from the outcome of the request.
- `backend.dfy`: the messages, tool calls and chat requests exchanged with the Ollama backend, and the `World`.
- `agent.dfy`: `wiki_tool` and `call_model`, plus the `AgentTrace` module of properties about them.
- `orchestration.dfy`: `debate`.

## How the model is built

**The outside world is a parameter.** A `World` holds two total functions: `chat`, which answers an Ollama chat request, and `fetch`, which answers a Wikipedia request.

- Each function receives the whole history of external calls made before, plus the request itself. A backend whose answers change over time, or follow a script, is therefore one particular `World`.
- Every method that calls the chat backend returns the list of external calls it made, its `Event`s. The properties can then say exactly which calls happen, with which requests, and in which order.
- `WikiTool` returns only the observation text, as `wiki_tool` does. The `Lookup` event of its search is recorded by `ResolveToolCalls`, which calls it.

**Each source function with a loop is a method whose loop has invariants.** Its `ensures` ties the result to a specification function: `Search` to `SearchResults`, `WikiTool` to `Observation`, `CallModel` to `ModelCall`, `Debate` to `DebateRun`. The properties the source promises are then lemmas about those functions. `ResolveToolCalls` is the whole tool-call loop of `call_model` (`main.py:114-125`). `debate`'s loop is `PlayRounds`, the body of that loop is `PlayRound`, and the Summarizer step after it is `Conclude`.

**The debate's specification is parametric in the agent.** It is written over an abstract `Invoker`: a function from the history and an agent call (model, prompt, tools offered) to an answer and the external calls made.

- The shape lemmas hold for every invoker.
- `Implements(agent, w)` says that an invoker answers as `call_model` does against `w`, and `CallModelInvoker(w)` is one such invoker.
- The `Debate` method carries that invoker as a ghost parameter, so its result is exactly `DebateRun(agent, …)` for any `agent` with `Implements(agent, w)`, for instance `CallModelInvoker(w)`.

**Tool calls in `call_model`.** `call_model` makes one lookup and one follow-up call per `wiki_search` tool call (`main.py:114-125`):

- Each follow-up re-appends the *first* reply and the new observation to a growing message list.
- The content is that of the *last* follow-up call that succeeded.

## Model

| member | source | states |
|---|---|---|
| Text.TrimStart | main.py:112 | the result is a suffix of the input, starts with a non-whitespace character, and everything removed was whitespace |
| Text.TrimEnd | main.py:112 | the result is a prefix of the input, ends with a non-whitespace character, and everything removed was whitespace |
| Text.Strip | main.py:112 | `str.strip()`: no longer than the input, with no whitespace at either end |
| Text.StripUnchanged | main.py:112 | stripping leaves a string unchanged exactly when it is empty or has no whitespace at either end (both directions), and stripping is idempotent |
| Text.LeadingWord | main.py:51 | the longest whitespace-free prefix: a prefix, with no whitespace, followed by whitespace or the end |
| Text.Split | main.py:51 | `str.split()` yields only non-empty words that contain no whitespace |
| Text.SplitEmpty | main.py:51 | `str.split()` yields no word exactly when the string is empty or all whitespace |
| Text.SplitSkipsSpace | main.py:51 | a leading whitespace character does not change `str.split()`'s result |
| Text.SplitTakesWord | main.py:51 | a leading word followed by whitespace or the end is `str.split()`'s first element, followed by the split of the rest; with the two rows above this determines `str.split()` on every string |
| Text.SlicePrefix | main.py:52 | Python's `s[:k]` is a prefix of `s`; for `k >= 0` its length is `min(k, len(s))` |
| Text.SpacesToUnderscores | main.py:53 | `replace(' ', '_')` keeps the length, turns each space into `_` and leaves every other character unchanged |
| Text.Digit | main.py:74-75 | the character of a decimal digit has that digit's value |
| Text.Decimal | main.py:74-75 | the decimal form of the enumerate counter is non-empty, all digits, and has no leading zero |
| Text.ParseDecimalOfDecimal | main.py:74-75 | the decimal form reads back as the same number |
| Text.LeadingWordOfWord | main.py:51-52 | a word followed by whitespace or the end is exactly the leading word |
| Text.SplitJoin | main.py:51-52 | splitting the single-space join of words gives those words back |
| Text.JoinClean | main.py:52 | the single-space join of words has no leading, trailing or doubled whitespace, and is non-empty when there is a word |
| Wiki.FirstWithExtract | main.py:48-49 | the index of the first page with a non-empty extract, where no earlier page has one; `None` exactly when no page has one |
| Wiki.PageUrl | main.py:53 | the URL is the article prefix followed by the title: its length is the prefix's plus the title's, no space follows the prefix, and each character of the title is kept in place except that a space becomes `_` |
| Wiki.SearchResults | main.py:39-59 | every outcome of the request yields exactly one result |
| Wiki.Search | main.py:46-59 | the loop over pages, which breaks at the first page with an extract, returns `SearchResults` |
| Wiki.SnippetWords | main.py:51-52 | splitting the snippet gives exactly the first `sentences * 20` words of the extract, and the snippet has no leading, trailing or doubled whitespace |
| Wiki.DefaultSnippetBound | main.py:51-52 | with the default `sentences = 2` the snippet has at most 40 words |
| Wiki.SearchFindsFirst | main.py:48-55 | when some page has an extract, the first such page gives the title unchanged, its snippet (clean), and a URL of prefix plus title length with no space after the prefix |
| Wiki.UrlTail | main.py:53 | the URL is the prefix followed by a part that contains no space |
| Wiki.SearchFindsNothing | main.py:57-58 | when no page has an extract the result is exactly `[{title: "No Results Found", snippet: "", url: ""}]` |
| Wiki.SearchFailures | main.py:39-44 | a failed request or invalid JSON gives one result titled "Search Error", with a non-empty diagnostic and an empty URL |
| Agent.WikiTool | main.py:71-76 | the accumulated output equals the rendering of the search results for the query |
| Agent.RenderExtends | main.py:73-75 | each loop pass appends exactly the block of the next result, numbered from 1, and each partial output is a prefix of the final one |
| Agent.ObservationIsOneBlock | main.py:72-75 | since search returns one result, the observation is `"Wikipedia facts:\n"` followed by one block numbered `1` |
| Agent.ResolveToolCalls | main.py:114-125 | the loop over the tool calls produces the messages, content and calls of `ToolLoop` |
| Agent.CallModel | main.py:78-127 | `call_model` returns the content, and makes the external calls, given by `ModelCall` |
| AgentTrace.WikiCalls | main.py:116 | a tool call is acted on exactly when it is one of the given calls and is named `wiki_search`; there are no more of them than tool calls given |
| AgentTrace.ResolvedCallKept | main.py:119-122 | calls made later do not change the record of an earlier handled tool call |
| AgentTrace.ToolStepLayout | main.py:116-122 | handling one more `wiki_search` call adds exactly its lookup and its follow-up call, whose context is the previous call's plus the first reply and the observation |
| AgentTrace.ToolStepContent | main.py:121-125 | after each pass, the content is that of the latest follow-up call that got a reply, or the first reply's |
| AgentTrace.ToolLoopResolves | main.py:114-125 | the whole loop handles exactly the `wiki_search` calls in order, two external calls each, and the content is that of the latest successful follow-up call |
| AgentTrace.ModelCallTrace | main.py:104-127 | a failed first call gives `"Error calling <model>: <error>"` and no other external call; otherwise exactly the `wiki_search` calls are handled (none when tools are not offered) and the content is that of the latest successful follow-up call, or the stripped first reply |
| AgentTrace.ToolLoopIgnoresOthers | main.py:116 | tool calls not named `wiki_search` have no effect: the loop behaves as if they were absent |
| AgentTrace.FailedResolutionsKeepContent | main.py:121-125 | when every follow-up call fails, the content is the stripped first reply |
| Orchestration.Contents | main.py:141-149 | the contents of the log, one per entry, in order |
| Orchestration.ShapedStep | main.py:134-151 | a round appends an Advocate turn and a Critic turn of the right round, role and model, each asked the prompt threaded to it, and the Critic's answer becomes the next statement |
| Orchestration.TurnShapedKept | main.py:141-149 | appending turns does not change the shape of earlier entries |
| Orchestration.TurnPromptPrefix | main.py:133-151 | the prompt of a turn depends only on the turns before it |
| Orchestration.RoundsShape | main.py:132-151 | after n rounds the log has 2n entries. Entry i has round `i/2+1`, is by the Advocate at even i and the Critic at odd i, with that role's model. Its prompt is the opening prompt for i = 0, `"Critically analyze: "` plus the previous entry at odd i, and the previous Critic's answer otherwise |
| Orchestration.DebateShape | main.py:129-160 | `debate` logs `2*max(rounds,0)` entries shaped as above, then calls the Summarizer once, last, on `"Provide a concise final decision on: " + topic` without tools; its answer is not logged |
| Orchestration.Replay | main.py:134-157 | replaying agent calls one after another yields one answer per call |
| Orchestration.RoundsReplay | main.py:134-151 | the rounds' log and external calls are exactly what their agent calls give when replayed in order, each seeing all earlier external calls |
| Orchestration.DebateReplay | main.py:129-160 | the whole debate, log contents then `final`, together with every external call, is its agent calls replayed in order |
| Orchestration.RoundsPrefix | main.py:141-149 | the log and the calls only grow: after k rounds they are prefixes of those after n >= k rounds |
| Orchestration.SummarizerWithoutTools | main.py:154-157 | the Summarizer makes exactly one external call, a chat request that offers no tools, whatever its outcome |
| Orchestration.AdvocateTurn | main.py:138-146 | the Advocate's entry of round k+1 is the answer to the statement left by round k, and the Critic is asked to analyze that answer |
| Orchestration.AdvocateFailure | main.py:138-146 | when an Advocate's first chat call fails, its entry is `"Error calling <model>: <error>"`, which contains the model name. The Critic analyzes that text, and the debate still logs all `2*rounds` entries |
| Orchestration.PlainReply | main.py:104-114 | a first reply without tool calls and without surrounding whitespace is returned as is, after exactly one chat call |
| Orchestration.PlainAnswer | main.py:104-114 | an agent whose backend always answers a plain text without tool calls answers that text |
| Orchestration.OneRound | main.py:132-160 | one round logs the Advocate's answer to the opening prompt and the Critic's analysis of it, and `final` is the Summarizer's answer |
| Orchestration.OneRoundScenario | main.py:129-160 | with stub backends that always answer "Position X", "Rebuttal Y" and "Decision Z" (or any texts without surrounding whitespace), `rounds = 1` gives exactly the log of those two turns and that final decision |
| Orchestration.PlayRound | main.py:134-151 | one pass of `debate`'s loop produces the state given by `Round` |
| Orchestration.Conclude | main.py:154-160 | the Summarizer step produces `DebateResult(log, summary)`, with the matching calls |
| Orchestration.PlayRounds | main.py:132-152 | the loop over `range(1, rounds + 1)` produces the state after `max(rounds, 0)` rounds |
| Orchestration.Debate | main.py:129-160 | `debate` returns, and makes the calls given by, `DebateRun` over `call_model` |

## Left out

- The HTTP request, `raise_for_status` and JSON decoding (`main.py:35-38`) are not modelled. They appear only as the outcomes `TransportError(message)`, `BadJson` and `Pages(pages)`.
  - A body whose `query` or `pages` key is missing maps to `Pages([])`.
  - A body that decodes to something other than a dictionary raises `AttributeError` in the source. That case is not modelled.
  - An `extract` that is truthy but not a string is not modelled.
  - Both `except` branches of `main.py:39-44` are kept as written. With `requests` 2.27 or later, a body that is not JSON raises `requests.exceptions.JSONDecodeError`, which is also a `RequestException` and so is caught by the first branch (`main.py:39-41`). The `ValueError` branch (`main.py:42-44`, outcome `BadJson`) is then reached only with older `requests` versions.
- The request parameters and the endpoint (`main.py:25-34`) are not modelled, since `fetch` sees only the query.
- The internals of `ollama.chat` are not modelled. The backend is the `World.chat` oracle, and any exception it raises is `ChatFailure(message)`.
- A backend reply without a `message`, a tool call without `function`/`name`, and tool-call arguments that are not a dictionary would make the source raise outside its `try` blocks. Replies are assumed well-formed.
- A missing `tool_calls` and an empty one are the same in the model (an empty sequence), as they are for the source's truthiness test.
- The tool schema dictionary (`main.py:80-93`) is reduced to the flag `toolsOffered`.
- `time.sleep(1)` and the verbose `print` narration have no effect on results, so they are left out. `Session.verbose` and `Session.models` are carried but unused.
- `save_debate` (`main.py:162-167`) is file I/O and JSON dumping, so it is left out.
- The `__main__` block is left out: model listing, interactive menus, parsing of `rounds` with `int()`, and the threaded spinner.
