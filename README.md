# LinkedInSearch profile pipeline, modelled in Dafny

This project models the deterministic core of the LinkedInSearch tool.
Given a person's name, the tool asks a ReAct agent for the person's LinkedIn
profile URL. It then fetches the profile from the Scrapin enrichment API,
drops empty and denylisted fields, and asks a DeepSeek chat model to write a
short summary with two facts.

Everything is modelled as pure functions, because the three core files only
compute values. They keep no fields, run no loops and update nothing in place.
Each hosted service is a function-typed parameter, called an oracle here:

- `fetch`: the HTTP request plus `response.json()`;
- `search`: the Tavily search, reduced to the result URLs in order;
- `agent`: the ReAct agent executor;
- `chain`: the prompt, the LLM and the summary parser together.

A Python exception is an `Err` of `Runtime.Result`. "The oracle is not
called" is stated as "the outcome is the same for any two oracles". "The
oracle is called with X" is stated as "two oracles that agree on X give the
same outcome".

Modules, one per source file plus shared pieces:

- `Runtime` (`runtime.dfy`): exceptions, `os.getenv` / `os.environ`, Python
  truthiness, the `in` operator on strings, and `str.strip()` with Python's
  exact whitespace set.
- `Sequences` (`sequences.dfy`): the filtering comprehension both core files
  use, with its order, idempotence and first-element facts.
- `Json` (`json.dfy`): parsed JSON. A JSON object is an ordered sequence of
  members, because Python dicts keep insertion order.
- `Llm` (`llm.dfy`): the `ChatOpenAI` configuration both the agent and the
  chain are built on.
- `LinkedIn` (`linkedin.dfy`): `scrape_linkedin_profile`.
- `LookupAgent` (`lookup_agent.dfy`): `get_profile_url_tavily` and `lookup`.
- `Orchestrator` (`orchestrator.dfy`): `ice_break_with`.

Two behaviours of the code are easy to miss, and the model states them:

- When the resolver answers "LinkedIn profile not found.", the code does not
  stop. The sentinel is sent to the enrichment API as `linkedInUrl`, and if
  that API returns a person with at least one kept entry, the chain is run
  on the filtered record (`Orchestrator.SentinelDoesNotStopPipeline`).
- The orchestrator's own key check only prints a warning. Since `lookup` has
  already rejected an unset or empty `DEEPSEEK_API_KEY`, the warning fires
  only for a whitespace-only key, and the chain is then built with the empty
  key (`Orchestrator.MissingKeyOnlyWarns`).

## Model

| member | source | states |
|---|---|---|
| `Runtime.ContainsKeepsChars` | agents/linkedin_lookup_agent.py:38 | if `sub in s` holds, every character of `sub` occurs in `s` |
| `Runtime.StripEmptyIffAllSpace` | Orchestrator.py:41-42 | `s.strip()` is empty exactly when every character of `s` is Python whitespace |
| `Sequences.Filter` | third_parties/linkedIn.py:32-36 | a filtering comprehension never yields more elements than its input |
| `Sequences.FilterMembers` | third_parties/linkedIn.py:32-36 | an element is in the result exactly when it is in the input and passes the condition |
| `Sequences.FilterKeepsOrder` | third_parties/linkedIn.py:32-36 | the result is the input read at strictly increasing positions, and those positions are exactly the ones whose element passes |
| `Sequences.FilterIdempotent` | third_parties/linkedIn.py:32-36 | filtering twice gives the same result as filtering once |
| `Sequences.FilterHeadIsEarliest` | agents/linkedin_lookup_agent.py:38-40 | the result is empty exactly when no element passes; otherwise its first element is the earliest element that passes |
| `Json.Get` | third_parties/linkedIn.py:30 | `dict.get(key)` is `None` exactly when no member has the key, and otherwise returns a value stored under the key |
| `LinkedIn.ProfileRequest` | third_parties/linkedIn.py:11-27 | the request fails with `KeyError('SCRAPIN_API_KEY')` exactly in live mode without that variable; it always has timeout 10; in live mode it goes to the enrichment endpoint with exactly two parameters: the caller's URL unchanged as `linkedInUrl` and the key as `apikey` |
| `LinkedIn.MockIgnoresProfileUrl` | third_parties/linkedIn.py:11-16 | in mock mode the request is the fixture request, whatever the caller's URL and environment |
| `LinkedIn.FalsyNonEmptyValuesKept` | third_parties/linkedIn.py:35 | `{}`, `0` and `False` are not among `[]`, `""`, `None` under `==`, so their entries are kept |
| `LinkedIn.FilterProfile` | third_parties/linkedIn.py:32-36 | every output entry is an input entry whose key is not `certifications` and whose value is not `[]`, `""` or `None`; every input entry meeting both conditions is in the output |
| `LinkedIn.FilterProfileKeepsOrder` | third_parties/linkedIn.py:32-36 | surviving entries keep their relative input order, and exactly the entries that pass survive |
| `LinkedIn.FilterProfileIdempotent` | third_parties/linkedIn.py:32-36 | filtering a filtered record changes nothing |
| `LinkedIn.FilterProfileDistinctKeys` | third_parties/linkedIn.py:32-36 | a record with distinct keys is filtered to a record with distinct keys |
| `LinkedIn.PersonRecord` | third_parties/linkedIn.py:30-34 | a record is extracted exactly when the body is an object whose `person` is an object; otherwise it is `AttributeError` on `get` (the body is not an object) or on `items` (`person` is missing, null or not an object) |
| `LinkedIn.ScrapeLinkedinProfile` | third_parties/linkedIn.py:8-38 | the scrape raises exactly when building the request, the fetch, or extracting `person` raises, and the error of the failing step comes out unchanged; a returned record is the filtered `person` object of the response to the built request, so it has no denylisted key and no empty value |
| `LinkedIn.MissingPersonFails` | third_parties/linkedIn.py:30-34 | an object response without a `person` object makes the scrape raise `AttributeError` instead of returning a record |
| `LinkedIn.ScrapeUsesOnlyItsRequest` | third_parties/linkedIn.py:11-30 | the outcome depends on the network only through the one request built; in mock mode it does not depend on the caller's URL |
| `LookupAgent.ProfileUrlIsNotSentinel` | agents/linkedin_lookup_agent.py:38-40 | no string containing `linkedin.com/in/` equals the sentinel |
| `LookupAgent.FirstProfileUrl` | agents/linkedin_lookup_agent.py:38-40 | the answer is the sentinel exactly when no result contains `linkedin.com/in/`; otherwise it is the earliest such result; either way it is a profile URL or the sentinel |
| `LookupAgent.GetProfileUrlTavily` | agents/linkedin_lookup_agent.py:22-40 | an unset or empty `TAVILY_API_KEY` raises the `ValueError`; with the key, a failing search for `name + " site:linkedin.com/in"` propagates its exception unchanged, and a successful one returns the first profile URL among its results; a returned string is a profile URL or the sentinel |
| `LookupAgent.TavilyKeyCheckedBeforeSearch` | agents/linkedin_lookup_agent.py:26-28 | without the key the outcome is the same for any search engine, so no search is issued |
| `LookupAgent.TavilySearchesOnlyItsQuery` | agents/linkedin_lookup_agent.py:31-40 | with the key, the only query consulted is the name followed by `" site:linkedin.com/in"`, and the answer is the first profile URL among its results |
| `LookupAgent.Lookup` | agents/linkedin_lookup_agent.py:44-105 | an unset or empty `DEEPSEEK_API_KEY` raises the `ValueError`; with the key, the agent is run on the DeepSeek model with the lookup prompt, and its `output` field is returned unchanged, its exception propagates, and a result without `output` raises `KeyError('output')`; a returned string is always that `output` |
| `LookupAgent.LookupKeyCheckedBeforeAgent` | agents/linkedin_lookup_agent.py:50-52 | without the key the outcome is the same for any agent, so the agent is never built or run |
| `Orchestrator.Pipeline` | Orchestrator.py:11-62 | the pipeline raises exactly when the resolver or the scraper raises, and a resolver error comes out unchanged |
| `Orchestrator.IceBreakWith` | Orchestrator.py:11-62 | a pipeline error comes out unchanged; the no-data state returns `Summary("No LinkedIn data found.", [])`, the generation-failure state `Summary("Error generating summary.", [])`, and the generated state the chain's own summary |
| `Orchestrator.ResolvedUrlGoesToScraper` | Orchestrator.py:12-16 | the resolver's answer, sentinel included, is the `linkedInUrl` of the live-mode request, and only that request's response matters |
| `Orchestrator.EmptyRecordSkipsGeneration` | Orchestrator.py:20-22 | an empty record gives `Summary("No LinkedIn data found.", [])`, with the same outcome for any chain |
| `Orchestrator.NonEmptyRecordIsSummarised` | Orchestrator.py:40-62 | for a non-empty record, the chain's summary is returned unchanged; a failing chain gives `Summary("Error generating summary.", [])` and no exception |
| `Orchestrator.ScrapeErrorPropagates` | Orchestrator.py:14-16 | a scraper exception escapes unchanged |
| `Orchestrator.MissingKeyOnlyWarns` | Orchestrator.py:41-51 | when the warning fires on a run that returns, the key is set, non-empty and all whitespace, and the chain's model gets the empty key |
| `Orchestrator.SentinelDoesNotStopPipeline` | Orchestrator.py:12-62 | for any agent answering the sentinel, the sentinel is the request's `linkedInUrl`, and if the filtered record is non-empty the chain is run on it: its summary is the result, or its failure gives the generation-failure state |
| `Orchestrator.SentinelCaseIsReachable` | Orchestrator.py:12-22 | an agent answering the sentinel and an API returning a person with one kept entry get past the empty-record guard |

## Left out

- Network I/O: `requests.get`, its 10-second timeout and `response.json()` form the `fetch` oracle. Its failures (timeouts, connection errors, non-JSON bodies) are any `Err`, usually `Runtime.Other`. The timeout appears only as a field of the request.
- The Tavily service: the `search` oracle returns result URLs in order. A result without a `url` field, which would raise `KeyError` at line 38, is not modelled.
- The ReAct agent, `hub.pull`, `create_react_agent`, `AgentExecutor` and its iteration loop form the `agent` oracle. The model records only what the agent is given: the chat model, the tool's name, the hub prompt name and the formatted lookup prompt. How the agent uses the search tool is not visible.
- The LLM call, prompt templating, `summary_parser` and its format instructions form the `chain` oracle. The source of `output_parsers` is not part of this model. The "exactly two facts" requirement is only a prompt instruction and is not enforced.
- Building the chat model and the chain (Orchestrator.py:32-53) happens outside the `try` block. The model assumes that construction does not raise.
- `print` logging, including the missing-key warning. The warning's condition is modelled as `Orchestrator.WarnsMissingKey`.
- `load_dotenv`: the environment is a given map.
- Duplicate keys in a JSON object: Python's JSON parser keeps only the last value under a repeated key, while the model keeps every member. `Json.Get` returns the first value, and the filter sees each repeated entry. The response and its `person` object stand for Python dicts, whose keys are distinct. For a body with a repeated key, at the top level or inside `person`, the model can disagree with the program. For example, `{"a": 1, "a": []}` keeps `a: 1` in the model but nothing in Python.
- The contents of the mock fixture JSON (external data). JSON numbers are `real`, which is enough because the filter never compares a number with anything but `[]`, `""` and `None`.
- flask_app.py: the web route, form handling and template rendering are presentation.
