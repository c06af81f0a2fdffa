/** agents/linkedin_lookup_agent.py: the search tool `get_profile_url_tavily`
    (credential check, site-scoped query, first profile URL or a sentinel)
    and `lookup` (credential check, then a ReAct agent whose `output` field
    is returned). The Tavily search and the agent run are oracles. */
module LookupAgent {
  import opened Runtime
  import opened Llm
  import Sequences

  const TavilyKeyVar := "TAVILY_API_KEY"
  const DeepSeekKeyVar := "DEEPSEEK_API_KEY"
  const SiteFilter := " site:linkedin.com/in"
  const ProfilePathPattern := "linkedin.com/in/"
  const NotFound := "LinkedIn profile not found."
  const MissingTavilyKey := "\U{26A0}\U{FE0F} TAVILY_API_KEY is missing. Add it to the .env file!"
  const MissingDeepSeekKey := "\U{26A0}\U{FE0F} DEEPSEEK_API_KEY is missing. Make sure it's in the .env file!"
  const SearchToolName := "Search LinkedIn Profile"
  const ReactPromptName := "hwchase17/react"

  /** `search.run(query)`, reduced to the `url` field of each result in order. */
  type Search = string -> Result<seq<string>>

  /** `f"{name} site:linkedin.com/in"`. */
  function SearchQuery(name: string): string {
    name + SiteFilter
  }

  /** `"linkedin.com/in/" in url`. */
  predicate IsProfileUrl(url: string) {
    Contains(url, ProfilePathPattern)
  }

  /** No profile URL is the sentinel (every profile URL has a `/`, the
      sentinel has none), so callers can tell the two answers apart. */
  lemma ProfileUrlIsNotSentinel(url: string)
    requires IsProfileUrl(url)
    ensures url != NotFound
  {
    assert ProfilePathPattern[12] == '/';
    ContainsKeepsChars(url, ProfilePathPattern, '/');
    assert forall i :: 0 <= i < |NotFound| ==> NotFound[i] != '/';
  }

  /** `linkedin_urls[0] if linkedin_urls else "LinkedIn profile not found."`,
      where `linkedin_urls` keeps the results that are profile URLs. The
      answer is the earliest profile URL in search order, and the sentinel
      exactly when there is none. */
  function FirstProfileUrl(urls: seq<string>): (r: string)
    ensures r == NotFound <==> forall i :: 0 <= i < |urls| ==> !IsProfileUrl(urls[i])
    ensures r != NotFound ==>
      exists i :: 0 <= i < |urls| && r == urls[i] && IsProfileUrl(urls[i])
                  && forall j :: 0 <= j < i ==> !IsProfileUrl(urls[j])
    ensures IsProfileUrl(r) || r == NotFound
  {
    var profileUrls := Sequences.Filter(urls, IsProfileUrl);
    FirstProfileUrlSpec(urls, profileUrls);
    if profileUrls != [] then profileUrls[0] else NotFound
  }

  lemma FirstProfileUrlSpec(urls: seq<string>, profileUrls: seq<string>)
    requires profileUrls == Sequences.Filter(urls, IsProfileUrl)
    ensures profileUrls == [] <==> forall i :: 0 <= i < |urls| ==> !IsProfileUrl(urls[i])
    ensures profileUrls != [] ==> IsProfileUrl(profileUrls[0]) && profileUrls[0] != NotFound
    ensures profileUrls != [] ==>
      exists i :: 0 <= i < |urls| && profileUrls[0] == urls[i] && IsProfileUrl(urls[i])
                  && forall j :: 0 <= j < i ==> !IsProfileUrl(urls[j])
  {
    Sequences.FilterHeadIsEarliest(urls, IsProfileUrl);
    if profileUrls != [] {
      ProfileUrlIsNotSentinel(profileUrls[0]);
    }
  }

  /** `get_profile_url_tavily(name)`. Without a usable key (unset or empty)
      it raises before searching; otherwise it searches once for the
      site-scoped query and answers with the earliest profile URL. */
  function GetProfileUrlTavily(name: string, env: Env, search: Search): (r: Result<string>)
    ensures !Truthy(GetEnv(env, TavilyKeyVar)) ==> r == Err(ValueError(MissingTavilyKey))
    ensures r.Ok? ==> IsProfileUrl(r.value) || r.value == NotFound
    ensures Truthy(GetEnv(env, TavilyKeyVar)) && search(name + " site:linkedin.com/in").Err? ==>
      r == Err(search(name + " site:linkedin.com/in").error)
    ensures Truthy(GetEnv(env, TavilyKeyVar)) && search(name + " site:linkedin.com/in").Ok? ==>
      r == Ok(FirstProfileUrl(search(name + " site:linkedin.com/in").value))
  {
    if !Truthy(GetEnv(env, TavilyKeyVar)) then Err(ValueError(MissingTavilyKey))
    else
      var urls :- search(SearchQuery(name));
      Ok(FirstProfileUrl(urls))
  }

  /** A missing key means no search at all: the outcome is the same whatever
      the search engine would have answered. */
  lemma TavilyKeyCheckedBeforeSearch(name: string, env: Env, search1: Search, search2: Search)
    requires !Truthy(GetEnv(env, TavilyKeyVar))
    ensures GetProfileUrlTavily(name, env, search1) == GetProfileUrlTavily(name, env, search2)
  {
  }

  /** With a key, the only query issued is the name followed by
      `" site:linkedin.com/in"`: two search engines that answer that query
      alike give the same outcome, and the answer is taken from its results. */
  lemma TavilySearchesOnlyItsQuery(name: string, env: Env, search1: Search, search2: Search)
    requires Truthy(GetEnv(env, TavilyKeyVar))
    requires search1(name + " site:linkedin.com/in") == search2(name + " site:linkedin.com/in")
    ensures GetProfileUrlTavily(name, env, search1) == GetProfileUrlTavily(name, env, search2)
    ensures search1(name + " site:linkedin.com/in").Ok? ==>
      GetProfileUrlTavily(name, env, search1) == Ok(FirstProfileUrl(search1(name + " site:linkedin.com/in").value))
  {
  }

  /** What the ReAct agent is built from: the chat model, the name of its one
      tool (`get_profile_url_tavily`) and the prompt pulled from the hub. */
  datatype AgentSetup = AgentSetup(llm: ChatModel, toolName: string, reactPrompt: string)

  /** `AgentExecutor(...).invoke(...)`: the executor's result dict, or an
      exception raised while pulling the prompt or running the agent. */
  type Agent = (AgentSetup, string) -> Result<map<string, string>>

  /** The lookup template around `{name_of_person}`. */
  const PromptHead := "Given the full name "
  const PromptTail := ", find the URL to their LinkedIn profile page.\nYour answer should contain only the URL."

  /** `prompt_template.format_prompt(name_of_person=name)`. */
  function LookupPrompt(name: string): string {
    PromptHead + name + PromptTail
  }

  function SetupFor(apiKey: string): AgentSetup {
    AgentSetup(DeepSeekChat(apiKey), SearchToolName, ReactPromptName)
  }

  /** `lookup(name)`: the agent's `output` field, passed through unchanged. */
  function Lookup(name: string, env: Env, agent: Agent): (r: Result<string>)
    ensures !Truthy(GetEnv(env, DeepSeekKeyVar)) ==> r == Err(ValueError(MissingDeepSeekKey))
    ensures r.Ok? ==>
      && DeepSeekKeyVar in env
      && var out := agent(SetupFor(env[DeepSeekKeyVar]), LookupPrompt(name));
         out.Ok? && "output" in out.value && out.value["output"] == r.value
    ensures Truthy(GetEnv(env, DeepSeekKeyVar)) ==>
      var out := agent(SetupFor(env[DeepSeekKeyVar]), LookupPrompt(name));
      && (out.Ok? && "output" in out.value ==> r == Ok(out.value["output"]))
      && (out.Ok? && "output" !in out.value ==> r == Err(KeyError("output")))
      && (out.Err? ==> r == Err(out.error))
  {
    if !Truthy(GetEnv(env, DeepSeekKeyVar)) then Err(ValueError(MissingDeepSeekKey))
    else
      match agent(SetupFor(env[DeepSeekKeyVar]), LookupPrompt(name))
      case Err(e) => Err(e)
      case Ok(result) => if "output" in result then Ok(result["output"]) else Err(KeyError("output"))
  }

  /** A missing key stops `lookup` before the agent is built or run. */
  lemma LookupKeyCheckedBeforeAgent(name: string, env: Env, agent1: Agent, agent2: Agent)
    requires !Truthy(GetEnv(env, DeepSeekKeyVar))
    ensures Lookup(name, env, agent1) == Lookup(name, env, agent2)
  {
  }
}
