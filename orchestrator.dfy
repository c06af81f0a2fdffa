/** `ice_break_with` (Orchestrator.py): resolve the name to a profile URL,
    fetch the profile in live mode, stop early on an empty record, and
    otherwise run the summary chain, turning any failure of the chain into a
    fixed degraded summary. The agent, the HTTP fetch and the chain
    (`summary_prompt_template | llm | summary_parser`) are oracles. */
module Orchestrator {
  import opened Runtime
  import opened Llm
  import opened Json
  import opened LinkedIn
  import opened LookupAgent

  /** The parsed output of the summary chain. */
  datatype Summary = Summary(summary: string, facts: seq<string>)

  const NoDataSummary := Summary("No LinkedIn data found.", [])
  const GenerationErrorSummary := Summary("Error generating summary.", [])

  /** `chain.invoke(input={"information": record})` with the chain built on
      the given chat model: a parsed summary, or whatever the model call or
      the output parser raised. */
  type Chain = (ChatModel, Record) -> Result<Summary>

  /** The three ways `ice_break_with` can return. */
  datatype Terminal = NoData | GenerationFailed | Generated(result: Summary)

  function SummaryOf(t: Terminal): Summary {
    match t
    case NoData => NoDataSummary
    case GenerationFailed => GenerationErrorSummary
    case Generated(s) => s
  }

  /** `os.getenv("DEEPSEEK_API_KEY", "").strip()`. */
  function SummaryApiKey(env: Env): string {
    Strip(match GetEnv(env, DeepSeekKeyVar) case Some(v) => v case None => "")
  }

  /** The condition under which the missing-key warning is printed. */
  predicate WarnsMissingKey(env: Env) {
    SummaryApiKey(env) == ""
  }

  /** The control flow of `ice_break_with`, naming the terminal state reached.
      Exceptions from the resolver and the scraper escape; the chain's are
      caught. */
  function Pipeline(name: string, env: Env, agent: Agent, fetch: Request -> Result<Json>, chain: Chain): (r: Result<Terminal>)
    ensures r.Err? <==>
      || Lookup(name, env, agent).Err?
      || ScrapeLinkedinProfile(Lookup(name, env, agent).value, false, env, fetch).Err?
    ensures Lookup(name, env, agent).Err? ==> r == Err(Lookup(name, env, agent).error)
  {
    var url :- Lookup(name, env, agent);
    var data :- ScrapeLinkedinProfile(url, false, env, fetch);
    if data == [] then Ok(NoData)
    else
      match chain(DeepSeekChat(SummaryApiKey(env)), data)
      case Ok(res) => Ok(Generated(res))
      case Err(_) => Ok(GenerationFailed)
  }

  /** `ice_break_with(name)`. */
  function IceBreakWith(name: string, env: Env, agent: Agent, fetch: Request -> Result<Json>, chain: Chain): (r: Result<Summary>)
    ensures Pipeline(name, env, agent, fetch, chain).Err? ==> r == Err(Pipeline(name, env, agent, fetch, chain).error)
    ensures Pipeline(name, env, agent, fetch, chain) == Ok(NoData) ==> r == Ok(Summary("No LinkedIn data found.", []))
    ensures Pipeline(name, env, agent, fetch, chain) == Ok(GenerationFailed) ==> r == Ok(Summary("Error generating summary.", []))
    ensures Pipeline(name, env, agent, fetch, chain).Ok? && Pipeline(name, env, agent, fetch, chain).value.Generated? ==>
      r == Ok(Pipeline(name, env, agent, fetch, chain).value.result)
  {
    match Pipeline(name, env, agent, fetch, chain)
    case Ok(t) => Ok(SummaryOf(t))
    case Err(e) => Err(e)
  }

  /** The resolver's answer, the sentinel included, goes unchanged to the
      scraper in live mode: it is the `linkedInUrl` of the one request the
      pipeline sends, and two fetchers that answer that request alike give
      the same outcome. */
  lemma ResolvedUrlGoesToScraper(name: string, env: Env, agent: Agent, fetch1: Request -> Result<Json>, fetch2: Request -> Result<Json>, chain: Chain)
    requires Lookup(name, env, agent).Ok?
    requires var request := ProfileRequest(Lookup(name, env, agent).value, false, env);
      request.Ok? ==> fetch1(request.value) == fetch2(request.value)
    ensures var request := ProfileRequest(Lookup(name, env, agent).value, false, env);
      request.Ok? ==> Param(request.value.params, "linkedInUrl") == Some(Lookup(name, env, agent).value)
    ensures Pipeline(name, env, agent, fetch1, chain) == Pipeline(name, env, agent, fetch2, chain)
  {
    ScrapeUsesOnlyItsRequest(Lookup(name, env, agent).value, false, env, fetch1, fetch2);
  }

  /** An empty record ends the pipeline with the no-data summary, and the
      chain is never consulted: any two chains give the same outcome. */
  lemma EmptyRecordSkipsGeneration(name: string, env: Env, agent: Agent, fetch: Request -> Result<Json>, chain1: Chain, chain2: Chain)
    requires Lookup(name, env, agent).Ok?
    requires ScrapeLinkedinProfile(Lookup(name, env, agent).value, false, env, fetch) == Ok([])
    ensures Pipeline(name, env, agent, fetch, chain1) == Pipeline(name, env, agent, fetch, chain2) == Ok(NoData)
    ensures IceBreakWith(name, env, agent, fetch, chain1) == Ok(Summary("No LinkedIn data found.", []))
  {
  }

  /** A non-empty record is handed to the chain, built on the DeepSeek model
      with the stripped key; the chain's summary comes back unchanged, and a
      failing chain yields the generation-error summary instead of an
      exception. */
  lemma NonEmptyRecordIsSummarised(name: string, env: Env, agent: Agent, fetch: Request -> Result<Json>, chain: Chain)
    requires Lookup(name, env, agent).Ok?
    requires var data := ScrapeLinkedinProfile(Lookup(name, env, agent).value, false, env, fetch);
      data.Ok? && data.value != []
    ensures var data := ScrapeLinkedinProfile(Lookup(name, env, agent).value, false, env, fetch).value;
      var generated := chain(DeepSeekChat(SummaryApiKey(env)), data);
      && (generated.Ok? ==> IceBreakWith(name, env, agent, fetch, chain) == Ok(generated.value))
      && (generated.Err? ==> IceBreakWith(name, env, agent, fetch, chain) == Ok(Summary("Error generating summary.", [])))
  {
  }

  /** Scraper failures propagate unchanged, like resolver failures. */
  lemma ScrapeErrorPropagates(name: string, env: Env, agent: Agent, fetch: Request -> Result<Json>, chain: Chain)
    requires Lookup(name, env, agent).Ok?
    requires ScrapeLinkedinProfile(Lookup(name, env, agent).value, false, env, fetch).Err?
    ensures IceBreakWith(name, env, agent, fetch, chain)
      == Err(ScrapeLinkedinProfile(Lookup(name, env, agent).value, false, env, fetch).error)
  {
  }

  /** The missing-key warning changes nothing but the key handed to the
      model. Because `lookup` has already rejected an unset or empty key, the
      warning can only fire for a key made entirely of whitespace, and the
      chain is then built with the empty key. */
  lemma MissingKeyOnlyWarns(name: string, env: Env, agent: Agent, fetch: Request -> Result<Json>, chain: Chain)
    requires Pipeline(name, env, agent, fetch, chain).Ok?
    requires WarnsMissingKey(env)
    ensures DeepSeekKeyVar in env && env[DeepSeekKeyVar] != "" && AllSpace(env[DeepSeekKeyVar])
    ensures DeepSeekChat(SummaryApiKey(env)).apiKey == ""
  {
    StripEmptyIffAllSpace(env[DeepSeekKeyVar]);
  }

  /** Nothing stops the pipeline when the resolver answers with the
      not-found sentinel: the sentinel is sent to the enrichment API as
      `linkedInUrl`, and if the filtered record is not empty the chain is run
      on it, exactly as for a real profile URL. */
  lemma SentinelDoesNotStopPipeline(name: string, env: Env, agent: Agent, fetch: Request -> Result<Json>, chain: Chain)
    requires Lookup(name, env, agent) == Ok(NotFound)
    requires var data := ScrapeLinkedinProfile(NotFound, false, env, fetch); data.Ok? && data.value != []
    ensures Param(ProfileRequest(NotFound, false, env).value.params, "linkedInUrl") == Some(NotFound)
    ensures var data := ScrapeLinkedinProfile(NotFound, false, env, fetch).value;
      var generated := chain(DeepSeekChat(SummaryApiKey(env)), data);
      && (generated.Ok? ==> Pipeline(name, env, agent, fetch, chain) == Ok(Generated(generated.value)))
      && (generated.Err? ==> Pipeline(name, env, agent, fetch, chain) == Ok(GenerationFailed))
  {
  }

  /** The case above is reachable: an agent answering the sentinel and an API
      returning a person with one kept entry lead past the empty-record guard. */
  lemma SentinelCaseIsReachable(name: string, env: Env, chain: Chain)
    requires Truthy(GetEnv(env, DeepSeekKeyVar)) && ScrapinKeyVar in env
    ensures
      var agent: Agent := (setup, prompt) => Ok(map["output" := NotFound]);
      var person := [Member("headline", JString("unrelated"))];
      var fetch := (request: Request) => Ok(JObject([Member("person", JObject(person))]));
      && Lookup(name, env, agent) == Ok(NotFound)
      && ScrapeLinkedinProfile(NotFound, false, env, fetch) == Ok(person)
      && Pipeline(name, env, agent, fetch, chain) != Ok(NoData)
  {
    var person := [Member("headline", JString("unrelated"))];
    assert FilterProfile(person) == person by {
      assert Kept(person[0]);
      assert Sequences.Filter(person[1..], Kept) == [];
    }
  }
}
