/** `scrape_linkedin_profile` (third_parties/linkedIn.py): choose the request
    (static fixture in mock mode, enrichment API in live mode), take the
    `person` object out of the JSON response, and drop empty and denylisted
    entries from it. The HTTP round trip and `response.json()` are an oracle. */
module LinkedIn {
  import opened Runtime
  import opened Json
  import Sequences

  /** A profile record: the members of the `person` object, in order. */
  type Record = seq<Member>

  const FixtureUrl := "https://gist.githubusercontent.com/govinda-lienart/78c49ecaffcc77b61db1568abea39761/raw/491b6640cbdb95a192992a0e3d7f1258edef6eca/eden-marco-scrapin.json"
  const EnrichmentEndpoint := "https://api.scrapin.io/enrichment/profile"
  const ScrapinKeyVar := "SCRAPIN_API_KEY"
  const TimeoutSeconds := 10
  const DeniedKeys: seq<string> := ["certifications"]

  /** `requests.get(url, params=params, timeout=timeout)`. */
  datatype Request = Request(url: string, params: seq<(string, string)>, timeout: nat)

  /** The value sent for query parameter `name`, if any. */
  function Param(params: seq<(string, string)>, name: string): Option<string>
    decreases |params|
  {
    if params == [] then None
    else if params[0].0 == name then Some(params[0].1)
    else Param(params[1..], name)
  }

  /** The request for a profile. Mock mode ignores the caller's URL and asks
      for the fixture; live mode reads the enrichment key from `os.environ`
      (a `KeyError` when unset) and sends the caller's URL as `linkedInUrl`. */
  function ProfileRequest(profileUrl: string, mock: bool, env: Env): (r: Result<Request>)
    ensures r.Err? <==> !mock && ScrapinKeyVar !in env
    ensures r.Err? ==> r.error == KeyError(ScrapinKeyVar)
    ensures r.Ok? ==> r.value.timeout == TimeoutSeconds
    ensures !mock && r.Ok? ==>
      && r.value.url == EnrichmentEndpoint
      && |r.value.params| == 2
      && Param(r.value.params, "linkedInUrl") == Some(profileUrl)
      && Param(r.value.params, "apikey") == Some(env[ScrapinKeyVar])
  {
    if mock then
      Ok(Request(FixtureUrl, [], TimeoutSeconds))
    else
      var apiKey :- Environ(env, ScrapinKeyVar);
      Ok(Request(EnrichmentEndpoint, [("apikey", apiKey), ("linkedInUrl", profileUrl)], TimeoutSeconds))
  }

  /** In mock mode the request is the fixture request, whatever URL and
      environment the caller has. */
  lemma MockIgnoresProfileUrl(url1: string, url2: string, env1: Env, env2: Env)
    ensures ProfileRequest(url1, true, env1) == ProfileRequest(url2, true, env2)
    ensures ProfileRequest(url1, true, env1) == Ok(Request(FixtureUrl, [], TimeoutSeconds))
  {
  }

  /** `v in ([], "", "", None)`: Python compares with `==`, so only the empty
      list, the empty string and null match; `{}`, `0` and `False` do not. */
  predicate IsEmptyValue(v: Json) {
    v == JArray([]) || v == JString("") || v == JNull
  }

  /** The filter's condition on one entry. */
  predicate Kept(m: Member) {
    !IsEmptyValue(m.value) && m.key !in DeniedKeys
  }

  /** Values that are falsy in Python but not equal to an empty marker survive. */
  lemma FalsyNonEmptyValuesKept(key: string)
    requires key !in DeniedKeys
    ensures Kept(Member(key, JObject([])))
    ensures Kept(Member(key, JNumber(0.0)))
    ensures Kept(Member(key, JBool(false)))
  {
  }

  /** The dict comprehension over `data.items()`: exactly the entries of the
      person record whose value is not empty and whose key is not denylisted. */
  function FilterProfile(person: Record): (r: Record)
    ensures forall k :: 0 <= k < |r| ==>
      r[k] in person && r[k].key !in DeniedKeys && !IsEmptyValue(r[k].value)
    ensures forall i :: 0 <= i < |person| && person[i].key !in DeniedKeys && !IsEmptyValue(person[i].value) ==>
      person[i] in r
  {
    Sequences.FilterMembers(person, Kept);
    Sequences.Filter(person, Kept)
  }

  /** Surviving entries keep their relative order: the result is the record
      read at the increasing positions of the kept entries, and those are
      exactly the positions whose entry passes the filter. */
  lemma FilterProfileKeepsOrder(person: Record)
    ensures Sequences.Picks(Sequences.Positions(person, Kept), FilterProfile(person), person)
    ensures forall i :: 0 <= i < |person| ==> (i in Sequences.Positions(person, Kept) <==> Kept(person[i]))
  {
    Sequences.FilterKeepsOrder(person, Kept);
  }

  /** Filtering an already filtered record changes nothing. */
  lemma FilterProfileIdempotent(person: Record)
    ensures FilterProfile(FilterProfile(person)) == FilterProfile(person)
  {
    Sequences.FilterIdempotent(person, Kept);
  }

  /** The result is still a dict: the filter never duplicates a key. */
  lemma FilterProfileDistinctKeys(person: Record)
    requires DistinctKeys(person)
    ensures DistinctKeys(FilterProfile(person))
  {
    Sequences.FilterKeepsOrder(person, Kept);
    var ix, r := Sequences.Positions(person, Kept), FilterProfile(person);
    forall i, j | 0 <= i < j < |r| ensures r[i].key != r[j].key {
      assert ix[i] < ix[j];
      assert r[i] == person[ix[i]] && r[j] == person[ix[j]];
    }
  }

  /** `response.json().get("person")` followed by `.items()`: a body that is
      not an object has no `get`; a missing, null or non-object `person` has
      no `items`. */
  function PersonRecord(body: Json): (r: Result<Record>)
    ensures r.Ok? <==> body.JObject? && exists p :: Get(body.members, "person") == Some(JObject(p))
    ensures r.Ok? ==> Get(body.members, "person") == Some(JObject(r.value))
    ensures r.Err? ==> r.error == AttributeError(if body.JObject? then "items" else "get")
  {
    match body
    case JObject(members) =>
      (match Get(members, "person")
       case Some(JObject(person)) => Ok(person)
       case _ => Err(AttributeError("items")))
    case _ => Err(AttributeError("get"))
  }

  /** `scrape_linkedin_profile(profileUrl, mock)`, with `fetch` standing for
      `requests.get(...)` followed by `response.json()`. */
  function ScrapeLinkedinProfile(profileUrl: string, mock: bool, env: Env, fetch: Request -> Result<Json>): (r: Result<Record>)
    ensures r.Ok? ==> forall k :: 0 <= k < |r.value| ==>
      r.value[k].key !in DeniedKeys && !IsEmptyValue(r.value[k].value)
    ensures r.Err? <==>
      || ProfileRequest(profileUrl, mock, env).Err?
      || fetch(ProfileRequest(profileUrl, mock, env).value).Err?
      || PersonRecord(fetch(ProfileRequest(profileUrl, mock, env).value).value).Err?
    ensures r.Ok? ==>
      r.value == FilterProfile(PersonRecord(fetch(ProfileRequest(profileUrl, mock, env).value).value).value)
    ensures ProfileRequest(profileUrl, mock, env).Err? ==> r == Err(ProfileRequest(profileUrl, mock, env).error)
    ensures ProfileRequest(profileUrl, mock, env).Ok? && fetch(ProfileRequest(profileUrl, mock, env).value).Err? ==>
      r == Err(fetch(ProfileRequest(profileUrl, mock, env).value).error)
    ensures
      (&& ProfileRequest(profileUrl, mock, env).Ok?
       && fetch(ProfileRequest(profileUrl, mock, env).value).Ok?
       && PersonRecord(fetch(ProfileRequest(profileUrl, mock, env).value).value).Err?) ==>
      r == Err(PersonRecord(fetch(ProfileRequest(profileUrl, mock, env).value).value).error)
  {
    var request :- ProfileRequest(profileUrl, mock, env);
    var body :- fetch(request);
    var person :- PersonRecord(body);
    Ok(FilterProfile(person))
  }

  /** A response without a `person` object makes the scrape fail rather
      than return a record. */
  lemma MissingPersonFails(profileUrl: string, mock: bool, env: Env, fetch: Request -> Result<Json>)
    requires ProfileRequest(profileUrl, mock, env).Ok?
    requires fetch(ProfileRequest(profileUrl, mock, env).value).Ok?
    requires var body := fetch(ProfileRequest(profileUrl, mock, env).value).value;
      body.JObject? && (Get(body.members, "person").None? || !Get(body.members, "person").value.JObject?)
    ensures ScrapeLinkedinProfile(profileUrl, mock, env, fetch) == Err(AttributeError("items"))
  {
  }

  /** The scrape looks at the network only through its one request: two
      fetchers that answer that request alike give the same outcome. In
      mock mode the outcome does not depend on the caller's URL. */
  lemma ScrapeUsesOnlyItsRequest(profileUrl: string, mock: bool, env: Env, fetch1: Request -> Result<Json>, fetch2: Request -> Result<Json>)
    requires ProfileRequest(profileUrl, mock, env).Ok? ==>
      fetch1(ProfileRequest(profileUrl, mock, env).value) == fetch2(ProfileRequest(profileUrl, mock, env).value)
    ensures ScrapeLinkedinProfile(profileUrl, mock, env, fetch1) == ScrapeLinkedinProfile(profileUrl, mock, env, fetch2)
    ensures mock ==> forall otherUrl :: ScrapeLinkedinProfile(otherUrl, mock, env, fetch1) == ScrapeLinkedinProfile(profileUrl, mock, env, fetch1)
  {
  }
}
