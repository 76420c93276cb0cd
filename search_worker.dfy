/** The search worker of workers/search-worker.ts: check the message, fetch
    every car from the endpoint, keep those whose model or brand contains the term. */
module SearchWorker {
  import opened Wrappers
  import opened Cars
  import opened Text
  import opened Seqs
  import opened Http
  import opened QueryEngine

  const MissingInput := "Missing search term or endpoint"

  /** The outcome of `fetch(endpoint)` followed by `response.json()`. A rejected
      fetch, a body that is not JSON and a body without `filter` all throw; their
      error message comes with the outcome. */
  datatype FetchOutcome = Fetched(status: int, cars: seq<Car>) | Threw(message: string)

  /** What the worker posts back. */
  datatype Reply = Results(results: seq<Car>) | Error(error: string)

  /** The worker's step: the URL it fetched, if any, and the reply it posted. */
  datatype Step = Step(fetchedUrl: Option<string>, reply: Reply)

  /** The fixed start of the error thrown for a non-ok status. */
  const FetchErrorPrefix := "Failed to fetch data: "

  /** The message of the error thrown for a non-ok status: the fixed start
      followed by the decimal digits of the status. */
  function FailedToFetch(status: int): (m: string)
    ensures status >= 0 ==> Includes(m, NatToString(status))
    ensures status >= 0 ==>
              && |m| > |FetchErrorPrefix|
              && m[..|FetchErrorPrefix|] == FetchErrorPrefix
              && (forall i :: |FetchErrorPrefix| <= i < |m| ==> '0' <= m[i] <= '9')
              && DigitsValue(m[|FetchErrorPrefix|..]) == status
  {
    var prefix := FetchErrorPrefix;
    if status >= 0 then
      IncludesSuffix(prefix, NatToString(status));
      assert (prefix + NatToString(status))[|prefix|..] == NatToString(status);
      prefix + NatToString(status)
    else
      IncludesSuffix(prefix + "-", NatToString(-status));
      prefix + "-" + NatToString(-status)
  }

  /** `self.onmessage` for a message with `searchTerm` and `endpoint` ("" when missing). */
  function OnMessage(searchTerm: string, endpoint: string, response: FetchOutcome): (s: Step)
    ensures searchTerm == "" || endpoint == "" ==> s == Step(None, Error(MissingInput))
    ensures searchTerm != "" && endpoint != "" ==> s.fetchedUrl == Some(endpoint)
    ensures searchTerm != "" && endpoint != "" && response.Fetched? && !Ok(response.status) ==>
              s.reply == Error(FailedToFetch(response.status))
    ensures searchTerm != "" && endpoint != "" && response.Threw? ==> s.reply == Error(response.message)
    ensures s.reply.Results? ==>
              && response.Fetched? && Ok(response.status)
              && IsSubsequence(s.reply.results, response.cars)
              && forall c :: c in s.reply.results <==>
                    (c in response.cars &&
                     (Includes(Lower(c.model), Lower(searchTerm)) || Includes(Lower(c.brand), Lower(searchTerm))))
    ensures s.reply.Results? ==>
              forall c :: multiset(s.reply.results)[c] ==
                if Includes(Lower(c.model), Lower(searchTerm)) || Includes(Lower(c.brand), Lower(searchTerm))
                then multiset(response.cars)[c] else 0
  {
    if searchTerm == "" || endpoint == "" then Step(None, Error(MissingInput))
    else
      match response
      case Threw(message) => Step(Some(endpoint), Error(message))
      case Fetched(status, cars) =>
        if !Ok(status) then Step(Some(endpoint), Error(FailedToFetch(status)))
        else Step(Some(endpoint), Results(SearchFilter(cars, searchTerm)))
  }

  /** Every fetched request with a 2xx answer yields results. */
  lemma OkFetchYieldsResults(searchTerm: string, endpoint: string, status: int, cars: seq<Car>)
    requires searchTerm != "" && endpoint != "" && Ok(status)
    ensures OnMessage(searchTerm, endpoint, Fetched(status, cars)).reply.Results?
  {
  }

  /** A car with neither model nor brand is never a result. */
  lemma NamelessCarNeverFound(searchTerm: string, endpoint: string, response: FetchOutcome, c: Car)
    requires c.model == "" && c.brand == ""
    ensures var r := OnMessage(searchTerm, endpoint, response).reply;
            r.Results? ==> c !in r.results
  {
    IncludesInEmpty(Lower(searchTerm));
  }
}
