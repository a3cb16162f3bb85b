/** The dispensary lookup endpoint (src/pages/api/places.ts): it validates the
    request, asks the upstream directory-search service for
    "<query> dispensary", keeps the results that look like dispensaries and
    returns at most ten of them.

    The upstream call is not modelled: `Validate` builds the request the
    handler would send, and the upstream reply is an input of `Complete`. */
module Places {
  import opened Wrappers
  import opened Text
  import opened Seqs
  import opened Types

  const MaxResults: nat := 10
  const SearchQualifier: string := " dispensary"
  const Statuses: seq<string> := ["OK", "ZERO_RESULTS"]

  /** `req.query.query`: absent, one value, or repeated in the URL. */
  datatype QueryParam = Absent | Single(value: string) | Repeated(values: seq<string>)

  /** What the upstream fetch produced. */
  datatype Upstream =
    | HttpFailure(code: int)                                 // `!response.ok`
    | Unparseable                                            // `response.json()` throws
    | Payload(status: string, results: Option<seq<Place>>)   // the decoded body

  datatype Response =
    | MethodNotAllowed(allow: seq<string>)
    | BadRequest(message: string)
    | ServerError(message: string)
    | Found(results: seq<Place>, status: string)
  {
    function StatusCode(): int {
      match this
      case MethodNotAllowed(_) => 405
      case BadRequest(_) => 400
      case ServerError(_) => 500
      case Found(_, _) => 200
    }
  }

  /** Either the early response, or the upstream request to make. */
  datatype Validated = Rejected(response: Response) | Ready(searchText: string, apiKey: string)

  const KeyMissing: Response := ServerError("Google Places API key not configured")
  const SearchFailed: Response := ServerError("Error searching for dispensaries")

  /** The words whose presence in a place's name marks it as a dispensary. */
  const Keywords: seq<string> := ["dispensary", "cannabis", "marijuana", "weed", "pot"]

  /** The keyword test on a place's name, after lower-casing it. */
  predicate NameMatches(name: string)
    ensures NameMatches(name) ==> |name| >= 3
  {
    exists k :: k in Keywords && Contains(Lower(name), k)
  }

  /** Some type tag mentions a store or an establishment (absent tags: none). */
  predicate TypeMatches(types: Option<seq<string>>)
    ensures types.None? ==> !TypeMatches(types)
    ensures TypeMatches(types) ==> exists t :: t in types.value && |t| >= 5
  {
    exists t :: t in types.GetOr([]) && (Contains(t, "store") || Contains(t, "establishment"))
  }

  /** The keyword test is "some keyword occurs in the lower-cased name". */
  lemma KeywordOccurs(name: string)
    ensures NameMatches(name) <==> exists k, i :: k in Keywords && OccursAt(Lower(name), k, i)
  {
    forall k | k in Keywords
      ensures Contains(Lower(name), k) <==> exists i :: OccursAt(Lower(name), k, i)
    {
      ContainsIff(Lower(name), k);
    }
  }

  /** The type test is "some tag has "store" or "establishment" in it". */
  lemma TagOccurs(types: Option<seq<string>>)
    ensures TypeMatches(types) <==>
      exists t, i :: t in types.GetOr([]) && (OccursAt(t, "store", i) || OccursAt(t, "establishment", i))
  {
    forall t | t in types.GetOr([])
      ensures Contains(t, "store") <==> exists i :: OccursAt(t, "store", i)
      ensures Contains(t, "establishment") <==> exists i :: OccursAt(t, "establishment", i)
    {
      ContainsIff(t, "store");
      ContainsIff(t, "establishment");
    }
  }

  /** The classifier the endpoint applies to every upstream result: a
      keyword occurs in the lower-cased name, or a type tag mentions a store
      or an establishment. */
  predicate IsDispensaryCandidate(p: Place)
    ensures IsDispensaryCandidate(p) <==>
      || (exists k, i :: k in Keywords && OccursAt(Lower(p.name), k, i))
      || (exists t, i :: t in p.types.GetOr([]) && (OccursAt(t, "store", i) || OccursAt(t, "establishment", i)))
  {
    KeywordOccurs(p.name);
    TagOccurs(p.types);
    NameMatches(p.name) || TypeMatches(p.types)
  }

  /** `data.results?.filter(...) || []`. */
  function FilterPlaces(raw: Option<seq<Place>>): (r: seq<Place>)
    ensures raw.None? ==> r == []
    ensures forall p :: p in r <==> raw.Some? && p in raw.value && IsDispensaryCandidate(p)
  {
    Filter(raw.GetOr([]), IsDispensaryCandidate)
  }

  /** The checks made before any upstream request. */
  function Validate(verb: string, query: QueryParam, apiKey: Option<string>): (r: Validated)
    ensures r.Ready? <==> verb == "GET" && query.Single? && query.value != "" && apiKey.Some? && apiKey.value != ""
    ensures r.Ready? ==> r.searchText == query.value + SearchQualifier && r.apiKey == apiKey.value
    ensures r.Rejected? ==> !r.response.Found?
  {
    if verb != "GET" then Rejected(MethodNotAllowed(["GET"]))
    else if !query.Single? || query.value == "" then Rejected(BadRequest("Query parameter required"))
    else if apiKey.None? || apiKey.value == "" then Rejected(KeyMissing)
    else Ready(query.value + SearchQualifier, apiKey.value)
  }

  /** What the endpoint answers once the upstream reply is in. */
  function Complete(upstream: Upstream): (r: Response)
    ensures r.Found? <==> upstream.Payload? && upstream.status in Statuses
    ensures !r.Found? ==> r == SearchFailed
    ensures r.Found? ==>
      && r.status == upstream.status
      && r.results <= FilterPlaces(upstream.results)
      && |r.results| == (if |FilterPlaces(upstream.results)| < MaxResults then |FilterPlaces(upstream.results)| else MaxResults)
  {
    match upstream
    case HttpFailure(_) => SearchFailed
    case Unparseable => SearchFailed
    case Payload(status, results) =>
      if status !in Statuses then SearchFailed
      else Found(Take(FilterPlaces(results), MaxResults), status)
  }

  /** The whole handler; `upstream` is consulted only when a request is made. */
  function Handle(verb: string, query: QueryParam, apiKey: Option<string>, upstream: Upstream): (r: Response)
    ensures r.StatusCode() == 405 <==> verb != "GET"
    ensures r.StatusCode() == 400 <==> verb == "GET" && (!query.Single? || query.value == "")
    ensures r.StatusCode() == 200 <==> Validate(verb, query, apiKey).Ready? && upstream.Payload? && upstream.status in Statuses
    ensures Validate(verb, query, apiKey).Rejected? ==> r == Validate(verb, query, apiKey).response
  {
    match Validate(verb, query, apiKey)
    case Rejected(r) => r
    case Ready(_, _) => Complete(upstream)
  }

  /** A method other than GET is refused with 405 and `Allow: GET`. */
  lemma NonGetRejected(verb: string, query: QueryParam, apiKey: Option<string>, upstream: Upstream)
    requires verb != "GET"
    ensures Handle(verb, query, apiKey, upstream) == MethodNotAllowed(["GET"])
    ensures Handle(verb, query, apiKey, upstream).StatusCode() == 405
  {
  }

  /** A missing, empty or repeated `query` is refused with 400. */
  lemma BadQueryRejected(query: QueryParam, apiKey: Option<string>, upstream: Upstream)
    requires query.Absent? || query.Repeated? || query == Single("")
    ensures Handle("GET", query, apiKey, upstream).StatusCode() == 400
  {
  }

  /** Without an API key the answer is 500 and no upstream request is made:
      the answer is the same whatever the upstream would have said. */
  lemma MissingKeyNoRequest(q: string, apiKey: Option<string>, u1: Upstream, u2: Upstream)
    requires q != ""
    requires apiKey.None? || apiKey == Some("")
    ensures Validate("GET", Single(q), apiKey).Rejected?
    ensures Handle("GET", Single(q), apiKey, u1) == Handle("GET", Single(q), apiKey, u2) == KeyMissing
  {
  }

  /** A valid request searches for the user's text followed by " dispensary". */
  lemma SearchText(q: string, key: string)
    requires q != "" && key != ""
    ensures Validate("GET", Single(q), Some(key)) == Ready(q + " dispensary", key)
    ensures Validate("GET", Single(q), Some(key)).searchText[..|q|] == q
  {
  }

  /** Any upstream failure, or a status other than OK/ZERO_RESULTS, is a 500. */
  lemma UpstreamFailureIs500(q: string, key: string, upstream: Upstream)
    requires q != "" && key != ""
    requires upstream.Payload? ==> upstream.status != "OK" && upstream.status != "ZERO_RESULTS"
    ensures Handle("GET", Single(q), Some(key), upstream) == SearchFailed
  {
  }

  /** A successful answer: the first min(10, n) of the n candidates, so at
      most ten places, all of them candidates, in upstream order, with the
      upstream status echoed. */
  lemma SuccessfulAnswer(q: string, key: string, status: string, raw: Option<seq<Place>>)
    requires q != "" && key != ""
    requires status == "OK" || status == "ZERO_RESULTS"
    ensures var r := Handle("GET", Single(q), Some(key), Payload(status, raw));
      && r.Found? && r.status == status
      && r.results <= FilterPlaces(raw)
      && |r.results| == (if |FilterPlaces(raw)| < MaxResults then |FilterPlaces(raw)| else MaxResults)
      && (forall p :: p in r.results ==> IsDispensaryCandidate(p))
      && IsSubsequence(r.results, raw.GetOr([]))
      && (|FilterPlaces(raw)| <= MaxResults ==>
            forall p :: p in raw.GetOr([]) && IsDispensaryCandidate(p) ==> p in r.results)
  {
    FilterTakeIsSubsequence(raw.GetOr([]), IsDispensaryCandidate, MaxResults);
  }

  /** A string in which no two neighbouring characters spell the start of
      `k` does not include `k`. */
  lemma NoLeadingPairNoMatch(s: string, k: string)
    requires |k| >= 2
    requires forall i :: 0 <= i < |s| - 1 ==> s[i] != k[0] || s[i + 1] != k[1]
    ensures !Contains(s, k)
  {
    ContainsIff(s, k);
  }

  lemma GreenLeafKept(green: Place)
    requires green.name == "Green Leaf Dispensary"
    ensures IsDispensaryCandidate(green)
  {
    var n := Lower(green.name);
    assert n[11..21] == "dispensary";
    assert OccursAt(n, "dispensary", 11);
    ContainsIff(n, "dispensary");
    assert Keywords[0] == "dispensary";
  }

  /** A string lacking one of the characters of `k` does not include `k`. */
  lemma MissingCharNoMatch(s: string, k: string, j: nat)
    requires j < |k| && k[j] !in s
    ensures !Contains(s, k)
  {
    ContainsIff(s, k);
  }

  lemma NoKeywordInJoesHardware(h: string, k: string)
    requires h == "joe's hardware"
    requires k in Keywords
    ensures !Contains(h, k)
  {
    if k == "weed" {
      NoLeadingPairNoMatch(h, k);
    } else if k == "dispensary" {
      MissingCharNoMatch(h, k, 1);
    } else {
      MissingCharNoMatch(h, k, 0);
    }
  }

  lemma JoesHardwareHasNoKeyword(name: string)
    requires name == "Joe's Hardware"
    ensures !NameMatches(name)
  {
    var h := Lower(name);
    assert h == "joe's hardware";
    forall k | k in Keywords
      ensures !Contains(h, k)
    {
      NoKeywordInJoesHardware(h, k);
    }
  }

  /** The classifier keeps "Green Leaf Dispensary" and drops "Joe's
      Hardware" when the latter has no store or establishment tag. */
  lemma ClassifierExample(green: Place, hardware: Place)
    requires green.name == "Green Leaf Dispensary"
    requires hardware.name == "Joe's Hardware"
    requires forall t :: t in hardware.types.GetOr([]) ==> !Contains(t, "store") && !Contains(t, "establishment")
    ensures FilterPlaces(Some([green, hardware])) == [green]
  {
    GreenLeafKept(green);
    JoesHardwareHasNoKeyword(hardware.name);
    assert !IsDispensaryCandidate(hardware);
    var raw := [green, hardware];
    assert raw[1..] == [hardware] && [hardware][1..] == [];
    assert Filter([hardware], IsDispensaryCandidate) == Filter([], IsDispensaryCandidate) == [];
    assert Filter(raw, IsDispensaryCandidate) == [green] + Filter([hardware], IsDispensaryCandidate);
  }

  /** Every result tagged "establishment" passes the classifier, so when the
      upstream honours the `type=establishment` request parameter the filter
      removes nothing and the answer is just the first ten results. */
  lemma EstablishmentsAlwaysKept(raw: seq<Place>)
    requires forall p :: p in raw ==> p.types.Some? && "establishment" in p.types.value
    ensures FilterPlaces(Some(raw)) == raw
  {
    forall p | p in raw ensures IsDispensaryCandidate(p) {
      ContainsIff("establishment", "establishment");
      assert OccursAt("establishment", "establishment", 0);
    }
    FilterAll(raw, IsDispensaryCandidate);
  }
}
