/** The pure part of the Fitbit API client: the path of each endpoint, the
    dispatch on the response status, and the access-token state. The HTTP
    transport, the ISO date formatter and the JSON parsers are parameters the
    client is given; what they do is not part of this model. */
module Client {
  import opened Base
  import opened Records

  /** The five endpoints the client can reach. */
  datatype Endpoint = HeartRate | ActiveZoneMinutes | SleepLog | WeightLog | DailyActivity

  /** The path text that comes before the date, written as the user root,
      the resource group and the resource. */
  function Prefix(e: Endpoint): string {
    match e
    case HeartRate => "/1/user/-/" + "activities/" + "heart/date/"
    case ActiveZoneMinutes => "/1/user/-/" + "activities/" + "active-zone-minutes/date/"
    case SleepLog => "/1.2/user/-/sleep/date/"
    case WeightLog => "/1/user/-/" + "body/log/weight/date/"
    case DailyActivity => "/1/user/-/" + "activities/" + "date/"
  }

  /** The path text that comes after the date. */
  function Suffix(e: Endpoint): string {
    match e
    case HeartRate => "/1d.json"
    case ActiveZoneMinutes => "/1d.json"
    case SleepLog => ".json"
    case WeightLog => ".json"
    case DailyActivity => ".json"
  }

  /** The request path for endpoint `e` on the formatted date `dateStr`. The
      base URL is empty: the transport already carries it. */
  function Path(e: Endpoint, dateStr: string): string {
    Prefix(e) + dateStr + Suffix(e)
  }

  /** Two strings that differ at an index within both are not prefixes of
      one another. */
  lemma DifferAt(p: string, q: string, k: nat)
    requires k < |p| && k < |q| && p[k] != q[k]
    ensures !(p <= q) && !(q <= p)
  {
  }

  /** The three characters that tell the prefixes apart: the API version at
      index 2, the first segment at index 10 and the segment after
      "activities/" at index 21. */
  lemma PrefixMarks(e: Endpoint)
    ensures |Prefix(e)| > 21
    ensures Prefix(e)[2] == if e == SleepLog then '.' else '/'
    ensures e != SleepLog ==> Prefix(e)[10] == if e == WeightLog then 'b' else 'a'
    ensures e == HeartRate ==> Prefix(e)[21] == 'h'
    ensures e == ActiveZoneMinutes ==> Prefix(e)[21] == 'a'
    ensures e == DailyActivity ==> Prefix(e)[21] == 'd'
  {
  }

  /** No endpoint's prefix starts another's, so in particular the five
      prefixes are pairwise distinct. */
  lemma PrefixesPrefixFree(e1: Endpoint, e2: Endpoint)
    requires e1 != e2
    ensures !(Prefix(e1) <= Prefix(e2))
    ensures Prefix(e1) != Prefix(e2)
  {
    PrefixMarks(e1);
    PrefixMarks(e2);
    var k := if e1 == SleepLog || e2 == SleepLog then 2
             else if e1 == WeightLog || e2 == WeightLog then 10
             else 21;
    DifferAt(Prefix(e1), Prefix(e2), k);
  }

  /** Two prefixes of one string are prefixes of one another. */
  lemma PrefixesComparable(p: string, q: string, s: string)
    ensures p <= s && q <= s ==> p <= q || q <= p
  {
    if p <= s && q <= s {
      if |p| <= |q| {
        assert q[..|p|] == s[..|p|];
      } else {
        assert p[..|q|] == s[..|q|];
      }
    }
  }

  /** The endpoint, if any, whose prefix and suffix frame `path`, checked in
      declaration order, with the date text between them. */
  function ParsePath(path: string): Option<(Endpoint, string)> {
    var tried := [HeartRate, ActiveZoneMinutes, SleepLog, WeightLog, DailyActivity];
    ParsePathFrom(path, tried)
  }

  /** `path` is `Prefix(e)`, then something, then `Suffix(e)`. */
  predicate Frames(e: Endpoint, path: string) {
    |Prefix(e)| + |Suffix(e)| <= |path|
    && Prefix(e) <= path
    && path[|path| - |Suffix(e)|..] == Suffix(e)
  }

  function ParsePathFrom(path: string, candidates: seq<Endpoint>): Option<(Endpoint, string)> {
    if |candidates| == 0 then None
    else
      var e := candidates[0];
      if Frames(e, path) then Some((e, path[|Prefix(e)|..|path| - |Suffix(e)|]))
      else ParsePathFrom(path, candidates[1..])
  }

  /** A path built for one endpoint is framed by no other endpoint. */
  lemma FramedOnlyByOwnEndpoint(e: Endpoint, other: Endpoint, dateStr: string)
    requires other != e
    ensures !Frames(other, Path(e, dateStr))
  {
    var path := Path(e, dateStr);
    assert path[..|Prefix(e)|] == Prefix(e);
    PrefixesComparable(Prefix(other), Prefix(e), path);
    PrefixesPrefixFree(other, e);
    PrefixesPrefixFree(e, other);
  }

  /** Searching a candidate list that contains the only endpoint framing
      `path` finds that endpoint. */
  lemma {:induction false} ParsePathFromFinds(path: string, candidates: seq<Endpoint>, e: Endpoint)
    requires e in candidates && Frames(e, path)
    requires forall other :: other in candidates && other != e ==> !Frames(other, path)
    ensures ParsePathFrom(path, candidates) == Some((e, path[|Prefix(e)|..|path| - |Suffix(e)|]))
    decreases |candidates|
  {
    if candidates[0] != e {
      assert !Frames(candidates[0], path);
      assert e in candidates[1..];
      ParsePathFromFinds(path, candidates[1..], e);
    }
  }

  /** A concatenation starts with its first part, ends with its last, and
      has the middle part in between. */
  lemma SplitConcat(p: string, d: string, q: string)
    ensures var s := p + d + q;
      |p| + |q| <= |s| && p <= s && s[|s| - |q|..] == q && s[|p|..|s| - |q|] == d
  {
    var s := p + d + q;
    assert s[..|p|] == p;
    assert s[|s| - |q|..] == q;
    assert s[|p|..|s| - |q|] == d;
  }

  /** The path determines the endpoint and the date text: parsing a built
      path gives back both. */
  lemma ParsePathRoundTrip(e: Endpoint, dateStr: string)
    ensures ParsePath(Path(e, dateStr)) == Some((e, dateStr))
  {
    var path := Path(e, dateStr);
    SplitConcat(Prefix(e), dateStr, Suffix(e));
    assert Frames(e, path);
    forall other | other != e
      ensures !Frames(other, path)
    {
      FramedOnlyByOwnEndpoint(e, other, dateStr);
    }
    ParsePathFromFinds(path, [HeartRate, ActiveZoneMinutes, SleepLog, WeightLog, DailyActivity], e);
  }

  /** Distinct endpoints or distinct dates never share a path. */
  lemma PathInjective(e1: Endpoint, d1: string, e2: Endpoint, d2: string)
    requires Path(e1, d1) == Path(e2, d2)
    ensures e1 == e2 && d1 == d2
  {
    ParsePathRoundTrip(e1, d1);
    ParsePathRoundTrip(e2, d2);
  }

  // ---------------------------------------------------------------------------
  // Requests, responses and status dispatch
  // ---------------------------------------------------------------------------

  /** A GET request: its path and the bearer token attached to it (absent
      before any token was stored). */
  datatype Request = Request(path: string, bearer: Option<string>)

  datatype Response = Response(status: int, body: string)

  /** The three ways a getter fails (no answer at all, because the request
      itself threw; a non-200 answer, carrying the status and the raw body; a
      200 answer whose body the parser rejected) and the failure to read a
      token response. */
  datatype ClientError =
    | TransportError(endpoint: Endpoint)
    | UpstreamError(endpoint: Endpoint, status: int, body: string)
    | ParseError(endpoint: Endpoint)
    | TokenParseError

  /** Status 200 hands the body to the parser; anything else is an error. */
  function Dispatch<T>(e: Endpoint, response: Response, parse: string -> Option<T>): (r: Result<T, ClientError>)
    ensures response.status == 200 ==>
      (r.Success? <==> parse(response.body).Some?)
      && (r.Success? ==> r.value == parse(response.body).value)
      && (r.Failure? ==> r.error == ParseError(e))
    ensures response.status != 200 ==> r == Failure(UpstreamError(e, response.status, response.body))
  {
    if response.status == 200 then
      match parse(response.body)
      case Some(data) => Success(data)
      case None => Failure(ParseError(e))
    else
      Failure(UpstreamError(e, response.status, response.body))
  }

  /** On a non-200 answer the parser plays no part in the outcome. */
  lemma DispatchIgnoresParserOnError<T>(e: Endpoint, response: Response, p1: string -> Option<T>, p2: string -> Option<T>)
    requires response.status != 200
    ensures Dispatch(e, response, p1) == Dispatch(e, response, p2)
    ensures Dispatch(e, response, p1).Failure? && Dispatch(e, response, p1).error.UpstreamError?
  {
  }

  // ---------------------------------------------------------------------------
  // Client state and the five getters
  // ---------------------------------------------------------------------------

  /** The client's mutable state: the bearer token and the PKCE verifier,
      both unset until written. */
  datatype Client = Client(accessToken: Option<string>, codeVerifier: Option<string>)

  /** The parsers of the five response shapes, each of which may fail. */
  datatype Parsers = Parsers(
    heartRate: string -> Option<HeartRateData>,
    activeZoneMinutes: string -> Option<ActiveZoneMinutesData>,
    sleepLog: string -> Option<SleepLogData>,
    weightLog: string -> Option<WeightLogData>,
    dailyActivity: string -> Option<DailyActivitySummary>
  )

  /** What the client is given: the HTTP transport, the ISO date formatter and
      the parsers. The transport answers `None` when sending the request
      throws (a refused connection, a timeout). */
  datatype Backend = Backend(transport: Request -> Option<Response>, isoDate: Date -> string, parsers: Parsers)

  /** One getter call: the requests it sent, in order, what it returned, and
      the client state afterwards. */
  datatype Call<T> = Call(requests: seq<Request>, result: Result<T, ClientError>, after: Client)

  /** The shared shape of every getter: one GET with the current token, then
      the status dispatch. */
  function Get<T>(c: Client, b: Backend, e: Endpoint, date: Date, parse: string -> Option<T>): (r: Call<T>)
    ensures |r.requests| == 1
    ensures r.requests[0].bearer == c.accessToken
    ensures ParsePath(r.requests[0].path) == Some((e, b.isoDate(date)))
    ensures r.after == c
    ensures b.transport(r.requests[0]).None? ==> r.result == Failure(TransportError(e))
    ensures b.transport(r.requests[0]).Some? ==> r.result == Dispatch(e, b.transport(r.requests[0]).value, parse)
  {
    var request := Request(Path(e, b.isoDate(date)), c.accessToken);
    ParsePathRoundTrip(e, b.isoDate(date));
    var result := match b.transport(request)
      case None => Failure(TransportError(e))
      case Some(response) => Dispatch(e, response, parse);
    Call([request], result, c)
  }

  function GetHeartRateByDate(c: Client, b: Backend, date: Date): (r: Call<HeartRateData>)
    ensures r.requests == [Request("/1/user/-/" + "activities/" + "heart/date/" + b.isoDate(date) + "/1d.json", c.accessToken)]
    ensures r.after == c
    ensures b.transport(r.requests[0]).None? ==> r.result == Failure(TransportError(HeartRate))
    ensures b.transport(r.requests[0]).Some? ==> r.result == Dispatch(HeartRate, b.transport(r.requests[0]).value, b.parsers.heartRate)
  {
    Get(c, b, HeartRate, date, b.parsers.heartRate)
  }

  function GetActiveZoneMinutesByDate(c: Client, b: Backend, date: Date): (r: Call<ActiveZoneMinutesData>)
    ensures r.requests == [Request("/1/user/-/" + "activities/" + "active-zone-minutes/date/" + b.isoDate(date) + "/1d.json", c.accessToken)]
    ensures r.after == c
    ensures b.transport(r.requests[0]).None? ==> r.result == Failure(TransportError(ActiveZoneMinutes))
    ensures b.transport(r.requests[0]).Some? ==> r.result == Dispatch(ActiveZoneMinutes, b.transport(r.requests[0]).value, b.parsers.activeZoneMinutes)
  {
    Get(c, b, ActiveZoneMinutes, date, b.parsers.activeZoneMinutes)
  }

  function GetSleepLogByDate(c: Client, b: Backend, date: Date): (r: Call<SleepLogData>)
    ensures r.requests == [Request("/1.2/user/-/sleep/date/" + b.isoDate(date) + ".json", c.accessToken)]
    ensures r.after == c
    ensures b.transport(r.requests[0]).None? ==> r.result == Failure(TransportError(SleepLog))
    ensures b.transport(r.requests[0]).Some? ==> r.result == Dispatch(SleepLog, b.transport(r.requests[0]).value, b.parsers.sleepLog)
  {
    Get(c, b, SleepLog, date, b.parsers.sleepLog)
  }

  function GetWeightLogByDate(c: Client, b: Backend, date: Date): (r: Call<WeightLogData>)
    ensures r.requests == [Request("/1/user/-/" + "body/log/weight/date/" + b.isoDate(date) + ".json", c.accessToken)]
    ensures r.after == c
    ensures b.transport(r.requests[0]).None? ==> r.result == Failure(TransportError(WeightLog))
    ensures b.transport(r.requests[0]).Some? ==> r.result == Dispatch(WeightLog, b.transport(r.requests[0]).value, b.parsers.weightLog)
  {
    Get(c, b, WeightLog, date, b.parsers.weightLog)
  }

  function GetDailyActivitySummary(c: Client, b: Backend, date: Date): (r: Call<DailyActivitySummary>)
    ensures r.requests == [Request("/1/user/-/" + "activities/" + "date/" + b.isoDate(date) + ".json", c.accessToken)]
    ensures r.after == c
    ensures b.transport(r.requests[0]).None? ==> r.result == Failure(TransportError(DailyActivity))
    ensures b.transport(r.requests[0]).Some? ==> r.result == Dispatch(DailyActivity, b.transport(r.requests[0]).value, b.parsers.dailyActivity)
  {
    Get(c, b, DailyActivity, date, b.parsers.dailyActivity)
  }

  /** Any non-200 answer, a 429 included, surfaces as an error with that
      status and body after exactly one request. */
  lemma {:induction false} NonSuccessIsSurfacedWithoutRetry<T>(c: Client, b: Backend, e: Endpoint, date: Date, parse: string -> Option<T>)
    requires b.transport(Request(Path(e, b.isoDate(date)), c.accessToken)).Some?
    requires b.transport(Request(Path(e, b.isoDate(date)), c.accessToken)).value.status != 200
    ensures var call := Get(c, b, e, date, parse);
      var response := b.transport(Request(Path(e, b.isoDate(date)), c.accessToken)).value;
      && |call.requests| == 1
      && call.result == Failure(UpstreamError(e, response.status, response.body))
  {
  }

  /** A request that throws surfaces as a transport error after exactly one
      request, whatever the parser. */
  lemma {:induction false} TransportFailureIsSurfacedWithoutRetry<T>(c: Client, b: Backend, e: Endpoint, date: Date, parse: string -> Option<T>)
    requires b.transport(Request(Path(e, b.isoDate(date)), c.accessToken)).None?
    ensures var call := Get(c, b, e, date, parse);
      && |call.requests| == 1
      && call.result == Failure(TransportError(e))
  {
  }

  // ---------------------------------------------------------------------------
  // Token response
  // ---------------------------------------------------------------------------

  /** The OAuth2 token payload; string fields may be missing from the JSON. */
  datatype TokenResponse = TokenResponse(
    accessToken: Option<string>,
    refreshToken: Option<string>,
    expiresIn: int,
    tokenType: Option<string>,
    scope: Option<string>,
    userId: Option<string>
  )

  /** Reads a token response with `readValue`; only a successful read
      overwrites the stored access token. */
  function ParseTokenResponse(c: Client, json: string, readValue: string -> Option<TokenResponse>): (r: (Result<TokenResponse, ClientError>, Client))
    ensures readValue(json).Some? ==>
      r.0 == Success(readValue(json).value)
      && r.1.accessToken == readValue(json).value.accessToken
      && r.1.codeVerifier == c.codeVerifier
    ensures readValue(json).None? ==> r.0 == Failure(TokenParseError) && r.1 == c
  {
    match readValue(json)
    case Some(response) => (Success(response), c.(accessToken := response.accessToken))
    case None => (Failure(TokenParseError), c)
  }

  /** After a successful token read, every getter sends the new token. */
  lemma {:induction false} TokenReachesNextRequest<T>(c: Client, json: string, readValue: string -> Option<TokenResponse>,
                                                     b: Backend, e: Endpoint, date: Date, parse: string -> Option<T>)
    requires readValue(json).Some?
    ensures var c' := ParseTokenResponse(c, json, readValue).1;
      Get(c', b, e, date, parse).requests[0].bearer == readValue(json).value.accessToken
  {
    var c' := ParseTokenResponse(c, json, readValue).1;
    assert c'.accessToken == readValue(json).value.accessToken;
  }
}
