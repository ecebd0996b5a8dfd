/** The weather gateway: `WeatherService`, which fetches a provider payload
    for a ZIP code and keeps the log of weather requests. */
module Weather {
  import opened Wrappers
  import opened Exceptions
  import ZipCodes

  /** A reading of the server clock (`LocalDateTime`), supplied by the caller. */
  type Timestamp = int

  /** The `WeatherRequest` entity: one logged weather lookup. */
  datatype WeatherRequest = WeatherRequest(email: string, zipCode: string, weatherDetails: string, timestamp: Timestamp)

  /** What the weather provider answers to one GET request: the payload, a
      4xx client error, or any other failure (network, 5xx, conversion). */
  datatype ProviderOutcome =
    | Payload(body: string)
    | ClientError(message: string)
    | OtherError(message: string)

  const ClientErrorPrefix: string := "Error fetching weather data: "
  // Written as two literals: the verifier does not unfold a literal this long,
  // and FetchFailureReported needs its first character.
  const OtherErrorPrefix: string := "Unexpected error occurred " + "while fetching weather data: "

  /** The request URL: the configured base, then the query parameters zip,
      appid and units=imperial, in that order. */
  function RequestUrl(weatherApiUrl: string, zipCode: string, appId: string): (url: string)
  {
    weatherApiUrl + "?zip=" + zipCode + "&appid=" + appId + "&units=imperial"
  }

  /** The characters of `s` before its first `&`. */
  function UpToAmpersand(s: string): (r: string)
    ensures r <= s && '&' !in r
    ensures |r| < |s| ==> s[|r|] == '&'
  {
    if s == [] || s[0] == '&' then [] else [s[0]] + UpToAmpersand(s[1..])
  }

  /** Reads the `zip` parameter back out of a URL built on `weatherApiUrl`. */
  function ZipParameter(url: string, weatherApiUrl: string): (r: Option<string>)
    ensures r.Some? ==> '&' !in r.value
  {
    var head := weatherApiUrl + "?zip=";
    if head <= url then Some(UpToAmpersand(url[|head|..])) else None
  }

  lemma {:induction false} UpToAmpersandStops(a: string, b: string)
    requires '&' !in a && b != [] && b[0] == '&'
    ensures UpToAmpersand(a + b) == a
  {
    if a != [] {
      assert (a + b)[1..] == a[1..] + b;
      UpToAmpersandStops(a[1..], b);
    }
  }

  /** The ZIP code can be read back from the URL whenever it holds no `&`. */
  lemma ZipParameterRoundTrip(weatherApiUrl: string, zipCode: string, appId: string)
    requires '&' !in zipCode
    ensures ZipParameter(RequestUrl(weatherApiUrl, zipCode, appId), weatherApiUrl) == Some(zipCode)
  {
    var head := weatherApiUrl + "?zip=";
    var tail := "&appid=" + appId + "&units=imperial";
    var url := RequestUrl(weatherApiUrl, zipCode, appId);
    assert url == head + (zipCode + tail);
    assert url[|head|..] == zipCode + tail;
    UpToAmpersandStops(zipCode, tail);
  }

  /** A valid US ZIP code never contains `&`, so every URL the controller
      builds carries exactly the ZIP code it was given. */
  lemma ValidZipRoundTrip(weatherApiUrl: string, zipCode: string, appId: string)
    requires ZipCodes.IsValidUSZipCode(zipCode)
    ensures ZipParameter(RequestUrl(weatherApiUrl, zipCode, appId), weatherApiUrl) == Some(zipCode)
  {
    ZipCodes.ValidIffShape(zipCode);
    forall i | 0 <= i < |zipCode| ensures zipCode[i] != '&' {
      if |zipCode| == 5 || i != 5 {
        assert ZipCodes.IsDigit(zipCode[i]);
      } else {
        assert ZipCodes.IsSeparator(zipCode[i]);
      }
    }
    ZipParameterRoundTrip(weatherApiUrl, zipCode, appId);
  }

  /** The `try`/`catch` of `getWeatherByZipCode`: the payload on success,
      otherwise a RuntimeException whose message names the kind of error. */
  function FetchResult(o: ProviderOutcome): (r: Result<string, Thrown>)
    ensures r.Success? <==> o.Payload?
    ensures o.Payload? ==> r.value == o.body
    ensures o.ClientError? ==> r == Failure(Runtime(ClientErrorPrefix + o.message))
    ensures o.OtherError? ==> r == Failure(Runtime(OtherErrorPrefix + o.message))
  {
    match o
    case Payload(body) => Success(body)
    case ClientError(m) => Failure(Runtime(ClientErrorPrefix + m))
    case OtherError(m) => Failure(Runtime(OtherErrorPrefix + m))
  }

  /** A failed fetch always reaches the client as a 500 whose body starts
      with the message prefix of its kind, and the two kinds are never
      confused: no client-error message equals an other-error message. */
  lemma FetchFailureReported(o: ProviderOutcome, p: ProviderOutcome)
    requires o.ClientError? && p.OtherError?
    ensures Handle(FetchResult(o).error).status == INTERNAL_SERVER_ERROR
    ensures Handle(FetchResult(p).error).status == INTERNAL_SERVER_ERROR
    ensures ClientErrorPrefix <= Handle(FetchResult(o).error).body
    ensures OtherErrorPrefix <= Handle(FetchResult(p).error).body
    ensures FetchResult(o) != FetchResult(p)
  {
    var a := FetchResult(o).error.message;
    var b := FetchResult(p).error.message;
    assert a == ClientErrorPrefix + o.message && a[0] == ClientErrorPrefix[0] == 'E';
    assert b == OtherErrorPrefix + p.message && b[0] == 'U';
  }

  /** The derived query `findByZipCodeOrEmail`: does this entry match? */
  predicate MatchesZipCodeOrEmail(w: WeatherRequest, zipCode: string, email: string) {
    w.zipCode == zipCode || w.email == email
  }

  /** `findByZipCodeOrEmail`: the log entries whose zip code OR email equals
      the given one, in log order. */
  function FindByZipCodeOrEmail(log: seq<WeatherRequest>, zipCode: string, email: string): (r: seq<WeatherRequest>)
    ensures |r| <= |log|
    ensures forall w :: w in r <==> w in log && MatchesZipCodeOrEmail(w, zipCode, email)
  {
    if log == [] then []
    else
      var rest := FindByZipCodeOrEmail(log[1..], zipCode, email);
      if MatchesZipCodeOrEmail(log[0], zipCode, email) then [log[0]] + rest else rest
  }

  /** The query distributes over concatenation, so it keeps the log's order. */
  lemma {:induction false} FindDistributes(a: seq<WeatherRequest>, b: seq<WeatherRequest>, zipCode: string, email: string)
    ensures FindByZipCodeOrEmail(a + b, zipCode, email) ==
            FindByZipCodeOrEmail(a, zipCode, email) + FindByZipCodeOrEmail(b, zipCode, email)
  {
    if a == [] {
      assert a + b == b;
    } else {
      assert (a + b)[0] == a[0];
      assert (a + b)[1..] == a[1..] + b;
      FindDistributes(a[1..], b, zipCode, email);
    }
  }

  /** After one more entry is logged, the history is the old history,
      followed by the new entry exactly when it matches. */
  lemma HistoryAfterAppend(log: seq<WeatherRequest>, w: WeatherRequest, zipCode: string, email: string)
    ensures FindByZipCodeOrEmail(log + [w], zipCode, email) ==
            FindByZipCodeOrEmail(log, zipCode, email) + (if MatchesZipCodeOrEmail(w, zipCode, email) then [w] else [])
  {
    FindDistributes(log, [w], zipCode, email);
    assert [w][1..] == [];
  }

  /** When every entry matches, the query returns the whole log unchanged. */
  lemma {:induction false} FindAllMatching(log: seq<WeatherRequest>, zipCode: string, email: string)
    requires forall i :: 0 <= i < |log| ==> MatchesZipCodeOrEmail(log[i], zipCode, email)
    ensures FindByZipCodeOrEmail(log, zipCode, email) == log
  {
    if log != [] {
      FindAllMatching(log[1..], zipCode, email);
    }
  }

  class WeatherService {
    /** The configured provider base URL and application key. */
    const weatherApiUrl: string
    const appId: string
    /** The weather request repository, in the order entries were saved. */
    var log: seq<WeatherRequest>
    /** Every URL requested from the provider so far, in order. */
    ghost var fetched: seq<string>

    constructor (weatherApiUrl: string, appId: string)
      ensures this.weatherApiUrl == weatherApiUrl && this.appId == appId
      ensures log == [] && fetched == []
    {
      this.weatherApiUrl := weatherApiUrl;
      this.appId := appId;
      log := [];
      fetched := [];
    }

    /** `getWeatherByZipCode`: one GET of the request URL, whose answer the
        provider gives as `outcome`. */
    method GetWeatherByZipCode(zipCode: string, outcome: ProviderOutcome) returns (r: Result<string, Thrown>)
      modifies this`fetched
      ensures fetched == old(fetched) + [RequestUrl(weatherApiUrl, zipCode, appId)]
      ensures r == FetchResult(outcome)
    {
      var url := RequestUrl(weatherApiUrl, zipCode, appId);
      fetched := fetched + [url];
      r := FetchResult(outcome);
    }

    /** `saveWeatherRequest`: appends one entry stamped with `now`; earlier
        entries are untouched. */
    method SaveWeatherRequest(email: string, zipCode: string, weatherDetails: string, now: Timestamp)
      returns (saved: WeatherRequest)
      modifies this`log
      ensures saved == WeatherRequest(email, zipCode, weatherDetails, now)
      ensures log == old(log) + [saved]
      ensures |log| == |old(log)| + 1 && log[..|old(log)|] == old(log)
    {
      saved := WeatherRequest(email, zipCode, weatherDetails, now);
      log := log + [saved];
    }

    /** `getHistory`: the repository's query result, passed through as is. */
    method GetHistory(zipCode: string, email: string) returns (h: seq<WeatherRequest>)
      ensures h == FindByZipCodeOrEmail(log, zipCode, email)
      ensures forall w :: w in h <==> w in log && (w.zipCode == zipCode || w.email == email)
      ensures log == [] ==> h == []
    {
      h := FindByZipCodeOrEmail(log, zipCode, email);
    }
  }
}
