/** Shortening a profile's sharing URL and expanding it again through the
    profiler server. Both operations are gated by the URL-shortening feature
    flag: with it off they hand their argument back untouched and send nothing. */
module UrlShortening {
  import opened Web

  const AcceptHeaderValue := "application/vnd.firefox-profiler+json;version=1.0"

  /** The two injected settings the operations read. */
  datatype Config = Config(enableUrlShortening: bool, serverOrigin: string)

  /** A JSON POST to the server: the Accept header of the profiler's media
      type and the body `JSON.stringify({key: value})`. */
  function JsonPost(url: string, key: string, value: string): (r: Request)
    ensures r.verb == POST && r.url == url
    ensures r.body == JsonText(key, value)
    ensures |r.headers| == 2
    ensures ("Accept", AcceptHeaderValue) in r.headers && ("Content-Type", "application/json") in r.headers
  {
    Request(POST, url, [("Accept", AcceptHeaderValue), ("Content-Type", "application/json")], JsonText(key, value))
  }

  /** The POST that asks the server to shorten `longUrl`. */
  function ShortenRequest(origin: string, longUrl: string): (r: Request)
    ensures r.verb == POST && r.url == origin + "/shorten"
    ensures r.body == JsonText("longUrl", longUrl)
  {
    JsonPost(origin + "/shorten", "longUrl", longUrl)
  }

  /** The POST that asks the server to expand `shortUrl`. */
  function ExpandRequest(origin: string, shortUrl: string): (r: Request)
    ensures r.verb == POST && r.url == origin + "/expand"
    ensures r.body == JsonText("shortUrl", shortUrl)
  {
    JsonPost(origin + "/expand", "shortUrl", shortUrl)
  }

  const ShortenErrorPrefix := "An error happened while shortening the long url "
  const ExpandErrorPrefix := "An error happened while expanding the shortened url "

  /** The message of a failed call: `prefix`, the URL, the status text, the status. */
  function FailureMessage(prefix: string, url: string, statusText: string, status: nat): (m: string)
    ensures StartsWith(m, prefix)
    ensures OccursAt(url, m, |prefix|)
    ensures OccursAt(statusText, m, |prefix| + |url| + 2)
    ensures EndsWith(m, " (" + DecimalText(status) + ")")
  {
    prefix + url + ": " + statusText + " (" + DecimalText(status) + ")"
  }

  /** The tail the two operations share once the request is sent: fail on a
      response that is not ok, otherwise read the body as JSON and return its
      property `field`. */
  function ReadField(answer: FetchOutcome, field: string, errorPrefix: string, url: string): (s: Settlement)
    ensures answer.NetworkFailure? ==> s == Rejected(TypeError(answer.message))
    ensures answer.Responded? && !answer.response.Ok() ==>
              s == Rejected(Error(FailureMessage(errorPrefix, url, answer.response.statusText, answer.response.status)))
    ensures answer.Responded? && answer.response.Ok() && answer.response.body.Malformed? ==>
              s == Rejected(SyntaxError(answer.response.body.message))
    ensures answer.Responded? && answer.response.Ok() && answer.response.body.Parsed? ==>
              s == GetProperty(answer.response.body.json, field)
  {
    match answer
    case NetworkFailure(message) => Rejected(TypeError(message))
    case Responded(response) =>
      if !response.Ok() then
        Rejected(Error(FailureMessage(errorPrefix, url, response.statusText, response.status)))
      else
        match response.body
        case Malformed(message) => Rejected(SyntaxError(message))
        case Parsed(json) => GetProperty(json, field)
  }

  /** `shortenUrl`, with the server's answer to each request as a parameter.
      The URL is sent as given: the branch that would rewrite its host is
      guarded by `false`. */
  function ShortenUrl(config: Config, urlToShorten: string, server: Request -> FetchOutcome): (x: Exchange)
    ensures !config.enableUrlShortening ==> x == Exchange([], Resolved(Str(urlToShorten)))
    ensures config.enableUrlShortening ==>
              x.sent == [ShortenRequest(config.serverOrigin, urlToShorten)] &&
              x.sent[0].url == config.serverOrigin + "/shorten" && x.sent[0].body == JsonText("longUrl", urlToShorten) &&
              x.outcome == ReadField(server(x.sent[0]), "shortUrl", ShortenErrorPrefix, urlToShorten)
  {
    if !config.enableUrlShortening then
      Exchange([], Resolved(Str(urlToShorten)))
    else
      var longUrl := urlToShorten;
      var request := ShortenRequest(config.serverOrigin, longUrl);
      Exchange([request], ReadField(server(request), "shortUrl", ShortenErrorPrefix, longUrl))
  }

  /** `expandUrl`, with the server's answer to each request as a parameter. */
  function ExpandUrl(config: Config, shortUrl: string, server: Request -> FetchOutcome): (x: Exchange)
    ensures !config.enableUrlShortening ==> x == Exchange([], Resolved(Str(shortUrl)))
    ensures config.enableUrlShortening ==>
              x.sent == [ExpandRequest(config.serverOrigin, shortUrl)] &&
              x.sent[0].url == config.serverOrigin + "/expand" && x.sent[0].body == JsonText("shortUrl", shortUrl) &&
              x.outcome == ReadField(server(x.sent[0]), "longUrl", ExpandErrorPrefix, shortUrl)
  {
    if !config.enableUrlShortening then
      Exchange([], Resolved(Str(shortUrl)))
    else
      var request := ExpandRequest(config.serverOrigin, shortUrl);
      Exchange([request], ReadField(server(request), "longUrl", ExpandErrorPrefix, shortUrl))
  }

  /** The server answers `request` with an ok response whose JSON body has
      the string `value` under `field`. */
  predicate AnswersWith(server: Request -> FetchOutcome, request: Request, field: string, value: string)
  {
    && server(request).Responded?
    && server(request).response.Ok()
    && server(request).response.body.Parsed?
    && server(request).response.body.json.JsonValue?
    && field in server(request).response.body.json.properties
    && server(request).response.body.json.properties[field] == Str(value)
  }

  /** With shortening on, a server that maps `longUrl` to `shortUrl` and back
      makes the two operations inverse: shortening yields `shortUrl`, and
      expanding that yields `longUrl` again. */
  lemma ExpandAfterShorten(config: Config, longUrl: string, shortUrl: string,
                            server: Request -> FetchOutcome)
    requires config.enableUrlShortening
    requires AnswersWith(server, ShortenRequest(config.serverOrigin, longUrl), "shortUrl", shortUrl)
    requires AnswersWith(server, ExpandRequest(config.serverOrigin, shortUrl), "longUrl", longUrl)
    ensures ShortenUrl(config, longUrl, server).outcome == Resolved(Str(shortUrl))
    ensures ExpandUrl(config, shortUrl, server).outcome == Resolved(Str(longUrl))
  {
  }

  /** With shortening off, expanding a shortened URL gives it back, whatever the server would say. */
  lemma ExpandAfterShortenDisabled(config: Config, url: string, server: Request -> FetchOutcome)
    requires !config.enableUrlShortening
    ensures ShortenUrl(config, url, server).outcome == Resolved(Str(url))
    ensures ExpandUrl(config, ShortenUrl(config, url, server).outcome.value.s, server) == Exchange([], Resolved(Str(url)))
  {
  }

  /** A response that is not ok makes either operation fail with an Error that
      names the URL it was given, the status text and the status; no field is read. */
  lemma FailureNamesTheUrl(config: Config, url: string, server: Request -> FetchOutcome)
    requires config.enableUrlShortening
    ensures var answer := server(ShortenRequest(config.serverOrigin, url));
            answer.Responded? && !answer.response.Ok() ==>
              var s := ShortenUrl(config, url, server).outcome;
              s.Rejected? && s.reason.Error? && OccursAt(url, s.reason.message, |ShortenErrorPrefix|) &&
              OccursAt(answer.response.statusText, s.reason.message, |ShortenErrorPrefix| + |url| + 2) &&
              EndsWith(s.reason.message, " (" + DecimalText(answer.response.status) + ")")
    ensures var answer := server(ExpandRequest(config.serverOrigin, url));
            answer.Responded? && !answer.response.Ok() ==>
              var s := ExpandUrl(config, url, server).outcome;
              s.Rejected? && s.reason.Error? && OccursAt(url, s.reason.message, |ExpandErrorPrefix|) &&
              OccursAt(answer.response.statusText, s.reason.message, |ExpandErrorPrefix| + |url| + 2) &&
              EndsWith(s.reason.message, " (" + DecimalText(answer.response.status) + ")")
  {
  }
}
