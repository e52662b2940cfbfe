/** The pieces of the browser platform that the profile store and the URL
    shortener consume: JavaScript values as far as they matter here, parsed
    JSON, the Error kinds a promise can reject with, the inputs a `fetch` or
    an XMLHttpRequest delivers, and a descriptor of each request sent.
    The transport itself is not modelled: every response or event is an input. */
module Web {

  datatype Option<+T> = None | Some(value: T)

  /** A JavaScript value as the core sees it: a string, or one of the two empty values. */
  datatype JsValue = Undefined | Null | Str(s: string)

  /** `String(v)`, as used when a value is passed where a URL is expected. */
  function ToText(v: JsValue): string
  {
    match v
    case Undefined => "undefined"
    case Null => "null"
    case Str(s) => s
  }

  /** A parsed JSON document: `null`, or any other value together with its named
      properties (a number, string or array has none the core reads). */
  datatype Json = JsonNull | JsonValue(properties: map<string, JsValue>)

  /** The most specific class of a thrown value. UploadAbortedError extends
      Error, so `instanceof Error` holds for every kind; the caller tells an
      abort apart by testing for UploadAbortedError. */
  datatype Rejection =
    | Error(message: string)
    | TypeError(message: string)
    | SyntaxError(message: string)
    | UploadAbortedError(message: string)

  /** How a promise ends: fulfilled with a value, or rejected with a thrown value. */
  datatype Settlement = Resolved(value: JsValue) | Rejected(reason: Rejection)

  /** The message a TypeError carries when a property is read from `null`
      (the wording is the V8 engine's). */
  function NullPropertyMessage(key: string): string
  {
    "Cannot read properties of null (reading '" + key + "')"
  }

  /** `json.key`: undefined when the property is absent, a TypeError on `null`. */
  function GetProperty(json: Json, key: string): (s: Settlement)
    ensures s.Rejected? <==> json.JsonNull?
    ensures s.Rejected? ==> s.reason.TypeError?
    ensures json.JsonValue? && key in json.properties ==> s == Resolved(json.properties[key])
    ensures json.JsonValue? && key !in json.properties ==> s == Resolved(Undefined)
  {
    match json
    case JsonNull => Rejected(TypeError(NullPropertyMessage(key)))
    case JsonValue(properties) =>
      Resolved(if key in properties then properties[key] else Undefined)
  }

  /** What `response.json()` gives: a document, or a SyntaxError with its message. */
  datatype JsonOutcome = Parsed(json: Json) | Malformed(message: string)

  /** A response as `fetch` delivers it; the body is given already read as JSON. */
  datatype Response = Response(status: nat, statusText: string, body: JsonOutcome)
  {
    /** `response.ok`: the status is in the successful range 200-299 (RFC 9110 section 15.3). */
    predicate Ok()
    {
      200 <= status <= 299
    }
  }

  /** How a `fetch` call ends: with a response, or rejected with a TypeError
      (no response at all: the connection failed). */
  datatype FetchOutcome = Responded(response: Response) | NetworkFailure(message: string)

  datatype Method = GET | POST | PUT | DELETE

  /** A request body: none, the raw profile bytes, or `JSON.stringify({key: value})`. */
  datatype Body = NoBody | Bytes(bytes: seq<bv8>) | JsonText(key: string, value: string)

  /** What goes on the wire for one request, without the transport's own
      headers. `url` is the text passed to `fetch` or `open`, before the
      browser resolves it against the page's base URL. */
  datatype Request = Request(verb: Method, url: string, headers: seq<(string, string)>, body: Body)

  /** The outcome of a single-call async operation: the requests it sent, in
      order, and how its promise settled. */
  datatype Exchange = Exchange(sent: seq<Request>, outcome: Settlement)

  /** The first `|t|` characters of `s` are `t`. */
  predicate StartsWith(s: string, t: string)
  {
    |t| <= |s| && s[..|t|] == t
  }

  /** The last `|t|` characters of `s` are `t`. */
  predicate EndsWith(s: string, t: string)
  {
    |t| <= |s| && s[|s| - |t|..] == t
  }

  /** `t` appears in `s` starting at index `at`. */
  predicate OccursAt(t: string, s: string, at: nat)
  {
    at + |t| <= |s| && s[at..at + |t|] == t
  }

  /** The decimal text JavaScript gives a non-negative integer, as in `${status}`. */
  function DecimalText(n: nat): (r: string)
    ensures |r| >= 1
    ensures forall i :: 0 <= i < |r| ==> '0' <= r[i] <= '9'
    ensures |r| > 1 ==> r[0] != '0'
  {
    if n < 10 then [Digit(n)] else DecimalText(n / 10) + [Digit(n % 10)]
  }

  function Digit(d: nat): (c: char)
    requires d < 10
    ensures '0' <= c <= '9'
  {
    (48 + d) as char
  }

  /** Reads a string of decimal digits back as a number. */
  function DecimalValue(s: string): nat
    requires forall i :: 0 <= i < |s| ==> '0' <= s[i] <= '9'
  {
    if s == [] then 0 else 10 * DecimalValue(s[..|s| - 1]) + (s[|s| - 1] as int - 48)
  }

  /** The decimal text of a status names that status and no other. */
  lemma {:induction false} DecimalRoundTrip(n: nat)
    ensures DecimalValue(DecimalText(n)) == n
  {
    if n >= 10 {
      var r := DecimalText(n);
      assert r[..|r| - 1] == DecimalText(n / 10);
      DecimalRoundTrip(n / 10);
    }
  }
}
