/** Publishing a profile to the profiler server and deleting it again.

    An upload handle is what `uploadBinaryProfileIndirect` and
    `uploadBinaryProfileDataDirect` return: a pair of closures over a mutable
    `isAborted` flag and one XMLHttpRequest. Here it is a class whose methods are
    the two closures (`AbortUpload`, `StartUpload`) and the callbacks that the
    network runs later (`ReceiveUrlResponse`, `DeliverXhrEvent`, `DeliverProgress`).
    The promise `startUpload` returns is the write-once field `result`. */
module ProfileStore {
  import opened Web

  const AcceptHeaderValue := "application/vnd.firefox-profiler+json;version=1.0"
  const UploadContentType := "application/vnd.firefox-profiler+json"

  /** Where the Direct path POSTs the profile. */
  function PublishingEndpoint(origin: string): string
  {
    origin + "/compressed-store"
  }

  /** Where the Indirect path asks for an upload URL and its token. */
  function PublishingUrlRequestEndpoint(origin: string): string
  {
    origin + "/compressed-store-url"
  }

  // The messages of the errors an upload rejects with (the long ones are
  // written in pieces, which lets the verifier read their first characters).
  const TooLargeMessage := "The profile size is too large." + " You can try enabling some of the privacy features to trim its size down."
  const ServerErrorPrefix := "xhr onload with status != 200," + " xhr.statusText: "
  const ConnectionMessage := "Unable to make a connection" + " to publish the profile."
  const ErrorResponseLabel := " The error response was: "
  const AbortedByUserMessage := "The upload has been aborted by the user."
  const AlreadyAbortedMessage := "The request was already aborted."
  const UrlRequestFailedMessage := "Error fetching URL to publish profile"

  /** The message of a load whose status is neither 413 nor successful. */
  function ServerErrorMessage(statusText: string): (m: string)
    ensures StartsWith(m, ServerErrorPrefix) && EndsWith(m, statusText)
    ensures |m| == |ServerErrorPrefix| + |statusText|
  {
    ServerErrorPrefix + statusText
  }

  /** The message of a network error: the status text is appended only when it is not empty. */
  function ConnectionErrorMessage(statusText: string): (m: string)
    ensures StartsWith(m, ConnectionMessage)
    ensures m == ConnectionMessage <==> statusText == ""
    ensures statusText != "" ==> EndsWith(m, ErrorResponseLabel + statusText)
    ensures |m| == |ConnectionMessage| + (if statusText == "" then 0 else |ErrorResponseLabel| + |statusText|)
  {
    if statusText != "" then ConnectionMessage + ErrorResponseLabel + statusText else ConnectionMessage
  }

  /** The events an XMLHttpRequest delivers to the listeners of configureXhrForUpload. */
  datatype XhrEvent =
    | Load(status: nat, statusText: string, responseText: string)
    | NetworkError(statusText: string)
    | Abort

  /** The successful range of RFC 9110 section 15.3. */
  predicate IsSuccessStatus(status: int)
  {
    200 <= status <= 299
  }

  /** The value the parameter `overrideSuccessResponse` holds inside
      configureXhrForUpload: its default, `null`, also stands in for an explicit
      `undefined` argument. */
  function OverrideParameter(argument: JsValue): (v: JsValue)
    ensures v != Undefined
    ensures v == Null <==> argument == Undefined || argument == Null
    ensures argument.Str? ==> v == argument
  {
    if argument == Undefined then Null else argument
  }

  /** How the listeners that configureXhrForUpload installs settle the upload's
      promise when the request delivers `ev`. */
  function OnXhrEvent(ev: XhrEvent, overrideSuccessResponse: JsValue): (s: Settlement)
    ensures s.Resolved? <==> ev.Load? && IsSuccessStatus(ev.status)
    ensures s.Rejected? && s.reason.UploadAbortedError? <==> ev.Abort?
    ensures ev.Load? && ev.status == 413 ==> s == Rejected(Error(TooLargeMessage))
    ensures s.Resolved? ==> s.value == if overrideSuccessResponse != Null then overrideSuccessResponse else Str(ev.responseText)
    ensures ev.Load? && ev.status != 413 && !IsSuccessStatus(ev.status) ==>
              s == Rejected(Error(ServerErrorMessage(ev.statusText)))
    ensures ev.NetworkError? ==> s == Rejected(Error(ConnectionErrorMessage(ev.statusText)))
  {
    match ev
    case Load(status, statusText, responseText) =>
      if status == 413 then
        Rejected(Error(TooLargeMessage))
      else if IsSuccessStatus(status) then
        Resolved(if overrideSuccessResponse != Null then overrideSuccessResponse else Str(responseText))
      else
        Rejected(Error(ServerErrorMessage(statusText)))
    case NetworkError(statusText) =>
      Rejected(Error(ConnectionErrorMessage(statusText)))
    case Abort =>
      Rejected(UploadAbortedError(AbortedByUserMessage))
  }

  /** The five ways a transfer can end. */
  datatype TransferOutcome = Uploaded | TooLarge | ServerFailure | ConnectionFailure | Aborted

  /** The outcome an event stands for. */
  function OutcomeOfEvent(ev: XhrEvent): TransferOutcome
  {
    match ev
    case Load(status, _, _) =>
      if status == 413 then TooLarge
      else if IsSuccessStatus(status) then Uploaded
      else ServerFailure
    case NetworkError(_) => ConnectionFailure
    case Abort => Aborted
  }

  /** The outcome a caller can read off a settled upload promise: the class of
      the error, then its message. */
  function OutcomeOfSettlement(s: Settlement): TransferOutcome
  {
    match s
    case Resolved(_) => Uploaded
    case Rejected(reason) =>
      if reason.UploadAbortedError? then Aborted
      else if reason.message == TooLargeMessage then TooLarge
      else if StartsWith(reason.message, ConnectionMessage) then ConnectionFailure
      else ServerFailure
  }

  /** The five outcomes stay apart: from the settlement alone a caller learns
      which kind of event ended the transfer, so a 413 is never taken for a
      generic server error and an abort never for a connection failure. */
  lemma {:induction false} SettlementIdentifiesEvent(ev: XhrEvent, overrideSuccessResponse: JsValue)
    ensures OutcomeOfSettlement(OnXhrEvent(ev, overrideSuccessResponse)) == OutcomeOfEvent(ev)
  {
    match ev
    case Load(status, statusText, _) =>
      if status != 413 && !IsSuccessStatus(status) {
        var m := ServerErrorMessage(statusText);
        assert m[0] == 'x';
        assert m != TooLargeMessage by { assert TooLargeMessage[0] == 'T'; }
        assert !StartsWith(m, ConnectionMessage) by { assert ConnectionMessage[0] == 'U'; }
      }
    case NetworkError(statusText) =>
      var m := ConnectionErrorMessage(statusText);
      assert m[0] == 'U';
      assert m != TooLargeMessage by { assert TooLargeMessage[0] == 'T'; }
    case Abort =>
  }

  /** A 413 rejects with the size message, which no other status or network
      error produces, whatever its status text. */
  lemma TooLargeIsDistinguished(statusText: string, responseText: string, overrideSuccessResponse: JsValue, otherText: string)
    ensures OnXhrEvent(Load(413, statusText, responseText), overrideSuccessResponse) == Rejected(Error(TooLargeMessage))
    ensures TooLargeMessage != ServerErrorMessage(otherText)
    ensures TooLargeMessage != ConnectionErrorMessage(otherText)
  {
    assert ServerErrorMessage(otherText)[0] == 'x';
    assert ConnectionErrorMessage(otherText)[0] == 'U';
    assert TooLargeMessage[0] == 'T';
  }

  /** The request of the Direct path: the profile bytes POSTed to the publishing endpoint. */
  function DirectUploadRequest(origin: string, data: seq<bv8>): (r: Request)
    ensures r.verb == POST && r.url == origin + "/compressed-store" && r.body == Bytes(data)
    ensures r.headers == [("Accept", AcceptHeaderValue)]
  {
    Request(POST, PublishingEndpoint(origin), [("Accept", AcceptHeaderValue)], Bytes(data))
  }

  /** The first request of the Indirect path: a plain GET for an upload URL. */
  function UrlRequest(origin: string): (r: Request)
    ensures r.verb == GET && r.url == origin + "/compressed-store-url"
    ensures r.headers == [] && r.body == NoBody
  {
    Request(GET, PublishingUrlRequestEndpoint(origin), [], NoBody)
  }

  /** The second request of the Indirect path: the profile bytes PUT to the issued URL. */
  function IndirectUploadRequest(uploadUrl: JsValue, data: seq<bv8>): (r: Request)
    ensures r.verb == PUT && r.body == Bytes(data)
    ensures uploadUrl.Str? ==> r.url == uploadUrl.s
    ensures uploadUrl == Undefined ==> r.url == "undefined"
    ensures r.headers == [("Content-Type", UploadContentType)]
  {
    Request(PUT, ToText(uploadUrl), [("Content-Type", UploadContentType)], Bytes(data))
  }

  /** The two properties the Indirect path reads from the issuance response. */
  datatype UrlData = UrlData(jwt: JsValue, url: JsValue)

  /** Where the chain on the issuance fetch leads: a rejection of the upload, or
      the URL data with which the PUT goes out. */
  datatype Issuance = IssuanceRejected(reason: Rejection) | IssuanceGranted(urlData: UrlData)

  /** The chain `fetch(...).then(r => r.json().then(urlData => ...))` with its two
      `catch` handlers: a failed fetch, a status that is not ok, a body that is
      not JSON and a JSON `null` each reject; anything else grants. */
  function ReadIssuance(outcome: FetchOutcome): (step: Issuance)
    ensures step.IssuanceGranted? <==>
              outcome.Responded? && outcome.response.Ok() &&
              outcome.response.body.Parsed? && outcome.response.body.json.JsonValue?
    ensures outcome.NetworkFailure? ==> step == IssuanceRejected(TypeError(outcome.message))
    ensures outcome.Responded? && !outcome.response.Ok() ==> step == IssuanceRejected(Error(UrlRequestFailedMessage))
    ensures outcome.Responded? && outcome.response.Ok() && outcome.response.body.Malformed? ==>
              step == IssuanceRejected(SyntaxError(outcome.response.body.message))
    ensures outcome.Responded? && outcome.response.Ok() && outcome.response.body == Parsed(JsonNull) ==>
              step.IssuanceRejected? && step.reason.TypeError?
    ensures step.IssuanceGranted? ==>
              step.urlData == UrlData(GetProperty(outcome.response.body.json, "jwt").value,
                                      GetProperty(outcome.response.body.json, "url").value)
    ensures step.IssuanceRejected? ==> !step.reason.UploadAbortedError?
  {
    match outcome
    case NetworkFailure(message) => IssuanceRejected(TypeError(message))
    case Responded(response) =>
      if !response.Ok() then
        IssuanceRejected(Error(UrlRequestFailedMessage))
      else
        match response.body
        case Malformed(message) => IssuanceRejected(SyntaxError(message))
        case Parsed(urlData) =>
          var jwt := GetProperty(urlData, "jwt");
          if jwt.Rejected? then IssuanceRejected(jwt.reason)
          else IssuanceGranted(UrlData(jwt.value, GetProperty(urlData, "url").value))
  }

  datatype Strategy = Indirect | Direct

  /** Where a handle's requests stand: not started, waiting for the issuance
      fetch (Indirect only), transferring the profile, or settled. */
  datatype Phase = Idle | RequestingUrl | Uploading | Finished

  /** Everything a handle holds, as one value. */
  datatype HandleState = HandleState(
    isAborted: bool,
    phase: Phase,
    result: Option<Settlement>,
    payload: seq<bv8>,
    hasProgressCallback: bool,
    successOverride: JsValue,
    requests: seq<Request>,
    progressReports: seq<(nat, nat)>)

  class UploadHandle {
    const strategy: Strategy
    const origin: string
    /** Set by `abortUpload`, tested by `startUpload` on entry only. */
    var isAborted: bool
    var phase: Phase
    /** The promise `startUpload` returns: empty while pending, written once. */
    var result: Option<Settlement>
    /** The data and progress callback `startUpload` was given (the callback only as present or not). */
    var payload: seq<bv8>
    var hasProgressCallback: bool
    /** The `overrideSuccessResponse` the load listener was configured with. */
    var successOverride: JsValue
    /** Every request the handle has sent, in order. */
    var requests: seq<Request>
    /** Every `(loaded, total)` pair passed to the progress callback, in order. */
    var progressReports: seq<(nat, nat)>

    function State(): HandleState
      reads this
    {
      HandleState(isAborted, phase, result, payload, hasProgressCallback, successOverride, requests, progressReports)
    }

    /** The transfer request (the POST, or the PUT after the GET) has gone out. */
    predicate TransferSent()
      reads this
    {
      |requests| == if strategy == Direct then 1 else 2
    }

    ghost predicate Valid()
      reads this
    {
      && (result.Some? <==> phase == Finished)
      && (phase == Idle ==> requests == [])
      && (phase == RequestingUrl ==> strategy == Indirect && requests == [UrlRequest(origin)])
      && (phase == Uploading ==> TransferSent())
      && (progressReports != [] ==> TransferSent() && hasProgressCallback)
      && (strategy == Direct ==>
            successOverride == Null && (requests == [] || requests == [DirectUploadRequest(origin, payload)]))
      && (strategy == Indirect ==>
            |requests| <= 2 &&
            (requests != [] ==> requests[0] == UrlRequest(origin)) &&
            (|requests| == 2 ==> requests[1].verb == PUT && requests[1].body == Bytes(payload)))
      && (phase == Finished && requests == [] ==>
            result == Some(Rejected(UploadAbortedError(AlreadyAbortedMessage))))
      && successOverride != Undefined
    }

    /** A fresh handle: a new XMLHttpRequest and `isAborted = false`. */
    constructor (strategy: Strategy, origin: string)
      ensures Valid()
      ensures this.strategy == strategy && this.origin == origin
      ensures State() == HandleState(false, Idle, None, [], false, Null, [], [])
    {
      this.strategy := strategy;
      this.origin := origin;
      isAborted := false;
      phase := Idle;
      result := None;
      payload := [];
      hasProgressCallback := false;
      successOverride := Null;
      requests := [];
      progressReports := [];
    }

    /** `resolve` or `reject`: a promise keeps the first settlement and ignores later ones. */
    method Settle(s: Settlement)
      modifies this`result
      ensures result == if old(result).None? then Some(s) else old(result)
    {
      if result.None? {
        result := Some(s);
      }
    }

    /** `abortUpload`: set the flag and abort the request. `xhr.abort()` on a
        request in flight fires "abort" at once, which rejects the promise;
        on a request not yet sent or already done it fires nothing. */
    method AbortUpload()
      requires Valid()
      modifies this
      ensures Valid()
      ensures isAborted && phase != Uploading
      ensures old(phase) == Uploading ==>
                State() == old(State()).(isAborted := true, phase := Finished,
                                         result := Some(Rejected(UploadAbortedError(AbortedByUserMessage))))
      ensures old(phase) != Uploading ==> State() == old(State()).(isAborted := true)
      ensures old(isAborted) && old(phase) != Uploading ==> State() == old(State())
    {
      isAborted := true;
      if phase == Uploading {
        Settle(OnXhrEvent(Abort, successOverride));
        phase := Finished;
      }
    }

    /** `startUpload`: reject at once if the handle was aborted, otherwise send
        the first request of the handle's path. */
    method StartUpload(data: seq<bv8>, progressCallback: bool)
      requires Valid() && phase == Idle
      modifies this
      ensures Valid()
      ensures isAborted == old(isAborted) && progressReports == []
      ensures old(isAborted) ==>
                State() == old(State()).(phase := Finished,
                                         result := Some(Rejected(UploadAbortedError(AlreadyAbortedMessage))))
      ensures old(isAborted) ==> requests == []
      ensures !old(isAborted) ==> result == None && payload == data && hasProgressCallback == progressCallback
      ensures !old(isAborted) && strategy == Direct ==>
                phase == Uploading && requests == [DirectUploadRequest(origin, data)] && successOverride == Null
      ensures !old(isAborted) && strategy == Indirect ==>
                phase == RequestingUrl && requests == [UrlRequest(origin)] && successOverride == old(successOverride)
    {
      if isAborted {
        Settle(Rejected(UploadAbortedError(AlreadyAbortedMessage)));
        phase := Finished;
        return;
      }
      payload := data;
      hasProgressCallback := progressCallback;
      match strategy
      case Direct =>
        successOverride := OverrideParameter(Undefined);
        requests := requests + [DirectUploadRequest(origin, data)];
        phase := Uploading;
      case Indirect =>
        requests := requests + [UrlRequest(origin)];
        phase := RequestingUrl;
    }

    /** The issuance fetch of the Indirect path settles. The flag is not
        consulted: an abort while the fetch was pending does not stop the PUT. */
    method ReceiveUrlResponse(outcome: FetchOutcome)
      requires Valid() && phase == RequestingUrl
      modifies this
      ensures Valid()
      ensures ReadIssuance(outcome).IssuanceRejected? ==>
                State() == old(State()).(phase := Finished, result := Some(Rejected(ReadIssuance(outcome).reason)))
      ensures ReadIssuance(outcome).IssuanceGranted? ==>
                var urlData := ReadIssuance(outcome).urlData;
                State() == old(State()).(phase := Uploading, successOverride := OverrideParameter(urlData.jwt),
                                         requests := old(requests) + [IndirectUploadRequest(urlData.url, payload)])
    {
      match ReadIssuance(outcome)
      case IssuanceRejected(reason) =>
        Settle(Rejected(reason));
        phase := Finished;
      case IssuanceGranted(urlData) =>
        successOverride := OverrideParameter(urlData.jwt);
        requests := requests + [IndirectUploadRequest(urlData.url, payload)];
        phase := Uploading;
    }

    /** The transfer request delivers "load", "error" or "abort". */
    method DeliverXhrEvent(ev: XhrEvent)
      requires Valid() && phase == Uploading
      modifies this
      ensures Valid()
      ensures State() == old(State()).(phase := Finished, result := Some(OnXhrEvent(ev, successOverride)))
    {
      Settle(OnXhrEvent(ev, successOverride));
      phase := Finished;
    }

    /** The transfer request delivers an upload "progress" event; the callback
        runs only when one was given and the length is computable. */
    method DeliverProgress(lengthComputable: bool, loaded: nat, total: nat)
      requires Valid() && phase == Uploading
      modifies this`progressReports
      ensures Valid()
      ensures progressReports ==
                old(progressReports) + if hasProgressCallback && lengthComputable then [(loaded, total)] else []
    {
      if hasProgressCallback && lengthComputable {
        progressReports := progressReports + [(loaded, total)];
      }
    }
  }

  /** `uploadBinaryProfileIndirect`: a handle that asks for an upload URL first. */
  method UploadBinaryProfileIndirect(origin: string) returns (handle: UploadHandle)
    ensures fresh(handle) && handle.Valid()
    ensures handle.strategy == Indirect && handle.origin == origin
    ensures handle.State() == HandleState(false, Idle, None, [], false, Null, [], [])
  {
    handle := new UploadHandle(Indirect, origin);
  }

  /** `uploadBinaryProfileDataDirect`: a handle that POSTs the profile itself. */
  method UploadBinaryProfileDataDirect(origin: string) returns (handle: UploadHandle)
    ensures fresh(handle) && handle.Valid()
    ensures handle.strategy == Direct && handle.origin == origin
    ensures handle.State() == HandleState(false, Idle, None, [], false, Null, [], [])
  {
    handle := new UploadHandle(Direct, origin);
  }

  /** `uploadBinaryProfileData`: creating the Indirect handle cannot throw, so
      the `catch` never runs and the Direct handle is never chosen. */
  method UploadBinaryProfileData(origin: string) returns (handle: UploadHandle)
    ensures fresh(handle) && handle.Valid()
    ensures handle.strategy == Indirect && handle.origin == origin
    ensures handle.State() == HandleState(false, Idle, None, [], false, Null, [], [])
  {
    handle := UploadBinaryProfileIndirect(origin);
  }

  // Whole uploads, from a fresh handle to its settled promise, with the
  // network's answers as inputs.

  /** A Direct upload sends one POST and settles as the classifier says; on
      success its value is the POST's response body. */
  method DirectUpload(origin: string, data: seq<bv8>, progressCallback: bool, ev: XhrEvent)
    returns (sent: seq<Request>, outcome: Settlement)
    ensures sent == [DirectUploadRequest(origin, data)]
    ensures outcome == OnXhrEvent(ev, Null)
    ensures outcome.Resolved? ==> outcome.value == Str(ev.responseText)
  {
    var handle := UploadBinaryProfileDataDirect(origin);
    handle.StartUpload(data, progressCallback);
    handle.DeliverXhrEvent(ev);
    sent, outcome := handle.requests, handle.result.value;
  }

  /** An Indirect upload whose issuance succeeds sends the GET then the PUT to
      the issued URL; on success its value is the issued `jwt` when that is a
      string, and the PUT's body only when `jwt` is missing or null. */
  method IndirectUpload(origin: string, data: seq<bv8>, progressCallback: bool, issuance: FetchOutcome, ev: XhrEvent)
    returns (sent: seq<Request>, outcome: Settlement)
    requires ReadIssuance(issuance).IssuanceGranted?
    ensures var urlData := ReadIssuance(issuance).urlData;
            sent == [UrlRequest(origin), IndirectUploadRequest(urlData.url, data)]
    ensures outcome == OnXhrEvent(ev, OverrideParameter(ReadIssuance(issuance).urlData.jwt))
    ensures outcome.Resolved? && ReadIssuance(issuance).urlData.jwt.Str? ==>
              outcome.value == ReadIssuance(issuance).urlData.jwt
    ensures outcome.Resolved? && !ReadIssuance(issuance).urlData.jwt.Str? ==>
              outcome.value == Str(ev.responseText)
  {
    var handle := UploadBinaryProfileData(origin);
    handle.StartUpload(data, progressCallback);
    handle.ReceiveUrlResponse(issuance);
    handle.DeliverXhrEvent(ev);
    sent, outcome := handle.requests, handle.result.value;
  }

  /** An Indirect upload whose issuance fails rejects with an ordinary error
      and never sends the PUT. */
  method IndirectIssuanceFailure(origin: string, data: seq<bv8>, issuance: FetchOutcome)
    returns (sent: seq<Request>, outcome: Settlement)
    requires ReadIssuance(issuance).IssuanceRejected?
    ensures sent == [UrlRequest(origin)]
    ensures outcome.Rejected? && !outcome.reason.UploadAbortedError?
  {
    var handle := UploadBinaryProfileData(origin);
    handle.StartUpload(data, false);
    handle.ReceiveUrlResponse(issuance);
    sent, outcome := handle.requests, handle.result.value;
  }

  /** A handle aborted before `startUpload` rejects with UploadAbortedError
      and sends nothing, whichever path it takes. */
  method AbortBeforeStart(strategy: Strategy, origin: string, data: seq<bv8>)
    returns (sent: seq<Request>, outcome: Settlement)
    ensures sent == []
    ensures outcome == Rejected(UploadAbortedError(AlreadyAbortedMessage))
  {
    var handle := new UploadHandle(strategy, origin);
    handle.AbortUpload();
    handle.StartUpload(data, false);
    sent, outcome := handle.requests, handle.result.value;
  }

  /** Aborting while the issuance fetch is pending does not stop the Indirect
      upload: the PUT still goes out and the promise is still pending. */
  method AbortDuringUrlRequest(origin: string, data: seq<bv8>, issuance: FetchOutcome)
    returns (sent: seq<Request>, settled: bool)
    requires ReadIssuance(issuance).IssuanceGranted?
    ensures |sent| == 2 && sent[1] == IndirectUploadRequest(ReadIssuance(issuance).urlData.url, data)
    ensures !settled
  {
    var handle := UploadBinaryProfileData(origin);
    handle.StartUpload(data, false);
    handle.AbortUpload();
    handle.ReceiveUrlResponse(issuance);
    sent, settled := handle.requests, handle.result.Some?;
  }

  /** Aborting during the transfer, on either path, rejects with
      UploadAbortedError once the transfer request has gone out. */
  method AbortDuringTransfer(strategy: Strategy, origin: string, data: seq<bv8>, issuance: FetchOutcome)
    returns (sent: seq<Request>, outcome: Settlement)
    requires strategy == Indirect ==> ReadIssuance(issuance).IssuanceGranted?
    ensures strategy == Direct ==> sent == [DirectUploadRequest(origin, data)]
    ensures strategy == Indirect ==>
              sent == [UrlRequest(origin), IndirectUploadRequest(ReadIssuance(issuance).urlData.url, data)]
    ensures outcome == Rejected(UploadAbortedError(AbortedByUserMessage))
  {
    var handle := new UploadHandle(strategy, origin);
    handle.StartUpload(data, false);
    if strategy == Indirect {
      handle.ReceiveUrlResponse(issuance);
    }
    handle.AbortUpload();
    sent, outcome := handle.requests, handle.result.value;
  }

  /** A second `abortUpload` right after the first changes nothing. */
  method AbortTwice(strategy: Strategy, origin: string, data: seq<bv8>, start: bool)
    returns (afterFirst: HandleState, afterSecond: HandleState)
    ensures afterFirst.isAborted && afterSecond == afterFirst
  {
    var handle := new UploadHandle(strategy, origin);
    if start {
      handle.StartUpload(data, false);
    }
    handle.AbortUpload();
    afterFirst := handle.State();
    handle.AbortUpload();
    afterSecond := handle.State();
  }

  /** The request `deleteProfileOnServer` sends. */
  function DeleteProfileRequest(origin: string, profileToken: string, jwtToken: string): (r: Request)
    ensures r.verb == DELETE && r.body == NoBody
    ensures r.url == origin + "/profile/" + profileToken
    ensures |r.headers| == 3
    ensures ("Authorization", "Bearer " + jwtToken) in r.headers
    ensures ("Accept", AcceptHeaderValue) in r.headers
    ensures ("Content-Type", "application/json") in r.headers
  {
    Request(DELETE, origin + "/profile/" + profileToken,
            [("Accept", AcceptHeaderValue), ("Content-Type", "application/json"),
             ("Authorization", "Bearer " + jwtToken)],
            NoBody)
  }

  const DeleteErrorPrefix := "An error happened while deleting the profile with the token \""

  /** The message of a failed deletion: it names the token, the status text and the status. */
  function DeleteErrorMessage(profileToken: string, statusText: string, status: nat): (m: string)
    ensures StartsWith(m, DeleteErrorPrefix)
    ensures OccursAt(profileToken, m, |DeleteErrorPrefix|)
    ensures OccursAt(statusText, m, |DeleteErrorPrefix| + |profileToken| + 3)
    ensures EndsWith(m, " (" + DecimalText(status) + ")")
  {
    DeleteErrorPrefix + profileToken + "\": " + statusText + " (" + DecimalText(status) + ")"
  }

  /** `deleteProfileOnServer`, with the server's answer to each request as a parameter:
      it fulfils with nothing exactly when the response is ok. */
  function DeleteProfileOnServer(origin: string, profileToken: string, jwtToken: string,
                                 server: Request -> FetchOutcome): (x: Exchange)
    ensures x.sent == [DeleteProfileRequest(origin, profileToken, jwtToken)]
    ensures x.outcome.Resolved? <==> server(x.sent[0]).Responded? && server(x.sent[0]).response.Ok()
    ensures x.outcome.Resolved? ==> x.outcome.value == Undefined
    ensures server(x.sent[0]).NetworkFailure? ==> x.outcome == Rejected(TypeError(server(x.sent[0]).message))
    ensures server(x.sent[0]).Responded? && !server(x.sent[0]).response.Ok() ==>
              var r := server(x.sent[0]).response;
              x.outcome == Rejected(Error(DeleteErrorMessage(profileToken, r.statusText, r.status)))
  {
    var request := DeleteProfileRequest(origin, profileToken, jwtToken);
    var outcome :=
      match server(request)
      case NetworkFailure(message) => Rejected(TypeError(message))
      case Responded(response) =>
        if !response.Ok() then Rejected(Error(DeleteErrorMessage(profileToken, response.statusText, response.status)))
        else Resolved(Undefined);
    Exchange([request], outcome)
  }
}
