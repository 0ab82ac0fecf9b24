/**
 * One custom resource request and the handshake around its reply (req.go,
 * with baseResponse from resp.go): the response factories and the request
 * types each one is legal for, the random physical id, and Try, which
 * reconciles a handler's outcome with the request's "response sent" flag so
 * that a reply goes out for every request.
 */
module Requests {
  import opened Wrappers
  import opened Responses

  /** The three request types the orchestrator sends. */
  const RequestTypes: set<string> := {"Create", "Update", "Delete"}

  /** The 62 characters a random physical id suffix is drawn from, in the order of `chars` in req.go. */
  const Alphabet: string := "zxcvbnmasdfghjklqwertyuiop1234567890ZXCVBNMASDFGHJKLQWERTYUIOP"

  /** The number of random characters after the logical id and the dash. */
  const SuffixLength: nat := 30

  /** The context after baseResponse: a nil one becomes Background, any other is kept. */
  function Filled(c: Option<Context>): Option<Context> {
    if c.None? then Some(Background) else c
  }

  // ---------------------------------------------------------------------
  // Which factory is legal for which request: the panic text, if any

  /** CreatedResponse panics unless the request is a Create, then unless the id is non-empty. */
  function CreatedMisuse(requestType: string, physicalid: string): (m: Option<string>)
    ensures m == None <==> requestType == "Create" && physicalid != ""
    ensures requestType != "Create" ==> m == Some("created response on a non-create request")
    ensures requestType == "Create" && physicalid == "" ==> m == Some("created response with empty physicalid")
  {
    if requestType != "Create" then Some("created response on a non-create request")
    else if physicalid == "" then Some("created response with empty physicalid")
    else None
  }

  /**
   * ReplacedResponse panics unless the request is an Update, then unless the
   * new id differs from the current one, then unless it is non-empty.
   */
  function ReplacedMisuse(requestType: string, current: string, physicalid: string): (m: Option<string>)
    ensures m == None <==> requestType == "Update" && physicalid != current && physicalid != ""
    ensures requestType != "Update" ==> m == Some("replaced response on a non-update request")
    ensures requestType == "Update" && physicalid == current ==> m == Some("replaced response with same physicalid")
    ensures requestType == "Update" && physicalid != current && physicalid == "" ==>
      m == Some("replaced response with empty physicalid")
  {
    if requestType != "Update" then Some("replaced response on a non-update request")
    else if current == physicalid then Some("replaced response with same physicalid")
    else if physicalid == "" then Some("replaced response with empty physicalid")
    else None
  }

  /** With both ids empty the "same physicalid" check fires before the "empty physicalid" one. */
  lemma ReplacedBothEmpty()
    ensures ReplacedMisuse("Update", "", "") == Some("replaced response with same physicalid")
  {
  }

  /** UpdatedResponse panics unless the request is an Update. */
  function UpdatedMisuse(requestType: string): (m: Option<string>)
    ensures m == None <==> requestType == "Update"
    ensures m != None ==> m == Some("updated response on a non-update request")
  {
    if requestType != "Update" then Some("updated response on a non-update request") else None
  }

  /** DeletedResponse panics unless the request is a Delete. */
  function DeletedMisuse(requestType: string): (m: Option<string>)
    ensures m == None <==> requestType == "Delete"
    ensures m != None ==> m == Some("deleted response on a non-delete request")
  {
    if requestType != "Delete" then Some("deleted response on a non-delete request") else None
  }

  // ---------------------------------------------------------------------
  // Try: the handler's outcome and its reconciliation with the sent flag

  /** How the handler ended: a nil return, a returned error, or a panic with an error or another value.
      A `panic(nil)` is a panic with an error, the `*runtime.PanicNilError` that Go 1.21 and later recover. */
  datatype Outcome =
    | ReturnedNil
    | ReturnedError(text: string)
    | PanickedWithError(text: string)
    | PanickedWithValue(text: string)

  /** A handler run: how it ended, and whether it delivered a response itself (a Send that succeeded). */
  datatype Handler = Handler(outcome: Outcome, delivered: bool)

  /** The errors Try produces, with the wrapping its format strings apply. */
  datatype TryError =
    | HandlerFailed(text: string)
    | PanicError(text: string)
    | PanicValue(text: string)
    | NoResponse
    | AlreadySent(cause: TryError)
  {
    /** The error's text, err.Error() in Go. */
    function Message(): string {
      match this
      case HandlerFailed(text) => text
      case PanicError(text) => "panic with error: " + text
      case PanicValue(text) => "panic with value: " + text
      case NoResponse => "no response generated and no error received"
      case AlreadySent(cause) => "received error but response already sent: " + cause.Message()
    }
  }

  /**
   * How Try ends: it returns an error or nil, or it panics because the
   * failure response it tried to send could not be delivered.
   */
  datatype TryResult = Returned(err: Option<TryError>) | Abort(cause: SendError)

  /**
   * The observable effect of one Try: its result, the sent flag afterwards,
   * and the reason of the failure response Try itself sent (None when it
   * sent none).
   */
  datatype Run = Run(result: TryResult, sent: bool, failureReason: Option<string>)

  /** The value of Try's `err` once the handler has ended and the inner defer has run. */
  function Caught(o: Outcome, sent: bool): Option<TryError> {
    match o
    case ReturnedNil => if sent then None else Some(NoResponse)
    case ReturnedError(text) => Some(HandlerFailed(text))
    case PanickedWithError(text) => Some(PanicError(text))
    case PanickedWithValue(text) => Some(PanicValue(text))
  }

  /**
   * The outer defer of Try, as a function of the flag before the call, the
   * handler run, the callback URL and what encoding and transport do with a
   * failure response.
   */
  function TrySpec(sentBefore: bool, h: Handler, url: string, m: Marshal, t: Transport): (run: Run)
    ensures run.result.Returned? ==> run.sent
    ensures run.failureReason.Some? ==> !sentBefore && !h.delivered
    ensures run.sent <==> sentBefore || h.delivered || (run.failureReason.Some? && run.result.Returned?)
    ensures run.result == Returned(None) <==> (sentBefore || h.delivered) && h.outcome == ReturnedNil
    ensures run.result.Abort? <==> run.failureReason.Some? && SendOutcome(url, m, t).Some?
    ensures run.result.Abort? ==> Some(run.result.cause) == SendOutcome(url, m, t)
  {
    var sent := sentBefore || h.delivered;
    match Caught(h.outcome, sent)
    case None => Run(Returned(None), sent, None)
    case Some(e) =>
      if sent then Run(Returned(Some(AlreadySent(e))), true, None)
      else
        match SendOutcome(url, m, t)
        case None => Run(Returned(Some(e)), true, Some(e.Message()))
        case Some(f) => Run(Abort(f), false, Some(e.Message()))
  }

  /** A handler that returns nil after delivering: Try returns nil and sends nothing. */
  lemma TryNilDelivered(sentBefore: bool, delivered: bool, url: string, m: Marshal, t: Transport)
    requires sentBefore || delivered
    ensures TrySpec(sentBefore, Handler(ReturnedNil, delivered), url, m, t) == Run(Returned(None), true, None)
  {
  }

  /**
   * A handler that returns nil without any response: Try sends a failure
   * with the "no response" reason and, if that goes through, returns that
   * error; otherwise it aborts.
   */
  lemma TryNilUndelivered(url: string, m: Marshal, t: Transport)
    ensures var run := TrySpec(false, Handler(ReturnedNil, false), url, m, t);
      && run.failureReason == Some("no response generated and no error received")
      && (SendOutcome(url, m, t) == None ==> run.result == Returned(Some(NoResponse)) && run.sent)
      && (SendOutcome(url, m, t) != None ==> run.result == Abort(SendOutcome(url, m, t).value) && !run.sent)
  {
  }

  /** The error a failing outcome becomes; ReturnedNil is not one. */
  function FailureOf(o: Outcome): TryError
    requires !o.ReturnedNil?
  {
    match o
    case ReturnedError(text) => HandlerFailed(text)
    case PanickedWithError(text) => PanicError(text)
    case PanickedWithValue(text) => PanicValue(text)
  }

  /**
   * An error or a panic before anything was sent: Try sends one failure whose
   * reason is the error's text (prefixed for panics) and returns the same
   * error, or aborts if that send fails.
   */
  lemma TryFailureUnsent(o: Outcome, url: string, m: Marshal, t: Transport)
    requires !o.ReturnedNil?
    ensures var run := TrySpec(false, Handler(o, false), url, m, t);
      && run.failureReason == Some(FailureOf(o).Message())
      && (o.PanickedWithError? ==> run.failureReason.value == "panic with error: " + o.text)
      && (o.PanickedWithValue? ==> run.failureReason.value == "panic with value: " + o.text)
      && (o.ReturnedError? ==> run.failureReason.value == o.text)
      && (SendOutcome(url, m, t) == None ==> run.result == Returned(Some(FailureOf(o))))
      && (SendOutcome(url, m, t) != None ==> run.result == Abort(SendOutcome(url, m, t).value))
  {
  }

  /** An error or a panic after a response went out: no second send, the error comes back wrapped. */
  lemma TryFailureAlreadySent(o: Outcome, sentBefore: bool, delivered: bool, url: string, m: Marshal, t: Transport)
    requires !o.ReturnedNil? && (sentBefore || delivered)
    ensures var run := TrySpec(sentBefore, Handler(o, delivered), url, m, t);
      && run == Run(Returned(Some(AlreadySent(FailureOf(o)))), true, None)
      && run.result.err.value.Message() == "received error but response already sent: " + FailureOf(o).Message()
  {
  }

  // ---------------------------------------------------------------------
  // The request object

  /** An inbound request. Only its context and its sent flag ever change. */
  class Request {
    const requestType: string
    const responseURL: string
    const stackId: string
    const requestId: string
    const resourceType: string
    const logicalResourceId: string
    const resourceProperties: string
    const physicalResourceId: string
    const oldResourceProperties: string
    var ctx: Option<Context>
    const responseSent: SentFlag
    const simulate: bool

    /** A request as decoded from the inbound message (or built for simulation); nothing has been sent for it. */
    constructor (requestType: string, responseURL: string, stackId: string, requestId: string,
                 resourceType: string, logicalResourceId: string, resourceProperties: string,
                 physicalResourceId: string, oldResourceProperties: string, ctx: Option<Context>,
                 simulate: bool)
      ensures this.requestType == requestType && this.responseURL == responseURL
      ensures this.stackId == stackId && this.requestId == requestId
      ensures this.resourceType == resourceType && this.logicalResourceId == logicalResourceId
      ensures this.resourceProperties == resourceProperties && this.physicalResourceId == physicalResourceId
      ensures this.oldResourceProperties == oldResourceProperties && this.ctx == ctx
      ensures this.simulate == simulate
      ensures fresh(responseSent) && !responseSent.value && responseSent.calls == []
    {
      this.requestType := requestType;
      this.responseURL := responseURL;
      this.stackId := stackId;
      this.requestId := requestId;
      this.resourceType := resourceType;
      this.logicalResourceId := logicalResourceId;
      this.resourceProperties := resourceProperties;
      this.physicalResourceId := physicalResourceId;
      this.oldResourceProperties := oldResourceProperties;
      this.ctx := ctx;
      this.simulate := simulate;
      this.responseSent := new SentFlag();
    }

    /**
     * `resp` answers this request: the correlation ids and the callback URL
     * are copied unchanged, its flag is this request's flag, it shares this
     * request's context and it is not marked sensitive.
     */
    ghost predicate Answers(resp: Response)
      reads this, resp
    {
      && resp.stackId == stackId && resp.requestId == requestId
      && resp.logicalResourceId == logicalResourceId
      && resp.respurl == responseURL && resp.sent == responseSent
      && resp.ctx == ctx && !resp.noEcho
    }

    /**
     * The response every factory starts from: status SUCCESS and the
     * request's physical id. A nil context is replaced by Background first.
     */
    method BaseResponse() returns (resp: Response)
      modifies this`ctx
      ensures ctx == Filled(old(ctx)) && ctx != None
      ensures old(ctx) != None ==> ctx == old(ctx)
      ensures fresh(resp) && Answers(resp)
      ensures resp.status == "SUCCESS" && resp.reason == ""
      ensures resp.physicalResourceId == physicalResourceId && resp.data == None
    {
      if ctx.None? {
        ctx := Some(Background);
      }
      resp := new Response(physicalResourceId, stackId, requestId, logicalResourceId, responseURL, responseSent, ctx);
    }

    /** The body of FailureResponse(reason), which every request type allows. */
    function FailureBody(reason: string): Body {
      Body("FAILED", reason, physicalResourceId, stackId, requestId, logicalResourceId, false, None)
    }

    /** A failure reply, legal for every request type; it keeps the request's physical id. */
    method FailureResponse(reason: string) returns (resp: Response)
      modifies this`ctx
      ensures ctx == Filled(old(ctx))
      ensures fresh(resp) && Answers(resp)
      ensures resp.Exported() == FailureBody(reason)
      ensures resp.status == "FAILED" && resp.reason == reason && resp.physicalResourceId == physicalResourceId
    {
      resp := BaseResponse();
      resp.status := "FAILED";
      resp.reason := reason;
    }

    /** The reply to a Create that made resource `physicalid`; a Create request and a non-empty id are required. */
    method CreatedResponse(physicalid: string, attr: Option<Attributes>) returns (r: Result<Response, string>)
      modifies this`ctx
      ensures r.Err? <==> CreatedMisuse(requestType, physicalid) != None
      ensures r.Err? ==> Some(r.error) == CreatedMisuse(requestType, physicalid) && ctx == old(ctx)
      ensures r.Ok? ==> ctx == Filled(old(ctx)) && fresh(r.value) && Answers(r.value)
      ensures r.Ok? ==> r.value.Exported() == Body("SUCCESS", "", physicalid, stackId, requestId, logicalResourceId, false, attr)
    {
      var misuse := CreatedMisuse(requestType, physicalid);
      if misuse.Some? {
        return Err(misuse.value);
      }
      var resp := BaseResponse();
      resp.physicalResourceId := physicalid;
      resp.data := attr;
      return Ok(resp);
    }

    /**
     * The reply to an Update that replaced the resource with a new one called
     * `physicalid`; the orchestrator then deletes the old one.
     */
    method ReplacedResponse(physicalid: string, attr: Option<Attributes>) returns (r: Result<Response, string>)
      modifies this`ctx
      ensures r.Err? <==> ReplacedMisuse(requestType, physicalResourceId, physicalid) != None
      ensures r.Err? ==> Some(r.error) == ReplacedMisuse(requestType, physicalResourceId, physicalid) && ctx == old(ctx)
      ensures r.Ok? ==> ctx == Filled(old(ctx)) && fresh(r.value) && Answers(r.value)
      ensures r.Ok? ==> r.value.Exported() == Body("SUCCESS", "", physicalid, stackId, requestId, logicalResourceId, false, attr)
      ensures r.Ok? ==> r.value.physicalResourceId != physicalResourceId
    {
      var misuse := ReplacedMisuse(requestType, physicalResourceId, physicalid);
      if misuse.Some? {
        return Err(misuse.value);
      }
      var resp := BaseResponse();
      resp.physicalResourceId := physicalid;
      resp.data := attr;
      return Ok(resp);
    }

    /** The reply to an Update done in place: the physical id stays the request's. */
    method UpdatedResponse(attr: Option<Attributes>) returns (r: Result<Response, string>)
      modifies this`ctx
      ensures r.Err? <==> UpdatedMisuse(requestType) != None
      ensures r.Err? ==> Some(r.error) == UpdatedMisuse(requestType) && ctx == old(ctx)
      ensures r.Ok? ==> ctx == Filled(old(ctx)) && fresh(r.value) && Answers(r.value)
      ensures r.Ok? ==> r.value.Exported() == Body("SUCCESS", "", physicalResourceId, stackId, requestId, logicalResourceId, false, attr)
    {
      var misuse := UpdatedMisuse(requestType);
      if misuse.Some? {
        return Err(misuse.value);
      }
      var resp := BaseResponse();
      resp.data := attr;
      return Ok(resp);
    }

    /** The reply to a Delete: the request's physical id and no data. */
    method DeletedResponse() returns (r: Result<Response, string>)
      modifies this`ctx
      ensures r.Err? <==> DeletedMisuse(requestType) != None
      ensures r.Err? ==> Some(r.error) == DeletedMisuse(requestType) && ctx == old(ctx)
      ensures r.Ok? ==> ctx == Filled(old(ctx)) && fresh(r.value) && Answers(r.value)
      ensures r.Ok? ==> r.value.Exported() == Body("SUCCESS", "", physicalResourceId, stackId, requestId, logicalResourceId, false, None)
    {
      var misuse := DeletedMisuse(requestType);
      if misuse.Some? {
        return Err(misuse.value);
      }
      var resp := BaseResponse();
      return Ok(resp);
    }

    /**
     * The logical id, a dash and 30 characters of the alphabet, the k-th one
     * chosen by the k-th draw of the random source (each draw below 62). The
     * id is determined by the logical id and the draws.
     */
    method RandomPhysicalId(draws: seq<nat>) returns (id: string)
      requires |draws| == SuffixLength
      requires forall k :: 0 <= k < |draws| ==> draws[k] < |Alphabet|
      ensures |id| == |logicalResourceId| + 1 + SuffixLength
      ensures id[..|logicalResourceId| + 1] == logicalResourceId + "-"
      ensures forall k :: 0 <= k < SuffixLength ==> id[|logicalResourceId| + 1 + k] == Alphabet[draws[k]]
      ensures forall k :: |logicalResourceId| < k < |id| ==> id[k] in Alphabet
    {
      var suffix := new char[SuffixLength];
      for j := 0 to SuffixLength
        invariant forall k :: 0 <= k < j ==> suffix[k] == Alphabet[draws[k]]
      {
        suffix[j] := Alphabet[draws[j]];
      }
      id := logicalResourceId + "-" + suffix[..];
    }

    /**
     * Runs handler `h` and makes sure a reply goes out: if the handler failed,
     * panicked, or returned nil without replying, and nothing has been sent,
     * Try sends one failure response (encoded as `m`, carried as `t`) and
     * aborts if that send fails. The new flag, result and the failure it sent
     * are those TrySpec gives.
     */
    method Try(h: Handler, m: Marshal, t: Transport) returns (r: TryResult)
      modifies this`ctx, responseSent
      ensures var run := TrySpec(old(responseSent.value), h, responseURL, m, t);
        && r == run.result
        && responseSent.value == run.sent
        && responseSent.calls == old(responseSent.calls) +
             (if run.failureReason.Some? then [FailureBody(run.failureReason.value)] else [])
        && ctx == (if h.delivered || run.failureReason.Some? then Filled(old(ctx)) else old(ctx))
    {
      // The handler runs. A response it delivered was made by a factory, so
      // through baseResponse: the context is filled and the flag is set. Its
      // own Send is represented by these effects alone, so `calls` grows only
      // by the Send Try makes below.
      if h.delivered {
        ctx := Filled(ctx);
        responseSent.value := true;
      }
      var err: Option<TryError>;
      match h.outcome {
        case ReturnedNil =>
          err := None;
          if !responseSent.value {
            err := Some(NoResponse);
          }
        case ReturnedError(text) =>
          err := Some(HandlerFailed(text));
        // the inner defer turns a panic into an error
        case PanickedWithError(text) =>
          err := Some(PanicError(text));
        case PanickedWithValue(text) =>
          err := Some(PanicValue(text));
      }
      // the outer defer
      if err.Some? {
        if responseSent.value {
          err := Some(AlreadySent(err.value));
        } else {
          var resp := FailureResponse(err.value.Message());
          var ferr := resp.Send(m, t);
          if ferr.Some? {
            return Abort(ferr.value);
          }
        }
      }
      return Returned(err);
    }
  }

  /**
   * A request for local testing: `reqtype` must be Create, Update or Delete;
   * every other field is left at its zero value, apart from the simulation mark.
   */
  method SimulatedRequest(reqtype: string) returns (r: Result<Request, string>)
    ensures r.Ok? <==> reqtype in RequestTypes
    ensures r.Err? ==> r.error == "invalid simulated request type \"" + reqtype + "\"; must be \"Create\", \"Update\", or \"Delete\""
    ensures r.Ok? ==> fresh(r.value) && fresh(r.value.responseSent)
    ensures r.Ok? ==> var q := r.value;
      && q.requestType == reqtype && q.simulate
      && q.responseURL == "" && q.stackId == "" && q.requestId == "" && q.resourceType == ""
      && q.logicalResourceId == "" && q.resourceProperties == "" && q.physicalResourceId == ""
      && q.oldResourceProperties == "" && q.ctx == None
      && !q.responseSent.value && q.responseSent.calls == []
  {
    if reqtype != "Create" && reqtype != "Update" && reqtype != "Delete" {
      return Err("invalid simulated request type \"" + reqtype + "\"; must be \"Create\", \"Update\", or \"Delete\"");
    }
    var q := new Request(reqtype, "", "", "", "", "", "", "", "", None, true);
    return Ok(q);
  }
}
