/**
 * The reply to a custom resource request and its delivery (resp.go): the
 * record sent back to the orchestrator, the fields of its wire form, the
 * advisory masking flag and the one-shot delivery that sets the request's
 * "response sent" flag.
 */
module Responses {
  import opened Wrappers

  /** Largest encoded body, in bytes, that Send lets onto the wire. */
  const MaxBodyBytes: nat := 4096

  /** A non-nil context.Context: the Background one, or one the host supplied. */
  datatype Context = Background | Supplied(id: nat)

  /**
   * The opaque `attr` value a handler attaches; `encoded` stands for the JSON
   * the encoder writes for it.
   */
  datatype Attributes = Attributes(encoded: string)

  /** What json.Marshal did with the Response: failed, or produced a body of `length` bytes. */
  datatype Marshal = MarshalFailed(cause: string) | Marshalled(length: nat)

  /**
   * What building and performing the HTTP PUT did: the request object could
   * not be built, the call failed (including a cancelled or expired context),
   * or the endpoint answered with a status code.
   */
  datatype Transport = BuildFailed(cause: string) | DoFailed(cause: string) | Answered(statusCode: int)

  /** The five ways Send reports failure, in the order it checks them. */
  datatype SendError =
    | CannotMarshal(cause: string)
    | PayloadTooLarge(url: string, size: nat)
    | CannotBuildRequest(url: string, cause: string)
    | CallbackFailed(url: string, cause: string)
    | UnexpectedStatus(url: string, statusCode: int)

  /**
   * The error Send returns (None for success) when the callback URL is `url`,
   * the encoder produced `m` and the transport produced `t`. Success needs a
   * body of at most 4096 bytes and a status in 200..298: status 299 fails.
   * An oversized body fails before the transport is consulted.
   */
  function SendOutcome(url: string, m: Marshal, t: Transport): (r: Option<SendError>)
    ensures r == None <==>
      m.Marshalled? && m.length <= MaxBodyBytes && t.Answered? && 200 <= t.statusCode <= 298
    ensures m.MarshalFailed? ==> r == Some(CannotMarshal(m.cause))
    ensures m.Marshalled? && m.length > MaxBodyBytes ==> r == Some(PayloadTooLarge(url, m.length))
    ensures m.Marshalled? && m.length <= MaxBodyBytes && t.Answered? && !(200 <= t.statusCode <= 298) ==>
      r == Some(UnexpectedStatus(url, t.statusCode))
    ensures m.Marshalled? && m.length <= MaxBodyBytes && t.BuildFailed? ==> r == Some(CannotBuildRequest(url, t.cause))
    ensures m.Marshalled? && m.length <= MaxBodyBytes && t.DoFailed? ==> r == Some(CallbackFailed(url, t.cause))
  {
    match m
    case MarshalFailed(cause) => Some(CannotMarshal(cause))
    case Marshalled(length) =>
      if length > MaxBodyBytes then Some(PayloadTooLarge(url, length))
      else
        match t
        case BuildFailed(cause) => Some(CannotBuildRequest(url, cause))
        case DoFailed(cause) => Some(CallbackFailed(url, cause))
        case Answered(code) =>
          if code < 200 || code >= 299 then Some(UnexpectedStatus(url, code)) else None
  }

  /** A body of exactly 4096 bytes passes the size check; one byte more does not. */
  lemma SizeBoundary(url: string, t: Transport)
    ensures SendOutcome(url, Marshalled(MaxBodyBytes), t) == SendOutcome(url, Marshalled(0), t)
    ensures SendOutcome(url, Marshalled(MaxBodyBytes + 1), t) == Some(PayloadTooLarge(url, MaxBodyBytes + 1))
  {
  }

  /** Statuses 200 and 298 are accepted; 299 and 199 fail like any other status outside 200..298. */
  lemma StatusBoundary(url: string, n: nat)
    requires n <= MaxBodyBytes
    ensures SendOutcome(url, Marshalled(n), Answered(200)) == None
    ensures SendOutcome(url, Marshalled(n), Answered(298)) == None
    ensures SendOutcome(url, Marshalled(n), Answered(299)) == Some(UnexpectedStatus(url, 299))
    ensures SendOutcome(url, Marshalled(n), Answered(199)) == Some(UnexpectedStatus(url, 199))
  {
  }

  // ---------------------------------------------------------------------
  // Wire form

  /** The exported fields of a Response: what the JSON encoder looks at. */
  datatype Body = Body(
    status: string,
    reason: string,
    physicalResourceId: string,
    stackId: string,
    requestId: string,
    logicalResourceId: string,
    noEcho: bool,
    data: Option<Attributes>)

  /** A JSON member value: a string, a boolean, or the opaque attributes. */
  datatype Json = JString(s: string) | JBool(b: bool) | JData(a: Attributes)

  /**
   * The exported fields of Response, the only keys the encoder can write:
   * Ctx (tagged `json:"-"`), the callback URL and the sent flag are not among them.
   */
  datatype Field = Status | Reason | PhysicalResourceId | StackId | RequestId | LogicalResourceId | NoEcho | Data

  /** The JSON key written for a field: its Go name. */
  function Name(f: Field): string {
    match f
    case Status => "Status"
    case Reason => "Reason"
    case PhysicalResourceId => "PhysicalResourceId"
    case StackId => "StackId"
    case RequestId => "RequestId"
    case LogicalResourceId => "LogicalResourceId"
    case NoEcho => "NoEcho"
    case Data => "Data"
  }

  /** One `"key": value` member of the encoded object. */
  datatype Member = Member(key: Field, value: Json)

  /** The fields in the order the struct declares them, which is the order the encoder writes them. */
  const FieldOrder: seq<Field> :=
    [Status, Reason, PhysicalResourceId, StackId, RequestId, LogicalResourceId, NoEcho, Data]

  /** The keys of an encoded object, in order. */
  function Keys(ms: seq<Member>): (ks: seq<Field>)
    ensures |ks| == |ms| && forall i :: 0 <= i < |ms| ==> ks[i] == ms[i].key
  {
    if ms == [] then [] else [ms[0].key] + Keys(ms[1..])
  }

  /** The value of the first member called `key`, if any. */
  function Lookup(ms: seq<Member>, key: Field): (v: Option<Json>)
    ensures v.None? <==> key !in Keys(ms)
  {
    if ms == [] then None
    else if ms[0].key == key then Some(ms[0].value)
    else Lookup(ms[1..], key)
  }

  /** `ks` is `order` with some entries dropped: the kept ones stay in order. */
  predicate Subsequence<T(==)>(ks: seq<T>, order: seq<T>)
    decreases |order|
  {
    if ks == [] then true
    else if order == [] then false
    else (ks[0] == order[0] && Subsequence(ks[1..], order[1..])) || Subsequence(ks, order[1..])
  }

  /**
   * Every member the encoder considers, in struct order, each paired with
   * whether it is written: Reason is dropped when empty, NoEcho when false and
   * Data when nil (Go's `omitempty`); the other five are always written.
   */
  function Candidates(b: Body): seq<(bool, Member)> {
    [(true, Member(Status, JString(b.status))),
     (b.reason != "", Member(Reason, JString(b.reason))),
     (true, Member(PhysicalResourceId, JString(b.physicalResourceId))),
     (true, Member(StackId, JString(b.stackId))),
     (true, Member(RequestId, JString(b.requestId))),
     (true, Member(LogicalResourceId, JString(b.logicalResourceId))),
     (b.noEcho, Member(NoEcho, JBool(true))),
     (b.data.Some?, Member(Data, JData(if b.data.Some? then b.data.value else Attributes(""))))]
  }

  /** The members of `cs` that are written, in order. */
  function Emit(cs: seq<(bool, Member)>): seq<Member> {
    if cs == [] then []
    else (if cs[0].0 then [cs[0].1] else []) + Emit(cs[1..])
  }

  /** The members json.Marshal writes for a Response. */
  function Serialize(b: Body): seq<Member> {
    Emit(Candidates(b))
  }

  /** The string in a member value, or "" for a missing one (what decoding leaves in a Go string). */
  function StringOr(v: Option<Json>): string {
    if v.Some? && v.value.JString? then v.value.s else ""
  }

  /**
   * Reading an encoded Response back the way encoding/json does: a missing
   * member leaves the field at its zero value.
   */
  function Deserialize(ms: seq<Member>): Body {
    var noEcho := Lookup(ms, NoEcho);
    var data := Lookup(ms, Data);
    Body(
      StringOr(Lookup(ms, Status)),
      StringOr(Lookup(ms, Reason)),
      StringOr(Lookup(ms, PhysicalResourceId)),
      StringOr(Lookup(ms, StackId)),
      StringOr(Lookup(ms, RequestId)),
      StringOr(Lookup(ms, LogicalResourceId)),
      noEcho.Some? && noEcho.value.JBool? && noEcho.value.b,
      if data.Some? && data.value.JData? then Some(data.value.a) else None)
  }

  /** The keys of all candidates, written or not. */
  function CandidateKeys(cs: seq<(bool, Member)>): (ks: seq<Field>)
    ensures |ks| == |cs| && forall i :: 0 <= i < |cs| ==> ks[i] == cs[i].1.key
  {
    if cs == [] then [] else [cs[0].1.key] + CandidateKeys(cs[1..])
  }

  /** The written keys are the candidates' keys with some dropped, order kept. */
  lemma {:induction false} EmitOrder(cs: seq<(bool, Member)>)
    ensures Subsequence(Keys(Emit(cs)), CandidateKeys(cs))
  {
    if cs != [] {
      EmitOrder(cs[1..]);
      var rest := Emit(cs[1..]);
      if cs[0].0 {
        assert Emit(cs) == [cs[0].1] + rest;
        assert Keys(Emit(cs))[1..] == Keys(rest);
      } else {
        assert Emit(cs) == rest;
      }
    }
  }

  /**
   * The lookup of a key that only candidate `i` carries finds that
   * candidate's value exactly when it is written.
   */
  lemma {:induction false} EmitLookup(cs: seq<(bool, Member)>, i: nat, key: Field)
    requires i < |cs| && cs[i].1.key == key
    requires forall j :: 0 <= j < |cs| && j != i ==> cs[j].1.key != key
    ensures Lookup(Emit(cs), key) == if cs[i].0 then Some(cs[i].1.value) else None
  {
    var rest := Emit(cs[1..]);
    if i == 0 {
      if !cs[0].0 {
        assert Emit(cs) == rest;
        EmitMissing(cs[1..], key);
      }
    } else {
      EmitLookup(cs[1..], i - 1, key);
      if cs[0].0 {
        assert Emit(cs) == [cs[0].1] + rest;
        assert (Emit(cs))[1..] == rest;
      } else {
        assert Emit(cs) == rest;
      }
    }
  }

  /** A key no candidate carries is never written. */
  lemma {:induction false} EmitMissing(cs: seq<(bool, Member)>, key: Field)
    requires forall j :: 0 <= j < |cs| ==> cs[j].1.key != key
    ensures Lookup(Emit(cs), key) == None
  {
    if cs != [] {
      EmitMissing(cs[1..], key);
      if cs[0].0 {
        assert Emit(cs)[1..] == Emit(cs[1..]);
      }
    }
  }

  /**
   * The emitted keys keep the struct's field order, whichever optional ones
   * are dropped.
   */
  lemma SerializeOrder(b: Body)
    ensures Subsequence(Keys(Serialize(b)), FieldOrder)
  {
    EmitOrder(Candidates(b));
    assert CandidateKeys(Candidates(b)) == FieldOrder;
  }

  /** The value written for `key` by candidate `c` at index `i`, the only candidate with that key. */
  lemma SerializeAt(b: Body, i: nat, c: (bool, Member))
    requires i < |FieldOrder| && Candidates(b)[i] == c && c.1.key == FieldOrder[i]
    ensures Lookup(Serialize(b), c.1.key) == if c.0 then Some(c.1.value) else None
  {
    var cs := Candidates(b);
    assert forall j :: 0 <= j < |cs| ==> cs[j].1.key == FieldOrder[j];
    EmitLookup(cs, i, c.1.key);
  }

  /** The five members that are always written hold the request's identifiers and the status. */
  lemma SerializeRequiredFields(b: Body)
    ensures Lookup(Serialize(b), Status) == Some(JString(b.status))
    ensures Lookup(Serialize(b), PhysicalResourceId) == Some(JString(b.physicalResourceId))
    ensures Lookup(Serialize(b), StackId) == Some(JString(b.stackId))
    ensures Lookup(Serialize(b), RequestId) == Some(JString(b.requestId))
    ensures Lookup(Serialize(b), LogicalResourceId) == Some(JString(b.logicalResourceId))
  {
    SerializeAt(b, 0, (true, Member(Status, JString(b.status))));
    SerializeAt(b, 2, (true, Member(PhysicalResourceId, JString(b.physicalResourceId))));
    SerializeAt(b, 3, (true, Member(StackId, JString(b.stackId))));
    SerializeAt(b, 4, (true, Member(RequestId, JString(b.requestId))));
    SerializeAt(b, 5, (true, Member(LogicalResourceId, JString(b.logicalResourceId))));
  }

  /** Reason is written only when non-empty, NoEcho only when true, Data only when non-nil. */
  lemma SerializeOptionalFields(b: Body)
    ensures Lookup(Serialize(b), Reason) == if b.reason == "" then None else Some(JString(b.reason))
    ensures Lookup(Serialize(b), NoEcho) == if b.noEcho then Some(JBool(true)) else None
    ensures Lookup(Serialize(b), Data) == if b.data.None? then None else Some(JData(b.data.value))
  {
    SerializeAt(b, 1, (b.reason != "", Member(Reason, JString(b.reason))));
    SerializeAt(b, 6, (b.noEcho, Member(NoEcho, JBool(true))));
    SerializeAt(b, 7, (b.data.Some?, Member(Data, JData(if b.data.Some? then b.data.value else Attributes("")))));
  }

  /** Decoding the encoded members gives back every exported field: omitting the empty ones loses nothing. */
  lemma SerializeRoundTrip(b: Body)
    ensures Deserialize(Serialize(b)) == b
  {
    SerializeRequiredFields(b);
    SerializeOptionalFields(b);
  }

  // ---------------------------------------------------------------------
  // The response object and its delivery

  /**
   * The request's "response sent" flag, which a Response reaches through a
   * pointer. `calls` records, for the proofs, the body of every Response.Send
   * made through this flag, successful or not.
   */
  class SentFlag {
    var value: bool
    ghost var calls: seq<Body>

    constructor ()
      ensures !value && calls == []
    {
      value := false;
      calls := [];
    }
  }

  /**
   * A reply to one request. `respurl` and `sent` are copied from the request
   * when the response is made and never change; `sent` is shared with the
   * request, so a successful Send is seen by the request.
   */
  class Response {
    var status: string
    var reason: string
    var physicalResourceId: string
    var stackId: string
    var requestId: string
    var logicalResourceId: string
    var noEcho: bool
    var data: Option<Attributes>
    var ctx: Option<Context>
    const respurl: string
    const sent: SentFlag

    /** The struct literal of baseResponse: status SUCCESS, nothing optional set. */
    constructor (physicalResourceId: string, stackId: string, requestId: string, logicalResourceId: string,
                 respurl: string, sent: SentFlag, ctx: Option<Context>)
      ensures this.status == "SUCCESS" && this.reason == ""
      ensures this.physicalResourceId == physicalResourceId && this.stackId == stackId
      ensures this.requestId == requestId && this.logicalResourceId == logicalResourceId
      ensures !this.noEcho && this.data == None
      ensures this.respurl == respurl && this.sent == sent && this.ctx == ctx
    {
      this.status := "SUCCESS";
      this.reason := "";
      this.physicalResourceId := physicalResourceId;
      this.stackId := stackId;
      this.requestId := requestId;
      this.logicalResourceId := logicalResourceId;
      this.noEcho := false;
      this.data := None;
      this.respurl := respurl;
      this.sent := sent;
      this.ctx := ctx;
    }

    /** The exported fields, the part of the response the encoder sees. */
    function Exported(): Body
      reads this
    {
      Body(status, reason, physicalResourceId, stackId, requestId, logicalResourceId, noEcho, data)
    }

    /**
     * Marks the response as one whose values should be masked in console
     * output, and returns the same object for chaining. A second call changes
     * nothing.
     */
    method Sensitive() returns (r: Response)
      modifies this
      ensures r == this
      ensures Exported() == old(Exported()).(noEcho := true)
      ensures ctx == old(ctx)
      ensures old(noEcho) ==> unchanged(this)
    {
      noEcho := true;
      return this;
    }

    /**
     * Delivers the response. `m` is what the encoder produced for Exported() and
     * `t` what the HTTP PUT to `respurl` produced (the transport is only
     * reached when the body fits). The shared flag is set when, and only when,
     * delivery succeeds; on every error it keeps its value.
     */
    method Send(m: Marshal, t: Transport) returns (err: Option<SendError>)
      modifies sent
      ensures err == SendOutcome(respurl, m, t)
      ensures sent.value == (old(sent.value) || err == None)
      ensures sent.calls == old(sent.calls) + [Exported()]
    {
      sent.calls := sent.calls + [Exported()];
      if m.MarshalFailed? {
        return Some(CannotMarshal(m.cause));
      }
      if m.length > MaxBodyBytes {
        return Some(PayloadTooLarge(respurl, m.length));
      }
      if t.BuildFailed? {
        return Some(CannotBuildRequest(respurl, t.cause));
      }
      if t.DoFailed? {
        return Some(CallbackFailed(respurl, t.cause));
      }
      if t.statusCode < 200 || t.statusCode >= 299 {
        return Some(UnexpectedStatus(respurl, t.statusCode));
      }
      sent.value := true;
      return None;
    }
  }
}
