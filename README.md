# CloudFormation custom resource handshake, modelled in Dafny

This project models the core of `cfn-custom-resource-go`. That library is the client side of the CloudFormation custom resource callback. For each Create, Update or Delete request, the handler must deliver exactly one reply: SUCCESS with attributes, or FAILED with a reason. The reply is an HTTP PUT to a callback URL.

The model has four modules:

- `Responses` (resp.go) covers the `Response` record and the `sent` pointer it shares with its request. That pointer is modelled as a `SentFlag` object, and both the request and every response made from it hold the same one. The module also covers `Sensitive`, which sets the advisory NoEcho mark, and `Send`. `Send` rejects bodies over 4096 bytes, accepts only status 200..298, and sets the flag only when delivery succeeds. Last, it covers the fields the JSON encoder writes (the `omitempty` selection and the field order) and a decoder that recovers the record from them.
- `Requests` (req.go, plus `baseResponse` from resp.go) covers the `Request` record and the five response factories. For each factory it models which request types allow it and the exact order of its checks. It also covers `RandomPhysicalId`, `SimulatedRequest` and `Try`. `Try` is the state machine that compares the handler's outcome with the sent flag. Its behaviour is given as a pure function, `TrySpec`, and the `Try` method is proved equal to it.
- `YamlBool` (yamlbool.go) covers the boolean token parser and the `UnmarshalText` method that writes through its receiver.
- `Wrappers` holds `Option` and `Result`.

Some things that are external in Go are modelled as inputs. The JSON encoder is a `Marshal` value: a failure, or the length of the encoded body. The HTTP transport is a `Transport` value: the request could not be built, the call failed, or the endpoint answered with a status code. A cancelled or expired context counts as a failed call. The random source is a sequence of 30 draws, each below 62. A handler is a `Handler` value: how it ended (returned nil, returned an error, panicked with an error, or panicked with another value) and whether it delivered a reply itself. Go panics become explicit values. A factory misuse becomes `Err(panic text)`. The panic `Try` raises when it cannot send its failure reply becomes `TryResult.Abort`.

Some behaviours of the code are easy to get wrong on a first reading. The model states each of them:

- **Nil return with nothing sent.** This case also gets a failure reply. `Try` sets `err` to "no response generated and no error received" at req.go:185-188, before the outer deferred function runs (req.go:156-166), and that function sends a failure reply with that reason. `TrySpec` and `TryNilUndelivered` state this.
- **Status 299.** 299 is a 2xx status, but the test `>= 299` at resp.go:142 rejects it. `SendOutcome` and `StatusBoundary` state this.
- **Misusing a factory inside a handler.** For example, calling `DeletedResponse` on an Update request. The factory panics, `Try`'s inner deferred function recovers the panic as "panic with value: …". If no reply has gone out yet, `Try` sends a failure reply and aborts only when that reply cannot be sent (`TryFailureUnsent`). Otherwise it sends nothing and returns the error wrapped as "received error but response already sent: …" (`TryFailureAlreadySent`).
- **YAML tokens.** Each of y/n, yes/no, true/false and on/off is accepted in only three spellings: lower case, Title case and UPPER case (yamlbool.go:14-17). So "yEs" is rejected.

## Model

| member | source | states |
|---|---|---|
| `YamlBool.Parse` | yamlbool.go:13-19 | Gives true exactly for y/yes/true/on, and false exactly for n/no/false/off, each in lower, Title or UPPER case. Every other token is an error. |
| `YamlBool.SpellingsAreTokens` | yamlbool.go:14-17 | The two 11-token case lists are exactly the three spellings of the four true words and of the four false words. |
| `YamlBool.TokensDisjoint` | yamlbool.go:14-17 | No token is in both lists. |
| `YamlBool.OtherTokensRejected` | yamlbool.go:18-19 | "yEs", "1" and "" reach the default branch. |
| `YamlBool.YAMLBool.UnmarshalText` | yamlbool.go:12-22 | Returns nil exactly when the token parses, and then stores the parsed value. On error the receiver is unchanged and the error names the input. |
| `Responses.SendOutcome` | resp.go:125-147 | Send succeeds exactly when encoding succeeds, the body is at most 4096 bytes and the status is in 200..298. A marshal failure and an oversized body are reported before the transport is used. Any other status is reported as an unexpected-status error. |
| `Responses.SizeBoundary` | resp.go:130-132 | A body of exactly 4096 bytes passes the size check, and a 4097-byte body fails whatever the transport would do. |
| `Responses.StatusBoundary` | resp.go:142-144 | Statuses 200 and 298 succeed. Statuses 299 and 199 fail. |
| `Responses.SerializeOrder` | resp.go:57-71 | The keys written follow the struct's order (Status, Reason, PhysicalResourceId, StackId, RequestId, LogicalResourceId, NoEcho, Data), with some optional ones left out. |
| `Responses.SerializeRequiredFields` | resp.go:57-63 | Status, PhysicalResourceId, StackId, RequestId and LogicalResourceId are always written, with the record's values. |
| `Responses.SerializeOptionalFields` | resp.go:57-71 | Reason is written only when non-empty, NoEcho only when true, and Data only when non-nil. |
| `Responses.SerializeRoundTrip` | resp.go:57-71 | Decoding the written members gives back every exported field, so leaving out the empty ones loses nothing. |
| `Responses.Response.constructor` | resp.go:80-89 | The struct literal of baseResponse: status SUCCESS, the given ids, callback URL, flag and context, with no reason, no NoEcho and no data. |
| `Responses.Response.Sensitive` | resp.go:110-113 | Returns the same object, sets NoEcho and changes no other field. A second call changes nothing. |
| `Responses.Response.Send` | resp.go:125-147 | The result is `SendOutcome`. The shared flag becomes true on success and keeps its value on every error. Each call records exactly one body on the flag. |
| `Requests.CreatedMisuse` | req.go:91-97 | CreatedResponse is legal exactly for a Create request with a non-empty id. The request type is checked first. |
| `Requests.ReplacedMisuse` | req.go:109-118 | ReplacedResponse is legal exactly for an Update request whose new id differs from the current one and is non-empty. The checks run in that order, each with its own panic text. |
| `Requests.ReplacedBothEmpty` | req.go:113-118 | When both ids are empty, the "same physicalid" check fires, not the "empty physicalid" one. |
| `Requests.UpdatedMisuse` | req.go:128-131 | UpdatedResponse is legal exactly for Update requests. |
| `Requests.DeletedMisuse` | req.go:139-142 | DeletedResponse is legal exactly for Delete requests. |
| `Requests.TrySpec` | req.go:153-190 | A normal return implies the flag is set. Try sends a failure only when nothing was sent before. The flag ends true exactly when it was already set, the handler delivered, or Try's own failure reply got through. Try returns nil exactly when the handler returned nil and a reply had gone out. Try aborts exactly when its failure reply fails, and it then carries that send error. |
| `Requests.TryNilDelivered` | req.go:181-189 | A nil return after a delivery gives nil, the flag stays set, and there is no further send. |
| `Requests.TryNilUndelivered` | req.go:153-190 | A nil return with nothing sent makes Try send a failure with reason "no response generated and no error received". Try then returns that error, or aborts if the send fails. |
| `Requests.TryFailureUnsent` | req.go:156-178 | An error or panic when nothing was sent makes Try send one failure whose reason is the error text. Panic texts are prefixed "panic with error: " or "panic with value: ". Try then returns the same error, or aborts if the send fails. |
| `Requests.TryFailureAlreadySent` | req.go:159-161 | An error or panic after a delivery causes no send. The error comes back wrapped as "received error but response already sent: …". |
| `Requests.Request.constructor` | req.go:13-38 | A decoded request holds the given fields with a fresh flag that is unset. |
| `Requests.Request.BaseResponse` | resp.go:73-90 | A nil context is replaced by Background, and any other context is kept. The new response copies StackId, RequestId, LogicalResourceId, PhysicalResourceId and the callback URL, and shares the request's flag and context. Its status is SUCCESS. |
| `Requests.Request.FailureResponse` | req.go:77-83 | Legal for every request type. The reply has status FAILED, the given reason, and the request's physical id and correlation ids. |
| `Requests.Request.CreatedResponse` | req.go:91-102 | Returns the panic text exactly when `CreatedMisuse` fires, leaving the context alone in that case. Otherwise the reply has status SUCCESS, the given id and the given data. |
| `Requests.Request.ReplacedResponse` | req.go:109-123 | Returns the panic text exactly when `ReplacedMisuse` fires. Otherwise the reply has status SUCCESS, the new id (different from the request's) and the given data. |
| `Requests.Request.UpdatedResponse` | req.go:128-135 | Legal only for Update requests. The reply has status SUCCESS, the request's physical id and the given data. |
| `Requests.Request.DeletedResponse` | req.go:139-144 | Legal only for Delete requests. The reply has status SUCCESS, the request's physical id and no data. |
| `Requests.Request.RandomPhysicalId` | req.go:64-71 | The result is the logical id, then "-", then 30 characters. Character k is the alphabet entry chosen by draw k, so the length is the logical id's length plus 31 and the id is determined by the draws. |
| `Requests.Request.Try` | req.go:153-190 | The result and the new flag are those of `TrySpec`. The flag records at most one new body: the failure reply, when Try sends one. The context is filled only when a reply was built. |
| `Requests.SimulatedRequest` | req.go:45-54 | Rejects every type other than Create, Update and Delete. Otherwise it returns a fresh request with that type and the simulation mark, every other field at its zero value and the flag unset. |

## Left out

- The JSON encoder (resp.go:126) is an input: a failure, or an encoded length. How long a particular body encodes to is not derived from its fields, and the opaque `attr` value is carried as its already-encoded text.
- The HTTP transport (resp.go:133-141) is an input: a build failure, a call failure or a status code. The `ContentLength` header and the request method are not modelled. Context deadlines and cancellation are part of the call-failure outcome.
- The texts of Send's errors, of Try's final panic and of `UnmarshalText`'s error (`cannot parse %q as YAML Bool`, yamlbool.go:19) are not modelled, nor their `%q` and `%03d` formatting. `SendError` keeps the URL, size, cause or status as structured fields, `Abort` carries that `SendError`, and `ParseError.CannotParse` carries the rejected input.
- `Requests.SimulatedRequest`: the panic text quotes the type with plain double quotes, without the Go escaping that `%q` applies to special characters.
- The `simulatedOutput` writer of a simulated request is not modelled, because Send never uses it (resp.go:125-147). The `simulate` mark is kept as a field that nothing reads.
- Stderr logging (req.go:78, 158) has no effect on the results and is not modelled.
- `Requests.Request.Try`: the handler is the `Handler` datatype, not code. A delivery by the handler is modelled only by its effects: the flag is set and the context is filled, since the delivered response came through baseResponse. That delivery is not added to the flag's record of bodies. Any other effect the handler has on the request's public fields is not modelled.
- `Requests.Request.Try`: a handler that calls `panic(nil)` is taken with the semantics of Go 1.21 and later, where `recover()` returns a `*runtime.PanicNilError`. The model counts it as `PanickedWithError`. Under the older semantics (`GODEBUG=panicnil=1`), `recover()` returns nil, Try returns nil without sending a reply, and the flag stays unset. The model does not capture that case, in which a normal return does not imply that the flag is set.
- A `Response` built by hand instead of by a factory, whose `sent` pointer may be nil, is not modelled. Every response carries a flag.
- Go's `[]byte` input to `UnmarshalText` is modelled as a string of characters. Every accepted token is ASCII.
- The example handlers `example-hello-resource/main.go` and `example-math-resource/main.go`, and their endless `main` loops, are not part of this model.
