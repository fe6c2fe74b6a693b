/**
 Calls to the control plane (containers/agent/src/control_rpc.rs): what a reply
 is classified as, and when the same request is sent again.
 */
module ControlRpc {
  import opened Wrappers
  import opened Conversation

  const MAX_ATTEMPTS: nat := 3

  /** A response body: its text and, when it is valid JSON, the value. */
  datatype Body = Body(text: string, json: Option<Value>)

  /** What comes back for one request. Only `Response` is read to its end. */
  datatype Reply =
    | SendFailed
    | Unreadable(status: nat)
    | Response(status: nat, body: Body)

  datatype ErrorKind = LeaseLost | Conflict | NotFound | Network | ResponseAmbiguous | Other

  datatype RpcError = RpcError(kind: ErrorKind, status: Option<nat>)

  predicate IsSuccess(status: nat) {
    200 <= status < 300
  }

  /** Server errors, request timeout and too many requests. */
  predicate IsTransient(status: nat) {
    500 <= status < 600 || status == 408 || status == 429
  }

  predicate Contains(s: string, part: string) {
    exists i | 0 <= i <= |s| - |part| :: part <= s[i..]
  }

  function AsciiLower(s: string): string {
    seq(|s|, i requires 0 <= i < |s| => if 'A' <= s[i] <= 'Z' then s[i] - 'A' + 'a' else s[i])
  }

  /** The structured signal, or the older wording anywhere in the body. */
  predicate SaysLeaseLost(body: Body) {
    || (&& body.json.Some? && body.json.value.Object? && "error" in body.json.value.fields
        && body.json.value.fields["error"].String?
        && AsciiLower(body.json.value.fields["error"].s) in {"lease_lost", "lease-lost"})
    || Contains(body.text, "Lease lost") || Contains(body.text, "lease_lost")
  }

  function KindOfResponse(status: nat, body: Body): ErrorKind {
    if status == 409 then (if SaysLeaseLost(body) then LeaseLost else Conflict)
    else if status == 404 then NotFound
    else Other
  }

  /** The reply as the caller sees it, for a result type any JSON value decodes into. */
  function Decode(reply: Reply): Result<Value, RpcError> {
    match reply
    case SendFailed => Err(RpcError(Network, None))
    case Unreadable(status) => Err(RpcError(if IsSuccess(status) then ResponseAmbiguous else Network, Some(status)))
    case Response(status, body) =>
      if !IsSuccess(status) then Err(RpcError(KindOfResponse(status, body), Some(status)))
      else if body.json.None? then Err(RpcError(ResponseAmbiguous, Some(status)))
      else Ok(body.json.value)
  }

  predicate IsRetryable(error: RpcError) {
    match error.kind
    case Network => error.status.None? || IsTransient(error.status.value)
    case ResponseAmbiguous => true
    case Other => error.status.Some? && IsTransient(error.status.value)
    case _ => false
  }

  predicate IsAuthorityLost(error: RpcError) {
    error.kind == LeaseLost || (error.status.Some? && error.status.value in {401, 403, 404})
  }

  predicate Retries<T>(result: Result<T, RpcError>) {
    result.Err? && IsRetryable(result.error)
  }

  // ----- What the classification means for a reply -----

  /** The server refused the credential of this run. */
  predicate Refuses(reply: Reply) {
    || (reply.Response? && reply.status == 409 && SaysLeaseLost(reply.body))
    || (!reply.SendFailed? && reply.status in {401, 403, 404})
  }

  lemma {:induction false} AuthorityLostIff(reply: Reply)
    ensures Decode(reply).Err? && IsAuthorityLost(Decode(reply).error) <==> Refuses(reply)
  {
  }

  /** A request is sent again exactly when the server may have acted without
      saying so, or says that it is busy or broken: no response, a response that
      is cut off or cannot be read, or a transient status that is no conflict. */
  lemma {:induction false} RetriedIff(reply: Reply)
    ensures Retries(Decode(reply)) <==>
            match reply
            case SendFailed => true
            case Unreadable(status) => 200 <= status < 300 || 500 <= status < 600 || status == 408 || status == 429
            case Response(status, body) =>
              if 200 <= status < 300 then body.json.None?
              else 500 <= status < 600 || status == 408 || status == 429
  {
  }

  /** No request is repeated after the server has refused the run's credential. */
  lemma {:induction false} RefusalEndsRetries(reply: Reply)
    requires Refuses(reply)
    ensures !Retries(Decode(reply))
  {
  }

  // ----- Bounded repetition -----

  function Copies<T>(item: T, n: nat): (s: seq<T>)
    ensures |s| == n && forall i | 0 <= i < n :: s[i] == item
  {
    seq(n, i => item)
  }

  /** `results` are the answers to one request sent under the retry rule: each
      but the last is retryable, and the last one is final or the third. */
  predicate RetryRun<T>(results: seq<Result<T, RpcError>>) {
    && 1 <= |results| <= MAX_ATTEMPTS
    && (forall i | 0 <= i < |results| - 1 :: Retries(results[i]))
    && (Retries(results[|results| - 1]) ==> |results| == MAX_ATTEMPTS)
  }
}
