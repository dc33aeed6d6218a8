/** The client's method-transport helper, frontend/src/lib/rpc.ts: one POST to
    `/api/rpc` carrying `{method, params}`, and the checks that turn the answer into the
    result or an `Error`. It calls `fetch` directly, without `request`. */
module RpcClient {
  import opened Wrappers
  import opened Json
  import opened ApiClient

  const RPC_PATH := "/api/rpc"
  const RPC_FAILED := "RPC call failed"
  const UNEXPECTED_SHAPE := "Unexpected RPC response shape"
  /** What reading `.message` of a null `error` throws. */
  const NULL_ERROR_READ := "Cannot read properties of null (reading 'message')"

  /** `JSON.stringify({ method, params })`: an undefined `params` is left out. */
  function RpcEnvelope(name: string, params: Option<Value>): (v: Value)
    ensures HasKey(v, "method") && v.fields["method"] == JStr(name)
    ensures "params" in v.fields <==> params.Some?
    ensures params.Some? ==> v.fields["params"] == params.value
    ensures v.fields.Keys <= {"method", "params"}
  {
    var base := map["method" := JStr(name)];
    JObj(if params.Some? then base["params" := params.value] else base)
  }

  /** The arguments of the `fetch` call. No `credentials` field is given, so the
      browser's default applies (cookies only to the same origin). */
  function RpcOutgoing(name: string, params: Option<Value>): (o: Outgoing)
    ensures o.url == RPC_PATH
    ensures o.init == Some(VerbWithJson("POST", RpcEnvelope(name, params)))
    ensures o.init.value.credentials.None?
  {
    Outgoing(RPC_PATH, Some(VerbWithJson("POST", RpcEnvelope(name, params))))
  }

  /** `json.error.message || "RPC call failed"` as the message of the `Error` thrown.
      A null `error` makes the property read itself throw; a non-object `error` has no
      `message`. */
  function ErrorMessage(error: Value): (m: string)
    ensures error.JNull? ==> m == NULL_ERROR_READ
    ensures !error.JNull? && !(HasKey(error, "message") && Truthy(error.fields["message"])) ==> m == RPC_FAILED
    ensures HasKey(error, "message") && Truthy(error.fields["message"]) ==> m == JsString(error.fields["message"])
  {
    if error.JNull? then NULL_ERROR_READ
    else if HasKey(error, "message") && Truthy(error.fields["message"]) then JsString(error.fields["message"])
    else RPC_FAILED
  }

  /** `rpc` after `fetch` settles. A non-2xx status throws an `Error` with the body text
      (or the status text); otherwise the body must be JSON; an `error` key wins over a
      `data` key; a body with neither throws. There is no 204 case: an empty body fails
      to parse. Every failure is an `Error` instance. */
  function RpcResult(fetched: Fetched): (o: Outcome)
    ensures o != NoContent
    ensures o.Failed? ==> o.thrown.JsError?
    ensures fetched.NetworkFailure? ==> o == Failed(JsError(fetched.message))
    ensures fetched.Responded? && !IsOk(fetched.res.status) ==> o == Failed(JsError(FailureText(fetched.res)))
    ensures fetched.Responded? && IsOk(fetched.res.status) ==>
      match fetched.res.json
      case Malformed(m) => o == Failed(JsError(m))
      case Parsed(v) =>
        if HasKey(v, "error") then o == Failed(JsError(ErrorMessage(v.fields["error"])))
        else if HasKey(v, "data") then o == Returned(v.fields["data"])
        else o == Failed(JsError(UNEXPECTED_SHAPE))
    ensures o.Returned? <==>
      fetched.Responded? && IsOk(fetched.res.status) && fetched.res.json.Parsed?
      && !HasKey(fetched.res.json.v, "error") && HasKey(fetched.res.json.v, "data")
  {
    match fetched
    case NetworkFailure(m) => Failed(JsError(m))
    case Responded(res) =>
      if !IsOk(res.status) then Failed(JsError(FailureText(res)))
      else
        match res.json
        case Malformed(m) => Failed(JsError(m))
        case Parsed(v) =>
          if HasKey(v, "error") then Failed(JsError(ErrorMessage(v.fields["error"])))
          else if HasKey(v, "data") then Returned(v.fields["data"])
          else Failed(JsError(UNEXPECTED_SHAPE))
  }

  /** Both helpers unwrap the `{data}` envelope of a 2xx answer the same way; they part
      on failures (an `Error` here, a plain `{status, message}` object there) and on
      bodies without `data` (thrown here, passed through there). */
  lemma HelpersAgreeOnEnvelopes(res: Response)
    requires IsOk(res.status) && res.status != 204 && res.json.Parsed?
    requires HasKey(res.json.v, "data") && !HasKey(res.json.v, "error")
    ensures RpcResult(Responded(res)) == Request(Responded(res)) == Returned(res.json.v.fields["data"])
  {
  }
}
