/** The client's HTTP helper, frontend/src/lib/api.ts: the request options it sends,
    the verb and path of each call, and the decision chain that turns a response into a
    value or a thrown error. `fetch` itself is foreign: its result is an input here. */
module ApiClient {
  import opened Wrappers
  import opened Json
  import opened Text

  /** An expense as the client types it. */
  datatype Expense = Expense(id: int, title: string, amount: int, fileUrl: Option<string>)

  /** What the client code can throw: an `Error` instance (including the `TypeError` of a
      failed `fetch` and the `SyntaxError` of a body that is not JSON), the plain
      `{status, message}` object `request` throws, or any other value. */
  datatype Thrown = JsError(message: string) | HttpError(status: int, message: string) | OtherValue

  /** `(err instanceof Error && err.message) || fallback`: the message of an `Error`
      when it has one, otherwise the caller's own text. */
  function MessageOr(t: Thrown, fallback: string): (m: string)
    ensures t.JsError? && t.message != "" ==> m == t.message
    ensures !(t.JsError? && t.message != "") ==> m == fallback
    ensures fallback != "" ==> m != ""
  {
    if t.JsError? && t.message != "" then t.message else fallback
  }

  /** A request body: JSON text (`JSON.stringify(v)`) or the bytes of a selected file. */
  datatype Body = JsonText(v: Value) | FileBytes(name: string, mime: string)

  /** The `RequestInit` fields the client uses; None is an absent field. */
  datatype Init = Init(
    verb: Option<string>,
    headers: Option<map<string, string>>,
    body: Option<Body>,
    credentials: Option<string>)

  const NO_FIELDS := Init(None, None, None, None)

  /** `{ ...base, ...over }`: every field present in `over` replaces the one in `base`. */
  function Spread(base: Init, over: Init): (r: Init)
    ensures r.verb == (if over.verb.Some? then over.verb else base.verb)
    ensures r.headers == (if over.headers.Some? then over.headers else base.headers)
    ensures r.body == (if over.body.Some? then over.body else base.body)
    ensures r.credentials == (if over.credentials.Some? then over.credentials else base.credentials)
  {
    Init(
      if over.verb.Some? then over.verb else base.verb,
      if over.headers.Some? then over.headers else base.headers,
      if over.body.Some? then over.body else base.body,
      if over.credentials.Some? then over.credentials else base.credentials)
  }

  /** `finalInit = { credentials: "include", ...init }`. */
  function FinalInit(init: Option<Init>): (r: Init)
    ensures init.None? ==> r == Init(None, None, None, Some("include"))
    ensures init.Some? ==> r.verb == init.value.verb && r.headers == init.value.headers && r.body == init.value.body
    ensures r.credentials == Some(if init.Some? && init.value.credentials.Some? then init.value.credentials.value else "include")
  {
    var base := NO_FIELDS.(credentials := Some("include"));
    if init.Some? then Spread(base, init.value) else base
  }

  const JSON_HEADERS := map["Content-Type" := "application/json"]

  /** `json(b)`: a JSON content type and the serialised `b`. */
  function JsonInit(b: Value): (r: Init)
    ensures r.headers == Some(JSON_HEADERS) && r.body == Some(JsonText(b))
    ensures r.verb.None? && r.credentials.None?
  {
    NO_FIELDS.(headers := Some(JSON_HEADERS), body := Some(JsonText(b)))
  }

  /** `{ method: verb, ...json(b) }` */
  function VerbWithJson(verb: string, b: Value): (r: Init)
    ensures r == Init(Some(verb), Some(JSON_HEADERS), Some(JsonText(b)), None)
  {
    Spread(NO_FIELDS.(verb := Some(verb)), JsonInit(b))
  }

  /** Body of `createExpense`. */
  datatype CreatePayload = CreatePayload(title: string, amount: int, fileKey: Option<string>)
  /** Body of `updateExpense`; None is an absent key, Some(None) an explicit null. */
  datatype UpdatePayload = UpdatePayload(
    title: Option<string>,
    amount: Option<int>,
    fileKey: Option<Option<string>>,
    fileUrl: Option<Option<string>>)

  function NullableJson(v: Option<string>): Value {
    if v.Some? then JStr(v.value) else JNull
  }

  /** The object `JSON.stringify` serialises for a create payload (an undefined key is left out). */
  function CreateJson(p: CreatePayload): (v: Value)
    ensures HasKey(v, "title") && v.fields["title"] == JStr(p.title)
    ensures HasKey(v, "amount") && v.fields["amount"] == JInt(p.amount)
    ensures ("fileKey" in v.fields <==> p.fileKey.Some?) && v.fields.Keys <= {"title", "amount", "fileKey"}
    ensures p.fileKey.Some? ==> v.fields["fileKey"] == JStr(p.fileKey.value)
  {
    var base := map["title" := JStr(p.title), "amount" := JInt(p.amount)];
    JObj(if p.fileKey.Some? then base["fileKey" := JStr(p.fileKey.value)] else base)
  }

  /** The object serialised for an update payload: present keys only. */
  function UpdateJson(p: UpdatePayload): (v: Value)
    ensures v.JObj? && v.fields.Keys <= {"title", "amount", "fileKey", "fileUrl"}
    ensures ("title" in v.fields <==> p.title.Some?) && (p.title.Some? ==> v.fields["title"] == JStr(p.title.value))
    ensures ("amount" in v.fields <==> p.amount.Some?) && (p.amount.Some? ==> v.fields["amount"] == JInt(p.amount.value))
    ensures ("fileKey" in v.fields <==> p.fileKey.Some?) && (p.fileKey.Some? ==> v.fields["fileKey"] == NullableJson(p.fileKey.value))
    ensures ("fileUrl" in v.fields <==> p.fileUrl.Some?) && (p.fileUrl.Some? ==> v.fields["fileUrl"] == NullableJson(p.fileUrl.value))
  {
    var m0: map<string, Value> := map[];
    var m1 := if p.title.Some? then m0["title" := JStr(p.title.value)] else m0;
    var m2 := if p.amount.Some? then m1["amount" := JInt(p.amount.value)] else m1;
    var m3 := if p.fileKey.Some? then m2["fileKey" := NullableJson(p.fileKey.value)] else m2;
    var m4 := if p.fileUrl.Some? then m3["fileUrl" := NullableJson(p.fileUrl.value)] else m3;
    JObj(m4)
  }

  /** The calls of the `api` object. */
  datatype Call =
    | GetExpenses
    | GetExpense(id: int)
    | CreateExpense(create: CreatePayload)
    | UpdateExpense(id: int, update: UpdatePayload)
    | DeleteExpense(id: int)
    | SignUpload(filename: string, contentType: string)

  /** The arguments `request(input, init)` is called with. */
  datatype Outgoing = Outgoing(url: string, init: Option<Init>)

  const EXPENSES_PATH := "/api/expenses"

  /** `/api/expenses/${id}` */
  function ExpensePath(id: int): (p: string)
    ensures StartsWith(p, EXPENSES_PATH + "/")
    ensures p[|EXPENSES_PATH| + 1..] == Decimal(id)
  {
    EXPENSES_PATH + "/" + Decimal(id)
  }

  /** Distinct ids address distinct resources. */
  lemma ExpensePathInjective(a: int, b: int)
    ensures ExpensePath(a) == ExpensePath(b) <==> a == b
  {
    if ExpensePath(a) == ExpensePath(b) {
      DecimalInjective(a, b);
    }
  }

  /** The verb, path and body of each call. */
  function Route(call: Call): (o: Outgoing)
    ensures call.GetExpenses? ==> o == Outgoing(EXPENSES_PATH, None)
    ensures call.GetExpense? ==> o == Outgoing(ExpensePath(call.id), None)
    ensures call.CreateExpense? ==> o.url == EXPENSES_PATH && o.init == Some(VerbWithJson("POST", CreateJson(call.create)))
    ensures call.UpdateExpense? ==> o.url == ExpensePath(call.id) && o.init == Some(VerbWithJson("PATCH", UpdateJson(call.update)))
    ensures call.DeleteExpense? ==> o == Outgoing(ExpensePath(call.id), Some(NO_FIELDS.(verb := Some("DELETE"))))
    ensures call.SignUpload? ==>
      && o.url == "/api/upload/sign"
      && o.init == Some(VerbWithJson("POST", JObj(map["filename" := JStr(call.filename), "type" := JStr(call.contentType)])))
  {
    match call
    case GetExpenses => Outgoing(EXPENSES_PATH, None)
    case GetExpense(id) => Outgoing(ExpensePath(id), None)
    case CreateExpense(p) => Outgoing(EXPENSES_PATH, Some(VerbWithJson("POST", CreateJson(p))))
    case UpdateExpense(id, p) => Outgoing(ExpensePath(id), Some(VerbWithJson("PATCH", UpdateJson(p))))
    case DeleteExpense(id) => Outgoing(ExpensePath(id), Some(NO_FIELDS.(verb := Some("DELETE"))))
    case SignUpload(name, t) =>
      Outgoing("/api/upload/sign", Some(VerbWithJson("POST", JObj(map["filename" := JStr(name), "type" := JStr(t)]))))
  }

  /** Every call through `request` goes out with the session cookie unless the call
      itself says otherwise, and none of the calls does. */
  lemma CallsIncludeCredentials(call: Call)
    ensures FinalInit(Route(call).init).credentials == Some("include")
  {
  }

  /** A received response. `text` is None when reading the body fails; `json` is what
      `res.json()` gives: the parsed value or the message of the `SyntaxError` it throws. */
  datatype Response = Response(status: int, statusText: string, text: Option<string>, json: ParsedBody)
  datatype ParsedBody = Parsed(v: Value) | Malformed(message: string)

  /** The settlement of `fetch`: a response, or a rejection with a `TypeError`. */
  datatype Fetched = Responded(res: Response) | NetworkFailure(message: string)

  /** `res.ok`: a status in the 2xx class. */
  function IsOk(status: int): (ok: bool)
    ensures ok <==> status / 100 == 2
  {
    200 <= status <= 299
  }

  /** `text || res.statusText`, where a failed read counts as "". */
  function FailureText(res: Response): (m: string)
    ensures res.text.Some? && res.text.value != "" ==> m == res.text.value
    ensures res.text.None? || res.text == Some("") ==> m == res.statusText
  {
    var text := res.text.GetOr("");
    if text != "" then text else res.statusText
  }

  /** How a call settles: a value, `undefined` for 204, or a thrown error. */
  datatype Outcome = Returned(v: Value) | NoContent | Failed(thrown: Thrown)

  /** `isRecordWithData`: a non-null, non-array object with a `data` key, whatever that
      key holds (null included). */
  function IsRecordWithData(v: Value): (ok: bool)
    ensures ok ==> Truthy(v) && v.JObj? && "data" in v.fields
    ensures v.JObj? && "data" in v.fields ==> ok
  {
    HasKey(v, "data")
  }

  /** `request` after `fetch` settles. A non-2xx status throws `{status, message}` with
      the body text (or the status text) and never looks at the body as JSON; 204 gives
      `undefined` without parsing; otherwise `{data}` is unwrapped and any other body is
      returned as it is. */
  function Request(fetched: Fetched): (o: Outcome)
    ensures fetched.NetworkFailure? ==> o == Failed(JsError(fetched.message))
    ensures fetched.Responded? && !IsOk(fetched.res.status) ==>
      o == Failed(HttpError(fetched.res.status, FailureText(fetched.res)))
    ensures fetched.Responded? && fetched.res.status == 204 ==> o == NoContent
    ensures o == NoContent ==> fetched.Responded? && fetched.res.status == 204
    ensures fetched.Responded? && IsOk(fetched.res.status) && fetched.res.status != 204 ==>
      match fetched.res.json
      case Malformed(m) => o == Failed(JsError(m))
      case Parsed(v) => o == Returned(if HasKey(v, "data") then v.fields["data"] else v)
  {
    match fetched
    case NetworkFailure(m) => Failed(JsError(m))
    case Responded(res) =>
      if !IsOk(res.status) then Failed(HttpError(res.status, FailureText(res)))
      else if res.status == 204 then NoContent
      else
        match res.json
        case Malformed(m) => Failed(JsError(m))
        case Parsed(body) =>
          if IsRecordWithData(body) then Returned(body.fields["data"]) else Returned(body)
  }

  /** An HTTP failure is never an `Error` instance, so callers that ask for
      `instanceof Error` fall back to their own message for it. */
  lemma HttpFailureIsNotAnError(res: Response)
    requires !IsOk(res.status)
    ensures Request(Responded(res)).Failed? && !Request(Responded(res)).thrown.JsError?
    ensures Request(Responded(res)).thrown.HttpError?
  {
  }
}
