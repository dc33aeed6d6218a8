/** What the server's handlers answer, the JSON envelopes they wrap payloads in,
    and the object-store presigner they call. */
module Http {
  import opened Wrappers
  import opened Json

  /** A handler's answer. `Reply` is a JSON response with a status. `Rejected` is a
      request body refused by the route's validator middleware before the handler
      runs (it answers 400 with the validator's own issue list, not modelled).
      `Threw` is an exception escaping the handler; the framework's error handler
      answers it (not modelled). */
  datatype Reply = Reply(status: nat, body: Value) | Rejected | Threw

  /** The success envelope `{ data }` (server/routes/expenses.ts `ok`). */
  function DataBody(data: Value): (b: Value)
    ensures HasKey(b, "data") && b.fields["data"] == data && !HasKey(b, "error")
  {
    JObj(map["data" := data])
  }

  /** The failure envelope `{ error: { message } }` (server/routes/expenses.ts `err`). */
  function ErrorBody(message: string): (b: Value)
    ensures HasKey(b, "error") && !HasKey(b, "data")
    ensures HasKey(b.fields["error"], "message") && b.fields["error"].fields["message"] == JStr(message)
  {
    JObj(map["error" := JObj(map["message" := JStr(message)])])
  }

  /** A one-key object `{ key: v }`, the payload shapes `{expenses}`, `{expense}`, `{deleted}`. */
  function Field(key: string, v: Value): (b: Value)
    ensures HasKey(b, key) && b.fields[key] == v && b.fields.Keys == {key}
  {
    JObj(map[key := v])
  }

  const NOT_FOUND := "Not found"

  /** The answer of the authentication gate to a request without a valid session:
      401 with `{ error: "Unauthorized" }` (a bare string, not the `err` envelope). */
  const UNAUTHORIZED := Reply(401, JObj(map["error" := JStr("Unauthorized")]))

  /** Lifetime in seconds of a signed download (read) URL. */
  const READ_URL_TTL := 3600
  /** Lifetime in seconds of a signed upload (write) URL. */
  const WRITE_URL_TTL := 60

  /** A request to the object-store presigner: a read of `key`, or a write of `key`
      with the given content type, each valid for `expiresIn` seconds. */
  datatype PresignRequest =
    | GetObject(key: string, expiresIn: nat)
    | PutObject(key: string, contentType: string, expiresIn: nat)

  /** The presigner, a foreign call: the signed URL, or None when it throws. */
  type Signer = PresignRequest -> Option<string>
}
