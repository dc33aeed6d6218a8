/** The `/sign` handler of server/routes/upload.ts: issues a ticket for one direct write
    to the object store. `now` is the clock reading (`Date.now()`), `presign` the
    object-store presigner. */
module UploadRoute {
  import opened Wrappers
  import opened Json
  import opened Text
  import opened Http

  const UPLOAD_PREFIX := "uploads/"

  /** `signPayloadSchema`: an object whose `filename` and `type` are non-empty strings. */
  function ParseSignPayload(body: Value): (r: Option<(string, string)>)
    ensures r.Some? <==>
      && HasKey(body, "filename") && body.fields["filename"].JStr? && body.fields["filename"].s != ""
      && HasKey(body, "type") && body.fields["type"].JStr? && body.fields["type"].s != ""
    ensures r.Some? ==> body.fields["filename"] == JStr(r.value.0) && body.fields["type"] == JStr(r.value.1)
    ensures r.Some? ==> r.value.0 != "" && r.value.1 != ""
  {
    if HasKey(body, "filename") && body.fields["filename"].JStr? && body.fields["filename"].s != ""
      && HasKey(body, "type") && body.fields["type"].JStr? && body.fields["type"].s != ""
    then Some((body.fields["filename"].s, body.fields["type"].s))
    else None
  }

  /** The object key `uploads/${Date.now()}-${filename}`. */
  function UploadKey(now: nat, filename: string): (key: string)
    ensures StartsWith(key, UPLOAD_PREFIX)
    ensures EndsWith(key, "-" + filename)
  {
    UPLOAD_PREFIX + Digits(now) + "-" + filename
  }

  /** The key determines both the clock reading and the filename: two tickets get the
      same key exactly when both were issued in the same millisecond for the same name. */
  lemma UploadKeyInjective(n1: nat, f1: string, n2: nat, f2: string)
    ensures UploadKey(n1, f1) == UploadKey(n2, f2) <==> n1 == n2 && f1 == f2
  {
    if UploadKey(n1, f1) == UploadKey(n2, f2) {
      var s1, s2 := Digits(n1) + "-" + f1, Digits(n2) + "-" + f2;
      assert UploadKey(n1, f1) == UPLOAD_PREFIX + s1 && UploadKey(n2, f2) == UPLOAD_PREFIX + s2;
      assert s1 == UploadKey(n1, f1)[|UPLOAD_PREFIX|..] == s2;
      DigitsDashSplit(n1, f1, n2, f2);
    }
  }

  /** The ticket `{ uploadUrl, key }`, sent without the `{data}` envelope. */
  function TicketBody(uploadUrl: string, key: string): (b: Value)
    ensures HasKey(b, "uploadUrl") && b.fields["uploadUrl"] == JStr(uploadUrl)
    ensures HasKey(b, "key") && b.fields["key"] == JStr(key)
    ensures !HasKey(b, "data") && !HasKey(b, "error")
  {
    JObj(map["uploadUrl" := JStr(uploadUrl), "key" := JStr(key)])
  }

  /** POST `/sign`. The payload is validated first (as middleware); then the
      authentication gate; only then is a key built and a write URL signed, valid for
      WRITE_URL_TTL seconds, for exactly that key and content type. A presigner failure
      escapes the handler. */
  function HandleSign(body: Value, authenticated: bool, now: nat, presign: Signer): (r: Reply)
    ensures ParseSignPayload(body).None? ==> r == Rejected
    ensures ParseSignPayload(body).Some? && !authenticated ==> r == UNAUTHORIZED
    ensures ParseSignPayload(body).Some? && authenticated ==>
      var (filename, contentType) := ParseSignPayload(body).value;
      var key := UploadKey(now, filename);
      match presign(PutObject(key, contentType, WRITE_URL_TTL))
      case None => r == Threw
      case Some(url) => r == Reply(200, TicketBody(url, key))
  {
    match ParseSignPayload(body)
    case None => Rejected
    case Some((filename, contentType)) =>
      if !authenticated then UNAUTHORIZED
      else
        var key := UploadKey(now, filename);
        match presign(PutObject(key, contentType, WRITE_URL_TTL))
        case None => Threw
        case Some(url) => Reply(200, TicketBody(url, key))
  }

  /** Unauthenticated callers never cause a signing call: the answer does not depend on
      the clock or the presigner. */
  lemma UnauthenticatedSignsNothing(body: Value, now1: nat, now2: nat, p1: Signer, p2: Signer)
    ensures HandleSign(body, false, now1, p1) == HandleSign(body, false, now2, p2)
    ensures HandleSign(body, false, now1, p1) in {Rejected, UNAUTHORIZED}
  {
  }
}
