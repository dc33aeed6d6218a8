/** The record shape and the pure parts of server/routes/expenses.ts: the request
    schemas, the PATCH payload, and the download-URL rule. */
module ExpenseSchemas {
  import opened Wrappers
  import opened Json
  import opened Text
  import opened Http

  /** A stored expense row. `fileUrl` holds the storage key (or a legacy external URL). */
  datatype Row = Row(id: nat, title: string, amount: int, fileUrl: Option<string>)

  /** The row as the JSON object the handlers send. */
  function RowJson(r: Row): (v: Value)
    ensures v.JObj? && v.fields.Keys == {"id", "title", "amount", "fileUrl"}
    ensures v.fields["id"] == JInt(r.id) && v.fields["title"] == JStr(r.title)
    ensures v.fields["amount"] == JInt(r.amount)
    ensures v.fields["fileUrl"] == (if r.fileUrl.Some? then JStr(r.fileUrl.value) else JNull)
  {
    JObj(map[
      "id" := JInt(r.id),
      "title" := JStr(r.title),
      "amount" := JInt(r.amount),
      "fileUrl" := if r.fileUrl.Some? then JStr(r.fileUrl.value) else JNull])
  }

  /** `titleSchema`: a string of 3 to 100 characters. The content is not looked at and
      nothing is trimmed, so three spaces are a valid title. */
  function ValidTitle(s: string): (ok: bool)
    ensures ok <==> 3 <= |s| && |s| <= 100
  {
    3 <= |s| <= 100
  }

  /** `amountSchema`: an integral number greater than zero, so at least one. */
  function ValidAmount(n: int): (ok: bool)
    ensures ok <==> n >= 1
  {
    n > 0
  }

  /** `z.string().min(1)` */
  predicate NonEmptyString(v: Value) {
    v.JStr? && v.s != ""
  }

  /** A validated `createExpenseSchema` body. */
  datatype CreateInput = CreateInput(title: string, amount: int, fileKey: Option<string>)

  /** `createExpenseSchema`: an object with a valid `title` and `amount` and, if the key
      is present, a non-empty string `fileKey`. Other keys are ignored. */
  function ParseCreate(body: Value): (r: Option<CreateInput>)
    ensures r.Some? <==>
      && HasKey(body, "title") && body.fields["title"].JStr? && ValidTitle(body.fields["title"].s)
      && HasKey(body, "amount") && body.fields["amount"].JInt? && ValidAmount(body.fields["amount"].i)
      && (HasKey(body, "fileKey") ==> NonEmptyString(body.fields["fileKey"]))
    ensures r.Some? ==>
      && ValidTitle(r.value.title) && ValidAmount(r.value.amount)
      && body.fields["title"] == JStr(r.value.title) && body.fields["amount"] == JInt(r.value.amount)
      && (r.value.fileKey.Some? <==> "fileKey" in body.fields)
      && (r.value.fileKey.Some? ==> r.value.fileKey.value != "" && body.fields["fileKey"] == JStr(r.value.fileKey.value))
  {
    if !body.JObj? then None
    else
      var f := body.fields;
      if "title" in f && f["title"].JStr? && ValidTitle(f["title"].s)
        && "amount" in f && f["amount"].JInt? && ValidAmount(f["amount"].i)
        && ("fileKey" in f ==> NonEmptyString(f["fileKey"]))
      then Some(CreateInput(f["title"].s, f["amount"].i,
                            if "fileKey" in f then Some(f["fileKey"].s) else None))
      else None
  }

  /** A validated `updateExpenseSchema` body. Each field is None when its key is absent;
      `fileUrl` is Some(None) for an explicit `null`. */
  datatype UpdateInput = UpdateInput(
    title: Option<string>,
    amount: Option<int>,
    fileUrl: Option<Option<string>>,
    fileKey: Option<string>)

  /** The `refine` rule of `updateExpenseSchema`. */
  predicate HasAnyField(u: UpdateInput) {
    u.title.Some? || u.amount.Some? || u.fileUrl.Some? || u.fileKey.Some?
  }

  /** One optional field: absent is fine, present must pass `ok`. */
  predicate OptionalOk(f: map<string, Value>, key: string, ok: Value -> bool) {
    key in f ==> ok(f[key])
  }

  predicate TitleValue(v: Value) { v.JStr? && ValidTitle(v.s) }
  predicate AmountValue(v: Value) { v.JInt? && ValidAmount(v.i) }
  /** `z.string().min(1).nullable()` */
  predicate NullableKey(v: Value) { v.JNull? || NonEmptyString(v) }

  /** `updateExpenseSchema`: every present recognised key is valid and at least one of
      them is present. Other keys are ignored. */
  function ParseUpdate(body: Value): (r: Option<UpdateInput>)
    ensures r.Some? ==> HasAnyField(r.value)
    ensures r.Some? <==>
      && body.JObj?
      && OptionalOk(body.fields, "title", TitleValue)
      && OptionalOk(body.fields, "amount", AmountValue)
      && OptionalOk(body.fields, "fileUrl", NullableKey)
      && OptionalOk(body.fields, "fileKey", NonEmptyString)
      && (exists k :: k in body.fields && k in {"title", "amount", "fileUrl", "fileKey"})
    ensures r.Some? ==>
      && (r.value.title.Some? <==> "title" in body.fields)
      && (r.value.title.Some? ==> body.fields["title"] == JStr(r.value.title.value))
      && (r.value.amount.Some? <==> "amount" in body.fields)
      && (r.value.amount.Some? ==> body.fields["amount"] == JInt(r.value.amount.value))
      && (r.value.fileKey.Some? <==> "fileKey" in body.fields)
      && (r.value.fileKey.Some? ==> body.fields["fileKey"] == JStr(r.value.fileKey.value))
      && (r.value.fileUrl.Some? <==> "fileUrl" in body.fields)
      && (r.value.fileUrl == Some(None) <==> ("fileUrl" in body.fields && body.fields["fileUrl"] == JNull))
      && (r.value.fileUrl.Some? && r.value.fileUrl.value.Some? ==>
            body.fields["fileUrl"] == JStr(r.value.fileUrl.value.value))
  {
    if !body.JObj? then None
    else
      var f := body.fields;
      if !(OptionalOk(f, "title", TitleValue) && OptionalOk(f, "amount", AmountValue)
           && OptionalOk(f, "fileUrl", NullableKey) && OptionalOk(f, "fileKey", NonEmptyString))
      then None
      else
        var u := UpdateInput(
          if "title" in f then Some(f["title"].s) else None,
          if "amount" in f then Some(f["amount"].i) else None,
          if "fileUrl" in f then (if f["fileUrl"].JNull? then Some(None) else Some(Some(f["fileUrl"].s))) else None,
          if "fileKey" in f then Some(f["fileKey"].s) else None);
        if HasAnyField(u) then Some(u) else None
  }

  /** A body none of whose keys is title, amount, fileUrl or fileKey is refused, whatever
      else it carries. */
  lemma NoRecognisedFieldRejected(body: Value)
    requires body.JObj?
    requires forall k :: k in body.fields ==> k !in {"title", "amount", "fileUrl", "fileKey"}
    ensures ParseUpdate(body).None?
  {
  }

  /** The `updates` object handed to the store: a column is set only when its field is
      Some. `fileUrl` is Some(None) when the column is set to null. */
  datatype Patch = Patch(title: Option<string>, amount: Option<int>, fileUrl: Option<Option<string>>)

  /** `Object.keys(patch).length === 0` */
  predicate IsEmptyPatch(p: Patch) {
    p.title.None? && p.amount.None? && p.fileUrl.None?
  }

  /** `buildUpdatePayload`: copies the supplied fields one by one; `fileKey` sets the
      `fileUrl` column, and an explicit `fileUrl` is assigned after it and so wins. */
  method BuildUpdatePayload(input: UpdateInput) returns (updates: Patch)
    ensures updates.title == input.title && updates.amount == input.amount
    ensures input.fileUrl.Some? ==> updates.fileUrl == input.fileUrl
    ensures input.fileUrl.None? && input.fileKey.Some? ==> updates.fileUrl == Some(input.fileKey)
    ensures input.fileUrl.None? && input.fileKey.None? ==> updates.fileUrl.None?
    ensures IsEmptyPatch(updates) <==> !HasAnyField(input)
  {
    updates := Patch(None, None, None);
    if input.title.Some? {
      updates := updates.(title := input.title);
    }
    if input.amount.Some? {
      updates := updates.(amount := input.amount);
    }
    if input.fileKey.Some? {
      updates := updates.(fileUrl := Some(input.fileKey));
    }
    if input.fileUrl.Some? {
      updates := updates.(fileUrl := input.fileUrl);
    }
  }

  /** The row after the store sets the columns of `p`: supplied columns take the new
      value, the id and every other column keep theirs. */
  function ApplyPatch(row: Row, p: Patch): (r: Row)
    ensures r.id == row.id
    ensures r.title == (if p.title.Some? then p.title.value else row.title)
    ensures r.amount == (if p.amount.Some? then p.amount.value else row.amount)
    ensures r.fileUrl == (if p.fileUrl.Some? then p.fileUrl.value else row.fileUrl)
    ensures IsEmptyPatch(p) ==> r == row
  {
    Row(row.id, p.title.GetOr(row.title), p.amount.GetOr(row.amount), p.fileUrl.GetOr(row.fileUrl))
  }

  /** The PUT handler's `updates`: `title` and `amount` always, the `fileUrl` column only
      when `fileKey` was sent. */
  function ReplacementPatch(input: CreateInput): (p: Patch)
    ensures p.title == Some(input.title) && p.amount == Some(input.amount)
    ensures p.fileUrl.Some? <==> input.fileKey.Some?
    ensures input.fileKey.Some? ==> p.fileUrl == Some(input.fileKey)
  {
    Patch(Some(input.title), Some(input.amount), if input.fileKey.Some? then Some(input.fileKey) else None)
  }

  /** A value the read path treats as an external URL and never signs. */
  function IsExternalUrl(s: string): (ok: bool)
    ensures ok ==> |s| >= 7 && s[..4] == "http"
    ensures ok <==> StartsWith(s, "http://") || StartsWith(s, "https://")
  {
    StartsWith(s, "http://") || StartsWith(s, "https://")
  }

  /** `withSignedDownloadUrl`: a missing or empty `fileUrl`, or one that is already an
      http(s) URL, is left alone; any other value is a storage key and is replaced by a
      read URL signed for READ_URL_TTL seconds; if signing fails the row is returned
      unchanged. Id, title and amount never change. */
  function WithSignedDownloadUrl(row: Row, sign: Signer): (r: Row)
    ensures r.id == row.id && r.title == row.title && r.amount == row.amount
    ensures row.fileUrl.None? || row.fileUrl == Some("") ==> r == row
    ensures row.fileUrl.Some? && IsExternalUrl(row.fileUrl.value) ==> r == row
    ensures row.fileUrl.Some? && row.fileUrl.value != "" && !IsExternalUrl(row.fileUrl.value) ==>
      r.fileUrl == Some(sign(GetObject(row.fileUrl.value, READ_URL_TTL)).GetOr(row.fileUrl.value))
  {
    match row.fileUrl
    case None => row
    case Some(key) =>
      if key == "" then row
      else if IsExternalUrl(key) then row
      else
        match sign(GetObject(key, READ_URL_TTL))
        case Some(url) => row.(fileUrl := Some(url))
        case None => row
  }

  /** A presigner that only ever produces http(s) URLs. */
  ghost predicate ProducesUrls(sign: Signer) {
    forall req :: sign(req).Some? ==> IsExternalUrl(sign(req).value)
  }

  /** Reading a row that was already read changes nothing more: a signed URL is never
      signed again. */
  lemma SignedUrlNotResigned(row: Row, sign: Signer)
    requires ProducesUrls(sign)
    ensures WithSignedDownloadUrl(WithSignedDownloadUrl(row, sign), sign) == WithSignedDownloadUrl(row, sign)
  {
    var once := WithSignedDownloadUrl(row, sign);
    if once != row {
      assert IsExternalUrl(once.fileUrl.value);
    }
  }

  /** Every row of a listing passed through the download-URL rule, in order
      (the list handler's `Promise.all(rows.map(withSignedDownloadUrl))`). */
  function SignAll(rows: seq<Row>, sign: Signer): (r: seq<Row>)
    ensures |r| == |rows|
    ensures forall i :: 0 <= i < |rows| ==> r[i] == WithSignedDownloadUrl(rows[i], sign)
  {
    seq(|rows|, i requires 0 <= i < |rows| => WithSignedDownloadUrl(rows[i], sign))
  }

  /** The rows as a JSON array, in order. */
  function RowsJson(rows: seq<Row>): (v: Value)
    ensures v.JArr? && |v.items| == |rows|
    ensures forall i :: 0 <= i < |rows| ==> v.items[i] == RowJson(rows[i])
  {
    JArr(seq(|rows|, i requires 0 <= i < |rows| => RowJson(rows[i])))
  }
}
