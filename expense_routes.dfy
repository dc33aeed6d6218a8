/** The resource transport of server/routes/expenses.ts: list, get, create, replace,
    patch and delete over the shared table. Every route sits behind the authentication
    middleware, which runs before the body validator; `authenticated` is that gate's
    verdict. `id` is the path's digit sequence as a number (a path that is not all digits
    never reaches these handlers). */
module ExpenseRoutes {
  import opened Wrappers
  import opened Json
  import opened Http
  import opened ExpenseSchemas
  import opened ExpenseStore

  const NOT_FOUND_REPLY := Reply(404, ErrorBody(NOT_FOUND))
  const EMPTY_PATCH_REPLY := Reply(400, ErrorBody("Empty patch"))

  /** `ok(c, { expense })` with the given status. */
  function ExpenseReply(status: nat, row: Row): (r: Reply)
    ensures r.Reply? && r.status == status
    ensures r.body == DataBody(Field("expense", RowJson(row)))
  {
    Reply(status, DataBody(Field("expense", RowJson(row))))
  }

  /** GET `/`: every stored row, each through the download-URL rule, as `{data:{expenses}}`.
      `listed` is the order the store returned the rows in. */
  method HandleList(t: ExpenseTable, authenticated: bool, sign: Signer) returns (r: Reply, ghost listed: seq<Row>)
    requires t.Valid()
    ensures !authenticated ==> r == UNAUTHORIZED
    ensures authenticated ==>
      && Enumerates(listed, t.rows)
      && r == Reply(200, DataBody(Field("expenses", RowsJson(SignAll(listed, sign)))))
  {
    if !authenticated {
      return UNAUTHORIZED, [];
    }
    var rows := t.Scan();
    listed := rows;
    r := Reply(200, DataBody(Field("expenses", RowsJson(SignAll(rows, sign)))));
  }

  /** GET `/:id`: the row through the download-URL rule, or 404 "Not found". */
  method HandleGet(t: ExpenseTable, authenticated: bool, sign: Signer, id: nat) returns (r: Reply)
    requires t.Valid()
    ensures !authenticated ==> r == UNAUTHORIZED
    ensures authenticated && id !in t.rows ==> r == NOT_FOUND_REPLY
    ensures authenticated && id in t.rows ==> r == ExpenseReply(200, WithSignedDownloadUrl(t.rows[id], sign))
  {
    if !authenticated {
      return UNAUTHORIZED;
    }
    var row := t.Find(id);
    if row.None? {
      return NOT_FOUND_REPLY;
    }
    r := ExpenseReply(200, WithSignedDownloadUrl(row.value, sign));
  }

  /** POST `/`: stores the title and amount with `fileUrl` set to the `fileKey` (null when
      none was sent) under a fresh id, and answers 201 with the new row through the
      download-URL rule. `newId` is the id the store assigned. */
  method HandlePost(t: ExpenseTable, authenticated: bool, sign: Signer, body: Value) returns (r: Reply, ghost newId: nat)
    requires t.Valid()
    modifies t
    ensures t.Valid()
    ensures !authenticated ==> r == UNAUTHORIZED && t.rows == old(t.rows)
    ensures authenticated && ParseCreate(body).None? ==> r == Rejected && t.rows == old(t.rows)
    ensures authenticated && ParseCreate(body).Some? ==>
      var input := ParseCreate(body).value;
      var row := Row(newId, input.title, input.amount, input.fileKey);
      && newId > 0 && newId !in old(t.rows)
      && t.rows == old(t.rows)[newId := row]
      && r == ExpenseReply(201, WithSignedDownloadUrl(row, sign))
  {
    if !authenticated {
      return UNAUTHORIZED, 0;
    }
    var input := ParseCreate(body);
    if input.None? {
      return Rejected, 0;
    }
    var created := t.Insert(input.value.title, input.value.amount, input.value.fileKey);
    newId := created.id;
    r := ExpenseReply(201, WithSignedDownloadUrl(created, sign));
  }

  /** PUT `/:id`: validated with the create schema; overwrites title and amount, and the
      stored `fileUrl` only when `fileKey` was sent; 404 when no row has the id. */
  method HandlePut(t: ExpenseTable, authenticated: bool, sign: Signer, id: nat, body: Value) returns (r: Reply)
    requires t.Valid()
    modifies t
    ensures t.Valid()
    ensures !authenticated ==> r == UNAUTHORIZED && t.rows == old(t.rows)
    ensures authenticated && ParseCreate(body).None? ==> r == Rejected && t.rows == old(t.rows)
    ensures authenticated && ParseCreate(body).Some? && id !in old(t.rows) ==>
      r == NOT_FOUND_REPLY && t.rows == old(t.rows)
    ensures authenticated && ParseCreate(body).Some? && id in old(t.rows) ==>
      var row := ApplyPatch(old(t.rows)[id], ReplacementPatch(ParseCreate(body).value));
      && t.rows == old(t.rows)[id := row]
      && r == ExpenseReply(200, WithSignedDownloadUrl(row, sign))
  {
    if !authenticated {
      return UNAUTHORIZED;
    }
    var input := ParseCreate(body);
    if input.None? {
      return Rejected;
    }
    var updated := t.Update(id, ReplacementPatch(input.value));
    if updated.None? {
      return NOT_FOUND_REPLY;
    }
    r := ExpenseReply(200, WithSignedDownloadUrl(updated.value, sign));
  }

  /** PATCH `/:id`: validated with the update schema, then the supplied fields are set
      (see BuildUpdatePayload); 404 when no row has the id. The "Empty patch" answer is
      never given: the schema already refuses a body with no field. */
  method HandlePatch(t: ExpenseTable, authenticated: bool, sign: Signer, id: nat, body: Value) returns (r: Reply)
    requires t.Valid()
    modifies t
    ensures t.Valid()
    ensures r != EMPTY_PATCH_REPLY
    ensures !authenticated ==> r == UNAUTHORIZED && t.rows == old(t.rows)
    ensures authenticated && ParseUpdate(body).None? ==> r == Rejected && t.rows == old(t.rows)
    ensures authenticated && ParseUpdate(body).Some? && id !in old(t.rows) ==>
      r == NOT_FOUND_REPLY && t.rows == old(t.rows)
    ensures authenticated && ParseUpdate(body).Some? && id in old(t.rows) ==>
      var u := ParseUpdate(body).value;
      var before := old(t.rows)[id];
      var row := Row(id, u.title.GetOr(before.title), u.amount.GetOr(before.amount),
                     if u.fileUrl.Some? then u.fileUrl.value
                     else if u.fileKey.Some? then u.fileKey
                     else before.fileUrl);
      && t.rows == old(t.rows)[id := row]
      && r == ExpenseReply(200, WithSignedDownloadUrl(row, sign))
  {
    if !authenticated {
      return UNAUTHORIZED;
    }
    var raw := ParseUpdate(body);
    if raw.None? {
      return Rejected;
    }
    var patch := BuildUpdatePayload(raw.value);
    if IsEmptyPatch(patch) {
      return EMPTY_PATCH_REPLY;
    }
    var updated := t.Update(id, patch);
    if updated.None? {
      return NOT_FOUND_REPLY;
    }
    r := ExpenseReply(200, WithSignedDownloadUrl(updated.value, sign));
  }

  /** DELETE `/:id`: removes the row and echoes it, unsigned, as `{data:{deleted}}`;
      404 when no row has the id. */
  method HandleDelete(t: ExpenseTable, authenticated: bool, id: nat) returns (r: Reply)
    requires t.Valid()
    modifies t
    ensures t.Valid()
    ensures !authenticated ==> r == UNAUTHORIZED && t.rows == old(t.rows)
    ensures authenticated && id !in old(t.rows) ==> r == NOT_FOUND_REPLY && t.rows == old(t.rows)
    ensures authenticated && id in old(t.rows) ==>
      && t.rows == old(t.rows) - {id}
      && r == Reply(200, DataBody(Field("deleted", RowJson(old(t.rows)[id]))))
  {
    if !authenticated {
      return UNAUTHORIZED;
    }
    var removed := t.Remove(id);
    if removed.None? {
      return NOT_FOUND_REPLY;
    }
    r := Reply(200, DataBody(Field("deleted", RowJson(removed.value))));
  }
}
