/** The method transport of server/routes/rpc.ts: one endpoint taking `{method, params}`,
    dispatching over three method names on the same table as the resource transport.
    Unlike that transport it has no authentication gate, signs no download URLs, stores
    no `fileKey`, and offers no update. */
module RpcRoute {
  import opened Wrappers
  import opened Json
  import opened Http
  import opened ExpenseSchemas
  import opened ExpenseStore

  const LIST_EXPENSES := "listExpenses"
  const CREATE_EXPENSE := "createExpense"
  const DELETE_EXPENSE := "deleteExpense"

  /** The `z.enum` of `payloadSchema`. */
  const METHOD_NAMES: set<string> := {LIST_EXPENSES, CREATE_EXPENSE, DELETE_EXPENSE}

  const UNKNOWN_METHOD_REPLY := Reply(400, ErrorBody("Unknown method"))

  /** A validated request body; `params` is None when the key is absent. */
  datatype RpcPayload = RpcPayload(name: string, params: Option<Value>)

  /** `payloadSchema`: an object whose `method` is one of the three names; `params` may be
      anything or absent. */
  function ParsePayload(body: Value): (r: Option<RpcPayload>)
    ensures r.Some? <==> HasKey(body, "method") && body.fields["method"].JStr? && body.fields["method"].s in METHOD_NAMES
    ensures r.Some? ==>
      && r.value.name in METHOD_NAMES
      && body.fields["method"] == JStr(r.value.name)
      && (r.value.params.Some? <==> "params" in body.fields)
      && (r.value.params.Some? ==> r.value.params.value == body.fields["params"])
  {
    if HasKey(body, "method") && body.fields["method"].JStr? && body.fields["method"].s in METHOD_NAMES
    then Some(RpcPayload(body.fields["method"].s, if "params" in body.fields then Some(body.fields["params"]) else None))
    else None
  }

  /** `deleteExpenseSchema`: params must be an object whose `id` is an integral number
      greater than zero. */
  function ParseDeleteParams(params: Option<Value>): (r: Option<nat>)
    ensures r.Some? <==> params.Some? && HasKey(params.value, "id") && params.value.fields["id"].JInt? && params.value.fields["id"].i > 0
    ensures r.Some? ==> r.value > 0 && params.value.fields["id"] == JInt(r.value)
  {
    if params.Some? && HasKey(params.value, "id") && params.value.fields["id"].JInt? && params.value.fields["id"].i > 0
    then Some(params.value.fields["id"].i)
    else None
  }

  /** `createExpenseSchema.parse(params)`; an absent `params` is `undefined`, which the
      object schema refuses. */
  function ParseCreateParams(params: Option<Value>): (r: Option<CreateInput>)
    ensures params.None? ==> r.None?
    ensures params.Some? ==> r == ParseCreate(params.value)
  {
    if params.Some? then ParseCreate(params.value) else None
  }

  /** The `switch (method)`. `listExpenses` returns the rows as stored; `createExpense`
      inserts title and amount with a null `fileUrl` (the `fileKey` key is not a column and
      the insert drops it) and answers 201; `deleteExpense` removes one row and echoes it,
      or answers 404. A params parse failure throws. Any other name answers 400
      "Unknown method" and changes nothing. */
  method Dispatch(t: ExpenseTable, name: string, params: Option<Value>) returns (r: Reply, ghost listed: seq<Row>)
    requires t.Valid()
    modifies t
    ensures t.Valid()
    ensures r == UNKNOWN_METHOD_REPLY <==> name !in METHOD_NAMES
    ensures name !in METHOD_NAMES ==> t.rows == old(t.rows)
    ensures name == LIST_EXPENSES ==>
      && t.rows == old(t.rows)
      && Enumerates(listed, t.rows)
      && r == Reply(200, DataBody(Field("expenses", RowsJson(listed))))
    ensures name == CREATE_EXPENSE && ParseCreateParams(params).None? ==> r == Threw && t.rows == old(t.rows)
    ensures name == CREATE_EXPENSE && ParseCreateParams(params).Some? ==>
      var input := ParseCreateParams(params).value;
      exists id: nat ::
        && id > 0 && id !in old(t.rows)
        && t.rows == old(t.rows)[id := Row(id, input.title, input.amount, None)]
        && r == Reply(201, DataBody(Field("expense", RowJson(Row(id, input.title, input.amount, None)))))
    ensures name == DELETE_EXPENSE && ParseDeleteParams(params).None? ==> r == Threw && t.rows == old(t.rows)
    ensures name == DELETE_EXPENSE && ParseDeleteParams(params).Some? ==>
      var id := ParseDeleteParams(params).value;
      && (id !in old(t.rows) ==> r == Reply(404, ErrorBody(NOT_FOUND)) && t.rows == old(t.rows))
      && (id in old(t.rows) ==>
            && t.rows == old(t.rows) - {id}
            && r == Reply(200, DataBody(Field("deleted", RowJson(old(t.rows)[id])))))
  {
    listed := [];
    if name == LIST_EXPENSES {
      var rows := t.Scan();
      listed := rows;
      r := Reply(200, DataBody(Field("expenses", RowsJson(rows))));
    } else if name == CREATE_EXPENSE {
      var input := ParseCreateParams(params);
      if input.None? {
        return Threw, listed;
      }
      var created := t.Insert(input.value.title, input.value.amount, None);
      r := Reply(201, DataBody(Field("expense", RowJson(created))));
    } else if name == DELETE_EXPENSE {
      var id := ParseDeleteParams(params);
      if id.None? {
        return Threw, listed;
      }
      var removed := t.Remove(id.value);
      if removed.None? {
        return Reply(404, ErrorBody(NOT_FOUND)), listed;
      }
      r := Reply(200, DataBody(Field("deleted", RowJson(removed.value))));
    } else {
      r := UNKNOWN_METHOD_REPLY;
    }
  }

  /** POST `/`: the body is validated first (a name outside the three is refused there,
      so the `default` branch never answers), then dispatched. */
  method HandleRpc(t: ExpenseTable, body: Value) returns (r: Reply, ghost listed: seq<Row>)
    requires t.Valid()
    modifies t
    ensures t.Valid()
    ensures r != UNKNOWN_METHOD_REPLY
    ensures ParsePayload(body).None? ==> r == Rejected && t.rows == old(t.rows)
    ensures ParsePayload(body).Some? && ParsePayload(body).value.name == LIST_EXPENSES ==>
      && t.rows == old(t.rows)
      && Enumerates(listed, t.rows)
      && r == Reply(200, DataBody(Field("expenses", RowsJson(listed))))
    ensures ParsePayload(body).Some? && ParsePayload(body).value.name == CREATE_EXPENSE ==>
      var input := ParseCreateParams(ParsePayload(body).value.params);
      && (input.None? ==> r == Threw && t.rows == old(t.rows))
      && (input.Some? ==>
            exists id: nat ::
              && id > 0 && id !in old(t.rows)
              && t.rows == old(t.rows)[id := Row(id, input.value.title, input.value.amount, None)]
              && r == Reply(201, DataBody(Field("expense", RowJson(Row(id, input.value.title, input.value.amount, None))))))
    ensures ParsePayload(body).Some? && ParsePayload(body).value.name == DELETE_EXPENSE ==>
      var id := ParseDeleteParams(ParsePayload(body).value.params);
      && (id.None? ==> r == Threw && t.rows == old(t.rows))
      && (id.Some? && id.value !in old(t.rows) ==> r == Reply(404, ErrorBody(NOT_FOUND)) && t.rows == old(t.rows))
      && (id.Some? && id.value in old(t.rows) ==>
            && t.rows == old(t.rows) - {id.value}
            && r == Reply(200, DataBody(Field("deleted", RowJson(old(t.rows)[id.value])))))
  {
    var payload := ParsePayload(body);
    if payload.None? {
      return Rejected, [];
    }
    r, listed := Dispatch(t, payload.value.name, payload.value.params);
  }
}
