/** How the client and the server fit together: what the client sends is what the
    server's schemas accept, and what the server answers is what the client decodes.
    Also where they do not fit, and where the two server transports part. */
module Conformance {
  import opened Wrappers
  import opened Json
  import opened Text
  import opened Http
  import opened ExpenseSchemas
  import opened ExpenseStore
  import opened ExpenseRoutes
  import opened RpcRoute
  import opened UploadRoute
  import opened ApiClient
  import opened RpcClient
  import opened AddExpenseForm
  import opened ExpensesList
  import opened UploadExpenseForm

  /** A 2xx answer in the `{data}` envelope reaches the caller of either helper as its
      payload. */
  lemma ServerEnvelopeDecoded(status: int, statusText: string, text: Option<string>, data: Value)
    requires IsOk(status) && status != 204
    ensures Request(Responded(Response(status, statusText, text, Parsed(DataBody(data))))) == Returned(data)
    ensures RpcResult(Responded(Response(status, statusText, text, Parsed(DataBody(data))))) == Returned(data)
  {
    HelpersAgreeOnEnvelopes(Response(status, statusText, text, Parsed(DataBody(data))));
  }

  /** Any refusal (401 from the gate, 404, 400) reaches the list and the add form as
      their generic fallback, because `request` throws a plain object, not an `Error`;
      the upload form shows the response text instead. */
  lemma RefusalsShowFallbacks(res: Response)
    requires !IsOk(res.status)
    ensures Request(Responded(res)) == Failed(HttpError(res.status, FailureText(res)))
    ensures MessageOr(Request(Responded(res)).thrown, LOAD_FAILED) == LOAD_FAILED
    ensures MessageOr(Request(Responded(res)).thrown, DELETE_FAILED) == DELETE_FAILED
    ensures MessageOr(Request(Responded(res)).thrown, ADD_FAILED) == ADD_FAILED
    ensures UploadErrorMessage(Request(Responded(res)).thrown) == FailureText(res)
  {
    HttpFailureIsNotAnError(res);
  }

  /** The upload ticket has no `data` key, so `request` hands it over whole. */
  lemma TicketPassesThrough(status: int, statusText: string, text: Option<string>, url: string, key: string)
    requires IsOk(status) && status != 204
    ensures Request(Responded(Response(status, statusText, text, Parsed(TicketBody(url, key))))) == Returned(TicketBody(url, key))
  {
  }

  /** The sign request the upload form sends for a named file passes the server's schema
      with the same name and content type, so the write URL is signed for exactly the
      content type the direct write then declares. A file without a name is refused. */
  lemma SignRequestMatchesWrite(f: File, now: nat, presign: Signer)
    ensures var body := JObj(map["filename" := JStr(f.name), "type" := JStr(ContentTypeOf(f))]);
      && Route(SignUpload(f.name, ContentTypeOf(f))).init == Some(VerbWithJson("POST", body))
      && (f.name == "" ==> HandleSign(body, true, now, presign) == Rejected)
      && (f.name != "" ==>
            && ParseSignPayload(body) == Some((f.name, ContentTypeOf(f)))
            && var write := PutObject(UploadKey(now, f.name), ContentTypeOf(f), WRITE_URL_TTL);
               presign(write).Some? ==>
                 && HandleSign(body, true, now, presign) == Reply(200, TicketBody(presign(write).value, UploadKey(now, f.name)))
                 && PutRequest(presign(write).value, f).init.value.headers == Some(map["Content-Type" := write.contentType]))
  {
  }

  /** The attach call's body `{fileKey: key}` passes the update schema as a lone
      `fileKey` for any non-empty key, and a key the server issued is never empty. */
  lemma AttachBodyAccepted(id: int, key: string)
    requires key != ""
    ensures ParseUpdate(UpdateJson(AttachCall(id, key).update)) == Some(UpdateInput(None, None, None, Some(key)))
  {
    var body := UpdateJson(AttachCall(id, key).update);
    assert body == JObj(map["fileKey" := JStr(key)]);
    assert "fileKey" in body.fields;
  }

  /** Issued keys start with "uploads/", so they are never empty. */
  lemma IssuedKeyNonEmpty(now: nat, filename: string)
    ensures UploadKey(now, filename) != ""
  {
    assert UploadKey(now, filename)[0] == 'u';
  }

  /** The client's update type allows `fileKey: null`, but the server's schema only takes
      a non-empty string there, so such a call is refused. */
  lemma NullFileKeyRefused(id: int)
    ensures ParseUpdate(UpdateJson(UpdatePayload(None, None, Some(None), None))).None?
  {
    var body := UpdateJson(UpdatePayload(None, None, Some(None), None));
    assert body.fields["fileKey"] == JNull;
  }

  /** What the add form sends once its gate passes is accepted by the server exactly
      when the trimmed title has at most 100 characters and the amount rounds to at
      least one: the gate checks neither the upper bound nor the rounding. */
  lemma AddFormPayloadAccepted(title: string, x: real)
    requires TitleIsValid(title) && AmountIsValid(Some(x))
    ensures var sent := CreateJson(CreatePayload(Trim(title), Round(x), None));
      && (ParseCreate(sent).Some? <==> |Trim(title)| <= 100 && x >= 0.5)
      && (ParseCreate(sent).Some? ==> ParseCreate(sent) == Some(CreateInput(Trim(title), Round(x), None)))
  {
    var sent := CreateJson(CreatePayload(Trim(title), Round(x), None));
    assert "fileKey" !in sent.fields;
    if x >= 0.5 {
      assert Round(x) >= 1;
    } else {
      assert Round(x) <= 0;
    }
  }

  /** The method transport's request body carries exactly the name and the params, and
      the server takes it back apart unchanged for the three known names. */
  lemma RpcEnvelopeRoundTrip(name: string, params: Option<Value>)
    ensures ParsePayload(RpcEnvelope(name, params)) == (if name in METHOD_NAMES then Some(RpcPayload(name, params)) else None)
  {
  }

  /** The two list answers over one table hold the same rows, up to the download-URL rule
      the resource transport applies and the method transport does not. */
  lemma ListingsAgreeUpToSigning(rest: seq<Row>, rpc: seq<Row>, m: map<nat, Row>, sign: Signer)
    requires Enumerates(rest, m) && Enumerates(rpc, m)
    ensures |SignAll(rest, sign)| == |rpc|
    ensures forall r :: r in rpc ==> exists i :: 0 <= i < |rest| && SignAll(rest, sign)[i] == WithSignedDownloadUrl(r, sign)
    ensures forall i :: 0 <= i < |rest| ==> SignAll(rest, sign)[i].id == rest[i].id && rest[i] in rpc
  {
    EnumerationsAgree(rest, rpc, m);
    forall r | r in rpc
      ensures exists i :: 0 <= i < |rest| && SignAll(rest, sign)[i] == WithSignedDownloadUrl(r, sign)
    {
      assert r in rest;
      var i :| 0 <= i < |rest| && rest[i] == r;
      assert SignAll(rest, sign)[i] == WithSignedDownloadUrl(r, sign);
    }
    forall i | 0 <= i < |rest| ensures rest[i] in rpc {
      assert rest[i] in rest;
    }
  }

  /** A row holding a storage key is listed with a signed URL by one transport and with
      the raw key by the other. */
  lemma ListingsDiverge()
    ensures var row := Row(1, "Lunch", 12, Some("uploads/1-r.png"));
      var sign: Signer := (req: PresignRequest) => Some("https://bucket.example/signed");
      SignAll([row], sign) != [row]
  {
    var row := Row(1, "Lunch", 12, Some("uploads/1-r.png"));
    var sign: Signer := (req: PresignRequest) => Some("https://bucket.example/signed");
    assert !IsExternalUrl("uploads/1-r.png") by {
      assert "uploads/1-r.png"[..7][0] != "http://"[0];
      assert "uploads/1-r.png"[..8][0] != "https://"[0];
    }
    assert SignAll([row], sign)[0].fileUrl == Some("https://bucket.example/signed");
  }

  /** The same create body through both transports: the resource transport stores the
      `fileKey`, the method transport stores no file. */
  method CreateOverBothTransports(t: ExpenseTable, sign: Signer, title: string, amount: int, key: string)
    returns (ghost restId: nat, ghost rpcId: nat)
    requires t.Valid() && ValidTitle(title) && ValidAmount(amount) && key != ""
    modifies t
    ensures t.Valid()
    ensures restId != rpcId && restId !in old(t.rows) && rpcId !in old(t.rows)
    ensures restId in t.rows && t.rows[restId] == Row(restId, title, amount, Some(key))
    ensures rpcId in t.rows && t.rows[rpcId] == Row(rpcId, title, amount, None)
  {
    var body := JObj(map["title" := JStr(title), "amount" := JInt(amount), "fileKey" := JStr(key)]);
    assert ParseCreate(body) == Some(CreateInput(title, amount, Some(key)));
    var restReply;
    restReply, restId := HandlePost(t, true, sign, body);
    ghost var between := t.rows;
    var envelope := RpcEnvelope(CREATE_EXPENSE, Some(body));
    RpcEnvelopeRoundTrip(CREATE_EXPENSE, Some(body));
    var rpcReply, listed := HandleRpc(t, envelope);
    rpcId :| rpcId > 0 && rpcId !in between && t.rows == between[rpcId := Row(rpcId, title, amount, None)];
  }

  /** Deleting an existing expense twice: the first call echoes it, the second is a 404,
      and the row is gone. */
  method DeleteTwice(t: ExpenseTable, id: nat) returns (first: Reply, second: Reply)
    requires t.Valid()
    modifies t
    ensures t.Valid() && t.rows == old(t.rows) - {id}
    ensures id in old(t.rows) ==> first == Reply(200, DataBody(Field("deleted", RowJson(old(t.rows)[id]))))
    ensures id !in old(t.rows) ==> first == NOT_FOUND_REPLY
    ensures second == NOT_FOUND_REPLY
  {
    first := HandleDelete(t, true, id);
    second := HandleDelete(t, true, id);
  }

  /** The server's title schema counts characters and trims nothing: a blank title that
      the form's gate refuses is a valid title to both transports. */
  lemma BlankTitleServerOnly()
    ensures ValidTitle("   ") && !TitleIsValid("   ")
  {
    assert TrimStart("   ") == TrimStart("  ") == TrimStart(" ") == "";
  }
}
