/** The receipt upload form, frontend/src/components/UploadExpenseForm.tsx: a file
    selection and an upload mutation of three sequential calls: ask the server for a
    write ticket, write the file straight to the object store, and attach the ticket's
    key to the expense. The settled calls are inputs: `sign` for the ticket request,
    `put` for the direct write, `patch` for the attach call. */
module UploadExpenseForm {
  import opened Wrappers
  import opened ApiClient
  import opened QueryCache

  const NO_FILE := "Select a file before uploading."
  const UPLOAD_FAILED := "Upload failed. Please try again."
  const OCTET_STREAM := "application/octet-stream"

  /** A selected file: its name and its MIME type ("" when the browser knows none). */
  datatype File = File(name: string, mime: string)

  /** The settled ticket request: the ticket, or what it threw. */
  datatype SignResult = Ticket(uploadUrl: string, key: string) | SignFailed(thrown: Thrown)

  /** The settled direct write: any answer (its status is not looked at), or a network
      failure. */
  datatype PutResult = PutAnswered(status: int) | PutFailed(message: string)

  /** `file.type || "application/octet-stream"` */
  function ContentTypeOf(f: File): (t: string)
    ensures t != ""
    ensures f.mime != "" ==> t == f.mime
    ensures f.mime == "" ==> t == OCTET_STREAM
  {
    if f.mime != "" then f.mime else OCTET_STREAM
  }

  /** The direct write: a PUT of the file's bytes to the ticket URL, with the same content
      type the ticket was signed for, and no cookies (`fetch` is called directly). */
  function PutRequest(uploadUrl: string, f: File): (o: Outgoing)
    ensures o.url == uploadUrl
    ensures o.init.Some? && o.init.value.verb == Some("PUT") && o.init.value.body == Some(FileBytes(f.name, f.mime))
    ensures o.init.value.headers == Some(map["Content-Type" := ContentTypeOf(f)])
    ensures o.init.value.credentials.None?
  {
    Outgoing(uploadUrl, Some(Init(Some("PUT"), Some(map["Content-Type" := ContentTypeOf(f)]), Some(FileBytes(f.name, f.mime)), None)))
  }

  /** The attach call: `updateExpense(expenseId, { fileKey: key })`. */
  function AttachCall(expenseId: int, key: string): (c: Call)
    ensures c == UpdateExpense(expenseId, UpdatePayload(None, None, Some(Some(key)), None))
  {
    UpdateExpense(expenseId, UpdatePayload(None, None, Some(Some(key)), None))
  }

  /** `onError`: an `Error`'s message, the `message` of a plain object as a string, or
      the fallback for anything else. Unlike the other forms, an empty message is kept. */
  function UploadErrorMessage(t: Thrown): (m: string)
    ensures t.JsError? || t.HttpError? ==> m == t.message
    ensures t.OtherValue? ==> m == UPLOAD_FAILED
  {
    match t
    case JsError(message) => message
    case HttpError(_, message) => message
    case OtherValue => UPLOAD_FAILED
  }

  class UploadForm {
    var error: Option<string>
    var file: Option<File>
    /** Whether the file input still shows a selection. */
    var inputHoldsFile: bool
    const expenseId: int
    const cache: QueryClient

    constructor (expenseId: int, cache: QueryClient)
      ensures error.None? && file.None? && !inputHoldsFile
      ensures this.expenseId == expenseId && this.cache == cache
    {
      error := None;
      file := None;
      inputHoldsFile := false;
      this.expenseId := expenseId;
      this.cache := cache;
    }

    /** The error paragraph: shown for a non-empty message. */
    function VisibleError(): (shown: Option<string>)
      reads this
      ensures shown.Some? <==> error.Some? && error.value != ""
      ensures shown.Some? ==> shown == error
    {
      if error.Some? && error.value != "" then error else None
    }

    /** The input's `onChange`: the first selected file (or none), and the error cleared. */
    method SelectFile(selected: Option<File>)
      modifies this
      ensures file == selected && inputHoldsFile == selected.Some? && error.None?
    {
      file := selected;
      inputHoldsFile := selected.Some?;
      error := None;
    }

    /** `mutationFn`: clears the error, then the three calls in order, each only after
        the previous one settled without throwing. `sent` lists the requests made;
        `failure` is what the first failing step threw. The direct write's answer is not
        checked: any status goes on to the attach call. */
    method Upload(f: File, sign: SignResult, put: PutResult, patch: Outcome)
      returns (sent: seq<Outgoing>, failure: Option<Thrown>)
      modifies this
      ensures error.None? && file == old(file) && inputHoldsFile == old(inputHoldsFile)
      ensures 1 <= |sent| <= 3 && sent[0] == Route(SignUpload(f.name, ContentTypeOf(f)))
      ensures sign.SignFailed? ==> |sent| == 1 && failure == Some(sign.thrown)
      ensures sign.Ticket? ==> |sent| >= 2 && sent[1] == PutRequest(sign.uploadUrl, f)
      ensures sign.Ticket? && put.PutFailed? ==> |sent| == 2 && failure == Some(JsError(put.message))
      ensures sign.Ticket? && put.PutAnswered? ==>
        && |sent| == 3 && sent[2] == Route(AttachCall(expenseId, sign.key))
        && failure == (if patch.Failed? then Some(patch.thrown) else None)
    {
      error := None;
      sent := [Route(SignUpload(f.name, ContentTypeOf(f)))];
      if sign.SignFailed? {
        return sent, Some(sign.thrown);
      }
      sent := sent + [PutRequest(sign.uploadUrl, f)];
      if put.PutFailed? {
        return sent, Some(JsError(put.message));
      }
      sent := sent + [Route(AttachCall(expenseId, sign.key))];
      failure := if patch.Failed? then Some(patch.thrown) else None;
    }

    /** `onSuccess`: forgets the file, empties the input, and invalidates the listing and
        this expense's entry. */
    method OnSuccess()
      modifies this, cache
      ensures file.None? && !inputHoldsFile && error == old(error)
      ensures cache.listing == old(cache.listing)
      ensures cache.log == old(cache.log) + [Invalidated(ExpensesKey), Invalidated(ExpenseKey(expenseId))]
      ensures forall k :: cache.IsStale(k)
    {
      file := None;
      inputHoldsFile := false;
      cache.InvalidateQueries(ExpensesKey);
      cache.InvalidateQueries(ExpenseKey(expenseId));
    }

    /** `onError` */
    method OnError(cause: Thrown)
      modifies this
      ensures error == Some(UploadErrorMessage(cause))
      ensures file == old(file) && inputHoldsFile == old(inputHoldsFile)
    {
      error := Some(UploadErrorMessage(cause));
    }

    /** `handleSubmit` and the whole mutation. Without a file nothing is sent and the
        prompt is shown. With one, a failure anywhere keeps the file and shows the
        failure's message; success drops the file and invalidates both cache entries. */
    method Submit(sign: SignResult, put: PutResult, patch: Outcome) returns (sent: seq<Outgoing>)
      modifies this, cache
      ensures old(file).None? ==>
        && sent == [] && error == Some(NO_FILE)
        && file == old(file) && inputHoldsFile == old(inputHoldsFile)
        && cache.log == old(cache.log) && cache.listing == old(cache.listing)
      ensures old(file).Some? ==>
        var f := old(file).value;
        var failure :=
          if sign.SignFailed? then Some(sign.thrown)
          else if put.PutFailed? then Some(JsError(put.message))
          else if patch.Failed? then Some(patch.thrown)
          else None;
        && 1 <= |sent| <= 3 && sent[0] == Route(SignUpload(f.name, ContentTypeOf(f)))
        && (sign.SignFailed? ==> |sent| == 1)
        && (sign.Ticket? ==> |sent| >= 2 && sent[1] == PutRequest(sign.uploadUrl, f))
        && (|sent| == 3 <==> sign.Ticket? && put.PutAnswered?)
        && (|sent| == 3 ==> sent[2] == Route(AttachCall(expenseId, sign.key)))
        && cache.listing == old(cache.listing)
        && (failure.Some? ==>
              && error == Some(UploadErrorMessage(failure.value))
              && file == old(file) && inputHoldsFile == old(inputHoldsFile)
              && cache.log == old(cache.log))
        && (failure.None? ==>
              && error.None? && file.None? && !inputHoldsFile
              && cache.log == old(cache.log) + [Invalidated(ExpensesKey), Invalidated(ExpenseKey(expenseId))])
    {
      if file.None? {
        error := Some(NO_FILE);
        return [];
      }
      var failure;
      sent, failure := Upload(file.value, sign, put, patch);
      if failure.Some? {
        OnError(failure.value);
      } else {
        OnSuccess();
      }
    }
  }
}
