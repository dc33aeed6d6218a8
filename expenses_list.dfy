/** The list component, frontend/src/components/ExpensesList.tsx: a loaded copy of the
    expenses with a load status, an error message and the id being deleted. Each load
    belongs to one effect, and the next effect cancels it, so a stale answer is dropped. The settled
    calls are inputs: `LoadResult` for the listing fetch, `DeleteResult` for a delete. */
module ExpensesList {
  import opened Wrappers
  import opened ApiClient

  const LOAD_FAILED := "Failed to load expenses"
  const DELETE_FAILED := "Failed to delete expense"

  datatype Status = Idle | Loading | Ready | Error

  datatype LoadResult = Loaded(expenses: seq<Expense>) | LoadFailed(thrown: Thrown)
  datatype DeleteResult = Deleted | DeleteFailed(thrown: Thrown)

  /** `items.filter(item => item.id !== id)`: every copy of a row with another id is
      kept, every row with this id is dropped. */
  function Without(items: seq<Expense>, id: int): (r: seq<Expense>)
    ensures |r| <= |items|
    ensures forall e :: e in r <==> e in items && e.id != id
    ensures forall e :: multiset(r)[e] == (if e.id == id then 0 else multiset(items)[e])
  {
    if items == [] then []
    else
      assert items == [items[0]] + items[1..];
      if items[0].id == id then Without(items[1..], id)
      else [items[0]] + Without(items[1..], id)
  }

  /** Removing an id nobody has leaves the list as it is. */
  lemma {:induction false} WithoutAbsent(items: seq<Expense>, id: int)
    requires forall e :: e in items ==> e.id != id
    ensures Without(items, id) == items
  {
    if items != [] {
      assert items[0] in items;
      assert forall e :: e in items[1..] ==> e in items;
      WithoutAbsent(items[1..], id);
    }
  }

  /** A second removal of the same id changes nothing. */
  lemma WithoutIdempotent(items: seq<Expense>, id: int)
    ensures Without(Without(items, id), id) == Without(items, id)
  {
    WithoutAbsent(Without(items, id), id);
  }

  /** `a` is `b` with some entries dropped, the rest in their order. */
  predicate IsSubsequence(a: seq<Expense>, b: seq<Expense>)
    decreases |b|
  {
    if a == [] then true
    else if b == [] then false
    else (a[0] == b[0] && IsSubsequence(a[1..], b[1..])) || IsSubsequence(a, b[1..])
  }

  /** Removal keeps the remaining rows in their order. */
  lemma {:induction false} WithoutKeepsOrder(items: seq<Expense>, id: int)
    ensures IsSubsequence(Without(items, id), items)
  {
    if items != [] {
      WithoutKeepsOrder(items[1..], id);
      if items[0].id != id {
        assert Without(items, id)[1..] == Without(items[1..], id);
      }
    }
  }

  /** The error paragraph as the component renders it: only in the error status, and
      only for a non-empty message. A failed delete leaves the status as it was, so its
      message is hidden unless a load had already failed. */
  function ShownErrorAsWritten(status: Status, error: Option<string>): (shown: Option<string>)
    ensures shown.Some? <==> status == Error && error.Some? && error.value != ""
    ensures shown.Some? ==> shown == error
  {
    if status == Error && error.Some? && error.value != "" then error else None
  }

  /** The rendering the error handling evidently means: any non-empty message is shown. */
  function ShownError(error: Option<string>): (shown: Option<string>)
    ensures shown.Some? <==> error.Some? && error.value != ""
    ensures shown.Some? ==> shown == error
  {
    if error.Some? && error.value != "" then error else None
  }

  /** The two renderings agree on every load failure; they part on a delete failure while
      the list is ready, which the written one hides. */
  lemma DeleteFailureHidden()
    ensures ShownErrorAsWritten(Ready, Some(DELETE_FAILED)).None?
    ensures ShownError(Some(DELETE_FAILED)) == Some(DELETE_FAILED)
    ensures forall e :: ShownErrorAsWritten(Error, e) == ShownError(e)
  {
  }

  /** The `cancelled` flag one effect closes over. */
  class LoadEffect {
    var cancelled: bool

    constructor ()
      ensures !cancelled
    {
      cancelled := false;
    }

    /** The cleanup returned by the effect. */
    method Cancel()
      modifies this
      ensures cancelled
    {
      cancelled := true;
    }
  }

  class ListView {
    var items: seq<Expense>
    var status: Status
    var error: Option<string>
    var deletingId: Option<int>

    constructor ()
      ensures items == [] && status == Idle && error.None? && deletingId.None?
    {
      items := [];
      status := Idle;
      error := None;
      deletingId := None;
    }

    /** The error paragraph under the corrected rendering `ShownError`: any non-empty
        message is shown. The component as written shows
        `ShownErrorAsWritten(status, error)` instead, which hides a delete failure while
        the list is ready. */
    function VisibleError(): (shown: Option<string>)
      reads this
      ensures shown.Some? <==> error.Some? && error.value != ""
      ensures shown.Some? ==> shown == error
    {
      ShownError(error)
    }

    /** The start of `loadExpenses`: loading, no error; the old rows stay visible. */
    method StartLoad() returns (effect: LoadEffect)
      modifies this
      ensures fresh(effect) && !effect.cancelled
      ensures status == Loading && error.None?
      ensures items == old(items) && deletingId == old(deletingId)
    {
      effect := new LoadEffect();
      status := Loading;
      error := None;
    }

    /** A change of `refreshKey`: the current effect's cleanup, then a new effect. */
    method Refresh(running: LoadEffect) returns (effect: LoadEffect)
      modifies this, running
      ensures running.cancelled
      ensures fresh(effect) && !effect.cancelled && effect != running
      ensures status == Loading && error.None?
      ensures items == old(items) && deletingId == old(deletingId)
    {
      running.Cancel();
      effect := StartLoad();
    }

    /** The end of `loadExpenses`. A cancelled load changes nothing. Otherwise a listing
        replaces the rows; a failure keeps them and records the message of an `Error`,
        or the fallback for anything else and for an empty message. */
    method FinishLoad(effect: LoadEffect, result: LoadResult)
      modifies this
      ensures effect.cancelled ==> items == old(items) && status == old(status) && error == old(error)
      ensures !effect.cancelled && result.Loaded? ==>
        items == result.expenses && status == Ready && error == old(error)
      ensures !effect.cancelled && result.LoadFailed? ==>
        && items == old(items) && status == Error
        && error == Some(MessageOr(result.thrown, LOAD_FAILED))
      ensures deletingId == old(deletingId)
    {
      if effect.cancelled {
        return;
      }
      match result {
        case Loaded(expenses) =>
          items := expenses;
          status := Ready;
        case LoadFailed(thrown) =>
          error := Some(MessageOr(thrown, LOAD_FAILED));
          status := Error;
      }
    }

    /** The start of `handleDelete`. */
    method BeginDelete(id: int)
      modifies this
      ensures deletingId == Some(id) && error.None?
      ensures items == old(items) && status == old(status)
    {
      deletingId := Some(id);
      error := None;
    }

    /** The end of `handleDelete`: on success the rows with that id go; on failure the
        rows stay and the message is recorded. `deletingId` is cleared either way. */
    method FinishDelete(id: int, result: DeleteResult)
      modifies this
      ensures result.Deleted? ==> items == Without(old(items), id) && error == old(error)
      ensures result.DeleteFailed? ==> items == old(items) && error == Some(MessageOr(result.thrown, DELETE_FAILED))
      ensures deletingId.None? && status == old(status)
    {
      match result {
        case Deleted =>
          items := Without(items, id);
        case DeleteFailed(thrown) =>
          error := Some(MessageOr(thrown, DELETE_FAILED));
      }
      deletingId := None;
    }

    /** `handleDelete` as a whole. A failure is always visible: its message is never
        empty. */
    method HandleDelete(id: int, result: DeleteResult)
      modifies this
      ensures result.Deleted? ==> items == Without(old(items), id) && error.None?
      ensures result.DeleteFailed? ==>
        && items == old(items)
        && VisibleError() == Some(MessageOr(result.thrown, DELETE_FAILED))
      ensures deletingId.None? && status == old(status)
    {
      BeginDelete(id);
      FinishDelete(id, result);
    }
  }
}
