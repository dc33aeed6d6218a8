/** The add-expense form, frontend/src/components/AddExpenseForm.tsx: two text fields,
    a client-side gate, and a create mutation that optimistically appends a provisional
    row to the cached listing and rolls it back on failure. The string-to-number
    conversion `Number(amount)` is the parameter `toNumber` (None for a non-finite
    result); the clock reading is `now`; the settled create call is `outcome`. */
module AddExpenseForm {
  import opened Wrappers
  import opened Text
  import opened ApiClient
  import opened QueryCache

  const ADD_FAILED := "Failed to add expense"

  /** `Math.round`: the nearest integer, halves rounded up. */
  function Round(x: real): (r: int)
    ensures x - 0.5 < r as real <= x + 0.5
  {
    (x + 0.5).Floor
  }

  /** `amount === "" ? NaN : Number(amount)`, None standing for any non-finite number. */
  function AmountNumber(amount: string, toNumber: string -> Option<real>): (n: Option<real>)
    ensures amount == "" ==> n.None?
    ensures amount != "" ==> n == toNumber(amount)
  {
    if amount == "" then None else toNumber(amount)
  }

  /** `titleIsValid`: at least three characters once surrounding whitespace is removed. */
  function TitleIsValid(title: string): (ok: bool)
    ensures ok <==> |Trim(title)| >= 3
    ensures ok ==> |title| >= 3
  {
    |Trim(title)| >= 3
  }

  /** `amountIsValid`: finite and greater than zero. */
  function AmountIsValid(n: Option<real>): (ok: bool)
    ensures ok <==> n.Some? && n.value > 0.0
    ensures ok ==> Round(n.value) >= 0
  {
    n.Some? && n.value > 0.0
  }

  /** The row shown in the cached listing while the create call is in flight. */
  function Provisional(now: int, title: string, amount: int): (e: Expense)
    ensures e.id == now && e.title == title && e.amount == amount && e.fileUrl.None?
  {
    Expense(now, title, amount, None)
  }

  /** The gate of `handleSubmit`. */
  function Admits(title: string, amount: string, toNumber: string -> Option<real>): (ok: bool)
    ensures ok ==> amount != "" && |Trim(title)| >= 3
    ensures ok <==> TitleIsValid(title) && AmountIsValid(AmountNumber(amount, toNumber))
  {
    TitleIsValid(title) && AmountIsValid(AmountNumber(amount, toNumber))
  }

  /** The cached listing with one more row at the end, when there is one. */
  function Appended(listing: Option<ExpenseList>, item: Expense): (r: Option<ExpenseList>)
    ensures r.Some? <==> listing.Some?
    ensures r.Some? ==> r.value.expenses == listing.value.expenses + [item]
  {
    if listing.Some? then Some(ExpenseList(listing.value.expenses + [item])) else None
  }

  /** The cache operations of one mutation, in order: cancel; write the provisional
      listing when one was cached; write the snapshot back on failure; invalidate. */
  function MutationEvents(cached: bool, failed: bool): (events: seq<CacheEvent>)
    ensures |events| == 2 + (if cached then 1 else 0) + (if cached && failed then 1 else 0)
    ensures events[0] == Cancelled(ExpensesKey) && events[|events| - 1] == Invalidated(ExpensesKey)
  {
    [Cancelled(ExpensesKey)]
      + (if cached then [Written(ExpensesKey)] else [])
      + (if cached && failed then [Written(ExpensesKey)] else [])
      + [Invalidated(ExpensesKey)]
  }

  class Form {
    var title: string
    var amount: string
    /** `mutation.error` while the last mutation is in the error state. */
    var failure: Option<Thrown>
    const cache: QueryClient

    constructor (cache: QueryClient)
      ensures title == "" && amount == "" && failure.None? && this.cache == cache
    {
      title := "";
      amount := "";
      failure := None;
      this.cache := cache;
    }

    /** The paragraph under the button: shown only in the error state. */
    function ErrorText(): (text: Option<string>)
      reads this
      ensures text.Some? <==> failure.Some?
      ensures text.Some? ==> text.value == MessageOr(failure.value, ADD_FAILED) && text.value != ""
    {
      if failure.Some? then Some(MessageOr(failure.value, ADD_FAILED)) else None
    }

    /** The title hint ("at least 3 characters") is shown once something was typed that
        fails the gate; a title of white space alone shows it. */
    function TitleHintShown(): (shown: bool)
      reads this
      ensures shown <==> title != "" && |Trim(title)| < 3
    {
      |title| > 0 && !TitleIsValid(title)
    }

    /** The amount hint ("greater than 0") is shown once something was typed that is not
        a finite positive number. */
    function AmountHintShown(toNumber: string -> Option<real>): (shown: bool)
      reads this
      ensures shown <==> amount != "" && !(toNumber(amount).Some? && toNumber(amount).value > 0.0)
    {
      |amount| > 0 && !AmountIsValid(AmountNumber(amount, toNumber))
    }

    /** A submission the gate admits shows neither hint. */
    lemma AdmittedShowsNoHint(toNumber: string -> Option<real>)
      requires Admits(title, amount, toNumber)
      ensures !TitleHintShown() && !AmountHintShown(toNumber)
    {
    }

    /** `onMutate`: cancels listing fetches, snapshots the cached listing and, when there
        is one, appends the provisional row. The snapshot is the rollback context. */
    method OnMutate(newTitle: string, newAmount: int, now: int) returns (previous: Option<ExpenseList>)
      modifies cache
      ensures previous == old(cache.listing)
      ensures previous.Some? ==>
        && cache.listing == Some(ExpenseList(previous.value.expenses + [Provisional(now, newTitle, newAmount)]))
        && cache.log == old(cache.log) + [Cancelled(ExpensesKey), Written(ExpensesKey)]
      ensures previous.None? ==> cache.listing.None? && cache.log == old(cache.log) + [Cancelled(ExpensesKey)]
    {
      cache.CancelQueries(ExpensesKey);
      previous := cache.listing;
      if previous.Some? {
        cache.SetListing(ExpenseList(previous.value.expenses + [Provisional(now, newTitle, newAmount)]));
      }
    }

    /** `onSuccess`: empties both fields; the provisional row stays until a refetch. */
    method OnSuccess()
      modifies this
      ensures title == "" && amount == ""
      ensures failure == old(failure)
    {
      title := "";
      amount := "";
    }

    /** `onError`: puts the snapshot back when there was one. */
    method OnError(previous: Option<ExpenseList>)
      modifies cache
      ensures previous.Some? ==> cache.listing == previous && cache.log == old(cache.log) + [Written(ExpensesKey)]
      ensures previous.None? ==> cache.listing == old(cache.listing) && cache.log == old(cache.log)
    {
      if previous.Some? {
        cache.SetListing(previous.value);
      }
    }

    /** `onSettled`: marks the listing stale whatever the outcome. */
    method OnSettled()
      modifies cache
      ensures cache.listing == old(cache.listing)
      ensures cache.log == old(cache.log) + [Invalidated(ExpensesKey)]
      ensures forall k :: cache.IsStale(k)
    {
      cache.InvalidateQueries(ExpensesKey);
    }

    /** `mutation.mutate(item)`: the whole mutation for one item. On failure the cached
        listing is exactly what it was before and the fields keep their text; on success
        the provisional row remains and the fields are emptied. Either way the listing is
        invalidated last. */
    method Mutate(newTitle: string, newAmount: int, now: int, outcome: Outcome) returns (sent: Outgoing)
      modifies this, cache
      ensures sent == Route(CreateExpense(CreatePayload(newTitle, newAmount, None)))
      ensures failure == (if outcome.Failed? then Some(outcome.thrown) else None)
      ensures cache.log == old(cache.log) + MutationEvents(old(cache.listing).Some?, outcome.Failed?)
      ensures outcome.Failed? ==> title == old(title) && amount == old(amount) && cache.listing == old(cache.listing)
      ensures !outcome.Failed? ==>
        && title == "" && amount == ""
        && cache.listing == Appended(old(cache.listing), Provisional(now, newTitle, newAmount))
      ensures forall k :: cache.IsStale(k)
    {
      failure := None;
      var previous := OnMutate(newTitle, newAmount, now);
      sent := Route(CreateExpense(CreatePayload(newTitle, newAmount, None)));
      if outcome.Failed? {
        failure := Some(outcome.thrown);
        OnError(previous);
      } else {
        OnSuccess();
      }
      OnSettled();
    }

    /** `handleSubmit`: a submission the gate refuses sends nothing and changes nothing;
        otherwise the trimmed title and the rounded amount go through the mutation. */
    method Submit(toNumber: string -> Option<real>, now: int, outcome: Outcome) returns (sent: Option<Outgoing>)
      modifies this, cache
      ensures !Admits(old(title), old(amount), toNumber) ==>
        && sent.None?
        && title == old(title) && amount == old(amount) && failure == old(failure)
        && cache.listing == old(cache.listing) && cache.log == old(cache.log)
      ensures Admits(old(title), old(amount), toNumber) ==>
        var n := Round(AmountNumber(old(amount), toNumber).value);
        && sent == Some(Route(CreateExpense(CreatePayload(Trim(old(title)), n, None))))
        && failure == (if outcome.Failed? then Some(outcome.thrown) else None)
        && cache.log == old(cache.log) + MutationEvents(old(cache.listing).Some?, outcome.Failed?)
        && (outcome.Failed? ==> title == old(title) && amount == old(amount) && cache.listing == old(cache.listing))
        && (!outcome.Failed? ==>
              && title == "" && amount == ""
              && cache.listing == Appended(old(cache.listing), Provisional(now, Trim(old(title)), n)))
    {
      var n := AmountNumber(amount, toNumber);
      if !TitleIsValid(title) || !AmountIsValid(n) {
        return None;
      }
      var out := Mutate(Trim(title), Round(n.value), now, outcome);
      sent := Some(out);
    }
  }
}
