/** The part of the client's query cache the forms use: the cached expense listing under
    the `["expenses"]` key, and a log of the cache operations issued, in order. A refetch
    after an invalidation happens outside the forms and is not modelled. */
module QueryCache {
  import opened Wrappers
  import opened ApiClient

  /** `["expenses"]` and `["expenses", id]`. */
  datatype QueryKey = ExpensesKey | ExpenseKey(id: int)

  /** `ExpenseListResponse`: the cached value under `["expenses"]`. */
  datatype ExpenseList = ExpenseList(expenses: seq<Expense>)

  datatype CacheEvent = Cancelled(key: QueryKey) | Written(key: QueryKey) | Invalidated(key: QueryKey)

  /** A filter matches every key it is a prefix of. */
  predicate Covers(filter: QueryKey, key: QueryKey) {
    filter == ExpensesKey || filter == key
  }

  /** Whether `key` is marked stale after `events`: the latest event that concerns it
      is an invalidation whose filter covers it, not a write of fresh data. */
  predicate MarkedStale(events: seq<CacheEvent>, key: QueryKey)
    decreases |events|
  {
    if events == [] then false
    else
      var last := events[|events| - 1];
      if last.Invalidated? && Covers(last.key, key) then true
      else if last.Written? && last.key == key then false
      else MarkedStale(events[..|events| - 1], key)
  }

  /** Invalidating `["expenses"]` also marks every `["expenses", id]` stale; invalidating
      one `["expenses", id]` leaves the listing and every other detail as they were. */
  lemma ListFilterCoversDetails(events: seq<CacheEvent>, id: int, other: int)
    requires other != id
    ensures MarkedStale(events + [Invalidated(ExpensesKey)], ExpenseKey(id))
    ensures MarkedStale(events + [Invalidated(ExpenseKey(id))], ExpensesKey) == MarkedStale(events, ExpensesKey)
    ensures MarkedStale(events + [Invalidated(ExpenseKey(id))], ExpenseKey(other)) == MarkedStale(events, ExpenseKey(other))
  {
    var e := events + [Invalidated(ExpenseKey(id))];
    assert e[..|e| - 1] == events;
  }

  class QueryClient {
    var listing: Option<ExpenseList>
    var log: seq<CacheEvent>

    /** Whether the entry under `key` is marked stale by the operations so far. */
    predicate IsStale(key: QueryKey)
      reads this
    {
      MarkedStale(log, key)
    }

    constructor (listing: Option<ExpenseList>)
      ensures this.listing == listing && log == []
      ensures forall k :: !IsStale(k)
    {
      this.listing := listing;
      log := [];
    }

    /** `cancelQueries({queryKey})`: stops in-flight fetches, keeps the data. */
    method CancelQueries(key: QueryKey)
      modifies this
      ensures listing == old(listing)
      ensures log == old(log) + [Cancelled(key)]
      ensures forall k :: IsStale(k) == old(IsStale(k))
    {
      log := log + [Cancelled(key)];
      assert log[..|log| - 1] == old(log);
    }

    /** `setQueryData(["expenses"], data)` */
    method SetListing(data: ExpenseList)
      modifies this
      ensures listing == Some(data)
      ensures log == old(log) + [Written(ExpensesKey)]
      ensures !IsStale(ExpensesKey)
      ensures forall id :: IsStale(ExpenseKey(id)) == old(IsStale(ExpenseKey(id)))
    {
      listing := Some(data);
      log := log + [Written(ExpensesKey)];
      assert log[..|log| - 1] == old(log);
    }

    /** `invalidateQueries({queryKey})`: marks matching entries stale, keeps the data. */
    method InvalidateQueries(key: QueryKey)
      modifies this
      ensures listing == old(listing)
      ensures log == old(log) + [Invalidated(key)]
      ensures forall k :: IsStale(k) <==> Covers(key, k) || old(IsStale(k))
    {
      log := log + [Invalidated(key)];
      assert log[..|log| - 1] == old(log);
    }
  }
}
