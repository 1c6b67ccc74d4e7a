/**
 * The transaction-count store: block number -> number of transactions seen
 * for that block, written by the flashblock feed and read by the block list.
 */
module TransactionCounts {
  import opened Common

  /** `transactionCounts[n] || 0`: a missing count reads as 0. */
  function CountOrZero(counts: map<int, int>, n: int): int {
    if n in counts then counts[n] else 0
  }

  /** The map after `addTransactions(n, delta)`: the count of `n` grows by `delta`, nothing else changes. */
  function Added(counts: map<int, int>, n: int, delta: int): (r: map<int, int>)
    ensures r.Keys == counts.Keys + {n}
    ensures r[n] == CountOrZero(counts, n) + delta
    ensures forall k :: k in counts && k != n ==> r[k] == counts[k]
  {
    counts[n := CountOrZero(counts, n) + delta]
  }

  /** The map after `setTransactionCount(n, c)`: the count of `n` is `c`, nothing else changes. */
  function Assigned(counts: map<int, int>, n: int, c: int): (r: map<int, int>)
    ensures r.Keys == counts.Keys + {n}
    ensures r[n] == c
    ensures forall k :: k in counts && k != n ==> r[k] == counts[k]
  {
    counts[n := c]
  }

  /** `getTransactionCount(n)`: the stored count, `None` for `undefined`. */
  function Lookup(counts: map<int, int>, n: int): (r: Option<int>)
    ensures r.None? <==> n !in counts
    ensures r.Some? ==> r.value == counts[n]
  {
    if n in counts then Some(counts[n]) else None
  }

  class Store {
    var counts: map<int, int>

    /** A store starts empty. */
    constructor ()
      ensures counts == map[]
    {
      counts := map[];
    }

    method SetTransactionCount(n: int, c: int)
      modifies this
      ensures counts == Assigned(old(counts), n, c)
    {
      counts := counts[n := c];
    }

    method AddTransactions(n: int, delta: int)
      modifies this
      ensures counts == Added(old(counts), n, delta)
    {
      var current := if n in counts then counts[n] else 0;
      counts := counts[n := current + delta];
    }

    function GetTransactionCount(n: int): (r: Option<int>)
      reads this
      ensures r.None? <==> n !in counts
      ensures r.Some? ==> r.value == counts[n]
    {
      Lookup(counts, n)
    }

    method Clear()
      modifies this
      ensures counts == map[]
      ensures forall n :: GetTransactionCount(n) == None
    {
      counts := map[];
    }
  }

  /** Adding to a block number never written yields exactly the delta. */
  lemma AddToFresh(counts: map<int, int>, n: int, delta: int)
    requires n !in counts
    ensures Lookup(Added(counts, n, delta), n) == Some(delta)
  {
  }

  /** Two adds accumulate on top of the earlier count (0 when there was none). */
  lemma AddsAccumulate(counts: map<int, int>, n: int, a: int, b: int)
    ensures Lookup(Added(Added(counts, n, a), n, b), n) == Some(CountOrZero(counts, n) + a + b)
  {
  }

  /** A set overrides every earlier add. */
  lemma SetOverridesAdds(counts: map<int, int>, n: int, a: int, c: int)
    ensures Lookup(Assigned(Added(counts, n, a), n, c), n) == Some(c)
  {
  }
}
