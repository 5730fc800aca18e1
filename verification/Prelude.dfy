/** Optional values, as Python's `None | T`. */
module Wrappers {
  datatype Option<+T> = None | Some(value: T)
}

/**
  The expiry boundary shared by every store of the gateway: a cell is still
  live at exactly its expiry instant and gone strictly after it.  Redis
  compares `now > when` and the in-memory store `time.time() > expires_at`.
 */
module Expiry {
  import opened Wrappers

  /** Seconds on a clock that never runs backwards. */
  type Time = real

  /** A stored value with the instant after which it no longer exists. */
  datatype Cell<+V> = Cell(value: V, expiry: Option<Time>)

  predicate Live(expiry: Option<Time>, now: Time) {
    expiry.None? || now <= expiry.value
  }

  /** What a read at `now` finds under `key`. */
  function Lookup<K, V>(m: map<K, Cell<V>>, key: K, now: Time): (r: Option<V>)
    ensures r.Some? <==> key in m && Live(m[key].expiry, now)
    ensures r.Some? ==> r.value == m[key].value
  {
    if key in m && Live(m[key].expiry, now) then Some(m[key].value) else None
  }
}

/** Sizes of sets. */
module Counting {
  lemma SubsetSize<T>(a: set<T>, b: set<T>)
    requires a <= b
    ensures |a| <= |b| && (a < b ==> |a| < |b|)
  {
    assert b == a + (b - a);
    assert |b| == |a| + |b - a|;
  }

  /** The numbers from `lo` up to, not including, `hi`. */
  ghost function Between(lo: int, hi: int): (r: set<nat>)
    requires 0 <= lo
    ensures |r| == if lo <= hi then hi - lo else 0
    ensures forall i: nat :: i in r <==> lo <= i < hi
    decreases hi - lo
  {
    if lo >= hi then {} else Between(lo, hi - 1) + {hi - 1}
  }
}
