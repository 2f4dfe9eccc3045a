/** The in-memory stand-in for the Redis client that test mode installs:
    a dictionary of counters. */
module Store {

  /** The value `incr` finds for `k`: an absent key counts as 0. */
  function Count(kv: map<string, int>, k: string): int {
    if k in kv then kv[k] else 0
  }

  /** The table after one `incr(k)`. */
  function Bumped(kv: map<string, int>, k: string): (r: map<string, int>)
    ensures r.Keys == kv.Keys + {k}
    ensures Count(r, k) == Count(kv, k) + 1
    ensures forall other :: other != k ==> Count(r, other) == Count(kv, other)
  {
    kv[k := Count(kv, k) + 1]
  }

  /** The table after `n` successive `incr(k)` calls. */
  function BumpedN(kv: map<string, int>, k: string, n: nat): map<string, int>
    decreases n
  {
    if n == 0 then kv else Bumped(BumpedN(kv, k, n - 1), k)
  }

  /** Every stored counter is positive: only `incr` ever writes a value. */
  predicate AllPositive(kv: map<string, int>) {
    forall k :: k in kv ==> kv[k] > 0
  }

  /** `n` increments of `k` raise its counter by exactly `n` and leave every
      other counter as it was: no double counting and no lost update. */
  lemma {:induction false} BumpedNCounts(kv: map<string, int>, k: string, n: nat)
    ensures Count(BumpedN(kv, k, n), k) == Count(kv, k) + n
    ensures forall other :: other != k ==> Count(BumpedN(kv, k, n), other) == Count(kv, other)
    decreases n
  {
    if n > 0 {
      BumpedNCounts(kv, k, n - 1);
    }
  }

  /** Starting from an empty store, `n` increments of `k` leave `k` at `n`. */
  lemma FreshStoreCountsCalls(k: string, n: nat)
    ensures Count(BumpedN(map[], k, n), k) == n
    ensures BumpedN(map[], k, n).Keys == if n == 0 then {} else {k}
  {
    BumpedNCounts(map[], k, n);
    BumpedNKeys(map[], k, n);
  }

  lemma {:induction false} BumpedNKeys(kv: map<string, int>, k: string, n: nat)
    ensures BumpedN(kv, k, n).Keys == if n == 0 then kv.Keys else kv.Keys + {k}
    decreases n
  {
    if n > 0 {
      BumpedNKeys(kv, k, n - 1);
    }
  }

  /** Increments of two keys commute, so the final table does not depend on
      the order in which concurrent requests reach the store. */
  lemma BumpedCommutes(kv: map<string, int>, a: string, b: string)
    ensures Bumped(Bumped(kv, a), b) == Bumped(Bumped(kv, b), a)
  {
    if a != b {
      var ab, ba := Bumped(Bumped(kv, a), b), Bumped(Bumped(kv, b), a);
      assert forall x :: x in ab ==> x in ba && ab[x] == ba[x];
    }
  }

  /** The test-mode store (`MiniRedis`): a dictionary `kv` of counters that
      `Incr` updates in place. */
  class MiniRedis {
    var kv: map<string, int>

    constructor ()
      ensures kv == map[]
    {
      kv := map[];
    }

    /** `incr(k)`: store the previous count of `k` (0 when absent) plus one,
        and return the stored value. */
    method Incr(k: string) returns (v: int)
      modifies this
      ensures v == Count(old(kv), k) + 1
      ensures kv == Bumped(old(kv), k)
      ensures Count(kv, k) == v
      ensures forall other :: other != k ==> Count(kv, other) == Count(old(kv), other)
      ensures AllPositive(old(kv)) ==> AllPositive(kv)
    {
      kv := kv[k := Count(kv, k) + 1];
      v := kv[k];
    }

    /** `ping()` always reports the store alive and never raises. */
    function Ping(): (alive: bool)
      ensures alive
    {
      true
    }
  }
}
