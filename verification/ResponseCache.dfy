/**
 * The bounded response cache against a simple one: a map with expiry times and no bounds.
 * RequestState's methods compute `Stored` and `Unexpired`; here they run in sequence.
 */
module ResponseCache {
  import opened Prelude
  import opened RequestState

  datatype Op = Expire(now: Time) | Store(key: CacheKey, value: CachedResponse)

  predicate Fits(value: CachedResponse) {
    |value.body| <= MAX_CACHED_BYTES
  }

  /** The cache as it is. */
  ghost function Fast(ops: seq<Op>): Responses {
    if ops == [] then map[]
    else
      var before := Fast(ops[..|ops| - 1]);
      match ops[|ops| - 1]
      case Expire(now) => Unexpired(before, now)
      case Store(key, value) => Stored(before, key, value)
  }

  /** The cache it stands for: it keeps every value that fits until the value expires. */
  function Simple(ops: seq<Op>): Responses {
    if ops == [] then map[]
    else
      var before := Simple(ops[..|ops| - 1]);
      match ops[|ops| - 1]
      case Expire(now) => Unexpired(before, now)
      case Store(key, value) => if Fits(value) then before[key := value] else before
  }

  /** The last value stored for a key, among all stores or among those that fit. */
  function LastStored(ops: seq<Op>, key: CacheKey, fitting: bool): Option<CachedResponse> {
    if ops == [] then None
    else
      match ops[|ops| - 1]
      case Store(k, value) =>
        if k == key && (fitting ==> Fits(value)) then Some(value) else LastStored(ops[..|ops| - 1], key, fitting)
      case _ => LastStored(ops[..|ops| - 1], key, fitting)
  }

  lemma {:induction false} StoredBounded(m: Responses, key: CacheKey, value: CachedResponse)
    requires Bounded(m)
    ensures Bounded(Stored(m, key, value))
  {
    if Fits(value) {
      TotalBytesDrop(m, key);
      TotalBytesPut(m - {key}, key, value);
      TotalBytesPut(map[], key, value);
    }
  }

  lemma {:induction false} UnexpiredBounded(m: Responses, now: Time)
    requires Bounded(m)
    ensures Bounded(Unexpired(m, now))
    decreases |m|
  {
    if k :| k in m && m[k].expires <= now {
      TotalBytesDrop(m, k);
      UnexpiredBounded(m - {k}, now);
      assert Unexpired(m - {k}, now) == Unexpired(m, now);
    } else {
      assert Unexpired(m, now) == m;
    }
  }

  lemma {:induction false} FastIsBounded(ops: seq<Op>)
    ensures Bounded(Fast(ops))
  {
    if ops != [] {
      FastIsBounded(ops[..|ops| - 1]);
      match ops[|ops| - 1]
      case Expire(now) => UnexpiredBounded(Fast(ops[..|ops| - 1]), now);
      case Store(key, value) => StoredBounded(Fast(ops[..|ops| - 1]), key, value);
    }
  }

  /** Every hit of the bounded cache is a hit of the simple one, with the same value. */
  lemma {:induction false} FastRefinesSimple(ops: seq<Op>)
    ensures forall k :: k in Fast(ops) ==> k in Simple(ops) && Simple(ops)[k] == Fast(ops)[k]
  {
    if ops != [] {
      FastRefinesSimple(ops[..|ops| - 1]);
    }
  }

  lemma {:induction false} SimpleIsLastFitting(ops: seq<Op>, key: CacheKey)
    requires key in Simple(ops)
    ensures LastStored(ops, key, true) == Some(Simple(ops)[key])
  {
    var earlier := ops[..|ops| - 1];
    if key in Simple(earlier) {
      SimpleIsLastFitting(earlier, key);
    }
  }

  lemma {:induction false} FittingIsLast(ops: seq<Op>, key: CacheKey)
    requires LastStored(ops, key, false).Some? && Fits(LastStored(ops, key, false).value)
    ensures LastStored(ops, key, true) == LastStored(ops, key, false)
  {
    var earlier := ops[..|ops| - 1];
    if LastStored(ops, key, false) == LastStored(earlier, key, false) {
      FittingIsLast(earlier, key);
    }
  }

  lemma {:induction false} LastFittingFits(ops: seq<Op>, key: CacheKey)
    requires LastStored(ops, key, true).Some?
    ensures Fits(LastStored(ops, key, true).value) && LastStored(ops, key, false).Some?
  {
    var earlier := ops[..|ops| - 1];
    if LastStored(earlier, key, true).Some? {
      LastFittingFits(earlier, key);
    }
  }

  /**
   * A lookup right after expiry never lies: it yields the last value stored that fits, and
   * that value has not expired. It is the last value stored at all exactly when that one fits,
   * because storing an oversized value leaves the earlier one in place.
   */
  lemma {:induction false} LookupNeverLies(ops: seq<Op>, now: Time, key: CacheKey)
    requires key in Fast(ops + [Expire(now)])
    ensures var hit := Fast(ops + [Expire(now)])[key];
      && now < hit.expires
      && LastStored(ops, key, true) == Some(hit)
      && LastStored(ops, key, false).Some?
      && (LastStored(ops, key, false) == Some(hit) <==> Fits(LastStored(ops, key, false).value))
  {
    assert (ops + [Expire(now)])[..|ops|] == ops;
    FastRefinesSimple(ops);
    SimpleIsLastFitting(ops, key);
    LastFittingFits(ops, key);
    if Fits(LastStored(ops, key, false).value) {
      FittingIsLast(ops, key);
    }
  }

  /** A concrete stale hit: a small value, then one byte too many under the same key. */
  lemma {:induction false} OversizedStoreLeavesOldValue(key: CacheKey) returns (ops: seq<Op>)
    ensures key in Fast(ops + [Expire(1)]) && LastStored(ops, key, false).Some?
    ensures LastStored(ops, key, false).value != Fast(ops + [Expire(1)])[key]
  {
    var small := CachedResponse(200, "", 2);
    var large := CachedResponse(200, seq(MAX_CACHED_BYTES + 1, _ => 'x'), 3);
    var first := [Store(key, small)];
    ops := first + [Store(key, large)];
    assert first[..0] == [] && ops[..1] == first && (ops + [Expire(1)])[..2] == ops;
    StoredBounded(map[], key, small);
    assert Fast(first)[key] == small;
  }

  /** The bounded cache forgets nothing as long as the simple one stays within the bounds. */
  lemma {:induction false} ForgetsOnlyWhenFull(ops: seq<Op>)
    requires forall n | 0 <= n <= |ops| :: Bounded(Simple(ops[..n]))
    ensures Fast(ops) == Simple(ops)
  {
    if ops != [] {
      var earlier := ops[..|ops| - 1];
      forall n | 0 <= n <= |earlier| ensures Bounded(Simple(earlier[..n])) {
        assert earlier[..n] == ops[..n];
      }
      ForgetsOnlyWhenFull(earlier);
      assert ops[..|ops|] == ops;
      match ops[|ops| - 1]
      case Expire(_) =>
      case Store(key, value) =>
        var m := Simple(earlier);
        if Fits(value) {
          assert (m - {key})[key := value] == m[key := value];
          TotalBytesPut(m - {key}, key, value);
        }
    }
  }
}
