/** The in-process memory backend (pkg/cache/memory): a map from key to item with a
    lifespan, read lazily (an expired item is reported, not removed) and cleaned by a
    periodic two-phase sweep. The clock is the explicit parameter `now`, in nanoseconds. */
module Memory {
  import opened MError
  import opened Cache
  import opened Strconv

  /** Seconds between sweeps when the configuration names no interval. */
  const DefaultEvery: int := 60
  const Second: int := 1_000_000_000

  const ConfigFmt := "invalid config, please check your input: %s"

  /** A stored entry: the value, when it was stored and how long it lives (0: forever). */
  datatype Item = Item(val: Value, createdTime: int, lifespan: int)

  /** `isExpire`: a zero lifespan never expires; otherwise the item is expired once the
      time elapsed since it was stored is strictly greater than its lifespan. */
  predicate IsExpire(it: Item, now: int)
    ensures it.lifespan == 0 ==> !IsExpire(it, now)
    ensures it.lifespan != 0 ==> (IsExpire(it, now) <==> it.createdTime + it.lifespan < now)
  {
    it.lifespan != 0 && now - it.createdTime > it.lifespan
  }

  /** What `Get(key)` reports at time `now` for the given items. */
  function Lookup(items: map<string, Item>, key: string, now: int): Outcome {
    if key !in items then Miss(ErrKeyNotExist)
    else if IsExpire(items[key], now) then Miss(ErrKeyExpired)
    else Hit(items[key].val)
  }

  /** The outcome of each key in turn. */
  function Outcomes(items: map<string, Item>, keys: seq<string>, now: int): (outs: seq<Outcome>)
    ensures |outs| == |keys|
    ensures forall i :: 0 <= i < |keys| ==> outs[i] == Lookup(items, keys[i], now)
  {
    seq(|keys|, i requires 0 <= i < |keys| => Lookup(items, keys[i], now))
  }

  /** The keys whose items are expired at `now`. */
  function ExpiredSet(items: map<string, Item>, now: int): set<string> {
    set k | k in items && IsExpire(items[k], now)
  }

  /** The items a sweep at `now` keeps. */
  function Swept(items: map<string, Item>, now: int): map<string, Item> {
    map k | k in items && !IsExpire(items[k], now) :: items[k]
  }

  /** Go's `int64` multiplication wraps around modulo 2^64. */
  function Wrap64(x: int): (r: Int64)
    ensures MinInt64 <= x <= MaxInt64 ==> r == x
  {
    (x - MinInt64) % 0x1_0000_0000_0000_0000 + MinInt64
  }

  // ---------------------------------------------------------------------------
  // Expiry

  /** A lifespan of 0 means forever: such an item is never expired. */
  lemma ForeverNeverExpires(it: Item, now: int)
    requires it.lifespan == 0
    ensures !IsExpire(it, now)
  {
  }

  /** The comparison is strict: when exactly the lifespan has elapsed the item is still
      live, and one nanosecond later a non-zero lifespan has run out. */
  lemma ExpiryBoundary(it: Item)
    requires it.lifespan != 0
    ensures !IsExpire(it, it.createdTime + it.lifespan)
    ensures IsExpire(it, it.createdTime + it.lifespan + 1)
  {
  }

  /** Once expired, an item stays expired. */
  lemma ExpiryMonotone(it: Item, now: int, later: int)
    requires IsExpire(it, now) && now <= later
    ensures IsExpire(it, later)
  {
  }

  // ---------------------------------------------------------------------------
  // Properties of the operations, stated on the map they produce

  /** After `Put`, `Get` of that key returns the value until the lifespan has elapsed,
      and reports it expired afterwards; a lifespan of 0 keeps it forever. */
  lemma PutThenGet(items: map<string, Item>, key: string, v: Value, timeout: int, at: int, now: int)
    ensures Lookup(items[key := Item(v, at, timeout)], key, now)
            == if timeout == 0 || now - at <= timeout then Hit(v) else Miss(ErrKeyExpired)
  {
  }

  /** `Put` of one key does not change what any other key reports. */
  lemma PutLeavesOthers(items: map<string, Item>, key: string, it: Item, other: string, now: int)
    requires other != key
    ensures Lookup(items[key := it], other, now) == Lookup(items, other, now)
  {
  }

  /** After `Delete` the key is reported missing; deleting again changes nothing, and no
      other key is affected. */
  lemma DeleteProperties(items: map<string, Item>, key: string, other: string, now: int)
    requires other != key
    ensures Lookup(items - {key}, key, now) == Miss(ErrKeyNotExist)
    ensures (items - {key}) - {key} == items - {key}
    ensures Lookup(items - {key}, other, now) == Lookup(items, other, now)
  {
  }

  /** A sweep leaves no expired item behind and removes no live one. */
  lemma SweepExact(items: map<string, Item>, now: int)
    ensures forall k :: k in Swept(items, now) ==> !IsExpire(Swept(items, now)[k], now)
    ensures forall k :: k in items && !IsExpire(items[k], now) ==>
              k in Swept(items, now) && Swept(items, now)[k] == items[k]
    ensures Swept(items, now).Keys == items.Keys - ExpiredSet(items, now)
  {
  }

  /** Keeping the live items is removing the expired keys. */
  lemma SweptIsRemoval(items: map<string, Item>, now: int)
    ensures Swept(items, now) == items - ExpiredSet(items, now)
  {
    var a, b := Swept(items, now), items - ExpiredSet(items, now);
    assert a.Keys == b.Keys;
    assert forall k :: k in a ==> a[k] == b[k];
  }

  /** A sweep at `now` changes what `Get` reports at `now` or any later time in one way
      only: a key that was reported expired is afterwards reported missing. */
  lemma {:induction false} SweepOnlyForgetsExpired(items: map<string, Item>, now: int, later: int, key: string)
    requires now <= later
    ensures Lookup(Swept(items, now), key, later) ==
            if key in ExpiredSet(items, now) then Miss(ErrKeyNotExist) else Lookup(items, key, later)
    ensures key in ExpiredSet(items, now) ==> Lookup(items, key, later) == Miss(ErrKeyExpired)
  {
    if key in ExpiredSet(items, now) {
      ExpiryMonotone(items[key], now, later);
    }
  }

  /** The memory cache object (`Cache` in memory.go). The read/write lock is not modelled:
      every method runs to completion before the next one starts. */
  class MemoryCache {
    var items: map<string, Item>
    var every: int
    var dur: Int64

    /** `NewMemoryCache()`: an empty map, no sweep interval yet. */
    constructor ()
      ensures items == map[] && every == 0 && dur == 0
    {
      items, every, dur := map[], 0, 0;
    }

    /** `Get(key)`: missing, expired or the stored value; the map is not changed, so an
        expired item stays until a sweep removes it. */
    method Get(key: string, now: int) returns (val: Value, err: Option<Error>)
      ensures key !in items ==> val == Nil && err == Some(ErrKeyNotExist)
      ensures key in items && IsExpire(items[key], now) ==> val == Nil && err == Some(ErrKeyExpired)
      ensures key in items && !IsExpire(items[key], now) ==> val == items[key].val && err == None
      ensures Lookup(items, key, now) == if err.None? then Hit(val) else Miss(err.value)
    {
      if key in items {
        var itm := items[key];
        if IsExpire(itm, now) {
          return Nil, Some(ErrKeyExpired);
        }
        return itm.val, None;
      }
      return Nil, Some(ErrKeyNotExist);
    }

    /** `GetMulti(keys)`: one slot per key, holding the value where `Get` succeeded and nil
        elsewhere; the error is nil when every key succeeded and otherwise lists each
        failed key with its error, in key order. */
    method GetMulti(keys: seq<string>, now: int) returns (rc: seq<Value>, err: Option<Error>)
      ensures |rc| == |keys|
      ensures forall i :: 0 <= i < |keys| ==>
                rc[i] == if Lookup(items, keys[i], now).Hit? then Lookup(items, keys[i], now).val else Nil
      ensures err.None? <==> forall i :: 0 <= i < |keys| ==> Lookup(items, keys[i], now).Hit?
      ensures err == Aggregate(FailureEntries(keys, Outcomes(items, keys, now)))
    {
      ghost var outs := Outcomes(items, keys, now);
      rc := seq(|keys|, _ => Nil);
      var keysErr: seq<string> := [];
      for i := 0 to |keys|
        invariant FilledUpTo(rc, outs, i)
        invariant keysErr == FailureEntries(keys[..i], outs[..i])
      {
        var val, e := Get(keys[i], now);
        FailureEntriesPrefix(keys, outs, i);
        if e.Some? {
          FilledSkip(rc, outs, i);
          keysErr := keysErr + [KeyError(keys[i], e.value)];
          continue;
        }
        FilledHit(rc, outs, i);
        rc := rc[i := val];
      }
      assert keys[..|keys|] == keys && outs[..|keys|] == outs;
      assert rc == Slots(outs);
      AggregateNilIff(keys, outs);
      err := if |keysErr| == 0 then None else Some(ErrorOf(Fmt.Join(keysErr, "; ")));
    }

    /** `Put(key, val, timeout)`: stores a new item created now, replacing any previous one;
        no other key changes. */
    method Put(key: string, val: Value, timeout: int, now: int) returns (err: Option<Error>)
      modifies this`items
      ensures items == old(items)[key := Item(val, now, timeout)]
      ensures err == None
    {
      items := items[key := Item(val, now, timeout)];
      return None;
    }

    /** `Delete(key)`: removes the key if present; never fails. */
    method Delete(key: string) returns (err: Option<Error>)
      modifies this`items
      ensures items == old(items) - {key}
      ensures err == None
    {
      items := items - {key};
      return None;
    }

    /** `Start(config)`: an undecodable configuration is reported, wrapped with the text;
        otherwise the sweep interval is the configured `interval` (60 when absent, and
        when the configuration is `null`, since a nil map has no entries), in
        seconds, and `dur` is that many seconds as a 64-bit nanosecond count. Starting the
        sweep task itself is `Sweep`, one tick at a time. */
    method Start(config: Decoded<Int64>, text: string) returns (err: Option<Error>)
      modifies this`every, this`dur
      ensures config.Undecodable? ==>
                err == Wrapf(Some(config.cause), ConfigFmt, [text]) &&
                every == old(every) && dur == old(dur)
      ensures config.Null? || (config.Decoded? && "interval" !in config.cfg) ==>
                err == None && every == DefaultEvery && dur == DefaultEvery * Second
      ensures config.Decoded? && "interval" in config.cfg ==>
                err == None && every == config.cfg["interval"] && dur == Wrap64(config.cfg["interval"] * Second)
    {
      if config.Undecodable? {
        return Wrapf(Some(config.cause), ConfigFmt, [text]);
      }
      var cf := if config.Decoded? then config.cfg else map[];
      if "interval" !in cf {
        cf := map["interval" := DefaultEvery];
      }
      dur := Wrap64(cf["interval"] * Second);
      every := cf["interval"];
      return None;
    }

    /** `expiredKeys()`: the first phase of a sweep collects, in no particular order, each
        key whose item is expired at `now`, once. */
    method ExpiredKeys(now: int) returns (keys: seq<string>)
      ensures forall k :: k in keys <==> k in ExpiredSet(items, now)
      ensures forall i, j :: 0 <= i < j < |keys| ==> keys[i] != keys[j]
    {
      keys := [];
      var rest := items.Keys;
      while rest != {}
        invariant rest <= items.Keys
        invariant forall k :: k in keys <==> k in items && k !in rest && IsExpire(items[k], now)
        invariant forall i, j :: 0 <= i < j < |keys| ==> keys[i] != keys[j]
        decreases rest
      {
        var k :| k in rest;
        if IsExpire(items[k], now) {
          keys := keys + [k];
        }
        rest := rest - {k};
      }
    }

    /** `clearItems(keys)`: the second phase removes exactly the listed keys. */
    method ClearItems(keys: seq<string>)
      modifies this`items
      ensures items == old(items) - (set k | k in keys)
    {
      for i := 0 to |keys|
        invariant items == old(items) - (set j | 0 <= j < i :: keys[j])
      {
        assert (set j | 0 <= j < i + 1 :: keys[j]) == (set j | 0 <= j < i :: keys[j]) + {keys[i]};
        items := items - {keys[i]};
      }
      assert (set j | 0 <= j < |keys| :: keys[j]) == (set k | k in keys);
    }

    /** One tick of `vacuum`: nothing when the interval is below one second, otherwise the
        expired keys are collected and removed, leaving the items a sweep keeps. */
    method Sweep(now: int)
      modifies this`items
      ensures every < 1 ==> items == old(items)
      ensures every >= 1 ==> items == Swept(old(items), now)
    {
      if every < 1 {
        return;
      }
      var keys := ExpiredKeys(now);
      if |keys| != 0 {
        ClearItems(keys);
      }
      assert (set k | k in keys) == ExpiredSet(old(items), now);
      SweptIsRemoval(old(items), now);
      assert |keys| == 0 ==> old(items) - ExpiredSet(old(items), now) == old(items);
    }
  }
}
