/** The cache contract (pkg/cache/cache.go): the two sentinel errors, the values a
    backend stores, the aggregate error both backends' `GetMulti` build, and the
    name -> constructor registry that creates and starts a backend. */
module Cache {
  import opened MError
  import Fmt

  /** A cached value (Go's `interface{}`); `Nil` is Go's nil. */
  datatype Value = Nil | Str(s: string) | Int(i: int) | Bytes(b: seq<bv8>)

  /** The configuration text after JSON decoding: the decoded map, the nil map that the
      text `null` decodes to without an error, or the decoder's error. */
  datatype Decoded<T> = Decoded(cfg: map<string, T>) | Null | Undecodable(cause: Error)

  const ErrKeyExpired: Error := ErrorOf("the key is expired")
  const ErrKeyNotExist: Error := ErrorOf("the key isn't exist")

  /** The two sentinels carry the documented messages and are told apart. */
  lemma SentinelErrors()
    ensures Message(ErrKeyExpired) == "ERROR, the key is expired"
    ensures Message(ErrKeyNotExist) == "ERROR, the key isn't exist"
    ensures ErrKeyExpired != ErrKeyNotExist
  {
    assert Message(ErrKeyExpired) == Prefix + "the key is expired";
    assert Message(ErrKeyNotExist) == Prefix + "the key isn't exist";
    ErrorOfInjective("the key is expired", "the key isn't exist");
  }

  // ---------------------------------------------------------------------------
  // GetMulti's aggregate error, shared by the memory and the file backend

  /** What one `Get` gave: a value, or an error. */
  datatype Outcome = Hit(val: Value) | Miss(err: Error)

  const KeyErrorFmt := "key [%s] error: %s"

  /** The entry `GetMulti` records for a key whose `Get` failed. */
  function KeyError(key: string, e: Error): string {
    "key [" + key + "] error: " + Message(e)
  }

  /** `KeyError` is `fmt.Sprintf("key [%s] error: %s", key, err.Error())`. */
  lemma KeyErrorFormats(key: string, e: Error)
    ensures KeyError(key, e) == Fmt.Sprintf(KeyErrorFmt, [key, Message(e)])
  {
    var pre, mid, m := "key [", "] error: ", Message(e);
    assert Fmt.Plain(pre) && Fmt.Plain(mid) && Fmt.Plain("");
    assert KeyErrorFmt == pre + "%s" + mid + "%s" + "";
    Fmt.Sprintf2(KeyErrorFmt, pre, mid, "", key, m);
    assert pre + key + mid + m + "" == KeyError(key, e);
  }

  /** The entries for the failed keys, in key order (the `keysErr` slice). */
  function FailureEntries(keys: seq<string>, outs: seq<Outcome>): (r: seq<string>)
    requires |keys| == |outs|
    ensures |r| <= |keys|
  {
    if |keys| == 0 then []
    else
      var n := |keys| - 1;
      FailureEntries(keys[..n], outs[..n]) + (if outs[n].Miss? then [KeyError(keys[n], outs[n].err)] else [])
  }

  /** The error `GetMulti` returns: nil when no entry was recorded, otherwise one error
      listing the entries separated by "; ". */
  function Aggregate(entries: seq<string>): (r: Option<Error>)
    ensures r.None? <==> |entries| == 0
    ensures r.Some? ==> Message(r.value) == Prefix + Fmt.Join(entries, "; ")
  {
    if |entries| == 0 then None else Some(ErrorOf(Fmt.Join(entries, "; ")))
  }

  /** The result slice `rc`: each slot holds its key's value when `Get` succeeded and
      stays nil otherwise. */
  function Slots(outs: seq<Outcome>): (rc: seq<Value>)
    ensures |rc| == |outs|
    ensures forall i :: 0 <= i < |outs| ==> rc[i] == (if outs[i].Hit? then outs[i].val else Nil)
  {
    seq(|outs|, i requires 0 <= i < |outs| => if outs[i].Hit? then outs[i].val else Nil)
  }

  /** `rc` after the first `i` keys of a `GetMulti` loop: those slots are filled as
      `Slots` says, the rest still nil. */
  ghost predicate FilledUpTo(rc: seq<Value>, outs: seq<Outcome>, i: int) {
    |rc| == |outs| && 0 <= i <= |outs|
    && (forall j :: 0 <= j < i ==> rc[j] == Slots(outs)[j])
    && (forall j :: i <= j < |rc| ==> rc[j] == Nil)
  }

  /** A failed key leaves its slot nil. */
  lemma FilledSkip(rc: seq<Value>, outs: seq<Outcome>, i: int)
    requires FilledUpTo(rc, outs, i) && i < |outs| && outs[i].Miss?
    ensures FilledUpTo(rc, outs, i + 1)
  {
  }

  /** A hit stores its value in its slot. */
  lemma FilledHit(rc: seq<Value>, outs: seq<Outcome>, i: int)
    requires FilledUpTo(rc, outs, i) && i < |outs| && outs[i].Hit?
    ensures FilledUpTo(rc[i := outs[i].val], outs, i + 1)
  {
  }

  /** No entry is recorded exactly when every key succeeded. */
  lemma {:induction false} FailureEntriesEmpty(keys: seq<string>, outs: seq<Outcome>)
    requires |keys| == |outs|
    ensures FailureEntries(keys, outs) == [] <==> forall i :: 0 <= i < |outs| ==> outs[i].Hit?
    decreases |keys|
  {
    if |keys| > 0 {
      var n := |keys| - 1;
      FailureEntriesEmpty(keys[..n], outs[..n]);
      assert forall i :: 0 <= i < n ==> outs[..n][i] == outs[i];
    }
  }

  /** Every failed key has its entry, and every entry belongs to a failed key. */
  lemma {:induction false} FailureEntriesComplete(keys: seq<string>, outs: seq<Outcome>)
    requires |keys| == |outs|
    ensures forall i :: 0 <= i < |outs| && outs[i].Miss? ==> KeyError(keys[i], outs[i].err) in FailureEntries(keys, outs)
    ensures forall line :: line in FailureEntries(keys, outs) ==>
              exists i :: 0 <= i < |outs| && outs[i].Miss? && line == KeyError(keys[i], outs[i].err)
    decreases |keys|
  {
    if |keys| > 0 {
      var n := |keys| - 1;
      FailureEntriesComplete(keys[..n], outs[..n]);
      assert forall i :: 0 <= i < n ==> outs[..n][i] == outs[i] && keys[..n][i] == keys[i];
    }
  }

  /** The aggregate error is nil exactly when every key succeeded, and otherwise it is the
      prefixed, "; "-joined list of the failed keys' entries. */
  lemma AggregateNilIff(keys: seq<string>, outs: seq<Outcome>)
    requires |keys| == |outs|
    ensures Aggregate(FailureEntries(keys, outs)).None? <==> forall i :: 0 <= i < |outs| ==> outs[i].Hit?
    ensures Aggregate(FailureEntries(keys, outs)).Some? ==>
              Message(Aggregate(FailureEntries(keys, outs)).value) == Prefix + Fmt.Join(FailureEntries(keys, outs), "; ")
  {
    FailureEntriesEmpty(keys, outs);
  }

  /** Appending one key appends its entry, if it failed, and nothing else. */
  lemma FailureEntriesSnoc(keys: seq<string>, outs: seq<Outcome>, k: string, o: Outcome)
    requires |keys| == |outs|
    ensures FailureEntries(keys + [k], outs + [o])
            == FailureEntries(keys, outs) + (if o.Miss? then [KeyError(k, o.err)] else [])
  {
    var n := |keys|;
    assert (keys + [k])[..n] == keys && (outs + [o])[..n] == outs;
  }

  /** The entries of the first `i + 1` keys are those of the first `i` and, when key `i`
      failed, its entry. */
  lemma FailureEntriesPrefix(keys: seq<string>, outs: seq<Outcome>, i: nat)
    requires |keys| == |outs| && i < |keys|
    ensures FailureEntries(keys[..i + 1], outs[..i + 1])
            == FailureEntries(keys[..i], outs[..i]) + (if outs[i].Miss? then [KeyError(keys[i], outs[i].err)] else [])
  {
    assert keys[..i + 1][..i] == keys[..i] && outs[..i + 1][..i] == outs[..i];
  }

  /** Each further key leaves the aggregate as it was when its `Get` succeeds, and when it
      fails appends `"; "` and the key's entry to the message (or starts the message). */
  lemma AggregateGrows(keys: seq<string>, outs: seq<Outcome>, k: string, o: Outcome)
    requires |keys| == |outs|
    ensures o.Hit? ==> Aggregate(FailureEntries(keys + [k], outs + [o])) == Aggregate(FailureEntries(keys, outs))
    ensures o.Miss? && Aggregate(FailureEntries(keys, outs)).None? ==>
              Message(Aggregate(FailureEntries(keys + [k], outs + [o])).value) == Prefix + KeyError(k, o.err)
    ensures o.Miss? && Aggregate(FailureEntries(keys, outs)).Some? ==>
              Message(Aggregate(FailureEntries(keys + [k], outs + [o])).value)
              == Message(Aggregate(FailureEntries(keys, outs)).value) + "; " + KeyError(k, o.err)
  {
    FailureEntriesSnoc(keys, outs, k, o);
    var entries := FailureEntries(keys, outs);
    if o.Miss? {
      var line := KeyError(k, o.err);
      assert FailureEntries(keys + [k], outs + [o]) == entries + [line];
      if |entries| > 0 {
        Fmt.JoinAppend(entries, line, "; ");
      } else {
        assert entries + [line] == [line];
        assert Fmt.Join([line], "; ") == line;
      }
    } else {
      assert entries + [] == entries;
    }
  }

  // ---------------------------------------------------------------------------
  // The backend registry

  /** A registered constructor (Go's `Instance`, a `func() Cache`); `NilInstance` is a nil
      function value, `Constructor(backend)` the constructor of the named backend. The
      adapter a constructor builds is identified with the constructor itself. */
  datatype Instance = NilInstance | Constructor(backend: string)

  const NilImplPanic := Message(ErrorOf("cache: Register adapter is nil"))

  function DuplicatePanic(name: string): string {
    "cache: Register called twice for adapter " + name
  }

  const UnknownImplFmt := "cache: unknown impl name %s (forgot to import?)"

  /** The error for a name nobody registered. */
  function UnknownImpl(name: string): Error {
    ErrorOf("cache: unknown impl name " + name + " (forgot to import?)")
  }

  /** `UnknownImpl` is `merror.Errorf("cache: unknown impl name %s (forgot to import?)", name)`. */
  lemma UnknownImplFormats(name: string)
    ensures UnknownImpl(name) == Errorf(UnknownImplFmt, [name])
  {
    UnknownImplText(name);
  }

  lemma UnknownImplText(name: string)
    ensures Fmt.Sprintf(UnknownImplFmt, [name]) == "cache: unknown impl name " + name + " (forgot to import?)"
  {
    var pre, post := "cache: unknown impl name ", " (forgot to import?)";
    assert Fmt.Plain(pre) && Fmt.Plain(post);
    assert UnknownImplFmt == pre + "%s" + post;
    Fmt.Sprintf1(UnknownImplFmt, pre, post, name);
  }

  /** The panic `RegisterNewCacheImpl` raises, if any: a nil constructor first, then a name
      that is taken. */
  function RegisterPanic(impls: map<string, Instance>, name: string, impl: Instance): (p: Option<string>)
    ensures p.None? <==> impl != NilInstance && name !in impls
    ensures impl == NilInstance ==> p == Some(NilImplPanic)
    ensures impl != NilInstance && name in impls ==> p == Some(DuplicatePanic(name))
  {
    if impl == NilInstance then Some(NilImplPanic)
    else if name in impls then Some(DuplicatePanic(name))
    else None
  }

  /** The table after a registration: extended when there is no panic, unchanged otherwise. */
  function Registered(impls: map<string, Instance>, name: string, impl: Instance): map<string, Instance> {
    if RegisterPanic(impls, name, impl).None? then impls[name := impl] else impls
  }

  /** What `NewCache(name, config)` returns, given what `Start(config)` returns on the
      adapter: the adapter when the name is known and starting succeeds, otherwise the
      unknown-name error or the start error. */
  function NewCacheResult(impls: map<string, Instance>, name: string, config: string,
                          start: (Instance, string) -> Option<Error>): (r: Result<Instance>)
    ensures r.Ok? <==> name in impls && start(impls[name], config).None?
    ensures name !in impls ==> r == Fail(UnknownImpl(name))
    ensures name in impls ==> r == if start(impls[name], config).None? then Ok(impls[name])
                                   else Fail(start(impls[name], config).value)
  {
    if name !in impls then Fail(UnknownImpl(name))
    else match start(impls[name], config)
      case None => Ok(impls[name])
      case Some(e) => Fail(e)
  }

  /** A registration that does not panic makes `NewCache` of that name build and start its
      adapter, leaves every other name as it was, and never replaces an existing entry. */
  lemma RegisterThenNewCache(impls: map<string, Instance>, name: string, impl: Instance, other: string,
                             config: string, start: (Instance, string) -> Option<Error>)
    requires NilInstance !in impls.Values
    ensures NilInstance !in Registered(impls, name, impl).Values
    ensures RegisterPanic(impls, name, impl).None? && start(impl, config).None? ==>
              NewCacheResult(Registered(impls, name, impl), name, config, start) == Ok(impl)
    ensures other != name ==>
              NewCacheResult(Registered(impls, name, impl), other, config, start) == NewCacheResult(impls, other, config, start)
    ensures name in impls ==> Registered(impls, name, impl) == impls
  {
  }

  /** The package-level `impls` table. A panic ends the process, so the table is left as it
      was and the method reports the panic value instead of returning normally. */
  class Registry {
    var impls: map<string, Instance>

    ghost predicate Valid()
      reads this
    {
      NilInstance !in impls.Values
    }

    constructor ()
      ensures Valid() && impls == map[]
    {
      impls := map[];
    }

    /** `RegisterNewCacheImpl(name, impl)`. */
    method Register(name: string, impl: Instance) returns (panicked: Option<string>)
      requires Valid()
      modifies this
      ensures Valid()
      ensures panicked == RegisterPanic(old(impls), name, impl)
      ensures impls == Registered(old(impls), name, impl)
    {
      if impl == NilInstance {
        return Some(NilImplPanic);
      }
      if name in impls {
        return Some(DuplicatePanic(name));
      }
      impls := impls[name := impl];
      return None;
    }

    /** `NewCache(implName, config)`. `start(c, config)` is the `Start(config)` call on the
        adapter built by constructor `c`; it is not reached for an unknown name. */
    method NewCache(implName: string, config: string, start: (Instance, string) -> Option<Error>)
      returns (adapter: Option<Instance>, err: Option<Error>)
      requires Valid()
      ensures adapter.None? <==> err.Some?
      ensures NewCacheResult(impls, implName, config, start) == if err.None? then Ok(adapter.value) else Fail(err.value)
      ensures adapter.Some? ==> adapter.value != NilInstance
    {
      if implName !in impls {
        adapter, err := None, Some(UnknownImpl(implName));
        return;
      }
      var instanceFunc := impls[implName];
      adapter := Some(instanceFunc);
      err := start(instanceFunc, config);
      if err.Some? {
        adapter := None;
      }
    }
  }
}
