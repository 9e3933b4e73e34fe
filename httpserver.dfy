/** The HTTP server registry (pkg/httpserver): a name -> constructor table that server
    adapters register into and `NewHttpServer` builds from. Unlike the cache registry
    nothing is started, and the unknown-name error is the cache registry's own. */
module HttpServer {
  import opened MError
  import Cache

  /** A registered constructor (`Instance`, a `func() HttpServer`); `NilServer` is a nil
      function value. The server a constructor builds is identified with the constructor. */
  datatype Instance = NilServer | ServerImpl(adapter: string)

  const NilImplPanic := Message(ErrorOf("httpServer: Register adapter is nil"))

  function DuplicatePanic(name: string): string {
    "httpServer: Register called twice for adapter " + name
  }

  /** The panic `RegisterNewHttpServerImpl` raises, if any: a nil constructor first, then a
      name that is taken. */
  function RegisterPanic(impls: map<string, Instance>, name: string, impl: Instance): (p: Option<string>)
    ensures p.None? <==> impl != NilServer && name !in impls
    ensures impl == NilServer ==> p == Some(NilImplPanic)
    ensures impl != NilServer && name in impls ==> p == Some(DuplicatePanic(name))
  {
    if impl == NilServer then Some(NilImplPanic)
    else if name in impls then Some(DuplicatePanic(name))
    else None
  }

  /** The table after a registration: extended when there is no panic, unchanged otherwise. */
  function Registered(impls: map<string, Instance>, name: string, impl: Instance): map<string, Instance> {
    if RegisterPanic(impls, name, impl).None? then impls[name := impl] else impls
  }

  /** What `NewHttpServer(name)` returns: the registered server, or the unknown-name error,
      which carries the "cache:" prefix. */
  function Resolve(impls: map<string, Instance>, name: string): (r: Result<Instance>)
    ensures r.Ok? <==> name in impls
    ensures r.Fail? ==> r.err == Cache.UnknownImpl(name)
    ensures r.Ok? ==> r.value == impls[name]
  {
    if name in impls then Ok(impls[name]) else Fail(Cache.UnknownImpl(name))
  }

  /** A registration that does not panic makes the name resolve to its constructor and
      leaves every other name as it was; no registration ever replaces an entry. */
  lemma RegisterThenResolve(impls: map<string, Instance>, name: string, impl: Instance, other: string)
    requires NilServer !in impls.Values
    ensures NilServer !in Registered(impls, name, impl).Values
    ensures RegisterPanic(impls, name, impl).None? ==> Resolve(Registered(impls, name, impl), name) == Ok(impl)
    ensures other != name ==> Resolve(Registered(impls, name, impl), other) == Resolve(impls, other)
    ensures name in impls ==> Resolve(Registered(impls, name, impl), name) == Resolve(impls, name)
  {
  }

  /** A second registration under a name panics and keeps the first constructor. */
  lemma RegisterTwicePanics(impls: map<string, Instance>, name: string, first: Instance, second: Instance)
    requires RegisterPanic(impls, name, first).None?
    ensures RegisterPanic(Registered(impls, name, first), name, second).Some?
    ensures Registered(Registered(impls, name, first), name, second) == Registered(impls, name, first)
  {
  }

  /** The package-level `impls` table. A panic ends the process, so the table is left as it
      was and the method reports the panic value instead of returning normally. */
  class Registry {
    var impls: map<string, Instance>

    ghost predicate Valid()
      reads this
    {
      NilServer !in impls.Values
    }

    constructor ()
      ensures Valid() && impls == map[]
    {
      impls := map[];
    }

    /** `RegisterNewHttpServerImpl(name, impl)`. */
    method Register(name: string, impl: Instance) returns (panicked: Option<string>)
      requires Valid()
      modifies this
      ensures Valid()
      ensures panicked == RegisterPanic(old(impls), name, impl)
      ensures impls == Registered(old(impls), name, impl)
    {
      if impl == NilServer {
        return Some(NilImplPanic);
      }
      if name in impls {
        return Some(DuplicatePanic(name));
      }
      impls := impls[name := impl];
      return None;
    }

    /** `NewHttpServer(implName)`. */
    method NewHttpServer(implName: string) returns (adapter: Option<Instance>, err: Option<Error>)
      requires Valid()
      ensures adapter.None? <==> err.Some?
      ensures Resolve(impls, implName) == if err.None? then Ok(adapter.value) else Fail(err.value)
      ensures adapter.Some? ==> adapter.value != NilServer
    {
      if implName !in impls {
        return None, Some(Cache.UnknownImpl(implName));
      }
      var instanceFunc := impls[implName];
      return Some(instanceFunc), None;
    }
  }
}
