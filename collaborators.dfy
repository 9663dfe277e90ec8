/** The stateful collaborators of one decorated call: the experience store,
    the context builder (whose `exps` the handler overwrites) and the wrapped
    function (with a ghost log of its calls). Their internals are not part of
    this model; each is given by the behaviour it shows the decorator. */
module Collaborators {
  import opened Python
  import opened Schema

  /** The experience manager: an append-only store plus its query strategy. */
  class ExperienceManager {
    var exps: seq<Experience>
    ghost var queries: seq<Query>
    ghost var creates: seq<Experience>
    const query: QueryFn
    const writeFault: WriteFault

    constructor (query: QueryFn, writeFault: WriteFault, exps: seq<Experience>)
      ensures this.query == query && this.writeFault == writeFault
      ensures this.exps == exps && queries == [] && creates == []
    {
      this.query := query;
      this.writeFault := writeFault;
      this.exps := exps;
      queries := [];
      creates := [];
    }

    /** `query_exps`: reads the store, changes nothing but the query log. */
    method QueryExps(q: Query) returns (r: Result<seq<Experience>>)
      modifies this`queries
      ensures r == query(exps, q)
      ensures queries == old(queries) + [q]
    {
      r := query(exps, q);
      queries := queries + [q];
    }

    /** `create_exp`: appends `e` unless the write raises, in which case the
        store is unchanged. */
    method CreateExp(e: Experience) returns (o: Outcome)
      modifies this`exps, this`creates
      ensures creates == old(creates) + [e]
      ensures writeFault(old(exps), e).None? ==> o == Pass && exps == old(exps) + [e]
      ensures writeFault(old(exps), e).Some? ==>
                o == Fail(writeFault(old(exps), e).value) && exps == old(exps)
    {
      creates := creates + [e];
      var fault := writeFault(exps, e);
      if fault.Some? {
        o := Fail(fault.value);
      } else {
        exps := exps + [e];
        o := Pass;
      }
    }
  }

  /** A context builder: the handler sets `exps`, then calls `build`. */
  class ContextBuilder {
    var exps: seq<Experience>
    const build: BuildFn

    constructor (build: BuildFn)
      ensures this.build == build && exps == []
    {
      this.build := build;
      exps := [];
    }

    method Build(args: Args, kwargs: Kwargs) returns (r: Result<Value>)
      ensures r == build(exps, args, kwargs)
    {
      r := build(exps, args, kwargs);
    }
  }

  /** The decorated function: what reading its `__name__` gives (a callable
      such as a `functools.partial` has none, and the lookup raises
      `AttributeError`), its behaviour, and a ghost log of every call made to it. */
  class WrappedFunction {
    const name: Result<string>
    const body: Body
    ghost var log: seq<Invocation>

    constructor (name: Result<string>, body: Body)
      ensures this.name == name && this.body == body && log == []
    {
      this.name := name;
      this.body := body;
      log := [];
    }

    method Call(args: Args, kwargs: Kwargs) returns (r: Result<Value>)
      modifies this`log
      ensures r == body(args, kwargs)
      ensures log == old(log) + [Invocation(args, kwargs)]
    {
      r := body(args, kwargs);
      log := log + [Invocation(args, kwargs)];
    }
  }
}
