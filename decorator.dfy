/** The per-call handler `ExpCacheHandler` and the wrapper `get_or_create` that
    drives it, as imperative code over the handler's fields; `GetOrCreate` and
    `Invoke` are proved to behave as `Lifecycle.CallTrace` and
    `Lifecycle.Behaviour` say. */
module Decorator {
  import opened Python
  import opened Schema
  import opened Collaborators
  import opened Lifecycle

  class ExpCacheHandler {
    // What `initialize` resolves, once, while the handler is constructed.
    const func: WrappedFunction
    const args: Args
    const queryType: QueryType
    const expManager: ExperienceManager
    const expScorer: ScoreFn
    const expPerfectJudge: JudgeFn
    const contextBuilder: ContextBuilder
    const reqSerialize: Serializer
    const respSerialize: Serializer
    const respDeserialize: Deserializer
    const tag: string
    const req: string

    // The state one call fills in, step by step.
    var kwargs: Kwargs
    var exps: seq<Experience>
    var resp: string
    var rawResp: Value
    var score: Option<Score>

    constructor (func: WrappedFunction, args: Args, kwargs: Kwargs, queryType: QueryType,
                 expManager: ExperienceManager, expScorer: ScoreFn, expPerfectJudge: JudgeFn,
                 contextBuilder: ContextBuilder, reqSerialize: Serializer, respSerialize: Serializer,
                 respDeserialize: Deserializer, tag: string, req: string)
      ensures this.func == func && this.args == args && this.kwargs == kwargs && this.queryType == queryType
      ensures this.expManager == expManager && this.expScorer == expScorer
      ensures this.expPerfectJudge == expPerfectJudge && this.contextBuilder == contextBuilder
      ensures this.reqSerialize == reqSerialize && this.respSerialize == respSerialize
      ensures this.respDeserialize == respDeserialize && this.tag == tag && this.req == req
      ensures exps == [] && resp == "" && rawResp == NoneV && score == None
    {
      this.func := func;
      this.args := args;
      this.kwargs := kwargs;
      this.queryType := queryType;
      this.expManager := expManager;
      this.expScorer := expScorer;
      this.expPerfectJudge := expPerfectJudge;
      this.contextBuilder := contextBuilder;
      this.reqSerialize := reqSerialize;
      this.respSerialize := respSerialize;
      this.respDeserialize := respDeserialize;
      this.tag := tag;
      this.req := req;
      exps, resp, rawResp, score := [], "", NoneV, None;
    }

    /** Constructing the handler with `initialize` as its validator: validate
        `kwargs`, fill in every default left `None`, derive the tag and
        serialise `req`. Raises when `req` is missing or its serialiser raises. */
    static method Create(func: WrappedFunction, args: Args, kwargs: Kwargs, opts: Options, defaults: Defaults)
      returns (r: Result<ExpCacheHandler>)
      ensures ReqKey !in kwargs ==> r == Raise(MissingReq)
      ensures ReqKey in kwargs ==>
        var tag := ResolveTag(opts.tag, args, func.name);
        var s := ReqSerializerOf(opts)(kwargs[ReqKey]);
        && (tag.Raise? ==> r == Raise(tag.exc))
        && (tag.Ok? && s.Raise? ==> r == Raise(s.exc))
        && (tag.Ok? && s.Ok? ==>
              && r.Ok? && fresh(r.value)
              && var h := r.value;
                 && h.func == func && h.args == args && h.kwargs == kwargs && h.queryType == opts.queryType
                 && h.expManager == ManagerOf(opts, defaults)
                 && h.expScorer == ScorerOf(opts, defaults)
                 && h.expPerfectJudge == JudgeOf(opts, defaults)
                 && (opts.contextBuilder.Some? ==> h.contextBuilder == opts.contextBuilder.value)
                 && (opts.contextBuilder.None? ==> fresh(h.contextBuilder) && h.contextBuilder.exps == [])
                 && h.contextBuilder.build == BuildOf(opts, defaults)
                 && h.reqSerialize == ReqSerializerOf(opts)
                 && h.respSerialize == RespSerializerOf(opts)
                 && h.respDeserialize == RespDeserializerOf(opts)
                 && h.tag == tag.value
                 && h.req == s.value
                 && h.exps == [] && h.score == None)
    {
      var valid := ValidateParams(kwargs);
      if valid.Fail? {
        return Raise(valid.exc);
      }
      var builder: ContextBuilder;
      if opts.contextBuilder.Some? {
        builder := opts.contextBuilder.value;
      } else {
        builder := new ContextBuilder(defaults.build);
      }
      var tag := ResolveTag(opts.tag, args, func.name);
      if tag.Raise? {
        return Raise(tag.exc);
      }
      var s := ReqSerializerOf(opts)(kwargs[ReqKey]);
      match s
      case Raise(e) =>
        r := Raise(e);
      case Ok(req) =>
        var h := new ExpCacheHandler(func, args, kwargs, opts.queryType, ManagerOf(opts, defaults),
                                     ScorerOf(opts, defaults), JudgeOf(opts, defaults), builder,
                                     ReqSerializerOf(opts), RespSerializerOf(opts), RespDeserializerOf(opts),
                                     tag.value, req);
        r := Ok(h);
    }

    /** `fetch_experiences`: query the manager with the serialised request. */
    method FetchExperiences() returns (o: Outcome)
      modifies this`exps, expManager`queries
      ensures var q := Query(req, queryType, tag);
        && expManager.queries == old(expManager.queries) + [q]
        && var r := expManager.query(expManager.exps, q);
           (r.Ok? ==> o == Pass && exps == r.value) && (r.Raise? ==> o == Fail(r.exc) && exps == old(exps))
    {
      var r := expManager.QueryExps(Query(req, queryType, tag));
      match r
      case Raise(e) => o := Fail(e);
      case Ok(found) => exps := found; o := Pass;
    }

    /** `get_one_perfect_exp`: judge the fetched experiences in order and return
        the deserialised response of the first accepted one, or `None`;
        `judged` counts the judge calls. */
    method GetOnePerfectExp() returns (r: Result<Option<Value>>, ghost judged: nat)
      ensures r == PerfectResponse(exps, ScanFrom(exps, 0, expPerfectJudge, req, args, kwargs), respDeserialize)
      ensures judged == JudgedCount(exps, ScanFrom(exps, 0, expPerfectJudge, req, args, kwargs))
    {
      var judge := expPerfectJudge;
      var i := 0;
      judged := 0;
      while i < |exps|
        invariant i <= |exps| && judged == i
        invariant ScanFrom(exps, 0, judge, req, args, kwargs) == ScanFrom(exps, i, judge, req, args, kwargs)
      {
        var verdict := judge(exps[i], req, args, kwargs);
        judged := judged + 1;
        match verdict
        case Raise(e) =>
          r := Raise(e);
          return;
        case Ok(perfect) =>
          if perfect {
            var v := respDeserialize(exps[i].resp);
            r := if v.Ok? then Ok(Some(v.value)) else Raise(v.exc);
            return;
          }
        i := i + 1;
      }
      r := Ok(None);
    }

    /** `_build_context`: hand the fetched experiences to the builder and build. */
    method BuildContext() returns (r: Result<Value>)
      modifies contextBuilder`exps
      ensures contextBuilder.exps == exps
      ensures r == contextBuilder.build(exps, args, kwargs)
    {
      contextBuilder.exps := exps;
      r := contextBuilder.Build(args, kwargs);
    }

    /** `_execute_function`: replace `kwargs[ReqKey]` by the built context and run
        the wrapped function once; a builder failure runs nothing. */
    method InvokeWithContext() returns (r: Result<Value>)
      modifies this`kwargs, contextBuilder`exps, func`log
      ensures contextBuilder.exps == exps
      ensures var b := contextBuilder.build(exps, args, old(kwargs));
        && (b.Raise? ==> r == Raise(b.exc) && kwargs == old(kwargs) && func.log == old(func.log))
        && (b.Ok? ==>
              && kwargs == old(kwargs)[ReqKey := b.value]
              && r == func.body(args, kwargs)
              && func.log == old(func.log) + [Invocation(args, kwargs)])
    {
      var context := BuildContext();
      match context
      case Raise(e) => r := Raise(e);
      case Ok(c) =>
        kwargs := kwargs[ReqKey := c];
        r := func.Call(args, kwargs);
    }

    /** `execute_function`: keep the raw result, then serialise it. Both a
        failing function and a failing serialiser raise to the caller. */
    method ExecuteFunction() returns (o: Outcome)
      modifies this`kwargs, this`rawResp, this`resp, contextBuilder`exps, func`log
      ensures contextBuilder.exps == exps
      ensures var b := contextBuilder.build(exps, args, old(kwargs));
        && (b.Raise? ==>
              && o == Fail(b.exc) && kwargs == old(kwargs) && func.log == old(func.log)
              && rawResp == old(rawResp) && resp == old(resp))
        && (b.Ok? ==>
              && kwargs == old(kwargs)[ReqKey := b.value]
              && func.log == old(func.log) + [Invocation(args, kwargs)]
              && var f := func.body(args, kwargs);
                 && (f.Raise? ==> o == Fail(f.exc) && rawResp == old(rawResp) && resp == old(resp))
                 && (f.Ok? ==>
                       && rawResp == f.value
                       && var s := respSerialize(f.value);
                          && (s.Ok? ==> o == Pass && resp == s.value)
                          && (s.Raise? ==> o == Fail(s.exc) && resp == old(resp))))
    {
      var r := InvokeWithContext();
      match r
      case Raise(e) => o := Fail(e);
      case Ok(raw) =>
        rawResp := raw;
        var s := respSerialize(raw);
        match s
        case Raise(e) => o := Fail(e);
        case Ok(text) => resp := text; o := Pass;
    }

    /** `evaluate_experience`: score the serialised pair. */
    method EvaluateExperience() returns (o: Outcome)
      modifies this`score
      ensures var s := expScorer(req, resp);
        && (s.Ok? ==> o == Pass && score == Some(s.value))
        && (s.Raise? ==> o == Fail(s.exc) && score == old(score))
    {
      var s := expScorer(req, resp);
      match s
      case Raise(e) => o := Fail(e);
      case Ok(v) => score := Some(v); o := Pass;
    }

    /** `save_experience`: one `create_exp` of the record built from the fields. */
    method SaveExperience() returns (o: Outcome)
      requires score.Some?
      modifies expManager`exps, expManager`creates
      ensures var e := Experience(req, resp, tag, Metric(score.value));
        && expManager.creates == old(expManager.creates) + [e]
        && var fault := expManager.writeFault(old(expManager.exps), e);
           && (fault.None? ==> o == Pass && expManager.exps == old(expManager.exps) + [e])
           && (fault.Some? ==> o == Fail(fault.value) && expManager.exps == old(expManager.exps))
    {
      var e := Experience(req, resp, tag, Metric(score.value));
      o := expManager.CreateExp(e);
    }

    /** `process_experience` under `handle_exception`: evaluate, then save; an
        exception from either is absorbed and reported in `absorbed`. */
    method ProcessExperience() returns (absorbed: Option<Exc>)
      modifies this`score, expManager`exps, expManager`creates
      ensures var l := Learn(expScorer, expManager.writeFault, old(expManager.exps), req, resp, tag);
        && absorbed == l.absorbed
        && expManager.exps == old(expManager.exps) + l.saved
        && expManager.creates == old(expManager.creates) + l.creates
      ensures expScorer(req, resp).Ok? ==> score == Some(expScorer(req, resp).value)
      ensures expScorer(req, resp).Raise? ==> score == old(score)
    {
      var o := EvaluateExperience();
      if o.Fail? {
        return Some(o.exc);
      }
      o := SaveExperience();
      absorbed := if o.Fail? then Some(o.exc) else None;
    }
  }

  /** Lines 78-81 of `get_or_create`: `execute_function`, then `process_experience`,
      then the raw result. */
  method ExecuteAndLearn(h: ExpCacheHandler, ghost judged: nat) returns (r: Result<Value>)
    modifies h`kwargs, h`rawResp, h`resp, h`score, h.contextBuilder`exps, h.func`log,
             h.expManager`exps, h.expManager`creates
    ensures var t := Execute(h.contextBuilder.build, h.func.body, h.respSerialize, h.expScorer,
                             h.expManager.writeFault, old(h.expManager.exps), h.args, old(h.kwargs),
                             Query(h.req, h.queryType, h.tag), h.exps, judged);
      && r == t.result
      && h.contextBuilder.exps == h.exps
      && h.func.log == old(h.func.log) + t.calls
      && h.expManager.creates == old(h.expManager.creates) + t.creates
      && h.expManager.exps == old(h.expManager.exps) + t.saved
  {
    var o := h.ExecuteFunction();
    if o.Fail? {
      return Raise(o.exc);
    }
    var _ := h.ProcessExperience();
    r := Ok(h.rawResp);
  }

  /** Lines 75-81 of `get_or_create`: return the first perfect experience's
      response if it is truthy, otherwise execute and learn. The handler's
      collaborators are the ones `opts` and `defaults` resolve to. */
  method RespondOrExecute(h: ExpCacheHandler, ghost opts: Options, ghost defaults: Defaults)
    returns (r: Result<Value>, ghost judged: nat)
    requires h.expManager == ManagerOf(opts, defaults) && h.expScorer == ScorerOf(opts, defaults)
    requires h.expPerfectJudge == JudgeOf(opts, defaults) && h.contextBuilder.build == BuildOf(opts, defaults)
    requires h.respSerialize == RespSerializerOf(opts) && h.respDeserialize == RespDeserializerOf(opts)
    modifies h`kwargs, h`rawResp, h`resp, h`score, h.contextBuilder`exps, h.func`log,
             h.expManager`exps, h.expManager`creates
    ensures var t := Respond(opts, defaults, h.func.body, old(h.expManager.exps), h.args, old(h.kwargs),
                             Query(h.req, h.queryType, h.tag), h.exps);
      && r == t.result && judged == t.judged
      && h.contextBuilder.exps == (if t.builderExps.Some? then t.builderExps.value else old(h.contextBuilder.exps))
      && h.func.log == old(h.func.log) + t.calls
      && h.expManager.creates == old(h.expManager.creates) + t.creates
      && h.expManager.exps == old(h.expManager.exps) + t.saved
  {
    var perfect;
    perfect, judged := h.GetOnePerfectExp();
    if perfect.Raise? {
      return Raise(perfect.exc), judged;
    }
    if perfect.value.Some? && Truthy(perfect.value.value) {
      return Ok(perfect.value.value), judged;
    }
    r := ExecuteAndLearn(h, judged);
  }

  /** Lines 74-81 of `get_or_create`, on a handler whose collaborators are the
      ones `opts` and `defaults` resolve to: fetch, then respond or execute. */
  method FetchAndRespond(h: ExpCacheHandler, ghost opts: Options, ghost defaults: Defaults)
    returns (r: Result<Value>, ghost judged: nat)
    requires h.expManager == ManagerOf(opts, defaults) && h.expScorer == ScorerOf(opts, defaults)
    requires h.expPerfectJudge == JudgeOf(opts, defaults) && h.contextBuilder.build == BuildOf(opts, defaults)
    requires h.respSerialize == RespSerializerOf(opts) && h.respDeserialize == RespDeserializerOf(opts)
    modifies h`exps, h`kwargs, h`rawResp, h`resp, h`score, h.contextBuilder`exps, h.func`log,
             h.expManager`exps, h.expManager`queries, h.expManager`creates
    ensures var t := Fetch(opts, defaults, h.func.body, old(h.expManager.exps), h.args, old(h.kwargs),
                           Query(h.req, h.queryType, h.tag));
      && r == t.result && judged == t.judged
      && h.expManager.queries == old(h.expManager.queries) + Queries(t)
      && h.contextBuilder.exps == (if t.builderExps.Some? then t.builderExps.value else old(h.contextBuilder.exps))
      && h.func.log == old(h.func.log) + t.calls
      && h.expManager.creates == old(h.expManager.creates) + t.creates
      && h.expManager.exps == old(h.expManager.exps) + t.saved
  {
    ghost var q := Query(h.req, h.queryType, h.tag);
    ghost var store := h.expManager.exps;
    var o := h.FetchExperiences();
    if o.Fail? {
      assert Fetch(opts, defaults, h.func.body, store, h.args, h.kwargs, q) == Ended(Raise(o.exc), Some(q), 0, None, []);
      return Raise(o.exc), 0;
    }
    ghost var t := Respond(opts, defaults, h.func.body, store, h.args, h.kwargs, q, h.exps);
    assert Fetch(opts, defaults, h.func.body, store, h.args, h.kwargs, q) == t;
    assert Queries(t) == [q];
    r, judged := RespondOrExecute(h, opts, defaults);
  }

  /** The objects a call through a decorated function with these options may change. */
  function BuilderFrame(opts: Options): set<object>
  {
    if opts.contextBuilder.Some? then {opts.contextBuilder.value} else {}
  }

  /** `get_or_create`: one call of the caching wrapper. */
  method GetOrCreate(func: WrappedFunction, opts: Options, defaults: Defaults, args: Args, kwargs: Kwargs)
    returns (r: Result<Value>, ghost judged: nat)
    modifies func`log, ManagerOf(opts, defaults)`exps, ManagerOf(opts, defaults)`queries,
             ManagerOf(opts, defaults)`creates, BuilderFrame(opts)
    ensures var m := ManagerOf(opts, defaults);
      var t := CallTrace(opts, defaults, func.name, func.body, old(m.exps), args, kwargs);
      && r == t.result && judged == t.judged
      && func.log == old(func.log) + t.calls
      && m.queries == old(m.queries) + Queries(t)
      && m.creates == old(m.creates) + t.creates
      && m.exps == old(m.exps) + t.saved
      && (opts.contextBuilder.Some? ==>
            opts.contextBuilder.value.exps
            == if t.builderExps.Some? then t.builderExps.value else old(opts.contextBuilder.value.exps))
  {
    ghost var m := ManagerOf(opts, defaults);
    ghost var store := m.exps;
    ghost var prep := Prepare(opts, func.name, args, kwargs);
    var created := ExpCacheHandler.Create(func, args, kwargs, opts, defaults);
    if created.Raise? {
      assert CallTrace(opts, defaults, func.name, func.body, store, args, kwargs)
        == Ended(Raise(created.exc), None, 0, None, []);
      return Raise(created.exc), 0;
    }
    var h := created.value;
    assert h.expManager == m && m.exps == store;
    ghost var q := Query(h.req, h.queryType, h.tag);
    assert prep == Ok(q);
    assert CallTrace(opts, defaults, func.name, func.body, store, args, kwargs)
      == Fetch(opts, defaults, func.body, store, args, kwargs, q);
    r, judged := FetchAndRespond(h, opts, defaults);
  }

  /** The objects a call through `d` may change besides the function's log. */
  function DecoratedFrame(d: Decorated): set<object>
  {
    match d
    case Undecorated(_) => {}
    case Cached(_, opts, defaults) => {ManagerOf(opts, defaults)} + BuilderFrame(opts)
  }

  /** The store the call through `d` reads. */
  ghost function StoreOf(d: Decorated): seq<Experience>
    reads DecoratedFrame(d)
  {
    if d.Cached? then ManagerOf(d.opts, d.defaults).exps else []
  }

  /** Calling what `exp_cache` returned. */
  method Invoke(d: Decorated, args: Args, kwargs: Kwargs) returns (r: Result<Value>, ghost judged: nat)
    modifies d.func`log, DecoratedFrame(d)
    ensures var t := Behaviour(d, old(StoreOf(d)), args, kwargs);
      && r == t.result && judged == t.judged
      && d.func.log == old(d.func.log) + t.calls
      && (d.Cached? ==>
            var m := ManagerOf(d.opts, d.defaults);
            && m.exps == old(StoreOf(d)) + t.saved
            && m.queries == old(m.queries) + Queries(t)
            && m.creates == old(m.creates) + t.creates
            && (d.opts.contextBuilder.Some? ==>
                  d.opts.contextBuilder.value.exps
                  == if t.builderExps.Some? then t.builderExps.value else old(d.opts.contextBuilder.value.exps)))
  {
    match d
    case Undecorated(f) =>
      r := f.Call(args, kwargs);
      judged := 0;
    case Cached(f, opts, defaults) =>
      r, judged := GetOrCreate(f, opts, defaults, args, kwargs);
  }
}
