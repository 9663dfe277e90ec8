/** The specification of one call through `exp_cache`: how the decorator's
    options are resolved, how retrieved experiences are judged, and what one
    call returns, runs, queries and writes, as a value (`Trace`). The handler in
    module Decorator is proved to do exactly what `CallTrace` says. */
module Lifecycle {
  import opened Python
  import opened Schema
  import opened Collaborators

  /** The options of `exp_cache(...)`; `None` is Python's `None`, "use the default". */
  datatype Options = Options(
    queryType: QueryType,
    manager: Option<ExperienceManager>,
    scorer: Option<ScoreFn>,
    perfectJudge: Option<JudgeFn>,
    contextBuilder: Option<ContextBuilder>,
    reqSerialize: Option<Serializer>,
    respSerialize: Option<Serializer>,
    respDeserialize: Option<Deserializer>,
    tag: Option<string>)

  /** The process-wide defaults: the `exp_manager` singleton and the behaviour of
      `SimpleScorer`, `SimplePerfectJudge` and `SimpleContextBuilder`. */
  datatype Defaults = Defaults(manager: ExperienceManager, scorer: ScoreFn, judge: JudgeFn, build: BuildFn)

  /** The keyword argument that carries the request. */
  const ReqKey: string := "req"

  const MissingReq := Exc("ValueError", "`req` must be provided as a keyword argument.")

  /** `_validate_params`: the call must pass `req` as a keyword argument. */
  function ValidateParams(kwargs: Kwargs): (o: Outcome)
    ensures o.Pass? <==> ReqKey in kwargs
    ensures o.Fail? ==> o.exc == MissingReq
  {
    if ReqKey !in kwargs then Fail(MissingReq) else Pass
  }

  /** `_generate_tag`: `ClassName.func_name` when there is a first positional
      argument (every Python value has a `__class__`), else `func_name`; reading
      `func.__name__` may raise. */
  function GenerateTag(args: Args, funcName: Result<string>): Result<string>
  {
    match funcName
    case Raise(e) => Raise(e)
    case Ok(name) => Ok(if |args| > 0 then TypeName(args[0]) + "." + name else name)
  }

  /** `self.tag or self._generate_tag()`: an empty explicit tag is falsy and
      falls back to the derived one. */
  function ResolveTag(explicit: Option<string>, args: Args, funcName: Result<string>): Result<string>
  {
    if explicit.Some? && explicit.value != "" then Ok(explicit.value) else GenerateTag(args, funcName)
  }

  /** The default serialisers `lambda resp: str(resp)`. */
  function StrSerialize(v: Value): Result<string>
  {
    Str(v)
  }

  /** The default deserialiser `lambda resp: resp`. */
  function IdentityDeserialize(s: string): Result<Value>
  {
    Ok(StrV(s))
  }

  // The `x or default` resolutions of `initialize`.

  function ManagerOf(opts: Options, defaults: Defaults): ExperienceManager
  {
    if opts.manager.Some? then opts.manager.value else defaults.manager
  }

  function ScorerOf(opts: Options, defaults: Defaults): ScoreFn
  {
    if opts.scorer.Some? then opts.scorer.value else defaults.scorer
  }

  function JudgeOf(opts: Options, defaults: Defaults): JudgeFn
  {
    if opts.perfectJudge.Some? then opts.perfectJudge.value else defaults.judge
  }

  function BuildOf(opts: Options, defaults: Defaults): BuildFn
  {
    if opts.contextBuilder.Some? then opts.contextBuilder.value.build else defaults.build
  }

  function ReqSerializerOf(opts: Options): Serializer
  {
    if opts.reqSerialize.Some? then opts.reqSerialize.value else StrSerialize
  }

  function RespSerializerOf(opts: Options): Serializer
  {
    if opts.respSerialize.Some? then opts.respSerialize.value else StrSerialize
  }

  function RespDeserializerOf(opts: Options): Deserializer
  {
    if opts.respDeserialize.Some? then opts.respDeserialize.value else IdentityDeserialize
  }

  /** How the scan of `get_one_perfect_exp` ends: at the first experience the
      judge accepts, after all of them, or at a judge that raised. */
  datatype ScanOutcome = Accepted(index: nat) | NoneAccepted | JudgeFailed(index: nat, exc: Exc)

  /** The judge's verdicts on `exps[i..]`, in order, up to the first acceptance. */
  function ScanFrom(exps: seq<Experience>, i: nat, judge: JudgeFn, req: string, args: Args, kwargs: Kwargs)
    : (s: ScanOutcome)
    requires i <= |exps|
    ensures s.Accepted? ==> i <= s.index < |exps|
    ensures s.JudgeFailed? ==> i <= s.index < |exps|
    decreases |exps| - i
  {
    if i == |exps| then NoneAccepted
    else match judge(exps[i], req, args, kwargs)
      case Raise(e) => JudgeFailed(i, e)
      case Ok(perfect) => if perfect then Accepted(i) else ScanFrom(exps, i + 1, judge, req, args, kwargs)
  }

  /** How many times the judge is called by a scan of `exps` that ended in `s`. */
  function JudgedCount(exps: seq<Experience>, s: ScanOutcome): nat
  {
    match s
    case Accepted(i) => i + 1
    case JudgeFailed(i, _) => i + 1
    case NoneAccepted => |exps|
  }

  /** The value `get_one_perfect_exp` returns (or raises) for a scan ending in `s`. */
  function PerfectResponse(exps: seq<Experience>, s: ScanOutcome, deserialize: Deserializer)
    : Result<Option<Value>>
    requires s.Accepted? ==> s.index < |exps|
  {
    match s
    case Accepted(i) =>
      (match deserialize(exps[i].resp)
       case Ok(v) => Ok(Some(v))
       case Raise(e) => Raise(e))
    case NoneAccepted => Ok(None)
    case JudgeFailed(_, e) => Raise(e)
  }

  /** What one call did: its result for the caller, the query it made, how many
      experiences it judged, the experiences it handed to the context builder,
      the calls of the wrapped function, the `create_exp` calls, the records that
      were stored, and the exception the learning step absorbed. */
  datatype Trace = Trace(
    result: Result<Value>,
    query: Option<Query>,
    judged: nat,
    builderExps: Option<seq<Experience>>,
    calls: seq<Invocation>,
    creates: seq<Experience>,
    saved: seq<Experience>,
    absorbed: Option<Exc>)

  /** The `query_exps` calls of a call: none, or its one query. */
  function Queries(t: Trace): seq<Query>
  {
    if t.query.Some? then [t.query.value] else []
  }

  /** A call that ends before anything is learned. */
  function Ended(result: Result<Value>, query: Option<Query>, judged: nat,
                 builderExps: Option<seq<Experience>>, calls: seq<Invocation>): Trace
  {
    Trace(result, query, judged, builderExps, calls, [], [], None)
  }

  /** The outcome of `process_experience`: the `create_exp` calls, what was stored
      and what `handle_exception` absorbed. */
  datatype Learning = Learning(creates: seq<Experience>, saved: seq<Experience>, absorbed: Option<Exc>)

  /** `evaluate_experience` then `save_experience`, with any exception absorbed. */
  function Learn(scorer: ScoreFn, writeFault: WriteFault, store: seq<Experience>,
                 req: string, resp: string, tag: string): Learning
  {
    match scorer(req, resp)
    case Raise(e) => Learning([], [], Some(e))
    case Ok(score) =>
      var e := Experience(req, resp, tag, Metric(score));
      match writeFault(store, e)
      case Some(f) => Learning([e], [], Some(f))
      case None => Learning([e], [e], None)
  }

  /** The miss path: build the context, run the function on it once, serialise
      the result, learn from it, and return the raw result. */
  function Execute(build: BuildFn, body: Body, respSerialize: Serializer, scorer: ScoreFn,
                   writeFault: WriteFault, store: seq<Experience>,
                   args: Args, kwargs: Kwargs, q: Query, exps: seq<Experience>, judged: nat): Trace
  {
    match build(exps, args, kwargs)
    case Raise(e) => Ended(Raise(e), Some(q), judged, Some(exps), [])
    case Ok(context) =>
      var call := Invocation(args, kwargs[ReqKey := context]);
      match body(call.args, call.kwargs)
      case Raise(e) => Ended(Raise(e), Some(q), judged, Some(exps), [call])
      case Ok(raw) =>
        match respSerialize(raw)
        case Raise(e) => Ended(Raise(e), Some(q), judged, Some(exps), [call])
        case Ok(resp) =>
          var l := Learn(scorer, writeFault, store, q.req, resp, q.tag);
          Trace(Ok(raw), Some(q), judged, Some(exps), [call], l.creates, l.saved, l.absorbed)
  }

  /** `initialize` as far as the call depends on it: validate, resolve the tag,
      serialise `req`; the query the call will make, or what it raises. */
  function Prepare(opts: Options, funcName: Result<string>, args: Args, kwargs: Kwargs): Result<Query>
  {
    match ValidateParams(kwargs)
    case Fail(e) => Raise(e)
    case Pass =>
      match ResolveTag(opts.tag, args, funcName)
      case Raise(e) => Raise(e)
      case Ok(tag) =>
        match ReqSerializerOf(opts)(kwargs[ReqKey])
        case Raise(e) => Raise(e)
        case Ok(req) => Ok(Query(req, opts.queryType, tag))
  }

  /** After the query returned `exps`: look for a perfect experience, else execute. */
  function Respond(opts: Options, defaults: Defaults, body: Body, store: seq<Experience>,
                   args: Args, kwargs: Kwargs, q: Query, exps: seq<Experience>): Trace
  {
    var s := ScanFrom(exps, 0, JudgeOf(opts, defaults), q.req, args, kwargs);
    var judged := JudgedCount(exps, s);
    match PerfectResponse(exps, s, RespDeserializerOf(opts))
    case Raise(e) => Ended(Raise(e), Some(q), judged, None, [])
    case Ok(hit) =>
      if hit.Some? && Truthy(hit.value) then Ended(Ok(hit.value), Some(q), judged, None, [])
      else Execute(BuildOf(opts, defaults), body, RespSerializerOf(opts), ScorerOf(opts, defaults),
                   ManagerOf(opts, defaults).writeFault, store, args, kwargs, q, exps, judged)
  }

  /** After `initialize`: query the store with `q`, then respond. */
  function Fetch(opts: Options, defaults: Defaults, body: Body, store: seq<Experience>,
                 args: Args, kwargs: Kwargs, q: Query): Trace
  {
    match ManagerOf(opts, defaults).query(store, q)
    case Raise(e) => Ended(Raise(e), Some(q), 0, None, [])
    case Ok(exps) => Respond(opts, defaults, body, store, args, kwargs, q, exps)
  }

  /** One call of a function decorated by `exp_cache` with `opts`, made with
      `args`/`kwargs` while the manager holds `store`. */
  function CallTrace(opts: Options, defaults: Defaults, funcName: Result<string>, body: Body,
                     store: seq<Experience>, args: Args, kwargs: Kwargs): Trace
  {
    match Prepare(opts, funcName, args, kwargs)
    case Raise(e) => Ended(Raise(e), None, 0, None, [])
    case Ok(q) => Fetch(opts, defaults, body, store, args, kwargs, q)
  }

  /** What `exp_cache` returns for a function: the function itself when reading
      experiences is disabled, otherwise the caching wrapper. */
  datatype Decorated =
    | Undecorated(func: WrappedFunction)
    | Cached(func: WrappedFunction, opts: Options, defaults: Defaults)

  function ExpCache(enableRead: bool, opts: Options, defaults: Defaults, func: WrappedFunction): (d: Decorated)
    ensures d.func == func
  {
    if !enableRead then Undecorated(func) else Cached(func, opts, defaults)
  }

  /** One call of a decorated function. */
  function Behaviour(d: Decorated, store: seq<Experience>, args: Args, kwargs: Kwargs): Trace
  {
    match d
    case Undecorated(f) => Ended(f.body(args, kwargs), None, 0, None, [Invocation(args, kwargs)])
    case Cached(f, opts, defaults) => CallTrace(opts, defaults, f.name, f.body, store, args, kwargs)
  }
}
