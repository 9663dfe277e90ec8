/** What one call through `exp_cache` promises, stated over the specification
    in module Lifecycle (which the handler in module Decorator is proved to
    follow). */
module Properties {
  import opened Python
  import opened Schema
  import opened Collaborators
  import opened Lifecycle

  // ---------------------------------------------------------------------------
  // The scan of `get_one_perfect_exp`: first match in manager order.

  /** Every experience of `exps[lo..hi]` is judged not perfect, without raising. */
  predicate Rejected(exps: seq<Experience>, lo: nat, hi: nat, judge: JudgeFn,
                     req: string, args: Args, kwargs: Kwargs)
    requires lo <= hi <= |exps|
  {
    forall j :: lo <= j < hi ==> judge(exps[j], req, args, kwargs) == Ok(false)
  }

  /** The scan accepts `exps[k]` exactly when the judge accepts it and rejected
      every experience before it. */
  lemma {:induction false} ScanAcceptsFirstMatch(exps: seq<Experience>, i: nat, judge: JudgeFn,
                                                 req: string, args: Args, kwargs: Kwargs, k: nat)
    requires i <= |exps|
    ensures ScanFrom(exps, i, judge, req, args, kwargs) == Accepted(k)
        <==> i <= k < |exps| && judge(exps[k], req, args, kwargs) == Ok(true)
             && Rejected(exps, i, k, judge, req, args, kwargs)
    decreases |exps| - i
  {
    if i < |exps| && judge(exps[i], req, args, kwargs) == Ok(false) {
      ScanAcceptsFirstMatch(exps, i + 1, judge, req, args, kwargs, k);
      if i < k <= |exps| {
        assert Rejected(exps, i, k, judge, req, args, kwargs)
          <==> Rejected(exps, i + 1, k, judge, req, args, kwargs);
      }
    }
  }

  /** The scan finds nothing exactly when every experience is rejected. */
  lemma {:induction false} ScanRejectsAll(exps: seq<Experience>, i: nat, judge: JudgeFn,
                                          req: string, args: Args, kwargs: Kwargs)
    requires i <= |exps|
    ensures ScanFrom(exps, i, judge, req, args, kwargs) == NoneAccepted
        <==> Rejected(exps, i, |exps|, judge, req, args, kwargs)
    decreases |exps| - i
  {
    if i < |exps| && judge(exps[i], req, args, kwargs) == Ok(false) {
      ScanRejectsAll(exps, i + 1, judge, req, args, kwargs);
      assert Rejected(exps, i, |exps|, judge, req, args, kwargs)
        <==> Rejected(exps, i + 1, |exps|, judge, req, args, kwargs);
    }
  }

  /** A judge that raises on `exps[k]` stops the scan there, provided it rejected
      everything before; later experiences are not judged. */
  lemma {:induction false} ScanStopsAtJudgeError(exps: seq<Experience>, i: nat, judge: JudgeFn,
                                                 req: string, args: Args, kwargs: Kwargs, k: nat, e: Exc)
    requires i <= |exps|
    ensures ScanFrom(exps, i, judge, req, args, kwargs) == JudgeFailed(k, e)
        <==> i <= k < |exps| && judge(exps[k], req, args, kwargs) == Raise(e)
             && Rejected(exps, i, k, judge, req, args, kwargs)
    decreases |exps| - i
  {
    if i < |exps| && judge(exps[i], req, args, kwargs) == Ok(false) {
      ScanStopsAtJudgeError(exps, i + 1, judge, req, args, kwargs, k, e);
      if i < k <= |exps| {
        assert Rejected(exps, i, k, judge, req, args, kwargs)
          <==> Rejected(exps, i + 1, k, judge, req, args, kwargs);
      }
    }
  }

  // ---------------------------------------------------------------------------
  // `initialize`: validation first, then the query that will be made.

  /** `Prepare` yields query `q` exactly when `req` was passed, its serialisation
      is `q.req`, and `q` carries the configured query type and the resolved tag. */
  lemma PrepareBuildsQuery(opts: Options, funcName: Result<string>, args: Args, kwargs: Kwargs, q: Query)
    ensures Prepare(opts, funcName, args, kwargs) == Ok(q)
        <==> && ReqKey in kwargs
             && ReqSerializerOf(opts)(kwargs[ReqKey]) == Ok(q.req)
             && q.queryType == opts.queryType
             && ResolveTag(opts.tag, args, funcName) == Ok(q.tag)
  {
  }

  /** A call without `req` raises the validation error before anything else:
      no serialisation reaches the store, no query, no judge, no call, no save. */
  lemma MissingReqFailsFast(opts: Options, defaults: Defaults, funcName: Result<string>, body: Body,
                            store: seq<Experience>, args: Args, kwargs: Kwargs)
    requires ReqKey !in kwargs
    ensures CallTrace(opts, defaults, funcName, body, store, args, kwargs)
         == Ended(Raise(MissingReq), None, 0, None, [])
  {
  }

  /** A request serialiser that raises ends the call with its exception, before
      the query. */
  lemma ReqSerializeErrorPropagates(opts: Options, defaults: Defaults, funcName: Result<string>, body: Body,
                                    store: seq<Experience>, args: Args, kwargs: Kwargs, e: Exc)
    requires ReqKey in kwargs && ResolveTag(opts.tag, args, funcName).Ok?
    requires ReqSerializerOf(opts)(kwargs[ReqKey]) == Raise(e)
    ensures CallTrace(opts, defaults, funcName, body, store, args, kwargs)
         == Ended(Raise(e), None, 0, None, [])
  {
  }

  /** A function without `__name__` and no non-empty explicit tag: reading the
      name raises while the tag is derived, before the request is serialised. */
  lemma NamelessFunctionNeedsTag(opts: Options, defaults: Defaults, funcName: Result<string>, body: Body,
                                 store: seq<Experience>, args: Args, kwargs: Kwargs, e: Exc)
    requires ReqKey in kwargs && funcName == Raise(e)
    requires opts.tag.None? || opts.tag.value == ""
    ensures CallTrace(opts, defaults, funcName, body, store, args, kwargs)
         == Ended(Raise(e), None, 0, None, [])
  {
  }

  /** With the default request serialiser, a `req` that is an int of more than
      4300 digits makes `str` raise, and the call ends before the query. */
  lemma OversizedIntReqRaises(opts: Options, defaults: Defaults, funcName: Result<string>, body: Body,
                              store: seq<Experience>, args: Args, kwargs: Kwargs, n: int)
    requires opts.reqSerialize.None? && ResolveTag(opts.tag, args, funcName).Ok?
    requires ReqKey in kwargs && kwargs[ReqKey] == IntV(n)
    requires |NatToDecimal(if n < 0 then -n else n)| > IntMaxStrDigits
    ensures CallTrace(opts, defaults, funcName, body, store, args, kwargs)
         == Ended(Raise(IntStrLimitError), None, 0, None, [])
  {
  }

  /** A query that raises ends the call with its exception: nothing is judged,
      run or saved. */
  lemma QueryErrorPropagates(opts: Options, defaults: Defaults, funcName: Result<string>, body: Body,
                             store: seq<Experience>, args: Args, kwargs: Kwargs, q: Query, e: Exc)
    requires Prepare(opts, funcName, args, kwargs) == Ok(q)
    requires ManagerOf(opts, defaults).query(store, q) == Raise(e)
    ensures CallTrace(opts, defaults, funcName, body, store, args, kwargs)
         == Ended(Raise(e), Some(q), 0, None, [])
  {
  }

  // ---------------------------------------------------------------------------
  // `get_or_create`: the hit path and the miss path.

  /** A truthy response of the first accepted experience is returned as is: the
      function is not run, nothing is built or saved, and exactly `k + 1`
      experiences were judged. */
  lemma TruthyHitShortCircuits(opts: Options, defaults: Defaults, funcName: Result<string>, body: Body,
                               store: seq<Experience>, args: Args, kwargs: Kwargs, q: Query,
                               exps: seq<Experience>, k: nat, v: Value)
    requires Prepare(opts, funcName, args, kwargs) == Ok(q)
    requires ManagerOf(opts, defaults).query(store, q) == Ok(exps)
    requires k < |exps| && JudgeOf(opts, defaults)(exps[k], q.req, args, kwargs) == Ok(true)
    requires Rejected(exps, 0, k, JudgeOf(opts, defaults), q.req, args, kwargs)
    requires RespDeserializerOf(opts)(exps[k].resp) == Ok(v) && Truthy(v)
    ensures CallTrace(opts, defaults, funcName, body, store, args, kwargs)
         == Ended(Ok(v), Some(q), k + 1, None, [])
  {
    ScanAcceptsFirstMatch(exps, 0, JudgeOf(opts, defaults), q.req, args, kwargs, k);
  }

  /** A falsy response of the first accepted experience is discarded: the call
      goes on as a miss, after `k + 1` judgements. */
  lemma FalsyHitFallsThrough(opts: Options, defaults: Defaults, funcName: Result<string>, body: Body,
                             store: seq<Experience>, args: Args, kwargs: Kwargs, q: Query,
                             exps: seq<Experience>, k: nat, v: Value)
    requires Prepare(opts, funcName, args, kwargs) == Ok(q)
    requires ManagerOf(opts, defaults).query(store, q) == Ok(exps)
    requires k < |exps| && JudgeOf(opts, defaults)(exps[k], q.req, args, kwargs) == Ok(true)
    requires Rejected(exps, 0, k, JudgeOf(opts, defaults), q.req, args, kwargs)
    requires RespDeserializerOf(opts)(exps[k].resp) == Ok(v) && !Truthy(v)
    ensures CallTrace(opts, defaults, funcName, body, store, args, kwargs)
         == Execute(BuildOf(opts, defaults), body, RespSerializerOf(opts), ScorerOf(opts, defaults),
                    ManagerOf(opts, defaults).writeFault, store, args, kwargs, q, exps, k + 1)
  {
    ScanAcceptsFirstMatch(exps, 0, JudgeOf(opts, defaults), q.req, args, kwargs, k);
  }

  /** When the judge rejects every experience, the call is a miss after judging
      all of them. */
  lemma NoMatchExecutes(opts: Options, defaults: Defaults, funcName: Result<string>, body: Body,
                        store: seq<Experience>, args: Args, kwargs: Kwargs, q: Query, exps: seq<Experience>)
    requires Prepare(opts, funcName, args, kwargs) == Ok(q)
    requires ManagerOf(opts, defaults).query(store, q) == Ok(exps)
    requires Rejected(exps, 0, |exps|, JudgeOf(opts, defaults), q.req, args, kwargs)
    ensures CallTrace(opts, defaults, funcName, body, store, args, kwargs)
         == Execute(BuildOf(opts, defaults), body, RespSerializerOf(opts), ScorerOf(opts, defaults),
                    ManagerOf(opts, defaults).writeFault, store, args, kwargs, q, exps, |exps|)
  {
    ScanRejectsAll(exps, 0, JudgeOf(opts, defaults), q.req, args, kwargs);
  }

  /** A judge that raises ends the call with its exception: the function is not
      run and nothing is saved. */
  lemma JudgeErrorPropagates(opts: Options, defaults: Defaults, funcName: Result<string>, body: Body,
                             store: seq<Experience>, args: Args, kwargs: Kwargs, q: Query,
                             exps: seq<Experience>, k: nat, e: Exc)
    requires Prepare(opts, funcName, args, kwargs) == Ok(q)
    requires ManagerOf(opts, defaults).query(store, q) == Ok(exps)
    requires k < |exps| && JudgeOf(opts, defaults)(exps[k], q.req, args, kwargs) == Raise(e)
    requires Rejected(exps, 0, k, JudgeOf(opts, defaults), q.req, args, kwargs)
    ensures CallTrace(opts, defaults, funcName, body, store, args, kwargs)
         == Ended(Raise(e), Some(q), k + 1, None, [])
  {
    ScanStopsAtJudgeError(exps, 0, JudgeOf(opts, defaults), q.req, args, kwargs, k, e);
  }

  /** The miss path when every step succeeds: the builder gets the fetched
      experiences, the function runs once with `req` replaced by the context,
      its raw result is returned, and one record of the serialised request,
      serialised response, tag and score is written and stored. */
  lemma MissRunsOnceAndLearns(build: BuildFn, body: Body, respSerialize: Serializer, scorer: ScoreFn,
                              writeFault: WriteFault, store: seq<Experience>, args: Args, kwargs: Kwargs,
                              q: Query, exps: seq<Experience>, judged: nat,
                              context: Value, raw: Value, resp: string, score: Score)
    requires build(exps, args, kwargs) == Ok(context)
    requires body(args, kwargs[ReqKey := context]) == Ok(raw)
    requires respSerialize(raw) == Ok(resp)
    requires scorer(q.req, resp) == Ok(score)
    requires writeFault(store, Experience(q.req, resp, q.tag, Metric(score))).None?
    ensures var t := Execute(build, body, respSerialize, scorer, writeFault, store, args, kwargs, q, exps, judged);
      var e := Experience(q.req, resp, q.tag, Metric(score));
      && t.result == Ok(raw) && t.builderExps == Some(exps)
      && t.calls == [Invocation(args, kwargs[ReqKey := context])]
      && t.creates == [e] && t.saved == [e] && t.absorbed == None
  {
  }

  /** A scorer that raises is absorbed: the raw result is still returned and no
      record is written. */
  lemma ScorerErrorSavesNothing(build: BuildFn, body: Body, respSerialize: Serializer, scorer: ScoreFn,
                                writeFault: WriteFault, store: seq<Experience>, args: Args, kwargs: Kwargs,
                                q: Query, exps: seq<Experience>, judged: nat,
                                context: Value, raw: Value, resp: string, e: Exc)
    requires build(exps, args, kwargs) == Ok(context)
    requires body(args, kwargs[ReqKey := context]) == Ok(raw)
    requires respSerialize(raw) == Ok(resp)
    requires scorer(q.req, resp) == Raise(e)
    ensures var t := Execute(build, body, respSerialize, scorer, writeFault, store, args, kwargs, q, exps, judged);
      && t.result == Ok(raw) && |t.calls| == 1
      && t.creates == [] && t.saved == [] && t.absorbed == Some(e)
  {
  }

  /** A `create_exp` that raises is absorbed: the raw result is still returned,
      the one attempted record is not stored. */
  lemma WriteErrorIsAbsorbed(build: BuildFn, body: Body, respSerialize: Serializer, scorer: ScoreFn,
                             writeFault: WriteFault, store: seq<Experience>, args: Args, kwargs: Kwargs,
                             q: Query, exps: seq<Experience>, judged: nat,
                             context: Value, raw: Value, resp: string, score: Score, f: Exc)
    requires build(exps, args, kwargs) == Ok(context)
    requires body(args, kwargs[ReqKey := context]) == Ok(raw)
    requires respSerialize(raw) == Ok(resp)
    requires scorer(q.req, resp) == Ok(score)
    requires writeFault(store, Experience(q.req, resp, q.tag, Metric(score))) == Some(f)
    ensures var t := Execute(build, body, respSerialize, scorer, writeFault, store, args, kwargs, q, exps, judged);
      && t.result == Ok(raw) && |t.creates| == 1 && t.saved == [] && t.absorbed == Some(f)
  {
  }

  /** An exception of the function propagates to the caller and nothing is
      written. */
  lemma ExecutionErrorPropagates(build: BuildFn, body: Body, respSerialize: Serializer, scorer: ScoreFn,
                                 writeFault: WriteFault, store: seq<Experience>, args: Args, kwargs: Kwargs,
                                 q: Query, exps: seq<Experience>, judged: nat, context: Value, e: Exc)
    requires build(exps, args, kwargs) == Ok(context)
    requires body(args, kwargs[ReqKey := context]) == Raise(e)
    ensures var t := Execute(build, body, respSerialize, scorer, writeFault, store, args, kwargs, q, exps, judged);
      && t.result == Raise(e) && |t.calls| == 1 && t.creates == [] && t.saved == []
  {
  }

  /** A response serialiser that raises is not absorbed: the call raises it,
      although the function ran, and nothing is written. */
  lemma RespSerializeErrorPropagates(build: BuildFn, body: Body, respSerialize: Serializer, scorer: ScoreFn,
                                     writeFault: WriteFault, store: seq<Experience>, args: Args, kwargs: Kwargs,
                                     q: Query, exps: seq<Experience>, judged: nat,
                                     context: Value, raw: Value, e: Exc)
    requires build(exps, args, kwargs) == Ok(context)
    requires body(args, kwargs[ReqKey := context]) == Ok(raw)
    requires respSerialize(raw) == Raise(e)
    ensures var t := Execute(build, body, respSerialize, scorer, writeFault, store, args, kwargs, q, exps, judged);
      && t.result == Raise(e) && |t.calls| == 1 && t.creates == [] && t.saved == []
  {
  }

  /** A context builder that raises ends the call before the function runs. */
  lemma BuildErrorPropagates(build: BuildFn, body: Body, respSerialize: Serializer, scorer: ScoreFn,
                             writeFault: WriteFault, store: seq<Experience>, args: Args, kwargs: Kwargs,
                             q: Query, exps: seq<Experience>, judged: nat, e: Exc)
    requires build(exps, args, kwargs) == Raise(e)
    ensures var t := Execute(build, body, respSerialize, scorer, writeFault, store, args, kwargs, q, exps, judged);
      && t.result == Raise(e) && t.calls == [] && t.creates == [] && t.builderExps == Some(exps)
  {
  }

  // ---------------------------------------------------------------------------
  // Facts about every call.

  /** What `process_experience` does, whatever its collaborators do: at most one
      `create_exp`, only after a successful evaluation; the record is stored
      exactly when nothing was absorbed. */
  lemma {:induction false} LearnWritesAtMostOnce(scorer: ScoreFn, writeFault: WriteFault, store: seq<Experience>,
                                                 req: string, resp: string, tag: string)
    ensures var l := Learn(scorer, writeFault, store, req, resp, tag);
      && |l.creates| <= 1 && l.saved <= l.creates
      && (l.absorbed.None? <==> l.saved != [])
      && (scorer(req, resp).Raise? <==> l.creates == [])
      && (l.creates != [] ==>
            l.creates[0] == Experience(req, resp, tag, Metric(scorer(req, resp).value)))
  {
  }

  /** Every call: the function runs at most once, with the caller's positional
      arguments and keyword arguments where only `req` may differ; at most one
      record is written, only after the function and the response serialiser
      succeeded, with the serialised request, the tag of the query, and the
      serialisation of the value returned to the caller; a call that raises
      writes nothing; an absorbed learning error never changes the result. */
  lemma EveryCall(opts: Options, defaults: Defaults, funcName: Result<string>, body: Body,
                  store: seq<Experience>, args: Args, kwargs: Kwargs)
    ensures var t := CallTrace(opts, defaults, funcName, body, store, args, kwargs);
      && |t.calls| <= 1 && |t.creates| <= 1 && t.saved <= t.creates
      && (t.calls != [] ==>
            && t.query.Some? && t.builderExps.Some?
            && t.calls[0].args == args
            && t.calls[0].kwargs.Keys == kwargs.Keys
            && forall key :: key in kwargs && key != ReqKey ==> t.calls[0].kwargs[key] == kwargs[key])
      && (t.creates != [] ==>
            && t.result.Ok? && |t.calls| == 1 && t.query.Some?
            && t.creates[0].req == t.query.value.req
            && t.creates[0].tag == t.query.value.tag
            && RespSerializerOf(opts)(t.result.value) == Ok(t.creates[0].resp))
      && (t.result.Raise? ==> t.creates == [] && t.absorbed.None?)
      && (t.query.None? ==> t.judged == 0 && t.calls == [])
  {
  }

  // ---------------------------------------------------------------------------
  // `exp_cache` itself: disabled reading and the tag.

  /** With reading disabled, `exp_cache` returns the function itself, and a call
      through it is exactly one call of the function with the same arguments:
      no validation, no query, nothing written. */
  lemma DisabledIsTransparent(opts: Options, defaults: Defaults, func: WrappedFunction,
                              store: seq<Experience>, args: Args, kwargs: Kwargs)
    ensures ExpCache(false, opts, defaults, func) == Undecorated(func)
    ensures Behaviour(ExpCache(false, opts, defaults, func), store, args, kwargs)
         == Ended(func.body(args, kwargs), None, 0, None, [Invocation(args, kwargs)])
  {
  }

  /** With reading enabled, a call without `req` fails even where the function
      itself would not: the decorator is not transparent. */
  lemma EnabledRequiresReq(opts: Options, defaults: Defaults, func: WrappedFunction,
                           store: seq<Experience>, args: Args, kwargs: Kwargs)
    requires ReqKey !in kwargs
    ensures Behaviour(ExpCache(true, opts, defaults, func), store, args, kwargs).result == Raise(MissingReq)
    ensures Behaviour(ExpCache(true, opts, defaults, func), store, args, kwargs).calls == []
  {
  }

  /** A non-empty explicit tag is used as given, even for a function without
      `__name__`. */
  lemma ExplicitTagWins(tag: string, args: Args, funcName: Result<string>)
    requires tag != ""
    ensures ResolveTag(Some(tag), args, funcName) == Ok(tag)
  {
  }

  /** An empty explicit tag is falsy and behaves as no tag. */
  lemma EmptyTagFallsBack(args: Args, funcName: Result<string>)
    ensures ResolveTag(Some(""), args, funcName) == ResolveTag(None, args, funcName)
  {
  }

  /** The derived tag is `func_name` without positional arguments, and
      otherwise the first argument's class name, a dot and `func_name`. */
  lemma {:induction false} DerivedTagShape(args: Args, funcName: string)
    ensures GenerateTag(args, Ok(funcName)).Ok?
    ensures var t := GenerateTag(args, Ok(funcName)).value;
      && |t| >= |funcName|
      && t[|t| - |funcName|..] == funcName
      && (t == funcName <==> |args| == 0)
      && (|args| > 0 ==>
            |t| == |TypeName(args[0])| + 1 + |funcName|
            && t[..|TypeName(args[0])|] == TypeName(args[0]) && t[|TypeName(args[0])|] == '.')
  {
    if |args| > 0 {
      var t := GenerateTag(args, Ok(funcName)).value;
      assert |t| == |TypeName(args[0])| + 1 + |funcName|;
    }
  }

  /** A method called on an instance of class `cls` gets `cls.method_name`. */
  lemma MethodTagNamesClass(cls: string, truth: bool, text: Result<string>, rest: Args, funcName: string)
    ensures ResolveTag(None, [ObjV(cls, truth, text)] + rest, Ok(funcName)) == Ok(cls + "." + funcName)
  {
  }

  /** Any first positional argument gives a class-qualified tag, a plain
      function called with an int first gets `int.func_name`. */
  lemma PlainFunctionTagNamesArgumentType(n: int, rest: Args, funcName: string)
    ensures ResolveTag(None, [IntV(n)] + rest, Ok(funcName)) == Ok("int." + funcName)
  {
    assert ([IntV(n)] + rest)[0] == IntV(n);
    assert TypeName(IntV(n)) + "." + funcName == "int." + funcName;
  }

  /** The tag is never empty when the function has a name. */
  lemma TagNeverEmpty(explicit: Option<string>, args: Args, funcName: string)
    requires funcName != ""
    ensures ResolveTag(explicit, args, Ok(funcName)).Ok?
    ensures ResolveTag(explicit, args, Ok(funcName)).value != ""
  {
  }

  // ---------------------------------------------------------------------------
  // The default hooks.

  /** With the default serialiser and deserialiser, a stored response comes back
      as the string it was stored as: the round trip restores exactly the `str`
      values. */
  lemma DefaultHooksRoundTrip(v: Value)
    ensures v.StrV? ==> StrSerialize(v) == Ok(v.s)
    ensures StrSerialize(v).Ok? ==> (IdentityDeserialize(StrSerialize(v).value) == Ok(v) <==> v.StrV?)
  {
  }

  /** The default serialiser stores an int as decimal text that denotes it, so
      distinct ints are stored as distinct texts; it raises exactly when the
      int has more than 4300 digits. */
  lemma DefaultSerializeInt(n: int)
    ensures StrSerialize(IntV(n)).Raise? <==> |NatToDecimal(if n < 0 then -n else n)| > IntMaxStrDigits
    ensures StrSerialize(IntV(n)).Ok? ==> DecimalValue(StrSerialize(IntV(n)).value) == n
  {
  }

  /** With the default deserialiser, an accepted experience whose stored
      response is empty is falsy and does not short-circuit. */
  lemma EmptyStoredResponseIsMiss(resp: string)
    ensures IdentityDeserialize(resp).Ok?
    ensures Truthy(IdentityDeserialize(resp).value) <==> resp != ""
  {
  }
}
