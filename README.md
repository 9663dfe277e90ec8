# Experience cache (`exp_cache`) — a Dafny model

This project models the experience-cache decorator of MetaGPT's experience
pool (`metagpt/exp_pool/decorator.py`). A function decorated with
`exp_cache` takes its request as the keyword argument `req`. On each call it:

1. validates that `req` is present;
2. derives a tag (`ClassName.func_name` or `func_name`) unless it was given one, then serialises `req`;
3. asks the experience manager for stored experiences under that request, query type and tag;
4. judges them in the manager's order;
5. returns the deserialised response of the first perfect one, if that response is truthy;
6. otherwise builds a context from the experiences, runs the function once with
   `req` replaced by that context, serialises the raw result, scores it, and
   stores a new experience. Scoring and storing are protected by an
   exception-absorbing wrapper.

When `enable_read` is off, the decorator returns the function unchanged.

The project has six modules:

- `Python` (python.dfy): the Python values the layer handles. Their
  truthiness, `type(x).__name__` and `str(x)` are modelled concretely. An
  exception is a `Raise` result. `str(x)` raises for an int of more than
  4300 digits, CPython's default limit, and for a user object whose `__str__`
  raises.
- `Schema` (schema.dfy): the experience record, the query, and the shapes of
  the pluggable strategies. Each strategy is a function that may raise.
- `Collaborators` (collaborators.dfy): the three stateful collaborators.
  - The experience manager: an append-only store with a query strategy and a
    write-fault function. It keeps ghost logs of its queries and of its
    `create_exp` calls.
  - The context builder: the handler overwrites its `exps`.
  - The wrapped function: reading its `__name__` may raise `AttributeError`
    (a `functools.partial` has none). It keeps a ghost log of its calls.
- `Lifecycle` (lifecycle.dfy): the specification of one call, as a pure
  function `CallTrace` whose value is a `Trace`. A `Trace` records:
  - the result;
  - the query made;
  - how many experiences were judged;
  - what the builder was given;
  - every call of the function;
  - every `create_exp`;
  - what was stored;
  - what was absorbed.
- `Decorator` (decorator.dfy): `ExpCacheHandler` as a class with field-level
  `modifies` frames, together with `get_or_create`. `initialize` becomes the
  static method `Create`, which allocates the handler. Each of the handler's
  steps is a method: `fetch_experiences`, `get_one_perfect_exp`,
  `_build_context`, `_execute_function`, `execute_function`,
  `evaluate_experience`, `save_experience` and `process_experience`. The two
  pure helpers `_validate_params` and `_generate_tag` are the `Lifecycle`
  functions `ValidateParams` and `GenerateTag`. `choose_wrapper` is left
  out. `GetOrCreate` is proved to do what `CallTrace` says on every input. `Invoke` is proved to do what `Behaviour` says for the value
  `exp_cache` returns.
- `Properties` (properties.dfy): the promises of the decorator, as lemmas
  over the specification. They cover:
  - first-match scanning;
  - failing fast without `req`;
  - short-circuiting on a truthy hit and falling through on a falsy one;
  - one execution on a miss, with the built context;
  - what is written and when;
  - absorbed learning errors and propagated execution errors;
  - transparency when disabled;
  - the tag and the default hooks.

Process-wide configuration is an explicit parameter. This covers the
`enable_read` flag and the defaults: the default manager and the behaviour of
the default scorer, judge and context builder.

Where the module's documented behaviour and its code differ, the model follows
the code:

- A failing `resp_serialize` is not absorbed. It runs in `execute_function`
  (line 151), outside the `handle_exception` wrapper of `process_experience`,
  so its exception reaches the caller and nothing is stored.
  `Properties.RespSerializeErrorPropagates` states this.
- The tag is class-qualified for any first positional argument, because every
  Python value has `__class__` (line 198). A plain function called with an
  `int` first gets `int.func_name`, see
  `Properties.PlainFunctionTagNamesArgumentType`.
- An explicit empty tag is falsy, so the derived tag is used instead
  (line 126).
- The tag is resolved before `req` is serialised (lines 126-128). For a
  callable without `__name__` and no explicit tag, the call raises
  `AttributeError` there.
- A perfect experience whose deserialised response is falsy (for example an
  empty string under the default deserialiser) does not short-circuit. The
  call executes the function as on a miss (line 75).

## Model

| member | source | states |
|---|---|---|
| `Python.Truthy` | metagpt/exp_pool/decorator.py:75 | reference definition of `bool(x)`, used by the hit test; `Properties.TruthyHitShortCircuits`, `Properties.FalsyHitFallsThrough` and `Properties.EmptyStoredResponseIsMiss` state what it decides |
| `Python.TypeName` | metagpt/exp_pool/decorator.py:199 | reference definition of `type(x).__name__`; `Properties.MethodTagNamesClass` and `Properties.PlainFunctionTagNamesArgumentType` state the tags it gives |
| `Python.Str` | metagpt/exp_pool/decorator.py:123-124 | reference definition of `str(x)`, raising over 4300 digits; `Properties.DefaultSerializeInt`, `Properties.OversizedIntReqRaises` and `Properties.DefaultHooksRoundTrip` state its behaviour |
| `Lifecycle.GenerateTag` | metagpt/exp_pool/decorator.py:192-202 | reference definition of `_generate_tag`; `Properties.DerivedTagShape`, `Properties.MethodTagNamesClass`, `Properties.PlainFunctionTagNamesArgumentType` and `Properties.NamelessFunctionNeedsTag` state its results |
| `Lifecycle.ResolveTag` | metagpt/exp_pool/decorator.py:126 | reference definition of `self.tag or self._generate_tag()`; `Properties.ExplicitTagWins`, `Properties.EmptyTagFallsBack` and `Properties.TagNeverEmpty` state its results |
| `Lifecycle.StrSerialize` | metagpt/exp_pool/decorator.py:123-124 | reference definition of the default serialisers `str(x)`; `Properties.DefaultSerializeInt` and `Properties.DefaultHooksRoundTrip` state what they store |
| `Lifecycle.IdentityDeserialize` | metagpt/exp_pool/decorator.py:125 | reference definition of the default deserialiser, the identity on stored text; `Properties.DefaultHooksRoundTrip` and `Properties.EmptyStoredResponseIsMiss` state what it returns |
| `Lifecycle.ManagerOf` | metagpt/exp_pool/decorator.py:119 | reference definition of `self.exp_manager or exp_manager`; `Decorator.ExpCacheHandler.Create` is proved to resolve the manager this way |
| `Lifecycle.ScorerOf` | metagpt/exp_pool/decorator.py:120 | reference definition of `self.exp_scorer or SimpleScorer()`; `Decorator.ExpCacheHandler.Create` is proved to resolve the scorer this way |
| `Lifecycle.JudgeOf` | metagpt/exp_pool/decorator.py:121 | reference definition of `self.exp_perfect_judge or SimplePerfectJudge()`; `Decorator.ExpCacheHandler.Create` is proved to resolve the judge this way |
| `Lifecycle.BuildOf` | metagpt/exp_pool/decorator.py:122 | reference definition of `self.context_builder or SimpleContextBuilder()`; `Decorator.ExpCacheHandler.Create` is proved to resolve the builder this way |
| `Lifecycle.ReqSerializerOf` | metagpt/exp_pool/decorator.py:123 | reference definition of `self.req_serialize or (lambda resp: str(resp))`; `Decorator.ExpCacheHandler.Create` is proved to resolve it this way |
| `Lifecycle.RespSerializerOf` | metagpt/exp_pool/decorator.py:124 | reference definition of `self.resp_serialize or (lambda resp: str(resp))`; `Decorator.ExpCacheHandler.Create` is proved to resolve it this way |
| `Lifecycle.RespDeserializerOf` | metagpt/exp_pool/decorator.py:125 | reference definition of `self.resp_deserialize or (lambda resp: resp)`; `Decorator.ExpCacheHandler.Create` is proved to resolve it this way |
| `Lifecycle.Prepare` | metagpt/exp_pool/decorator.py:110-130 | reference definition of what `initialize` leads to: validate, resolve the tag, serialise `req`, each failure raised in that order; `Properties.PrepareBuildsQuery`, `Properties.MissingReqFailsFast`, `Properties.NamelessFunctionNeedsTag` and `Properties.ReqSerializeErrorPropagates` state its results, and `Decorator.ExpCacheHandler.Create` is proved to follow it |
| `Lifecycle.PerfectResponse` | metagpt/exp_pool/decorator.py:140-145 | reference definition of the value `get_one_perfect_exp` returns for a scan's ending; `Decorator.ExpCacheHandler.GetOnePerfectExp` is proved to return it |
| `Lifecycle.JudgedCount` | metagpt/exp_pool/decorator.py:140-141 | reference definition of how many judge calls a scan makes; `Decorator.ExpCacheHandler.GetOnePerfectExp` is proved to make exactly that many, and `Properties.TruthyHitShortCircuits`, `Properties.NoMatchExecutes` and `Properties.JudgeErrorPropagates` state it for each ending |
| `Lifecycle.Learn` | metagpt/exp_pool/decorator.py:153-173 | reference definition of `process_experience`; `Properties.LearnWritesAtMostOnce`, `Properties.ScorerErrorSavesNothing` and `Properties.WriteErrorIsAbsorbed` state its results, and `Decorator.ExpCacheHandler.ProcessExperience` is proved to follow it |
| `Lifecycle.Execute` | metagpt/exp_pool/decorator.py:78-81 | reference definition of the miss path; `Properties.MissRunsOnceAndLearns`, `Properties.ExecutionErrorPropagates`, `Properties.RespSerializeErrorPropagates` and `Properties.BuildErrorPropagates` state its results, and `Decorator.ExecuteAndLearn` is proved to follow it |
| `Lifecycle.Respond` | metagpt/exp_pool/decorator.py:74-81 | reference definition of what follows a successful query; `Properties.TruthyHitShortCircuits`, `Properties.FalsyHitFallsThrough`, `Properties.NoMatchExecutes` and `Properties.JudgeErrorPropagates` state its results, and `Decorator.RespondOrExecute` is proved to follow it |
| `Lifecycle.Fetch` | metagpt/exp_pool/decorator.py:74 | reference definition of the query step and what follows; `Properties.QueryErrorPropagates` states its error path, and `Decorator.FetchAndRespond` is proved to follow it |
| `Lifecycle.CallTrace` | metagpt/exp_pool/decorator.py:58-81 | reference definition of one call through the caching wrapper; `Properties.EveryCall` states what holds on every input, and `Decorator.GetOrCreate` is proved to follow it |
| `Lifecycle.Behaviour` | metagpt/exp_pool/decorator.py:53-83 | reference definition of one call through what `exp_cache` returns; `Properties.DisabledIsTransparent` and `Properties.EnabledRequiresReq` state its results, and `Decorator.Invoke` is proved to follow it |
| `Python.IntToDecimal` | metagpt/exp_pool/decorator.py:123-124 | `str(int)`, as the default serialisers produce it, is non-empty text that denotes the integer, with a leading `-` exactly for negatives, digits after it, and no leading zero (`0` is written `"0"`) |
| `Python.NatToDecimal` | metagpt/exp_pool/decorator.py:123-124 | the decimal digits of a natural number denote it, are all digits, and have no leading zero unless the number is 0 |
| `Lifecycle.ValidateParams` | metagpt/exp_pool/decorator.py:188-190 | validation passes exactly when `req` is a keyword argument; otherwise it raises the `ValueError` with the source's message |
| `Lifecycle.ScanFrom` | metagpt/exp_pool/decorator.py:140-145 | a scan ends either at an accepted experience or at a judge that raised, at an index inside the scanned range, or after all experiences with none accepted |
| `Lifecycle.ExpCache` | metagpt/exp_pool/decorator.py:53-55 | what the decorator returns always carries the function it was given |
| `Collaborators.ExperienceManager.QueryExps` | metagpt/exp_pool/decorator.py:135 | assumed interface of the manager, not a proved property: the query answers from the current store and is logged; the store is unchanged |
| `Collaborators.ExperienceManager.CreateExp` | metagpt/exp_pool/decorator.py:173 | assumed interface of the manager: every `create_exp` is logged; it appends the record unless the write raises, and a raising write leaves the store unchanged |
| `Collaborators.ContextBuilder.Build` | metagpt/exp_pool/decorator.py:207 | assumed interface of the builder, not a proved property: building uses the builder's current `exps` and the call's arguments |
| `Collaborators.WrappedFunction.Call` | metagpt/exp_pool/decorator.py:212-215 | assumed interface of the wrapped function, not a proved property: a call returns the function's behaviour on its arguments and is logged once with exactly those arguments |
| `Decorator.ExpCacheHandler.constructor` | metagpt/exp_pool/decorator.py:88-108 | the handler holds the given function, arguments and collaborators; its per-call state starts empty |
| `Decorator.ExpCacheHandler.Create` | metagpt/exp_pool/decorator.py:110-130 | a missing `req` raises the validation error first. A tag that cannot be derived raises next, then a raising request serialiser. Otherwise every `None` option is replaced by its default, a fresh default context builder is made when none was given, the tag is resolved, and `req` is serialised |
| `Decorator.ExpCacheHandler.FetchExperiences` | metagpt/exp_pool/decorator.py:132-135 | exactly one query, with the serialised request, the query type and the tag; its result becomes the handler's experiences, and its exception is raised |
| `Decorator.ExpCacheHandler.GetOnePerfectExp` | metagpt/exp_pool/decorator.py:137-145 | the loop returns the deserialised response of the first experience the judge accepts, `None` when it accepts none, or the judge's exception; the judge is called once per experience up to and including the one that stops the scan |
| `Decorator.ExpCacheHandler.BuildContext` | metagpt/exp_pool/decorator.py:204-207 | the builder is given the fetched experiences, then built with the call's original arguments |
| `Decorator.ExpCacheHandler.InvokeWithContext` | metagpt/exp_pool/decorator.py:209-215 | `kwargs["req"]` becomes the built context and the function runs once with it; a raising builder runs nothing |
| `Decorator.ExpCacheHandler.ExecuteFunction` | metagpt/exp_pool/decorator.py:147-151 | the raw result is kept and serialised; errors from the builder, the function and the response serialiser all raise to the caller |
| `Decorator.ExpCacheHandler.EvaluateExperience` | metagpt/exp_pool/decorator.py:164-167 | the score is the scorer's verdict on the serialised request and response, or the scorer's exception |
| `Decorator.ExpCacheHandler.SaveExperience` | metagpt/exp_pool/decorator.py:169-173 | exactly one `create_exp` of the record made of the serialised request and response, the tag and the score |
| `Decorator.ExpCacheHandler.ProcessExperience` | metagpt/exp_pool/decorator.py:153-173 | evaluate then save; any exception of either is absorbed; a failed evaluation saves nothing; the score becomes the scorer's verdict when scoring succeeds and is unchanged when it raises |
| `Decorator.ExecuteAndLearn` | metagpt/exp_pool/decorator.py:78-81 | the miss path does exactly what `Lifecycle.Execute` specifies: one execution, learning, then the raw result |
| `Decorator.RespondOrExecute` | metagpt/exp_pool/decorator.py:75-81 | a truthy perfect response is returned, otherwise the miss path runs, as `Lifecycle.Respond` specifies |
| `Decorator.FetchAndRespond` | metagpt/exp_pool/decorator.py:74-81 | a raising query ends the call, otherwise the call responds as `Lifecycle.Fetch` specifies |
| `Decorator.GetOrCreate` | metagpt/exp_pool/decorator.py:58-81 | one call of the caching wrapper matches `Lifecycle.CallTrace` in result, queries, function calls, `create_exp` calls, stored records and builder state |
| `Decorator.Invoke` | metagpt/exp_pool/decorator.py:53-83 | a call through what `exp_cache` returned matches `Lifecycle.Behaviour`: the bare function when disabled, the caching wrapper otherwise. This covers the result, the function's calls, the manager's queries, `create_exp` calls and store, and a supplied builder's `exps` |
| `Properties.ScanAcceptsFirstMatch` | metagpt/exp_pool/decorator.py:140-143 | the scan accepts experience `k` exactly when the judge accepts it and rejected every earlier one |
| `Properties.ScanRejectsAll` | metagpt/exp_pool/decorator.py:140-145 | the scan finds nothing exactly when the judge rejects every experience |
| `Properties.ScanStopsAtJudgeError` | metagpt/exp_pool/decorator.py:140-141 | a judge raising on experience `k` ends the scan there exactly when every earlier one was rejected |
| `Properties.PrepareBuildsQuery` | metagpt/exp_pool/decorator.py:117-128 | the query made has the serialised `req`, the configured query type and the resolved tag. It exists exactly when `req` was passed, the tag resolved and the serialisation succeeded |
| `Properties.MissingReqFailsFast` | metagpt/exp_pool/decorator.py:188-190 | without `req` the call raises the validation error before any query, judgement, execution or write |
| `Properties.ReqSerializeErrorPropagates` | metagpt/exp_pool/decorator.py:128 | a raising request serialiser raises to the caller before the query |
| `Properties.NamelessFunctionNeedsTag` | metagpt/exp_pool/decorator.py:126-128 | without `__name__` and without a non-empty explicit tag, the `AttributeError` of line 200 (with positional arguments) or line 202 (without) ends the call before serialisation, query or execution |
| `Properties.OversizedIntReqRaises` | metagpt/exp_pool/decorator.py:123-128 | with the default request serialiser, an int `req` of more than 4300 digits raises `ValueError` before the query |
| `Properties.QueryErrorPropagates` | metagpt/exp_pool/decorator.py:135 | a raising query raises to the caller; nothing is judged, executed or written |
| `Properties.TruthyHitShortCircuits` | metagpt/exp_pool/decorator.py:75-76 | the truthy deserialised response of the first accepted experience is the result; the function is not run, nothing is built or written, and exactly `k + 1` experiences were judged |
| `Properties.FalsyHitFallsThrough` | metagpt/exp_pool/decorator.py:75-79 | a falsy deserialised response of the first accepted experience is dropped and the call takes the miss path |
| `Properties.NoMatchExecutes` | metagpt/exp_pool/decorator.py:140-145 | when every experience is rejected, all are judged and the call takes the miss path |
| `Properties.JudgeErrorPropagates` | metagpt/exp_pool/decorator.py:141 | a raising judge raises to the caller after `k + 1` judgements; nothing runs or is written |
| `Properties.MissRunsOnceAndLearns` | metagpt/exp_pool/decorator.py:78-81 | on a successful miss: the builder receives the fetched experiences; the function runs once with `req` replaced by the context; its raw result is returned; one record of the serialised request, serialised response, tag and score is written and stored |
| `Properties.ScorerErrorSavesNothing` | metagpt/exp_pool/decorator.py:153-167 | a raising scorer is absorbed: the raw result is returned and no `create_exp` happens |
| `Properties.WriteErrorIsAbsorbed` | metagpt/exp_pool/decorator.py:153-173 | a raising `create_exp` is absorbed: the raw result is returned and the one attempted record is not stored |
| `Properties.ExecutionErrorPropagates` | metagpt/exp_pool/decorator.py:209-215 | an exception of the function reaches the caller and nothing is written |
| `Properties.RespSerializeErrorPropagates` | metagpt/exp_pool/decorator.py:147-151 | an exception of the response serialiser reaches the caller although the function ran, and nothing is written |
| `Properties.BuildErrorPropagates` | metagpt/exp_pool/decorator.py:204-210 | an exception of the context builder reaches the caller and the function is not run |
| `Properties.LearnWritesAtMostOnce` | metagpt/exp_pool/decorator.py:153-173 | learning makes at most one `create_exp`, and only after a successful evaluation, with the scored record; the record is stored exactly when nothing was absorbed |
| `Properties.EveryCall` | metagpt/exp_pool/decorator.py:58-81 | on every input: at most one function call, with the caller's arguments except `req`; at most one write, only after a successful call; the record's response is the serialisation of the value returned; a raising call writes nothing |
| `Properties.DisabledIsTransparent` | metagpt/exp_pool/decorator.py:53-55 | with reading disabled the function itself is returned, and a call through it is exactly one call of the function with the same arguments and result |
| `Properties.EnabledRequiresReq` | metagpt/exp_pool/decorator.py:57-72 | with reading enabled a call without `req` raises the validation error and never runs the function |
| `Properties.ExplicitTagWins` | metagpt/exp_pool/decorator.py:126 | a non-empty explicit tag is used as given, even for a function without `__name__` |
| `Properties.EmptyTagFallsBack` | metagpt/exp_pool/decorator.py:126 | an empty explicit tag behaves as no tag |
| `Properties.DerivedTagShape` | metagpt/exp_pool/decorator.py:192-202 | the derived tag ends with the function's name, equals it exactly when there are no positional arguments, and otherwise is exactly the first argument's class name, a dot and the function's name (its length is their lengths plus one) |
| `Properties.MethodTagNamesClass` | metagpt/exp_pool/decorator.py:198-200 | a method called on an instance of `Foo` named `bar` gets the tag `Foo.bar` |
| `Properties.PlainFunctionTagNamesArgumentType` | metagpt/exp_pool/decorator.py:198-200 | a function whose first positional argument is an `int`, whatever follows it, gets `int.` before its name |
| `Properties.TagNeverEmpty` | metagpt/exp_pool/decorator.py:192-202 | the resolved tag is never empty when the function has a name |
| `Properties.DefaultHooksRoundTrip` | metagpt/exp_pool/decorator.py:124-125 | with the default response hooks, a `str` is stored as itself, and a stored response comes back as the value it came from exactly for `str` values |
| `Properties.DefaultSerializeInt` | metagpt/exp_pool/decorator.py:123-124 | the default serialiser raises for an int exactly when it has more than 4300 digits, and otherwise stores text that denotes the int |
| `Python.DecimalInjective` | metagpt/exp_pool/decorator.py:123-124 | distinct ints have distinct decimal texts, so the default serialiser stores them as distinct requests and responses |
| `Properties.EmptyStoredResponseIsMiss` | metagpt/exp_pool/decorator.py:75-76 | under the default deserialiser, an accepted experience short-circuits exactly when its stored response is non-empty |

## Left out

- The synchronous/asynchronous bridge `choose_wrapper` (lines 175-186) and the `iscoroutinefunction` dispatch of `_execute_function` (lines 212-215). The model is sequential; `await` adds no observable behaviour to one call.
- The factory form `decorator(_func) if _func else decorator` (line 85). It only decides whether the options were given with or without parentheses.
- `functools.wraps` metadata, `model_config`, and pydantic's field handling. Pydantic also wraps a `ValueError` raised inside the validator in a `ValidationError`, which is itself a `ValueError`. The model raises the validation error as a plain `ValueError` with the source's message, and it propagates a request-serialiser exception unwrapped.
- The `x or default` resolutions of `initialize` (lines 119-125) are modelled as "given or `None`". A user-supplied collaborator object whose `__bool__` is false would be replaced by the default in Python; the model does not capture that.
- Logging (line 142), and the logging and return value of `handle_exception`. The model records the absorbed exception in `Trace.absorbed`. Every raised exception counts as absorbed, including ones that `handle_exception` would let through (non-`Exception` base exceptions).
- The internals of the experience manager, the scorers, the perfect judges and the context builders, including the manager's own configuration flags. Each is given by the behaviour the decorator sees: a pure function that may raise. They are not part of this model.
- User-defined `__bool__`, `__str__` and class names are summarised by the fields of `Python.Value.ObjV` rather than executed.
- Python.Truthy: a user-defined `__bool__` or `__len__` that raises at line 75 is not modelled; every value has a truth value.
- Python.Str: the int digit limit is CPython's default of 4300; a limit changed with `sys.set_int_max_str_digits` is not modelled. The message is CPython 3.12's.
- The caller's `kwargs` dictionary is modelled as a value. Python builds a fresh dictionary for each call of the wrapper, so the in-place update of `kwargs["req"]` (line 210) is visible only inside the call.
- Concurrency between calls, and cancellation. Each call is modelled on its own.
- Nested decorated calls. The wrapped function, the serialisers, the judge, the scorer and the builder are modelled as having no effect on any manager's store or any builder. In Python one of them may itself call another decorated function; decorated functions without an explicit `manager` share the process-wide `exp_manager` (line 119), so such a nested call's records would land between this call's query (line 135) and its `create_exp` (line 173). The model does not capture that interleaving; `GetOrCreate`'s store equality and `Learn`'s use of the store as it was at the start of the call rely on it.
- `metagpt/roles/di/engineer2.py` uses the decorator; it is not part of this model.
