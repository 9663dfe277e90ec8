/** The experience record and the shapes of the pluggable collaborators
    (`metagpt.exp_pool.schema` and the strategy interfaces the decorator calls). */
module Schema {
  import opened Python

  /** Retrieval strategy passed through to the manager. */
  datatype QueryType = Exact | Semantic

  /** A quality score produced by a scorer, wrapped in a metric. */
  datatype Score = Score(val: int, reason: string)
  datatype Metric = Metric(score: Score)

  /** A persisted (request, response, tag, score) record. */
  datatype Experience = Experience(req: string, resp: string, tag: string, metric: Metric)

  /** The arguments of one `query_exps` call. */
  datatype Query = Query(req: string, queryType: QueryType, tag: string)

  /** The arguments of one call of the wrapped function. */
  datatype Invocation = Invocation(args: Args, kwargs: Kwargs)

  /** `manager.query_exps(req, query_type=..., tag=...)` over the manager's store. */
  type QueryFn = (seq<Experience>, Query) -> Result<seq<Experience>>

  /** Whether `manager.create_exp(exp)` raises, given the store it writes to. */
  type WriteFault = (seq<Experience>, Experience) -> Option<Exc>

  /** `perfect_judge.is_perfect_exp(exp, serialized_req, *args, **kwargs)`. */
  type JudgeFn = (Experience, string, Args, Kwargs) -> Result<bool>

  /** `scorer.evaluate(serialized_req, serialized_resp)`. */
  type ScoreFn = (string, string) -> Result<Score>

  /** `context_builder.build(*args, **kwargs)` with the builder's `exps` set. */
  type BuildFn = (seq<Experience>, Args, Kwargs) -> Result<Value>

  /** `req_serialize` / `resp_serialize`. */
  type Serializer = Value -> Result<string>

  /** `resp_deserialize`. */
  type Deserializer = string -> Result<Value>

  /** The wrapped function's behaviour on its arguments. */
  type Body = (Args, Kwargs) -> Result<Value>
}
