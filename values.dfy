/** The dynamic values the core passes around: Python exceptions, results
    that may raise, dictionaries of metrics, and the replies of a language
    model. */
module Values {

  /** The exceptions the modelled code can raise. */
  datatype Raised = ValueError | IndexError | KeyError

  /** A computation that returns a value or raises. */
  datatype Result<T> = Ok(value: T) | Err(error: Raised)

  datatype Option<T> = None | Some(value: T)

  /** A value stored in a result or metrics dictionary. */
  datatype Value = Str(s: string) | Int(i: int) | Real(r: real) | Bool(b: bool)

  type Dict = map<string, Value>

  /** A reply dictionary taken apart: the `response` text the interface
      promises, the `token_count` the reply may carry, and whatever other
      keys (latency, accuracy flags) the implementation adds. */
  datatype ReplyParts = ReplyParts(response: string, tokenCount: Option<int>, others: Dict)

  /** What `llm.query(context, question)` returns.  `response` and
      `token_count` live in their own fields only, so reading the token
      count and reporting the dictionary always agree. */
  type Reply = r: ReplyParts | "response" !in r.others && "token_count" !in r.others
    witness ReplyParts("", None, map[])

  /** `result.get('token_count', 0)`. */
  function TokenCount(r: Reply): int {
    if r.tokenCount.Some? then r.tokenCount.value else 0
  }

  /** The reply as the dictionary the caller receives: its `token_count`
      entry, when present, is the count `TokenCount` reads. */
  function ReplyDict(r: Reply): (d: Dict)
    ensures "response" in d && d["response"] == Str(r.response)
    ensures "token_count" in d <==> r.tokenCount.Some?
    ensures "token_count" in d ==> d["token_count"] == Int(TokenCount(r))
    ensures forall k :: k in r.others ==> k in d && d[k] == r.others[k]
  {
    var withResponse := r.others["response" := Str(r.response)];
    if r.tokenCount.Some? then withResponse["token_count" := Int(r.tokenCount.value)] else withResponse
  }
}
