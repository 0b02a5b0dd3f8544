/** The multi-step agent: it records every action, hands each one to its
    memory strategy, and answers questions through that strategy.  The
    strategy is one of SELECT, COMPRESS and WRITE, told apart by a tagged
    variant. */
module Agents {
  import opened Values
  import opened Scratchpads
  import opened MemoryStrategies

  /** The memory strategy an agent holds. */
  datatype Memory =
    | Select(select: SelectStrategy)
    | Compress(compress: CompressStrategy)
    | Write(write: WriteStrategy)
  {
    /** The strategy object, for frames. */
    function Obj(): object {
      match this
      case Select(x) => x
      case Compress(x) => x
      case Write(x) => x
    }
  }

  /** A strategy's configuration and fields, as values. */
  datatype MemoryState =
    | SelectMem(topK: int, encoder: string -> Embedding, select: SelectState)
    | CompressMem(interval: int, maxRecent: int, compress: CompressState)
    | WriteMem(write: WriteState)

  /** The snapshot of a strategy object. */
  function Snapshot(m: Memory): MemoryState
    reads m.Obj()
  {
    match m
    case Select(x) => SelectMem(x.topK, x.encoder, x.State())
    case Compress(x) => CompressMem(x.compressionInterval, x.maxRecent, x.State())
    case Write(x) => WriteMem(x.State())
  }

  /** The invariant each strategy keeps. */
  predicate MemValid(st: MemoryState) {
    match st
    case SelectMem(_, encoder, s) => SelectValid(s, encoder)
    case CompressMem(_, _, s) => IsSuffix(s.recent, s.full)
    case WriteMem(s) => Distinct(s.scratchpad)
  }

  /** `memory.process_step(step, llm)` on the strategy's fields. */
  function MemoryStep(st: MemoryState, step: string, llm: Llm): MemoryState {
    match st
    case SelectMem(topK, encoder, s) => SelectMem(topK, encoder, SelectStep(s, step, encoder))
    case CompressMem(interval, maxRecent, s) => CompressMem(interval, maxRecent, CompressStep(s, step, llm, interval, maxRecent))
    case WriteMem(s) => WriteMem(WriteStep(s, step, llm))
  }

  /** The strategy's fields after processing `actions` in order. */
  function Steps(st: MemoryState, actions: seq<string>, llm: Llm): MemoryState {
    if actions == [] then st
    else MemoryStep(Steps(st, actions[..|actions| - 1], llm), actions[|actions| - 1], llm)
  }

  /** The steps a strategy keeps in the order they came: SELECT's history,
      COMPRESS's full history; WRITE keeps none. */
  function Recorded(st: MemoryState): seq<string> {
    match st
    case SelectMem(_, _, s) => s.history
    case CompressMem(_, _, s) => s.full
    case WriteMem(_) => []
  }

  /** The strategy's model-call count. */
  function LlmCalls(st: MemoryState): nat {
    match st
    case SelectMem(_, _, s) => s.llmCalls
    case CompressMem(_, _, s) => s.llmCalls
    case WriteMem(s) => s.llmCalls
  }

  /** Processing a sequence keeps each strategy's invariant, records every
      action once and in order where the strategy records steps, costs
      WRITE one model call per action, and leaves the configuration as it
      was. */
  lemma {:induction false} StepsRecord(st: MemoryState, actions: seq<string>, llm: Llm)
    requires MemValid(st)
    ensures var t := Steps(st, actions, llm);
      && MemValid(t)
      && (st.SelectMem? || st.CompressMem? ==> Recorded(t) == Recorded(st) + actions)
      && (st.SelectMem? ==> t.SelectMem? && t.topK == st.topK && t.encoder == st.encoder)
      && (st.CompressMem? ==> t.CompressMem? && t.interval == st.interval && t.maxRecent == st.maxRecent)
      && (st.WriteMem? ==> t.WriteMem? && LlmCalls(t) == LlmCalls(st) + |actions|)
  {
    if actions != [] {
      var init, last := actions[..|actions| - 1], actions[|actions| - 1];
      StepsRecord(st, init, llm);
      var u := Steps(st, init, llm);
      match u {
        case SelectMem(_, encoder, s) =>
          SelectStepValid(s, last, encoder);
        case CompressMem(interval, maxRecent, s) =>
          CompressKeepsHistory(s, last, llm, interval, maxRecent);
        case WriteMem(s) =>
          WriteStepGrows(s, last, llm);
      }
      assert init + [last] == actions;
    }
  }

  /** One more action is one more step. */
  lemma {:induction false} StepsNext(st: MemoryState, actions: seq<string>, i: nat, llm: Llm)
    requires i < |actions|
    ensures Steps(st, actions[..i + 1], llm) == MemoryStep(Steps(st, actions[..i], llm), actions[i], llm)
  {
    assert actions[..i + 1][..i] == actions[..i];
  }

  /** A WRITE scratchpad only grows over a sequence of actions. */
  lemma {:induction false} StepsExtendScratchpad(st: MemoryState, actions: seq<string>, llm: Llm)
    requires st.WriteMem?
    ensures Steps(st, actions, llm).WriteMem?
    ensures Extends(st.write.scratchpad, Steps(st, actions, llm).write.scratchpad)
  {
    if actions != [] {
      var init := actions[..|actions| - 1];
      StepsExtendScratchpad(st, init, llm);
      var u := Steps(st, init, llm);
      WriteStepGrows(u.write, actions[|actions| - 1], llm);
      var t := Steps(st, actions, llm);
      forall f ensures Get(st.write.scratchpad, f) <= Get(t.write.scratchpad, f) {
        assert Get(st.write.scratchpad, f) <= Get(u.write.scratchpad, f);
      }
    }
  }

  /** `memory.query(question, llm)`, which passes no expected answer: the
      result and the strategy's fields afterwards. */
  function MemoryAnswer(st: MemoryState, question: string, llm: Llm, order: seq<int>): (Result<Dict>, MemoryState) {
    match st
    case SelectMem(topK, encoder, s) =>
      var (r, t) := SelectAnswer(s, topK, question, llm, "", order);
      (r, SelectMem(topK, encoder, t))
    case CompressMem(interval, maxRecent, s) =>
      var (r, t) := CompressAnswer(s, question, llm, "");
      (Ok(r), CompressMem(interval, maxRecent, t))
    case WriteMem(s) =>
      var (r, t) := WriteAnswer(s, question, llm, "");
      (Ok(r), WriteMem(t))
  }

  /** The agent-level entries `answer_question` writes into the result,
      over whatever the strategy put there. */
  function WithAgentCounts(d: Dict, steps: int, historyLength: int): (r: Dict)
    ensures "total_steps" in r && r["total_steps"] == Int(steps)
    ensures "history_length" in r && r["history_length"] == Int(historyLength)
    ensures r.Keys == d.Keys + {"total_steps", "history_length"}
    ensures forall k :: k in d && k != "total_steps" && k != "history_length" ==> r[k] == d[k]
  {
    d["total_steps" := Int(steps)]["history_length" := Int(historyLength)]
  }

  /** `answer_question(question)`: the strategy's answer with the agent's
      counts added; an error raised by the strategy propagates. */
  function AgentAnswer(st: MemoryState, stepCount: int, historyLength: int, question: string, llm: Llm, order: seq<int>): Result<Dict> {
    var (r, _) := MemoryAnswer(st, question, llm, order);
    if r.Err? then r else Ok(WithAgentCounts(r.value, stepCount, historyLength))
  }

  /** Answering asks the model exactly once (unless SELECT raises first)
      and touches nothing the strategy remembers: its steps, summary and
      scratchpad stay as they were.  The answer carries the agent's
      counts alongside the model's response. */
  lemma {:induction false} AnswerKeepsMemory(st: MemoryState, stepCount: int, historyLength: int, question: string, llm: Llm, order: seq<int>)
    ensures var (r, t) := MemoryAnswer(st, question, llm, order);
      && Recorded(t) == Recorded(st)
      && (r.Ok? ==> LlmCalls(t) == LlmCalls(st) + 1 && "response" in r.value)
      && (r.Err? ==> t == st && st.SelectMem?)
      && (st.CompressMem? ==> t.CompressMem? && t.compress.summary == st.compress.summary && t.compress.recent == st.compress.recent)
      && (st.WriteMem? ==> t.WriteMem? && t.write.scratchpad == st.write.scratchpad)
    ensures var a := AgentAnswer(st, stepCount, historyLength, question, llm, order);
      a.Ok? ==>
        && "total_steps" in a.value && a.value["total_steps"] == Int(stepCount)
        && "history_length" in a.value && a.value["history_length"] == Int(historyLength)
        && "response" in a.value
  {
  }

  /** The strategy's metrics, without the latency. */
  function MemoryMetrics(st: MemoryState): Dict {
    match st
    case SelectMem(_, _, s) => SelectMetrics(s)
    case CompressMem(_, _, s) => CompressMetrics(s)
    case WriteMem(s) => WriteMetrics(s)
  }

  /** `get_full_metrics()`: the strategy's metrics with the agent's step
      count and history length added. */
  function FullMetrics(st: MemoryState, stepCount: int, historyLength: int): (m: Dict)
    ensures "agent_steps" in m && m["agent_steps"] == Int(stepCount)
    ensures "history_items" in m && m["history_items"] == Int(historyLength)
    ensures "llm_calls" in m && m["llm_calls"] == Int(LlmCalls(st))
    ensures forall k :: k in MemoryMetrics(st) && k != "agent_steps" && k != "history_items" ==>
      k in m && m[k] == MemoryMetrics(st)[k]
  {
    MemoryMetrics(st)["agent_steps" := Int(stepCount)]["history_items" := Int(historyLength)]
  }

  class Agent {
    const llm: Llm
    const memory: Memory
    var history: seq<string>
    var stepCount: nat

    /** Every processed action is in the history, counted once, and the
        strategy keeps its own invariant. */
    predicate Valid()
      reads this, memory.Obj()
    {
      stepCount == |history| && memory.Obj() != this && MemValid(Snapshot(memory))
    }

    /** `Agent(llm, memory_strategy)`: a fresh agent has seen nothing. */
    constructor (llm: Llm, memory: Memory)
      requires MemValid(Snapshot(memory))
      ensures this.llm == llm && this.memory == memory
      ensures history == [] && stepCount == 0 && Valid()
    {
      this.llm := llm;
      this.memory := memory;
      history, stepCount := [], 0;
    }

    /** `process_action_sequence(actions)`: each action is appended to the
        history, counted, and handed to the strategy, in order. */
    method ProcessActionSequence(actions: seq<string>)
      requires Valid()
      modifies this, memory.Obj()
      ensures Valid()
      ensures history == old(history) + actions && stepCount == old(stepCount) + |actions|
      ensures Snapshot(memory) == Steps(old(Snapshot(memory)), actions, llm)
    {
      ghost var start := Snapshot(memory);
      for i := 0 to |actions|
        invariant history == old(history) + actions[..i] && stepCount == old(stepCount) + i
        invariant memory.Obj() != this && Snapshot(memory) == Steps(start, actions[..i], llm)
      {
        assert actions[..i + 1] == actions[..i] + [actions[i]];
        history := history + [actions[i]];
        stepCount := stepCount + 1;
        Advance(actions, i, start);
      }
      assert actions[..|actions|] == actions;
      StepsRecord(start, actions, llm);
    }

    /** The strategy's part of one turn of the loop: action `i` is handed
        to the strategy. */
    method Advance(actions: seq<string>, i: nat, ghost start: MemoryState)
      requires i < |actions| && MemValid(start)
      requires Snapshot(memory) == Steps(start, actions[..i], llm)
      modifies memory.Obj()
      ensures Snapshot(memory) == Steps(start, actions[..i + 1], llm)
    {
      StepsRecord(start, actions[..i], llm);
      ProcessStep(actions[i]);
      StepsNext(start, actions, i, llm);
    }

    /** `memory.process_step(action, llm, ...)`. */
    method ProcessStep(action: string)
      requires MemValid(Snapshot(memory))
      modifies memory.Obj()
      ensures MemValid(Snapshot(memory))
      ensures Snapshot(memory) == MemoryStep(old(Snapshot(memory)), action, llm)
    {
      match memory {
        case Select(x) => x.ProcessStep(action);
        case Compress(x) => x.ProcessStep(action, llm);
        case Write(x) => x.ProcessStep(action, llm);
      }
    }

    /** `answer_question(question)`, given the similarity ranking a SELECT
        strategy uses. */
    method AnswerQuestion(question: string, order: seq<int>) returns (r: Result<Dict>)
      requires Valid()
      modifies memory.Obj()
      ensures Valid()
      ensures r == AgentAnswer(old(Snapshot(memory)), stepCount, |history|, question, llm, order)
      ensures Snapshot(memory) == MemoryAnswer(old(Snapshot(memory)), question, llm, order).1
    {
      var result: Dict;
      match memory {
        case Select(x) =>
          var res := x.Query(question, llm, "", order);
          if res.Err? {
            return res;
          }
          result := res.value;
        case Compress(x) =>
          result := x.Query(question, llm, "");
        case Write(x) =>
          result := x.Query(question, llm, "");
      }
      result := result["total_steps" := Int(stepCount)];
      result := result["history_length" := Int(|history|)];
      r := Ok(result);
    }

    /** `get_full_metrics()`, without the latency. */
    method GetFullMetrics() returns (m: Dict)
      ensures m == FullMetrics(Snapshot(memory), stepCount, |history|)
    {
      match memory {
        case Select(x) => m := x.GetMetrics();
        case Compress(x) => m := x.GetMetrics();
        case Write(x) => m := x.GetMetrics();
      }
      assert m == MemoryMetrics(Snapshot(memory));
      m := m["agent_steps" := Int(stepCount)];
      m := m["history_items" := Int(|history|)];
    }
  }
}
