/** The language-model-backed memory strategies of the agent experiment.
    SELECT stores every step with its embedding and retrieves the most
    similar ones; COMPRESS keeps recent steps and folds older ones into a
    running summary; WRITE has the model extract facts into a scratchpad.
    The model, the sentence encoder and the similarity ranking are
    oracles. */
module MemoryStrategies {
  import opened Text
  import opened Slicing
  import opened Values
  import opened Scratchpads

  /** `[f"- {event}" for event in events]`. */
  function Bullets(events: seq<string>): (lines: seq<string>)
    ensures |lines| == |events|
    ensures forall k :: 0 <= k < |events| ==> lines[k] == "- " + events[k]
  {
    seq(|events|, k requires 0 <= k < |events| => "- " + events[k])
  }

  /** What a strategy sends the model: the summary request over the
      steps being folded, the extraction request for a step given the
      scratchpad, or a question over a context the strategy assembled.
      The first two are kept as their ingredients; `Context` and
      `Question` give the text that goes out. */
  datatype Prompt =
    | Summarize(events: seq<string>)
    | Extract(scratchpad: Pad, step: string)
    | Ask(context: string, question: string)

  /** A language model, seen only through its answers: the reply that
      `llm.query(context, question, expected_answer)` gives for a prompt
      and an expected answer. */
  type Llm = (Prompt, string) -> Reply

  /** The `context` text of a prompt. */
  function Context(p: Prompt): string {
    match p
    case Summarize(events) => SummaryPrompt(events)
    case Extract(scratchpad, step) => ExtractionPrompt(scratchpad, step)
    case Ask(context, _) => context
  }

  /** The `question` text of a prompt. */
  function Question(p: Prompt): string {
    match p
    case Summarize(_) => "Provide a concise summary (1-2 sentences) of these events."
    case Extract(_, _) => "Extract structured information from the event."
    case Ask(_, question) => question
  }

  /** `xs` ends with `ys`. */
  predicate IsSuffix(ys: seq<string>, xs: seq<string>) {
    |ys| <= |xs| && xs[|xs| - |ys|..] == ys
  }

  // =====================================================================
  // SELECT

  /** A sentence embedding. */
  type Embedding = seq<real>

  /** The SELECT strategy's fields. */
  datatype SelectState = SelectState(history: seq<string>, embeddings: seq<Embedding>, llmCalls: nat, totalTokens: int)

  /** The indices `np.argsort(similarities)[-top_k:][::-1]` keeps: the last
      `top_k` of the ascending ranking, most similar first. */
  function TopIndices(order: seq<int>, topK: int): seq<int> {
    Reverse(Drop(order, -topK))
  }

  /** `[history[i] for i in indices]`, raising IndexError on an index out
      of range. */
  function Retrieved(history: seq<string>, indices: seq<int>): (r: Result<seq<string>>)
    ensures r.Ok? ==> |r.value| == |indices|
    ensures r.Ok? <==> forall k :: 0 <= k < |indices| ==> InIndexRange(indices[k], |history|)
    ensures r.Err? ==> r.error == IndexError
  {
    if indices == [] then Ok([])
    else
      var rest := Retrieved(history, indices[1..]);
      if !InIndexRange(indices[0], |history|) then Err(IndexError)
      else if rest.Err? then rest
      else Ok([At(history, indices[0])] + rest.value)
  }

  /** The retrieved steps are the history entries at the given indices,
      in the given order. */
  lemma {:induction false} RetrievedAt(history: seq<string>, indices: seq<int>)
    requires Retrieved(history, indices).Ok?
    ensures forall k :: 0 <= k < |indices| ==> Retrieved(history, indices).value[k] == At(history, indices[k])
  {
    if indices != [] {
      RetrievedAt(history, indices[1..]);
    }
  }

  /** When the ranking orders all `n` stored steps, a non-negative `top_k`
      keeps `top_k` of them (all for `top_k == 0`, which slices `[-0:]`),
      most similar first, and every one is a valid index. */
  lemma {:induction false} TopIndicesOfRanking(order: seq<int>, topK: int)
    requires 0 <= topK
    ensures |TopIndices(order, topK)| == if topK == 0 || |order| <= topK then |order| else topK
    ensures forall k :: 0 <= k < |TopIndices(order, topK)| ==>
      TopIndices(order, topK)[k] == order[|order| - 1 - k]
  {
    DropLast(order, topK);
  }

  /** The prompt the retrieved steps are put in. */
  function SelectContext(steps: seq<string>): string {
    "Based on the following relevant events:\n" + Join("\n", Bullets(steps))
  }

  /** Every stored step has its embedding at the same position. */
  predicate SelectValid(s: SelectState, encoder: string -> Embedding) {
    |s.history| == |s.embeddings| && forall k :: 0 <= k < |s.history| ==> s.embeddings[k] == encoder(s.history[k])
  }

  /** `process_step(step, llm)` on the fields: the step and its embedding
      are appended together. */
  function SelectStep(s: SelectState, step: string, encoder: string -> Embedding): SelectState {
    s.(history := s.history + [step], embeddings := s.embeddings + [encoder(step)])
  }

  /** Storing a step keeps every step paired with its embedding and adds
      exactly one of each. */
  lemma {:induction false} SelectStepValid(s: SelectState, step: string, encoder: string -> Embedding)
    requires SelectValid(s, encoder)
    ensures var t := SelectStep(s, step, encoder);
      && SelectValid(t, encoder) && |t.history| == |s.history| + 1 && t.history[|s.history|] == step
  {
  }

  /** `query(question, llm, expected_answer=...)` on the fields, given the
      ascending similarity ranking `order` that `np.argsort` returns: the
      result and the new fields.  An index outside the history raises
      IndexError before the model is asked. */
  function SelectAnswer(s: SelectState, topK: int, question: string, llm: Llm, expectedAnswer: string, order: seq<int>): (Result<Dict>, SelectState) {
    var steps := Retrieved(s.history, TopIndices(order, topK));
    if steps.Err? then (Err(IndexError), s)
    else
      var context := SelectContext(steps.value);
      var reply := llm(Ask(context, question), expectedAnswer);
      (Ok(SelectResult(reply, |steps.value|, context)), s.(llmCalls := s.llmCalls + 1, totalTokens := s.totalTokens + TokenCount(reply)))
  }

  /** When the ranking holds only indices of stored steps, as `argsort`
      over the stored embeddings does, the query cannot raise: the model
      is asked once, about the steps at the end of the ranking, most
      similar first, and nothing but the counters changes. */
  lemma {:induction false} SelectAnswerRanked(s: SelectState, topK: int, question: string, llm: Llm, expectedAnswer: string, order: seq<int>)
    requires 0 <= topK
    requires forall k :: 0 <= k < |order| ==> 0 <= order[k] < |s.history|
    ensures var (r, t) := SelectAnswer(s, topK, question, llm, expectedAnswer, order);
      var n := if topK == 0 || |order| <= topK then |order| else topK;
      && r.Ok? && "retrieved_steps" in r.value && r.value["retrieved_steps"] == Int(n)
      && t == s.(llmCalls := s.llmCalls + 1, totalTokens := t.totalTokens)
      && var steps := Retrieved(s.history, TopIndices(order, topK)).value;
         |steps| == n && forall k :: 0 <= k < n ==> steps[k] == s.history[order[|order| - 1 - k]]
  {
    var top := TopIndices(order, topK);
    TopIndicesOfRanking(order, topK);
    assert forall k :: 0 <= k < |top| ==> InIndexRange(top[k], |s.history|) by {
      forall k | 0 <= k < |top| ensures InIndexRange(top[k], |s.history|) {
        assert top[k] == order[|order| - 1 - k];
      }
    }
    RetrievedAt(s.history, top);
  }

  /** The result dictionary of `SelectStrategy.query`. */
  function SelectResult(reply: Reply, retrieved: nat, context: string): Dict {
    ReplyDict(reply)["strategy" := Str("SELECT")]["retrieved_steps" := Int(retrieved)]["context_used" := Str(context)]
  }

  /** `SelectStrategy.get_metrics()`, without the latency. */
  function SelectMetrics(s: SelectState): (m: Dict)
    ensures "strategy" in m && m["strategy"] == Str("SELECT") && "llm_calls" in m && m["llm_calls"] == Int(s.llmCalls)
    ensures "total_tokens" in m && m["total_tokens"] == Int(s.totalTokens) && "history_size" in m && m["history_size"] == Int(|s.history|)
  {
    map["strategy" := Str("SELECT"), "llm_calls" := Int(s.llmCalls),
        "total_tokens" := Int(s.totalTokens), "history_size" := Int(|s.history|)]
  }

  class SelectStrategy {
    const topK: int
    /** `encoder.encode(text)`. */
    const encoder: string -> Embedding
    var history: seq<string>
    var embeddings: seq<Embedding>
    var llmCalls: nat
    var totalTokens: int

    function State(): SelectState
      reads this
    {
      SelectState(history, embeddings, llmCalls, totalTokens)
    }

    /** Every stored step has its embedding at the same position. */
    predicate Valid()
      reads this
    {
      SelectValid(State(), encoder)
    }

    constructor (topK: int, encoder: string -> Embedding)
      ensures this.topK == topK && this.encoder == encoder
      ensures State() == SelectState([], [], 0, 0) && Valid()
    {
      this.topK := topK;
      this.encoder := encoder;
      history, embeddings := [], [];
      llmCalls, totalTokens := 0, 0;
    }

    /** `process_step(step, llm)`. */
    method ProcessStep(step: string)
      requires Valid()
      modifies this
      ensures Valid()
      ensures State() == SelectStep(old(State()), step, encoder)
    {
      history := history + [step];
      embeddings := embeddings + [encoder(step)];
    }

    /** `query(question, llm, expected_answer=...)`, given the similarity
        ranking. */
    method Query(question: string, llm: Llm, expectedAnswer: string, order: seq<int>) returns (r: Result<Dict>)
      modifies this
      ensures (r, State()) == SelectAnswer(old(State()), topK, question, llm, expectedAnswer, order)
    {
      var topIndices := TopIndices(order, topK);
      var relevant := Retrieved(history, topIndices);
      if relevant.Err? {
        return Err(relevant.error);
      }
      var context := SelectContext(relevant.value);
      var reply := llm(Ask(context, question), expectedAnswer);
      llmCalls := llmCalls + 1;
      totalTokens := totalTokens + TokenCount(reply);
      r := Ok(SelectResult(reply, |relevant.value|, context));
    }

    method GetMetrics() returns (m: Dict)
      ensures m == SelectMetrics(State())
    {
      m := SelectMetrics(State());
    }
  }

  // =====================================================================
  // COMPRESS

  /** The COMPRESS strategy's fields. */
  datatype CompressState = CompressState(
    full: seq<string>, summary: string, recent: seq<string>,
    llmCalls: nat, totalTokens: int, compressions: nat)

  /** `[f"{i+1}. {event}" for i, event in enumerate(events)]`, numbering
      from `first`. */
  function Numbered(events: seq<string>, first: nat): (lines: seq<string>)
    ensures |lines| == |events|
  {
    seq(|events|, k requires 0 <= k < |events| => NatToString(first + k) + ". " + events[k])
  }

  /** The prompt asking the model to summarise the steps being folded. */
  function SummaryPrompt(events: seq<string>): string {
    "Summarize the following sequence of events into a brief summary:\n" + Join("\n", Numbered(events, 1))
  }

  /** The steps a compression folds away: `recent[:-max_recent]` once
      `len(recent) >= compression_interval`, none before. */
  function ToCompress(recent: seq<string>, interval: int, maxRecent: int): seq<string> {
    if |recent| >= interval then Take(recent, -maxRecent) else []
  }

  /** The running summary with a new piece appended: one space between
      them unless the summary was empty. */
  function AppendSummary(summary: string, piece: string): (r: string)
    ensures summary == "" ==> r == piece
    ensures summary != "" ==>
      && |r| == |summary| + 1 + |piece| && r[..|summary|] == summary
      && r[|summary|] == ' ' && r[|summary| + 1..] == piece
  {
    if summary != "" then summary + " " + piece else piece
  }

  /** `process_step(step, llm)` on the fields: the step joins both
      histories; when there are steps to fold, the model summarises them,
      the summary grows and only the last `max_recent` steps stay
      recent. */
  function CompressStep(s: CompressState, step: string, llm: Llm, interval: int, maxRecent: int): CompressState {
    var full := s.full + [step];
    var recent := s.recent + [step];
    var toCompress := ToCompress(recent, interval, maxRecent);
    if toCompress == [] then s.(full := full, recent := recent)
    else
      var reply := llm(Summarize(toCompress), "");
      CompressState(full, AppendSummary(s.summary, reply.response), Drop(recent, -maxRecent),
                    s.llmCalls + 1, s.totalTokens + TokenCount(reply), s.compressions + 1)
  }

  /** Every step joins the full history exactly once, and the recent
      steps stay a suffix of it. */
  lemma {:induction false} CompressKeepsHistory(s: CompressState, step: string, llm: Llm, interval: int, maxRecent: int)
    requires IsSuffix(s.recent, s.full)
    ensures var t := CompressStep(s, step, llm, interval, maxRecent);
      && t.full == s.full + [step]
      && IsSuffix(t.recent, t.full)
  {
    var t := CompressStep(s, step, llm, interval, maxRecent);
    var full, recent := s.full + [step], s.recent + [step];
    assert full[|full| - |recent|..] == recent;
    var b := Bound(-maxRecent, |recent|);
    if t.recent != recent {
      assert t.recent == recent[b..];
      assert full[|full| - |t.recent|..] == recent[b..];
    }
  }

  /** A step triggers a compression exactly when the recent steps,
      itself included, reach the interval and `recent[:-max_recent]` is
      not empty.  A compression costs one model call and leaves the last
      `max_recent` steps; otherwise the step is simply added and the
      counters stay. */
  lemma {:induction false} CompressTrigger(s: CompressState, step: string, llm: Llm, interval: int, maxRecent: int)
    ensures var t := CompressStep(s, step, llm, interval, maxRecent);
      var recent := s.recent + [step];
      var fires := |recent| >= interval && Take(recent, -maxRecent) != [];
      && (t.compressions == s.compressions + 1 <==> fires)
      && (fires ==>
            && t.llmCalls == s.llmCalls + 1
            && (maxRecent > 0 ==> |recent| > maxRecent && t.recent == recent[|recent| - maxRecent..]))
      && (!fires ==> t == s.(full := s.full + [step], recent := recent))
  {
    var recent := s.recent + [step];
    if maxRecent > 0 {
      TakeAllButLast(recent, maxRecent);
      DropLast(recent, maxRecent);
    }
  }

  /** With `max_recent == 0`, `recent[:-0]` is empty: nothing is ever
      compressed, and the recent steps just grow. */
  lemma {:induction false} CompressNeverWithZero(s: CompressState, step: string, llm: Llm, interval: int)
    ensures CompressStep(s, step, llm, interval, 0) == s.(full := s.full + [step], recent := s.recent + [step])
  {
    TakeAllButLast(s.recent + [step], 0);
  }

  /** With a positive `max_recent`, the recent steps never exceed the
      larger of `max_recent` and one less than the interval. */
  lemma {:induction false} CompressBoundsRecent(s: CompressState, step: string, llm: Llm, interval: int, maxRecent: int)
    requires maxRecent > 0
    requires |s.recent| <= maxRecent || |s.recent| < interval
    ensures var t := CompressStep(s, step, llm, interval, maxRecent);
      |t.recent| <= maxRecent || |t.recent| < interval
  {
    CompressTrigger(s, step, llm, interval, maxRecent);
    TakeAllButLast(s.recent + [step], maxRecent);
  }

  /** The query prompt: a summary line when there is a summary, then a
      header and one bullet per recent step when there are any. */
  function CompressContextLines(summary: string, recent: seq<string>): seq<string> {
    (if summary != "" then ["Summary of earlier events: " + summary] else [])
    + (if recent != [] then ["Recent events:"] + Bullets(recent) else [])
  }

  function CompressContext(summary: string, recent: seq<string>): string {
    Join("\n", CompressContextLines(summary, recent))
  }

  /** Splitting the query prompt at newlines gives its parts back when
      neither the summary nor a step holds a newline; with nothing to
      show the prompt is empty. */
  lemma {:induction false} CompressContextSplits(summary: string, recent: seq<string>)
    requires '\n' !in summary && forall k :: 0 <= k < |recent| ==> '\n' !in recent[k]
    ensures summary == "" && recent == [] ==> CompressContext(summary, recent) == ""
    ensures summary != "" || recent != [] ==>
      SplitOn(CompressContext(summary, recent), '\n') == CompressContextLines(summary, recent)
  {
    var lines := CompressContextLines(summary, recent);
    if lines != [] {
      assert '\n' !in "Summary of earlier events: " && '\n' !in "Recent events:" && '\n' !in "- ";
      forall k | 0 <= k < |lines| ensures '\n' !in lines[k] {
        var n := if summary != "" then 1 else 0;
        if k >= n + 1 {
          assert lines[k] == "- " + recent[k - n - 1];
        }
      }
      assert "\n" == ['\n'];
      SplitOnJoin(lines, '\n');
    }
  }

  /** `query(question, llm, expected_answer=...)` on the fields: the
      result and the new fields. */
  function CompressAnswer(s: CompressState, question: string, llm: Llm, expectedAnswer: string): (Dict, CompressState) {
    var context := CompressContext(s.summary, s.recent);
    var reply := llm(Ask(context, question), expectedAnswer);
    (CompressResult(reply, s.compressions, context), s.(llmCalls := s.llmCalls + 1, totalTokens := s.totalTokens + TokenCount(reply)))
  }

  /** The result dictionary of `CompressStrategy.query`. */
  function CompressResult(reply: Reply, compressions: nat, context: string): Dict {
    ReplyDict(reply)["strategy" := Str("COMPRESS")]["compressions_performed" := Int(compressions)]["context_used" := Str(context)]
  }

  /** `CompressStrategy.get_metrics()`, without the latency. */
  function CompressMetrics(s: CompressState): (m: Dict)
    ensures "strategy" in m && m["strategy"] == Str("COMPRESS") && "llm_calls" in m && m["llm_calls"] == Int(s.llmCalls)
    ensures "compressions" in m && m["compressions"] == Int(s.compressions) && "summary_length" in m && m["summary_length"] == Int(|s.summary|)
    ensures "recent_items" in m && m["recent_items"] == Int(|s.recent|) && "total_tokens" in m && m["total_tokens"] == Int(s.totalTokens)
  {
    map["strategy" := Str("COMPRESS"), "llm_calls" := Int(s.llmCalls), "total_tokens" := Int(s.totalTokens),
        "compressions" := Int(s.compressions), "summary_length" := Int(|s.summary|),
        "recent_items" := Int(|s.recent|)]
  }

  class CompressStrategy {
    const compressionInterval: int
    const maxRecent: int
    var fullHistory: seq<string>
    var compressedSummary: string
    var recentHistory: seq<string>
    var llmCalls: nat
    var totalTokens: int
    var compressionCount: nat

    function State(): CompressState
      reads this
    {
      CompressState(fullHistory, compressedSummary, recentHistory, llmCalls, totalTokens, compressionCount)
    }

    /** The recent steps are the tail of the full history. */
    predicate Valid()
      reads this
    {
      IsSuffix(recentHistory, fullHistory)
    }

    constructor (compressionInterval: int, maxRecent: int)
      ensures this.compressionInterval == compressionInterval && this.maxRecent == maxRecent
      ensures State() == CompressState([], "", [], 0, 0, 0) && Valid()
    {
      this.compressionInterval := compressionInterval;
      this.maxRecent := maxRecent;
      fullHistory, compressedSummary, recentHistory := [], "", [];
      llmCalls, totalTokens, compressionCount := 0, 0, 0;
    }

    /** `process_step(step, llm)`. */
    method ProcessStep(step: string, llm: Llm)
      requires Valid()
      modifies this
      ensures Valid()
      ensures State() == CompressStep(old(State()), step, llm, compressionInterval, maxRecent)
    {
      ghost var s := State();
      CompressKeepsHistory(s, step, llm, compressionInterval, maxRecent);
      fullHistory := fullHistory + [step];
      recentHistory := recentHistory + [step];
      if |recentHistory| >= compressionInterval {
        var toCompress := Take(recentHistory, -maxRecent);
        assert toCompress == ToCompress(s.recent + [step], compressionInterval, maxRecent);
        if toCompress != [] {
          var reply := llm(Summarize(toCompress), "");
          var newSummary := reply.response;
          if compressedSummary != "" {
            compressedSummary := compressedSummary + " " + newSummary;
          } else {
            compressedSummary := newSummary;
          }
          recentHistory := Drop(recentHistory, -maxRecent);
          llmCalls := llmCalls + 1;
          compressionCount := compressionCount + 1;
          totalTokens := totalTokens + TokenCount(reply);
        }
      } else {
        assert ToCompress(s.recent + [step], compressionInterval, maxRecent) == [];
      }
      assert State() == CompressStep(s, step, llm, compressionInterval, maxRecent);
    }

    /** `query(question, llm, expected_answer=...)`. */
    method Query(question: string, llm: Llm, expectedAnswer: string) returns (result: Dict)
      modifies this
      ensures (result, State()) == CompressAnswer(old(State()), question, llm, expectedAnswer)
    {
      var contextParts: seq<string> := [];
      if compressedSummary != "" {
        contextParts := contextParts + ["Summary of earlier events: " + compressedSummary];
      }
      if recentHistory != [] {
        contextParts := contextParts + ["Recent events:"];
        contextParts := contextParts + Bullets(recentHistory);
      }
      assert contextParts == CompressContextLines(compressedSummary, recentHistory);
      var context := Join("\n", contextParts);
      var reply := llm(Ask(context, question), expectedAnswer);
      llmCalls := llmCalls + 1;
      totalTokens := totalTokens + TokenCount(reply);
      result := CompressResult(reply, compressionCount, context);
    }

    method GetMetrics() returns (m: Dict)
      ensures m == CompressMetrics(State())
    {
      m := CompressMetrics(State());
    }
  }

  // =====================================================================
  // WRITE

  /** The WRITE strategy's fields. */
  datatype WriteState = WriteState(scratchpad: Pad, llmCalls: nat, totalTokens: int)

  /** `"key:"` as the parser looks for it. */
  function Key(f: Field): string {
    match f
    case Inventory => "inventory:"
    case Npcs => "npc:"
    case Knowledge => "knowledge:"
    case Locations => "location:"
  }

  /** The list a stripped, lowercased response line is filed under: the
      first of inventory, npc, knowledge, location whose key it holds;
      none when it mentions "none" or holds no key. */
  function FieldOf(line: string): (r: Option<Field>)
    ensures r.Some? ==> Contains(line, Key(r.value)) && !Contains(line, "none")
    ensures r == None <==> Contains(line, "none") || forall f :: !Contains(line, Key(f))
  {
    if Contains(line, "none") then None
    else if Contains(line, "inventory:") then Some(Inventory)
    else if Contains(line, "npc:") then Some(Npcs)
    else if Contains(line, "knowledge:") then Some(Knowledge)
    else if Contains(line, "location:") then Some(Locations)
    else None
  }

  /** The key comes first in the order inventory, npc, knowledge,
      location: a line is filed under a later key only when it holds none
      of the earlier ones. */
  lemma {:induction false} FieldOfOrder(line: string)
    ensures FieldOf(line) == Some(Npcs) ==> !Contains(line, "inventory:")
    ensures FieldOf(line) == Some(Knowledge) ==> !Contains(line, "inventory:") && !Contains(line, "npc:")
    ensures FieldOf(line) == Some(Locations) ==>
      !Contains(line, "inventory:") && !Contains(line, "npc:") && !Contains(line, "knowledge:")
  {
  }

  /** `xs.append(v)` when `v` is non-empty and not already present. */
  function AddNew(xs: seq<string>, v: string): (r: seq<string>)
    ensures xs <= r && |r| <= |xs| + 1
    ensures r != xs <==> v != "" && v !in xs
    ensures r != xs ==> r == xs + [v]
    ensures NoDuplicates(xs) ==> NoDuplicates(r)
  {
    if v != "" && v !in xs then xs + [v] else xs
  }

  /** The scratchpad after one line of the model's response: the line is
      stripped, and the first key it holds decides the list, unless it
      mentions "none". */
  function ParseLine(p: Pad, raw: string): Pad {
    var line := Strip(raw);
    if Contains(line, "inventory:") && !Contains(line, "none") then
      p.(inventory := AddNew(p.inventory, Strip(After(line, "inventory:"))))
    else if Contains(line, "npc:") && !Contains(line, "none") then
      p.(npcs := AddNew(p.npcs, Strip(After(line, "npc:"))))
    else if Contains(line, "knowledge:") && !Contains(line, "none") then
      p.(knowledge := AddNew(p.knowledge, Strip(After(line, "knowledge:"))))
    else if Contains(line, "location:") && !Contains(line, "none") then
      p.(locations := AddNew(p.locations, Strip(After(line, "location:"))))
    else p
  }

  /** A line touches only the list its key files it under, and there adds
      the stripped text after the key's first occurrence, when new. */
  lemma {:induction false} ParseLineField(p: Pad, raw: string)
    ensures var line := Strip(raw);
      ParseLine(p, raw) == match FieldOf(line)
        case None => p
        case Some(f) => Put(p, f, AddNew(Get(p, f), Strip(After(line, Key(f)))))
  {
  }

  /** The scratchpad after the first lines of the response, in order. */
  function ParseLines(p: Pad, lines: seq<string>): Pad {
    if lines == [] then p else ParseLine(ParseLines(p, lines[..|lines| - 1]), lines[|lines| - 1])
  }

  /** `process_step`'s parser on the model's response. */
  function ParseResponse(p: Pad, response: string): Pad {
    ParseLines(p, SplitOn(Lower(response), '\n'))
  }

  /** The lists of a scratchpad hold no entry twice. */
  predicate Distinct(p: Pad) {
    forall f :: NoDuplicates(Get(p, f))
  }

  /** Parsing only appends: no list shrinks or reorders, and lists without
      duplicates stay so. */
  lemma {:induction false} ParseLinesGrows(p: Pad, lines: seq<string>)
    ensures Extends(p, ParseLines(p, lines))
    ensures Distinct(p) ==> Distinct(ParseLines(p, lines))
  {
    if lines != [] {
      var q := ParseLines(p, lines[..|lines| - 1]);
      ParseLinesGrows(p, lines[..|lines| - 1]);
      var r := ParseLine(q, lines[|lines| - 1]);
      ParseLineField(q, lines[|lines| - 1]);
      forall f ensures Get(p, f) <= Get(r, f) && (NoDuplicates(Get(q, f)) ==> NoDuplicates(Get(r, f))) {
        assert Get(p, f) <= Get(q, f);
      }
    }
  }

  /** A response line mentioning "none" changes nothing. */
  lemma {:induction false} ParseLineNone(p: Pad, raw: string)
    requires Contains(Strip(raw), "none")
    ensures ParseLine(p, raw) == p
  {
  }

  /** Every entry parsing adds is the non-empty stripped text after the
      key of some response line filed under that list. */
  lemma {:induction false} ParseLinesProvenance(p: Pad, lines: seq<string>, f: Field, v: string)
    requires v in Get(ParseLines(p, lines), f) && v !in Get(p, f)
    ensures v != ""
    ensures exists k :: 0 <= k < |lines| && FieldOf(Strip(lines[k])) == Some(f) && v == Strip(After(Strip(lines[k]), Key(f)))
  {
    var init := lines[..|lines| - 1];
    var last := lines[|lines| - 1];
    var q := ParseLines(p, init);
    if v in Get(q, f) {
      ParseLinesProvenance(p, init, f, v);
      var k :| 0 <= k < |init| && FieldOf(Strip(init[k])) == Some(f) && v == Strip(After(Strip(init[k]), Key(f)));
      assert init[k] == lines[k];
    } else {
      var line := Strip(last);
      ParseLineField(q, last);
      assert FieldOf(line) == Some(f);
      assert lines[|lines| - 1] == last;
    }
  }

  /** The prompt listing of one list: its entries joined with commas, or a
      placeholder when it is empty. */
  function Listing(xs: seq<string>, placeholder: string): string {
    if xs != [] then Join(", ", xs) else placeholder
  }

  /** The extraction prompt for a step. */
  function ExtractionPrompt(p: Pad, step: string): string {
    "Current scratchpad state:\nInventory: " + Listing(p.inventory, "empty")
    + "\nNPCs: " + Listing(p.npcs, "none")
    + "\nKnowledge: " + Listing(p.knowledge, "none")
    + "\nLocations: " + Listing(p.locations, "none")
    + "\n\nNew event: " + step
    + "\n\nExtract any new items, NPCs, knowledge, or locations from this event. Respond with:\n"
    + "- INVENTORY: [item with description if any]\n- NPC: [name if any]\n"
    + "- KNOWLEDGE: [fact if any]\n- LOCATION: [place if any]\n"
    + "Respond \"NONE\" for categories with no new information."
  }

  /** `process_step(step, llm)` on the fields: one model call, whose
      response is parsed into the scratchpad. */
  function WriteStep(s: WriteState, step: string, llm: Llm): WriteState {
    var reply := llm(Extract(s.scratchpad, step), "");
    WriteState(ParseResponse(s.scratchpad, reply.response), s.llmCalls + 1, s.totalTokens + TokenCount(reply))
  }

  /** Each step costs exactly one model call and only adds to the
      scratchpad, which keeps its lists free of duplicates. */
  lemma {:induction false} WriteStepGrows(s: WriteState, step: string, llm: Llm)
    ensures var t := WriteStep(s, step, llm);
      && t.llmCalls == s.llmCalls + 1
      && Extends(s.scratchpad, t.scratchpad)
      && Items(s.scratchpad) <= Items(t.scratchpad)
      && (Distinct(s.scratchpad) ==> Distinct(t.scratchpad))
  {
    var t := WriteStep(s, step, llm);
    var reply := llm(Extract(s.scratchpad, step), "");
    ParseLinesGrows(s.scratchpad, SplitOn(Lower(reply.response), '\n'));
    assert Get(s.scratchpad, Inventory) <= Get(t.scratchpad, Inventory);
    assert Get(s.scratchpad, Npcs) <= Get(t.scratchpad, Npcs);
    assert Get(s.scratchpad, Knowledge) <= Get(t.scratchpad, Knowledge);
    assert Get(s.scratchpad, Locations) <= Get(t.scratchpad, Locations);
  }

  /** The query prompt: the four lists, each on its own line. */
  function WriteContext(p: Pad): string {
    "Agent's Memory Scratchpad:\n"
    + "Inventory: " + Listing(p.inventory, "empty") + "\n"
    + "NPCs Met: " + Listing(p.npcs, "none") + "\n"
    + "Knowledge: " + Listing(p.knowledge, "none") + "\n"
    + "Locations: " + Listing(p.locations, "none") + "\n"
  }

  /** `query(question, llm, expected_answer=...)` on the fields: the
      result and the new fields. */
  function WriteAnswer(s: WriteState, question: string, llm: Llm, expectedAnswer: string): (Dict, WriteState) {
    var context := WriteContext(s.scratchpad);
    var reply := llm(Ask(context, question), expectedAnswer);
    (WriteResult(reply, s.scratchpad, context), s.(llmCalls := s.llmCalls + 1, totalTokens := s.totalTokens + TokenCount(reply)))
  }

  /** The result dictionary of `WriteStrategy.query`. */
  function WriteResult(reply: Reply, p: Pad, context: string): Dict {
    ReplyDict(reply)["strategy" := Str("WRITE")]["scratchpad_items" := Int(Items(p))]["context_used" := Str(context)]
  }

  /** `WriteStrategy.get_metrics()`, without the latency. */
  function WriteMetrics(s: WriteState): (m: Dict)
    ensures "strategy" in m && m["strategy"] == Str("WRITE") && "llm_calls" in m && m["llm_calls"] == Int(s.llmCalls)
    ensures "total_tokens" in m && m["total_tokens"] == Int(s.totalTokens)
    ensures "scratchpad_items" in m && m["scratchpad_items"] == Int(|s.scratchpad.inventory| + |s.scratchpad.npcs| + |s.scratchpad.knowledge| + |s.scratchpad.locations|)
  {
    map["strategy" := Str("WRITE"), "llm_calls" := Int(s.llmCalls), "total_tokens" := Int(s.totalTokens),
        "scratchpad_items" := Int(Items(s.scratchpad))]
  }

  class WriteStrategy {
    var scratchpad: Pad
    var llmCalls: nat
    var totalTokens: int

    function State(): WriteState
      reads this
    {
      WriteState(scratchpad, llmCalls, totalTokens)
    }

    /** No list of the scratchpad holds an entry twice. */
    predicate Valid()
      reads this
    {
      Distinct(scratchpad)
    }

    constructor ()
      ensures State() == WriteState(EmptyPad, 0, 0) && Valid()
    {
      scratchpad := EmptyPad;
      llmCalls, totalTokens := 0, 0;
    }

    /** `process_step(step, llm)`: the response's lines are parsed one by
        one into the scratchpad. */
    method ProcessStep(step: string, llm: Llm)
      requires Valid()
      modifies this
      ensures Valid()
      ensures State() == WriteStep(old(State()), step, llm)
    {
      var reply := llm(Extract(scratchpad, step), "");
      FileResponse(reply.response);
      llmCalls := llmCalls + 1;
      totalTokens := totalTokens + TokenCount(reply);
    }

    /** The parsing loop of `process_step`: the lowercased response is cut
        at newlines and the lines are filed one by one. */
    method FileResponse(response: string)
      requires Valid()
      modifies this
      ensures Valid()
      ensures scratchpad == ParseResponse(old(scratchpad), response)
      ensures llmCalls == old(llmCalls) && totalTokens == old(totalTokens)
    {
      var lines := SplitOn(Lower(response), '\n');
      ghost var start := scratchpad;
      var i := 0;
      while i < |lines|
        invariant 0 <= i <= |lines|
        invariant scratchpad == ParseLines(start, lines[..i])
        invariant llmCalls == old(llmCalls) && totalTokens == old(totalTokens)
      {
        FileLine(lines[i]);
        assert lines[..i + 1][..i] == lines[..i];
        i := i + 1;
      }
      assert lines[..i] == lines;
      ParseLinesGrows(start, lines);
    }

    /** One line of the loop: the stripped line is filed under the first
        key it holds, unless it mentions "none"; the value is appended only
        when it is non-empty and not yet listed. */
    method FileLine(raw: string)
      modifies this
      ensures scratchpad == ParseLine(old(scratchpad), raw)
      ensures llmCalls == old(llmCalls) && totalTokens == old(totalTokens)
    {
      var line := Strip(raw);
      if Contains(line, "inventory:") && !Contains(line, "none") {
        var item := Strip(After(line, "inventory:"));
        if item != "" && item !in scratchpad.inventory {
          scratchpad := scratchpad.(inventory := scratchpad.inventory + [item]);
        }
      } else if Contains(line, "npc:") && !Contains(line, "none") {
        var npc := Strip(After(line, "npc:"));
        if npc != "" && npc !in scratchpad.npcs {
          scratchpad := scratchpad.(npcs := scratchpad.npcs + [npc]);
        }
      } else if Contains(line, "knowledge:") && !Contains(line, "none") {
        var knowledge := Strip(After(line, "knowledge:"));
        if knowledge != "" && knowledge !in scratchpad.knowledge {
          scratchpad := scratchpad.(knowledge := scratchpad.knowledge + [knowledge]);
        }
      } else if Contains(line, "location:") && !Contains(line, "none") {
        var location := Strip(After(line, "location:"));
        if location != "" && location !in scratchpad.locations {
          scratchpad := scratchpad.(locations := scratchpad.locations + [location]);
        }
      }
    }

    /** `query(question, llm, expected_answer=...)`. */
    method Query(question: string, llm: Llm, expectedAnswer: string) returns (result: Dict)
      modifies this
      ensures (result, State()) == WriteAnswer(old(State()), question, llm, expectedAnswer)
    {
      var context := WriteContext(scratchpad);
      var reply := llm(Ask(context, question), expectedAnswer);
      llmCalls := llmCalls + 1;
      totalTokens := totalTokens + TokenCount(reply);
      result := WriteResult(reply, scratchpad, context);
    }

    method GetMetrics() returns (m: Dict)
      ensures m == WriteMetrics(State())
    {
      m := WriteMetrics(State());
    }
  }
}
