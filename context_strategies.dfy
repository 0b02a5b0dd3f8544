/** The three rule-based context strategies of the agent experiment:
    SELECT keeps the history lines that share the most words with the
    question, COMPRESS replaces a long history by a fixed summary and its
    last three lines, and WRITE files facts recognised in a step into a
    scratchpad. */
module ContextStrategies {
  import opened Text
  import opened Slicing
  import opened Scratchpads

  // ---------------------------------------------------------------------
  // SELECT

  /** A character of `string.punctuation`. */
  predicate IsPunct(c: char) {
    ('!' <= c <= '/') || (':' <= c <= '@') || ('[' <= c <= '`') || ('{' <= c <= '~')
  }

  /** `{word.strip(string.punctuation).lower() for word in query.split()}`. */
  function QueryWords(query: string): set<string> {
    set w | w in Split(query) :: Lower(Trim(w, IsPunct))
  }

  /** A subset has no more elements than the set that holds it. */
  lemma {:induction false} SubsetSize<T>(a: set<T>, b: set<T>)
    requires a <= b
    ensures |a| <= |b|
    decreases |a|
  {
    if a != {} {
      var x :| x in a;
      SubsetSize(a - {x}, b - {x});
    }
  }

  /** The query words found in `line`. */
  function Hits(words: set<string>, line: string): set<string> {
    set w | w in words && Contains(Lower(line), w)
  }

  /** `sum(1 for word in query_words if word in line.lower())`: how many
      distinct query words occur in the lowercased line, so never more
      than there are query words. */
  function Score(words: set<string>, line: string): (score: nat)
    ensures score <= |words|
    ensures score == 0 <==> forall w :: w in words ==> !Contains(Lower(line), w)
  {
    SubsetSize(Hits(words, line), words);
    assert forall w :: w in words && Contains(Lower(line), w) ==> w in Hits(words, line);
    |Hits(words, line)|
  }

  /** An entry of `scored_lines`: the score and the line, with the line's
      position in the history, which the stable sort preserves among equal
      scores. */
  datatype Scored = Scored(score: nat, pos: nat, line: string)

  /** `scored_lines` before sorting, in history order. */
  function ScoreLines(words: set<string>, history: seq<string>): (s: seq<Scored>)
    ensures |s| == |history|
    ensures forall k :: 0 <= k < |s| ==> s[k] == Scored(Score(words, history[k]), k, history[k])
  {
    seq(|history|, k requires 0 <= k < |history| => Scored(Score(words, history[k]), k, history[k]))
  }

  /** `a` comes before `b` in a stable descending sort by score: a higher
      score, or an equal score and an earlier line. */
  predicate Before(a: Scored, b: Scored) {
    a.score > b.score || (a.score == b.score && a.pos < b.pos)
  }

  /** Every entry comes before every later one. */
  predicate Ranked(s: seq<Scored>) {
    forall i, j :: 0 <= i < j < |s| ==> Before(s[i], s[j])
  }

  /** Positions strictly increase: the entries are in history order. */
  predicate InHistoryOrder(s: seq<Scored>) {
    forall i, j :: 0 <= i < j < |s| ==> s[i].pos < s[j].pos
  }

  /** Inserting an entry that came later in the history: it goes after
      every entry scoring at least as much. */
  function InsertByScore(s: seq<Scored>, x: Scored): (r: seq<Scored>)
    ensures |r| == |s| + 1
  {
    if s == [] then [x]
    else if s[0].score >= x.score then [s[0]] + InsertByScore(s[1..], x)
    else [x] + s
  }

  /** `scored_lines.sort(key=lambda x: x[0], reverse=True)`: Python's sort
      is stable, so this is the insertion sort that keeps equal scores in
      history order. */
  function SortByScore(s: seq<Scored>): (r: seq<Scored>)
    ensures |r| == |s|
  {
    if s == [] then [] else InsertByScore(SortByScore(s[..|s| - 1]), s[|s| - 1])
  }

  /** Inserting adds exactly the inserted entry. */
  lemma {:induction false} InsertAdds(s: seq<Scored>, x: Scored)
    ensures multiset(InsertByScore(s, x)) == multiset(s) + multiset{x}
  {
    if s != [] && s[0].score >= x.score {
      InsertAdds(s[1..], x);
      assert s == [s[0]] + s[1..];
    }
  }

  /** Inserting a later entry into a ranked list keeps it ranked. */
  lemma {:induction false} InsertRanked(s: seq<Scored>, x: Scored)
    requires Ranked(s)
    requires forall k :: 0 <= k < |s| ==> s[k].pos < x.pos
    ensures Ranked(InsertByScore(s, x))
  {
    if s != [] {
      if s[0].score >= x.score {
        var tail := InsertByScore(s[1..], x);
        InsertRanked(s[1..], x);
        InsertAdds(s[1..], x);
        forall j | 0 <= j < |tail| ensures Before(s[0], tail[j]) {
          assert tail[j] in multiset(s[1..]) + multiset{x};
          if tail[j] != x {
            assert tail[j] in s[1..];
          }
        }
        assert InsertByScore(s, x) == [s[0]] + tail;
      } else {
        forall j | 0 <= j < |s| ensures Before(x, s[j]) {
          if j > 0 {
            assert Before(s[0], s[j]);
          }
        }
        assert InsertByScore(s, x) == [x] + s;
      }
    }
  }

  /** The sort loses or adds no entry. */
  lemma {:induction false} SortKeeps(s: seq<Scored>)
    ensures multiset(SortByScore(s)) == multiset(s)
  {
    if s != [] {
      var init, last := s[..|s| - 1], s[|s| - 1];
      SortKeeps(init);
      InsertAdds(SortByScore(init), last);
      assert s == init + [last];
    }
  }

  /** The sort puts entries given in history order into the stable
      descending order, and loses or adds no entry. */
  lemma {:induction false} SortRanked(s: seq<Scored>)
    requires InHistoryOrder(s)
    ensures Ranked(SortByScore(s))
    ensures multiset(SortByScore(s)) == multiset(s)
  {
    SortKeeps(s);
    if s != [] {
      var init, last := s[..|s| - 1], s[|s| - 1];
      SortRanked(init);
      var sorted := SortByScore(init);
      forall k | 0 <= k < |sorted| ensures sorted[k].pos < last.pos {
        assert sorted[k] in multiset(init);
        var i :| 0 <= i < |init| && init[i] == sorted[k];
      }
      InsertRanked(sorted, last);
    }
  }

  /** No entry of `top` scored anything. */
  predicate AllZero(top: seq<Scored>) {
    forall k :: 0 <= k < |top| ==> top[k].score == 0
  }

  /** The lines of some entries, in order. */
  function Lines(top: seq<Scored>): (lines: seq<string>)
    ensures |lines| == |top|
    ensures forall k :: 0 <= k < |top| ==> lines[k] == top[k].line
  {
    seq(|top|, k requires 0 <= k < |top| => top[k].line)
  }

  /** The history ranked by score for `query`, stably. */
  function Ranking(history: seq<string>, query: string): seq<Scored> {
    SortByScore(ScoreLines(QueryWords(query), history))
  }

  /** The lines `select_strategy` keeps: the first `top_k` of the ranking,
      unless none of them scored, in which case `history[-top_k:]`. */
  function SelectLines(history: seq<string>, query: string, topK: int): seq<string> {
    var top := Take(Ranking(history, query), topK);
    if AllZero(top) then Drop(history, -topK) else Lines(top)
  }

  /** `select_strategy(history, query, top_k)`. */
  function SelectStrategy(history: seq<string>, query: string, topK: int): string {
    Join("\n", SelectLines(history, query, topK))
  }

  /** The ranking holds every history line once, with its score, highest
      score first and equal scores in history order. */
  lemma {:induction false} RankingSpec(history: seq<string>, query: string)
    ensures Ranked(Ranking(history, query))
    ensures multiset(Ranking(history, query)) == multiset(ScoreLines(QueryWords(query), history))
  {
    SortRanked(ScoreLines(QueryWords(query), history));
  }

  /** Every entry of the ranking is a history line at its position. */
  lemma {:induction false} RankingFromHistory(history: seq<string>, query: string)
    ensures forall e :: e in Ranking(history, query) ==> e.pos < |history| && e.line == history[e.pos]
  {
    var s := ScoreLines(QueryWords(query), history);
    RankingSpec(history, query);
    forall e | e in Ranking(history, query) ensures e.pos < |history| && e.line == history[e.pos] {
      assert e in multiset(s);
      var k :| 0 <= k < |s| && s[k] == e;
    }
  }

  /** Every line `select_strategy` keeps is a line of the history. */
  lemma {:induction false} SelectFromHistory(history: seq<string>, query: string, topK: int)
    ensures forall line :: line in SelectLines(history, query, topK) ==> line in history
  {
    var ranking := Ranking(history, query);
    var top := Take(ranking, topK);
    if !AllZero(top) {
      RankingFromHistory(history, query);
      forall line | line in Lines(top) ensures line in history {
        var k :| 0 <= k < |top| && Lines(top)[k] == line;
        assert top[k] in ranking;
      }
    }
  }

  /** With `top_k == 0` nothing is taken, so the fallback `history[-0:]`
      returns the whole history. */
  lemma {:induction false} SelectZeroTakesAll(history: seq<string>, query: string)
    ensures SelectLines(history, query, 0) == history
  {
  }

  /** When some line shares a word with the query and `top_k` is positive,
      no fallback happens: the result is the first `top_k` lines of the
      ranking, and the first of them scores highest of all lines. */
  lemma {:induction false} SelectTakesBest(history: seq<string>, query: string, topK: int, i: nat)
    requires 0 < topK && i < |history| && Score(QueryWords(query), history[i]) > 0
    ensures var ranking := Ranking(history, query);
      && SelectLines(history, query, topK) == Lines(Take(ranking, topK))
      && ranking[0].line == SelectLines(history, query, topK)[0]
      && forall k :: 0 <= k < |history| ==> ranking[0].score >= Score(QueryWords(query), history[k])
  {
    var words := QueryWords(query);
    var s := ScoreLines(words, history);
    var ranking := Ranking(history, query);
    RankingSpec(history, query);
    forall k | 0 <= k < |history| ensures ranking[0].score >= Score(words, history[k]) {
      assert s[k] in multiset(ranking);
      var j :| 0 <= j < |ranking| && ranking[j] == s[k];
      if j > 0 {
        assert Before(ranking[0], ranking[j]);
      }
    }
    assert Take(ranking, topK)[0] == ranking[0];
  }

  /** The result is the kept lines joined by newlines: when no history line
      holds a newline, splitting it on newlines gives them back. */
  lemma {:induction false} SelectSplitsBack(history: seq<string>, query: string, topK: int)
    requires forall k :: 0 <= k < |history| ==> '\n' !in history[k]
    requires SelectLines(history, query, topK) != []
    ensures SplitOn(SelectStrategy(history, query, topK), '\n') == SelectLines(history, query, topK)
  {
    var lines := SelectLines(history, query, topK);
    SelectFromHistory(history, query, topK);
    forall k | 0 <= k < |lines| ensures '\n' !in lines[k] {
      assert lines[k] in history;
    }
    assert "\n" == ['\n'];
    SplitOnJoin(lines, '\n');
  }

  // ---------------------------------------------------------------------
  // COMPRESS

  const Summary := "Summary: User explored " + "a dungeon, found items, " + "and met Steve."
  const Skipped := "[...skipped...]"

  /** The summary and the skip marker are single lines. */
  lemma {:induction false} MarkersAreLines()
    ensures '\n' !in Summary && '\n' !in Skipped
  {
    assert '\n' !in "Summary: User explored ";
    assert '\n' !in "a dungeon, found items, ";
    assert '\n' !in "and met Steve.";
  }

  /** `compress_strategy(history, max_tokens)`: the history joined by
      newlines when it has at most `max_tokens` words, otherwise the fixed
      summary, a skip marker and the last three lines. */
  function CompressStrategy(history: seq<string>, maxTokens: int): string {
    var fullText := Join("\n", history);
    if |Split(fullText)| <= maxTokens then fullText
    else Summary + "\n" + Skipped + "\n" + Join("\n", Drop(history, -3))
  }

  /** The word count the threshold is compared with is the number of words
      of the history lines together. */
  lemma {:induction false} CompressWordCount(history: seq<string>)
    ensures |Split(Join("\n", history))| == |SplitAll(history)|
  {
    SplitJoin("\n", history);
  }

  /** A history of at most `max_tokens` words comes back unchanged: split
      on newlines it gives back its lines. */
  lemma {:induction false} CompressShort(history: seq<string>, maxTokens: int)
    requires |SplitAll(history)| <= maxTokens
    requires history != [] && forall k :: 0 <= k < |history| ==> '\n' !in history[k]
    ensures SplitOn(CompressStrategy(history, maxTokens), '\n') == history
  {
    CompressWordCount(history);
    assert "\n" == ['\n'];
    SplitOnJoin(history, '\n');
  }

  /** A longer history becomes three kinds of line: the summary, the skip
      marker, then the last three history lines (all of them when there
      are fewer; one empty line when there are none). */
  lemma {:induction false} CompressLong(history: seq<string>, maxTokens: int)
    requires |SplitAll(history)| > maxTokens
    requires forall k :: 0 <= k < |history| ==> '\n' !in history[k]
    ensures var recent := if |history| <= 3 then history else history[|history| - 3..];
      SplitOn(CompressStrategy(history, maxTokens), '\n')
        == [Summary, Skipped] + (if recent == [] then [""] else recent)
  {
    CompressWordCount(history);
    DropLast(history, 3);
    var recent := Drop(history, -3);
    var tail := if recent == [] then [""] else recent;
    forall k | 0 <= k < |recent| ensures '\n' !in recent[k] {
      assert recent[k] in history;
    }
    JoinTwoFront("\n", Summary, Skipped, tail);
    assert Join("\n", tail) == Join("\n", recent);
    MarkersAreLines();
    assert "\n" == ['\n'];
    SplitOnJoin([Summary, Skipped] + tail, '\n');
  }

  // ---------------------------------------------------------------------
  // WRITE

  /** The inventory entry for a step that mentions a key: blue wins over
      red, and a key of neither colour is unknown. */
  function KeyItem(lowerStep: string): (item: string)
    ensures Contains(lowerStep, "blue") ==> item == "Blue Key"
    ensures !Contains(lowerStep, "blue") && Contains(lowerStep, "red") ==> item == "Red Key"
    ensures !Contains(lowerStep, "blue") && !Contains(lowerStep, "red") ==> item == "Unknown Key"
  {
    var color := if Contains(lowerStep, "blue") then "Blue"
      else if Contains(lowerStep, "red") then "Red"
      else "Unknown";
    color + " Key"
  }

  /** The scratchpad after `write_strategy(step, scratchpad)`. */
  function WriteRules(step: string, p: Pad): Pad {
    var l := Lower(step);
    Pad(
      if Contains(l, "key") then p.inventory + [KeyItem(l)] else p.inventory,
      if Contains(l, "steve") && "Steve" !in p.npcs then p.npcs + ["Steve"] else p.npcs,
      if Contains(l, "password") && Contains(l, "shadow") then p.knowledge + ["Password: Shadow"] else p.knowledge,
      p.locations)
  }

  /** `write_strategy(history_step, scratchpad)`: updates the caller's
      scratchpad in place and hands the same object back. */
  method WriteStrategy(historyStep: string, scratchpad: Scratchpad) returns (r: Scratchpad)
    modifies scratchpad
    ensures r == scratchpad
    ensures scratchpad.State() == WriteRules(historyStep, old(scratchpad.State()))
  {
    var lowerStep := Lower(historyStep);
    if Contains(lowerStep, "key") {
      var color := "Unknown";
      if Contains(lowerStep, "blue") {
        color := "Blue";
      } else if Contains(lowerStep, "red") {
        color := "Red";
      }
      scratchpad.inventory := scratchpad.inventory + [color + " Key"];
    }
    if Contains(lowerStep, "steve") {
      if "Steve" !in scratchpad.npcs {
        scratchpad.npcs := scratchpad.npcs + ["Steve"];
      }
    }
    if Contains(lowerStep, "password") {
      if Contains(lowerStep, "shadow") {
        scratchpad.knowledge := scratchpad.knowledge + ["Password: Shadow"];
      }
    }
    r := scratchpad;
  }

  /** A step mentioning a key adds exactly one key entry, and a repeated
      step adds it again: the inventory is not de-duplicated.  Otherwise
      the inventory is left alone. */
  lemma {:induction false} WriteKey(step: string, p: Pad)
    ensures var q := WriteRules(step, p);
      && (Contains(Lower(step), "key") ==> q.inventory == p.inventory + [KeyItem(Lower(step))])
      && (!Contains(Lower(step), "key") ==> q.inventory == p.inventory)
      && (Contains(Lower(step), "key") ==>
            |WriteRules(step, q).inventory| == |p.inventory| + 2
            && WriteRules(step, q).inventory[|p.inventory| + 1] == q.inventory[|p.inventory|])
  {
  }

  /** "Steve" is added only once: a scratchpad holding it at most once
      still does, and the step adds it exactly when it mentions steve. */
  lemma {:induction false} WriteSteveOnce(step: string, p: Pad)
    requires multiset(p.npcs)["Steve"] <= 1
    ensures var q := WriteRules(step, p);
      && multiset(q.npcs)["Steve"] <= 1
      && ("Steve" in q.npcs <==> "Steve" in p.npcs || Contains(Lower(step), "steve"))
      && p.npcs <= q.npcs
  {
    var q := WriteRules(step, p);
    if Contains(Lower(step), "steve") && "Steve" !in p.npcs {
      assert multiset(q.npcs) == multiset(p.npcs) + multiset{"Steve"};
      assert multiset(p.npcs)["Steve"] == 0;
    }
  }

  /** The password is recorded only when both "password" and "shadow"
      occur, and the locations list is never touched. */
  lemma {:induction false} WritePassword(step: string, p: Pad)
    ensures var q := WriteRules(step, p);
      && (q.knowledge != p.knowledge <==> Contains(Lower(step), "password") && Contains(Lower(step), "shadow"))
      && (q.knowledge != p.knowledge ==> q.knowledge == p.knowledge + ["Password: Shadow"])
      && q.locations == p.locations
      && Extends(p, q)
  {
    var q := WriteRules(step, p);
    if Contains(Lower(step), "password") && Contains(Lower(step), "shadow") {
      assert |q.knowledge| == |p.knowledge| + 1;
    }
  }
}
