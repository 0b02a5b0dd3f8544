/** Drawing template sentences at random until a word budget is met, the
    loop behind the filler text of the retrieval corpus. */
module Drawing {
  import opened Text
  import opened Randomness

  /** Every candidate is a sentence ending in a full stop. */
  predicate EndsWithStops(ts: seq<string>) {
    forall k :: 0 <= k < |ts| ==> |ts[k]| > 0 && ts[k][|ts[k]| - 1] == '.'
  }

  /** The word count of the longest sentence. */
  function MaxWords(ts: seq<string>): (m: nat)
    ensures forall k :: 0 <= k < |ts| ==> |Split(ts[k])| <= m
    ensures |ts| > 0 ==> exists k :: 0 <= k < |ts| && |Split(ts[k])| == m
  {
    if |ts| == 0 then 0
    else
      var rest := MaxWords(ts[1..]);
      if |Split(ts[0])| > rest then |Split(ts[0])| else rest
  }

  /** The sentences that the draws numbered `from`, `from + 1`, ...,
      `from + count - 1` pick among `ts`. */
  function Drawn(rng: Random, ts: seq<string>, from: nat, count: nat): (picked: seq<string>)
    requires |ts| > 0
    ensures |picked| == count
  {
    if count == 0 then [] else Drawn(rng, ts, from, count - 1) + [ts[rng.Pick(from + count - 1, |ts|)]]
  }

  /** Every drawn sentence is one of the candidates. */
  lemma {:induction false} DrawnFrom(rng: Random, ts: seq<string>, from: nat, count: nat)
    requires |ts| > 0
    ensures forall j :: 0 <= j < count ==> Drawn(rng, ts, from, count)[j] in ts
  {
    if count > 0 {
      DrawnFrom(rng, ts, from, count - 1);
    }
  }

  /** Every proper prefix of `parts` has fewer than `minWords` words. */
  predicate ShortPrefixes(parts: seq<string>, minWords: int) {
    forall m :: 0 <= m < |parts| ==> |SplitAll(parts[..m])| < minWords
  }

  /** Drawing one more sentence while short of `minWords` keeps every
      proper prefix of the drawn sentences short of it. */
  lemma {:induction false} ExtendDraw(parts: seq<string>, sentence: string, minWords: int)
    requires ShortPrefixes(parts, minWords)
    requires |SplitAll(parts)| < minWords
    ensures |SplitAll(parts + [sentence])| == |SplitAll(parts)| + |Split(sentence)|
    ensures ShortPrefixes(parts + [sentence], minWords)
  {
    SplitAllAppend(parts, [sentence]);
    assert SplitAll([sentence]) == Split(sentence) + SplitAll([]);
    assert (parts + [sentence])[..|parts|] == parts;
    assert forall m :: 0 <= m < |parts| ==> (parts + [sentence])[..m] == parts[..m];
  }

  /** Sentences whose proper prefixes all fall short of `minWords` have
      fewer than `minWords` plus the longest candidate's words. */
  lemma {:induction false} Overshoot(parts: seq<string>, minWords: int, ts: seq<string>)
    requires parts != [] && ShortPrefixes(parts, minWords)
    requires forall j :: 0 <= j < |parts| ==> parts[j] in ts
    ensures 0 < minWords && |SplitAll(parts)| < minWords + MaxWords(ts)
  {
    var n := |parts| - 1;
    assert parts[..0] == [];
    assert parts == parts[..n] + [parts[n]];
    SplitAllAppend(parts[..n], [parts[n]]);
    assert SplitAll([parts[n]]) == Split(parts[n]) + SplitAll([]);
  }

  /** The loop of `generate_filler_text`: whole sentences are drawn until
      their word count reaches `minWords`.  The result is exactly the
      drawn sentences, every shorter prefix of them falls short of
      `minWords`, and the count overshoots by less than the longest
      sentence. */
  method DrawSentences(templates: seq<string>, minWords: int, rng: Random) returns (parts: seq<string>)
    requires |templates| > 0 && EndsWithStops(templates)
    modifies rng
    ensures rng.draws == old(rng.draws) + |parts|
    ensures parts == Drawn(rng, templates, old(rng.draws), |parts|)
    ensures |SplitAll(parts)| >= minWords
    ensures ShortPrefixes(parts, minWords)
    ensures parts != [] ==> 0 < minWords && |SplitAll(parts)| < minWords + MaxWords(templates)
  {
    parts := [];
    var currentWords := 0;
    ghost var start := rng.draws;
    ghost var n: nat := 0;
    while currentWords < minWords
      invariant rng.draws == start + n
      invariant parts == Drawn(rng, templates, start, n)
      invariant currentWords == |SplitAll(parts)|
      invariant ShortPrefixes(parts, minWords)
      decreases minWords - currentWords
    {
      var choice := rng.Choice(templates);
      var sentence := choice.value;
      SplitEndsInWord(sentence);
      ExtendDraw(parts, sentence, minWords);
      parts := parts + [sentence];
      n := n + 1;
      currentWords := currentWords + |Split(sentence)|;
    }
    DrawnFrom(rng, templates, start, n);
    if parts != [] {
      Overshoot(parts, minWords, templates);
    }
  }
}
