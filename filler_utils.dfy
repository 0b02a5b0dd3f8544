/** The document builder of the lost-in-the-middle experiment: filler text
    drawn from five fixed sentences, with a fact inserted at a fraction of
    its length. */
module FillerUtils {
  import opened Text
  import opened Slicing
  import opened Randomness
  import opened Drawing
  import opened Data

  /** Sentence `k` of the filler without its closing full stop (the fifth
      is the default). */
  function Clause(k: nat): string {
    if k == 0 then "The weather today was quite pleasant with clear skies overhead"
    else if k == 1 then "Historical records indicate that ancient civilizations thrived in this region"
    else if k == 2 then "Technology has transformed the way people communicate across vast distances"
    else if k == 3 then "Medical advancements have improved healthcare outcomes for countless patients"
    else "Cultural traditions have been passed down through generations of families"
  }

  /** The five filler sentences, each closed by a full stop. */
  function Sentences(): (ts: seq<string>)
    ensures |ts| == 5 && EndsWithStops(ts)
  {
    seq(5, k requires 0 <= k < 5 => Clause(k) + ".")
  }

  /** `generate_filler_text(num_words)`: the filler has exactly
      `max(num_words, 0)` words, each a word of one of the five sentences;
      `text` are the drawn sentences. */
  method GenerateFillerText(numWords: int, rng: Random) returns (filler: string, ghost text: seq<string>)
    modifies rng
    ensures rng.draws == old(rng.draws) + |text|
    ensures text == Drawn(rng, Sentences(), old(rng.draws), |text|)
    ensures Split(filler) == Take(SplitAll(text), numWords)
    ensures |Split(filler)| == if numWords < 0 then 0 else numWords
    ensures forall w :: w in Split(filler) ==> FromTemplates(w, Sentences())
  {
    filler, text := FillFrom(Sentences(), numWords, rng);
  }

  /** The body of `generate_filler_text` over its list of sentences:
      sentences are appended while the words of their space-joined text
      fall short of `num_words`, and the first `num_words` of those words
      are joined with spaces. */
  method FillFrom(sentences: seq<string>, numWords: int, rng: Random) returns (filler: string, ghost text: seq<string>)
    requires |sentences| > 0 && EndsWithStops(sentences)
    modifies rng
    ensures rng.draws == old(rng.draws) + |text|
    ensures text == Drawn(rng, sentences, old(rng.draws), |text|)
    ensures Split(filler) == Take(SplitAll(text), numWords)
    ensures |Split(filler)| == if numWords < 0 then 0 else numWords
    ensures forall w :: w in Split(filler) ==> FromTemplates(w, sentences)
  {
    var chosen: seq<string> := [];
    ghost var start := rng.draws;
    SplitJoin(" ", chosen);
    while |Split(Join(" ", chosen))| < numWords
      invariant rng.draws == start + |chosen|
      invariant chosen == Drawn(rng, sentences, start, |chosen|)
      invariant Split(Join(" ", chosen)) == SplitAll(chosen)
      invariant numWords <= 0 ==> chosen == []
      decreases numWords - |SplitAll(chosen)|
    {
      var choice := rng.Choice(sentences);
      var sentence := choice.value;
      MoreWords(chosen, sentence);
      chosen := chosen + [sentence];
    }
    text := chosen;
    DrawnFrom(rng, sentences, start, |chosen|);
    BlockWords(chosen, sentences, numWords);
    filler := Join(" ", Take(Split(Join(" ", chosen)), numWords));
  }

  /** Appending a sentence that ends in a full stop adds at least one word
      to the space-joined text, whose words are still the sentences'
      words. */
  lemma {:induction false} MoreWords(chosen: seq<string>, sentence: string)
    requires |sentence| > 0 && sentence[|sentence| - 1] == '.'
    ensures |SplitAll(chosen + [sentence])| > |SplitAll(chosen)|
    ensures Split(Join(" ", chosen + [sentence])) == SplitAll(chosen + [sentence])
  {
    SplitEndsInWord(sentence);
    SplitAllAppend(chosen, [sentence]);
    assert SplitAll([sentence]) == Split(sentence) + SplitAll([]);
    SplitJoin(" ", chosen + [sentence]);
  }

  /** `generate_document`'s result: the text, the position as a
      percentage, and the text's word count. */
  datatype FactDocument = FactDocument(text: string, positionPct: real, wordCount: int)

  /** `" ".join(words[:idx] + fact.split() + words[idx:])`. */
  function PlaceAt(words: seq<string>, idx: int, fact: string): string {
    Join(" ", Take(words, idx) + Split(fact) + Drop(words, idx))
  }

  /** The document text for a position. */
  function PlaceFact(words: seq<string>, positionPct: real, fact: string): string {
    PlaceAt(words, ScaledIndex(|words|, positionPct), fact)
  }

  /** Re-reading the document gives the filler's words in their order,
      cut at the index, with the fact's words between, whatever the
      index. */
  lemma {:induction false} PlaceAtWords(words: seq<string>, idx: int, fact: string)
    requires forall k :: 0 <= k < |words| ==> IsWord(words[k])
    ensures Split(PlaceAt(words, idx, fact)) == Take(words, idx) + Split(fact) + Drop(words, idx)
    ensures |Split(PlaceAt(words, idx, fact))| == |words| + |Split(fact)|
  {
    var front, back := Take(words, idx), Drop(words, idx);
    TakeDrop(words, idx);
    SplitGivesWords(fact);
    var b := Bound(idx, |words|);
    assert front == words[..b] && back == words[b..];
    SplitJoinWords(" ", front + Split(fact) + back);
  }

  /** An index of 0 (or from `-len` down) puts the fact first; one at or
      past the end puts it last; a negative one within the list counts
      from the end, putting the fact before the last `-idx` words. */
  lemma {:induction false} PlaceAtEnds(words: seq<string>, idx: int, fact: string)
    requires forall k :: 0 <= k < |words| ==> IsWord(words[k])
    ensures idx == 0 ==> Split(PlaceAt(words, idx, fact)) == Split(fact) + words
    ensures idx >= |words| ==> Split(PlaceAt(words, idx, fact)) == words + Split(fact)
    ensures -|words| <= idx < 0 ==>
      Split(PlaceAt(words, idx, fact)) == words[..|words| + idx] + Split(fact) + words[|words| + idx..]
  {
    PlaceAtWords(words, idx, fact);
    if idx == 0 {
      assert Take(words, 0) == [] && Drop(words, 0) == words;
      assert [] + Split(fact) + words == Split(fact) + words;
    } else if idx >= |words| {
      assert Take(words, idx) == words && Drop(words, idx) == [];
      assert words + Split(fact) + [] == words + Split(fact);
    } else if idx < 0 && -|words| <= idx {
      CutFromEnd(words, idx);
    }
  }

  /** `position_pct` 0.0 opens the document with the fact, 1.0 or more
      closes it with the fact, and a value between -1 and 0 counts from the
      end of the filler (Python's negative slice index), so the fact never
      falls outside the document. */
  lemma {:induction false} PlaceFactPositions(words: seq<string>, positionPct: real, fact: string)
    requires forall k :: 0 <= k < |words| ==> IsWord(words[k])
    ensures positionPct == 0.0 ==> Split(PlaceFact(words, positionPct, fact)) == Split(fact) + words
    ensures positionPct >= 1.0 ==> Split(PlaceFact(words, positionPct, fact)) == words + Split(fact)
    ensures -1.0 < positionPct < 0.0 ==>
      var idx := ScaledIndex(|words|, positionPct);
      -|words| <= idx <= 0 &&
      (idx < 0 ==> Split(PlaceFact(words, positionPct, fact)) == words[..|words| + idx] + Split(fact) + words[|words| + idx..]) &&
      (idx == 0 ==> Split(PlaceFact(words, positionPct, fact)) == Split(fact) + words)
  {
    var idx := ScaledIndex(|words|, positionPct);
    PlaceAtEnds(words, idx, fact);
    if positionPct >= 1.0 {
      ScaledIndexPast(|words|, positionPct);
    } else if -1.0 < positionPct < 0.0 {
      ScaledIndexNegative(|words|, positionPct);
    }
  }

  /** `generate_document(position_pct, doc_length, fact)`. */
  method GenerateDocument(positionPct: real, docLength: int, fact: string, rng: Random) returns (doc: FactDocument, ghost words: seq<string>)
    modifies rng
    ensures |words| == (if docLength < 0 then 0 else docLength)
    ensures forall w :: w in words ==> FromTemplates(w, Sentences())
    ensures doc.text == PlaceFact(words, positionPct, fact)
    ensures doc.positionPct == positionPct * 100.0
    ensures doc.wordCount == |words| + |Split(fact)|
  {
    var filler;
    ghost var text;
    filler, text := GenerateFillerText(docLength, rng);
    var fillerWords := Split(filler);
    words := fillerWords;
    var insertIdx := ScaledIndex(|fillerWords|, positionPct);
    var docText := PlaceAt(fillerWords, insertIdx, fact);
    SplitGivesWords(filler);
    PlaceAtWords(fillerWords, insertIdx, fact);
    doc := FactDocument(docText, positionPct * 100.0, |Split(docText)|);
  }
}
