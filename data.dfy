/** The shared data helpers of the experiments: blocks of filler text
    drawn from per-domain English templates, and the insertion of a needle
    fact into a text at a chosen position. */
module Data {
  import opened Text
  import opened Slicing
  import opened Values
  import opened Randomness
  import opened Drawing

  /** The four domains of `TEMPLATES`. */
  datatype Domain = Generic | Medicine | Law | Tech

  /** `TEMPLATES.get(domain, TEMPLATES["generic"])`: an unknown domain
      falls back to generic. */
  function DomainOf(domain: string): (d: Domain)
    ensures domain != "medicine" && domain != "law" && domain != "tech" ==> d == Generic
  {
    if domain == "medicine" then Medicine
    else if domain == "law" then Law
    else if domain == "tech" then Tech
    else Generic
  }

  /** Template `k` of domain `d` without its closing full stop (the fifth
      is the default). */
  function Clause(d: Domain, k: nat): string {
    match d
    case Generic =>
      if k == 0 then "The weather today is quite sunny and bright"
      else if k == 1 then "History teaches us valuable lessons about the past"
      else if k == 2 then "Mathematics is the universal language of science"
      else if k == 3 then "Art allows for creative expression and emotion"
      else "Technology evolves at a rapid pace every year"
    case Medicine =>
      if k == 0 then "Clinical trials are essential for drug approval"
      else if k == 1 then "Patient care requires empathy and expertise"
      else if k == 2 then "Modern surgery utilizes robotic assistance"
      else if k == 3 then "Vaccines have eradicated many deadly diseases"
      else "Regular checkups monitor vital health statistics"
    case Law =>
      if k == 0 then "The defendant pleaded not guilty to the charges"
      else if k == 1 then "Contracts must be signed by all parties involved"
      else if k == 2 then "Intellectual property laws protect innovation"
      else if k == 3 then "The constitution guarantees fundamental rights"
      else "Litigation can be a lengthy and costly process"
    case Tech =>
      if k == 0 then "Artificial intelligence is transforming industries"
      else if k == 1 then "Cloud computing provides scalable infrastructure"
      else if k == 2 then "Cybersecurity is critical for data protection"
      else if k == 3 then "Software development follows agile methodologies"
      else "Quantum computing promises exponential speedups"
  }

  /** `TEMPLATES[d]`: five sentences, each closed by a full stop. */
  function Templates(d: Domain): (ts: seq<string>)
    ensures |ts| == 5 && EndsWithStops(ts)
  {
    seq(5, k requires 0 <= k < 5 => Clause(d, k) + ".")
  }

  /** `w` is a word of one of the sentences `ts`. */
  predicate FromTemplates(w: string, ts: seq<string>) {
    exists k :: 0 <= k < |ts| && w in Split(ts[k])
  }

  /** The words of sentences drawn from `ts` are words, each of one of the
      sentences. */
  lemma {:induction false} SplitAllFrom(parts: seq<string>, ts: seq<string>)
    requires forall j :: 0 <= j < |parts| ==> parts[j] in ts
    ensures forall i :: 0 <= i < |SplitAll(parts)| ==> IsWord(SplitAll(parts)[i]) && FromTemplates(SplitAll(parts)[i], ts)
  {
    if parts != [] {
      SplitAllFrom(parts[1..], ts);
      SplitGivesWords(parts[0]);
      var k :| 0 <= k < |ts| && ts[k] == parts[0];
      var head, tail := Split(parts[0]), SplitAll(parts[1..]);
      forall i | 0 <= i < |SplitAll(parts)|
        ensures IsWord(SplitAll(parts)[i]) && FromTemplates(SplitAll(parts)[i], ts)
      {
        if i < |head| {
          assert SplitAll(parts)[i] == head[i] && head[i] in Split(ts[k]);
        } else {
          assert SplitAll(parts)[i] == tail[i - |head|];
        }
      }
    }
  }

  /** `generate_text_block(domain, min_words)`: whole template sentences
      are drawn while fewer than `min_words` words are gathered (the words
      gathered are those of the drawn sentences, so the loop is
      `DrawSentences`), and the first `min_words` words are joined with
      spaces.  The block has
      exactly `max(min_words, 0)` words, each one a word of the chosen
      domain's templates; `parts` are the drawn sentences, and the draw
      stops as soon as the words suffice. */
  method GenerateTextBlock(domain: string, minWords: int, rng: Random) returns (text: string, ghost parts: seq<string>)
    modifies rng
    ensures rng.draws == old(rng.draws) + |parts|
    ensures parts == Drawn(rng, Templates(DomainOf(domain)), old(rng.draws), |parts|)
    ensures ShortPrefixes(parts, minWords)
    ensures Split(text) == Take(SplitAll(parts), minWords)
    ensures |Split(text)| == if minWords < 0 then 0 else minWords
    ensures forall w :: w in Split(text) ==> FromTemplates(w, Templates(DomainOf(domain)))
  {
    var templates := Templates(DomainOf(domain));
    var drawn := DrawSentences(templates, minWords, rng);
    parts := drawn;
    var words := SplitAll(drawn);
    DrawnFrom(rng, templates, old(rng.draws), |parts|);
    BlockWords(parts, templates, minWords);
    text := Join(" ", Take(words, minWords));
  }

  /** The first `min_words` words of sentences drawn from `ts` until
      there were enough: exactly `max(min_words, 0)` words, each of a
      sentence of `ts`, that joined with spaces split back into
      themselves. */
  lemma {:induction false} BlockWords(parts: seq<string>, ts: seq<string>, minWords: int)
    requires forall j :: 0 <= j < |parts| ==> parts[j] in ts
    requires |SplitAll(parts)| >= minWords
    requires minWords <= 0 ==> parts == []
    ensures var block := Take(SplitAll(parts), minWords);
      && Split(Join(" ", block)) == block
      && |block| == (if minWords < 0 then 0 else minWords)
      && forall w :: w in block ==> FromTemplates(w, ts)
  {
    var words := SplitAll(parts);
    SplitAllFrom(parts, ts);
    var block := Take(words, minWords);
    if minWords > 0 {
      TakePrefix(words, minWords);
    }
    SplitJoinWords(" ", block);
    forall w | w in block ensures FromTemplates(w, ts) {
      var i :| 0 <= i < |block| && block[i] == w;
      assert words[i] == w;
    }
  }

  // ---------------------------------------------------------------------
  // insert_needle

  /** The `position` argument: a float, a string, or any other value (an
      int, say), which is not a float and equals none of the names. */
  datatype Position = FloatPos(p: real) | StrPos(s: string) | IntPos(i: int)

  /** `int(x)`: truncation toward zero. */
  function Trunc(x: real): (n: int)
    ensures 0.0 <= x ==> 0 <= n && n as real <= x < n as real + 1.0
    ensures x < 0.0 ==> n <= 0 && n as real - 1.0 < x <= n as real
  {
    if x >= 0.0 then x.Floor else -((-x).Floor)
  }

  /** `max(0, min(i, total))`. */
  function Clamp(i: int, total: nat): (c: nat)
    ensures c <= total
    ensures 0 <= i <= total ==> c == i
  {
    if i < 0 then 0 else if i > total then total else i
  }

  /** `int(total * fraction)`: the word count scaled by a fraction and
      truncated toward zero. */
  function ScaledIndex(total: nat, fraction: real): int {
    Trunc(total as real * fraction)
  }

  /** A fraction of 1 or more gives an index at or past the end. */
  lemma {:induction false} ScaledIndexPast(total: nat, fraction: real)
    requires fraction >= 1.0
    ensures ScaledIndex(total, fraction) >= total
  {
    ScaleMonotone(total as real, 1.0, fraction);
    TruncAtLeast(total as real * fraction, total);
  }

  /** A fraction between -1 and 0 gives an index from `-total` to 0. */
  lemma {:induction false} ScaledIndexNegative(total: nat, fraction: real)
    requires -1.0 < fraction < 0.0
    ensures -(total as int) <= ScaledIndex(total, fraction) <= 0
  {
    ScaleMonotone(total as real, -1.0, fraction);
    ScaleMonotone(total as real, fraction, 0.0);
    assert total as real * -1.0 == -(total as real);
    TruncWithinNegative(total as real * fraction, total);
  }

  /** Truncating a value between `-n` and 0 gives an index from `-n` to 0. */
  lemma {:induction false} TruncWithinNegative(x: real, n: nat)
    requires -(n as real) <= x <= 0.0
    ensures -(n as int) <= Trunc(x) <= 0
  {
  }

  /** The index a position fixes, or none when `random.randint` decides:
      a float is scaled by the word count, truncated and clamped; `start`,
      `middle` and `end` take a tenth, a half and nine tenths of it. */
  function FixedIndex(total: nat, position: Position): (r: Option<nat>)
    ensures r.Some? ==> r.value <= total
    ensures r.None? <==> !position.FloatPos? && position != StrPos("start") && position != StrPos("end") && position != StrPos("middle")
  {
    match position
    case FloatPos(p) => Some(Clamp(ScaledIndex(total, p), total))
    case StrPos(s) =>
      if s == "start" then Some(ScaledIndex(total, 0.1))
      else if s == "end" then Some(ScaledIndex(total, 0.9))
      else if s == "middle" then Some(ScaledIndex(total, 0.5))
      else None
    case IntPos(_) => None
  }

  /** The named positions fall at the floor of a tenth, a half and nine
      tenths of the word count. */
  lemma {:induction false} NamedIndices(total: nat)
    ensures FixedIndex(total, StrPos("start")) == Some(total / 10)
    ensures FixedIndex(total, StrPos("middle")) == Some(total / 2)
    ensures FixedIndex(total, StrPos("end")) == Some(9 * total / 10)
  {
    var t := total as real;
    var a, b, c := total / 10, total / 2, 9 * total / 10;
    assert a as real <= t * 0.1 < a as real + 1.0;
    assert b as real <= t * 0.5 < b as real + 1.0;
    assert c as real <= t * 0.9 < c as real + 1.0;
  }

  /** A float position at or below 0 puts the needle first. */
  lemma {:induction false} FloatIndexBelow(total: nat, p: real)
    requires p <= 0.0
    ensures FixedIndex(total, FloatPos(p)) == Some(0)
  {
    ScaleMonotone(total as real, p, 0.0);
  }

  /** A float position at or above 1 puts the needle last. */
  lemma {:induction false} FloatIndexAbove(total: nat, p: real)
    requires p >= 1.0
    ensures FixedIndex(total, FloatPos(p)) == Some(total)
  {
    ScaledIndexPast(total, p);
  }

  /** A float position between 0 and 1 lands at the floor of that fraction
      of the word count. */
  lemma {:induction false} FloatIndexWithin(total: nat, p: real)
    requires 0.0 <= p <= 1.0
    ensures FixedIndex(total, FloatPos(p)) == Some((total as real * p).Floor)
  {
    FloatIndexIs(total, p);
    ScaledIndexWithin(total, p);
  }

  /** A fraction between 0 and 1 gives the floor of the scaled count, which
      lies within the list. */
  lemma {:induction false} ScaledIndexWithin(total: nat, fraction: real)
    requires 0.0 <= fraction <= 1.0
    ensures 0 <= ScaledIndex(total, fraction) <= total
    ensures ScaledIndex(total, fraction) == (total as real * fraction).Floor
  {
    ScaleMonotone(total as real, 0.0, fraction);
    ScaleMonotone(total as real, fraction, 1.0);
    TruncWithin(total as real * fraction, total);
  }

  /** A float position is scaled, truncated and clamped. */
  lemma {:induction false} FloatIndexIs(total: nat, p: real)
    ensures FixedIndex(total, FloatPos(p)) == Some(Clamp(ScaledIndex(total, p), total))
  {
  }

  /** Truncating a value of at least `n` gives at least `n`. */
  lemma {:induction false} TruncAtLeast(x: real, n: nat)
    requires n as real <= x
    ensures Trunc(x) >= n
  {
  }

  /** Truncating a value between 0 and `total` gives its floor, within `total`. */
  lemma {:induction false} TruncWithin(x: real, total: nat)
    requires 0.0 <= x <= total as real
    ensures 0 <= Trunc(x) <= total && Trunc(x) == x.Floor
  {
    assert x.Floor as real <= x;
  }

  /** Scaling a non-negative count is monotone in the factor. */
  lemma {:induction false} ScaleMonotone(t: real, p: real, q: real)
    requires 0.0 <= t && p <= q
    ensures t * p <= t * q
    ensures q == 1.0 ==> t * p <= t
    ensures p == 1.0 ==> t <= t * q
    ensures p == 0.0 ==> 0.0 <= t * q
    ensures q == 0.0 ==> t * p <= 0.0
  {
    assert t * q - t * p == t * (q - p);
  }

  /** `words.insert(idx, needle)` for an index within the list. */
  function Insert(words: seq<string>, idx: nat, needle: string): (r: seq<string>)
    requires idx <= |words|
    ensures |r| == |words| + 1 && r[idx] == needle
    ensures r[..idx] == words[..idx] && r[idx + 1..] == words[idx..]
  {
    words[..idx] + [needle] + words[idx..]
  }

  /** The needle's index: the fixed one, else `random.randint(0, total)`
      as the draw `drawn` (a value from 0 to `total`). */
  function NeedleIndex(total: nat, position: Position, drawn: nat): (idx: nat)
    requires drawn <= total
    ensures idx <= total
  {
    var fixed := FixedIndex(total, position);
    if fixed.Some? then fixed.value else drawn
  }

  /** `insert_needle(text, needle, position)`: the text's words with the
      needle inserted as one element, joined with spaces.  Only a position
      that fixes no index consumes a draw. */
  method InsertNeedle(text: string, needle: string, position: Position, rng: Random) returns (r: string)
    modifies rng
    ensures var total := |Split(text)|;
      var random := FixedIndex(total, position).None?;
      && rng.draws == old(rng.draws) + (if random then 1 else 0)
      && r == Join(" ", Insert(Split(text), NeedleIndex(total, position, rng.Pick(old(rng.draws), total + 1)), needle))
  {
    var words := Split(text);
    var total := |words|;
    ghost var fixed := FixedIndex(total, position);
    var idx: nat;
    if position.FloatPos? {
      idx := Clamp(ScaledIndex(total, position.p), total);
    } else if position == StrPos("start") {
      idx := ScaledIndex(total, 0.1);
    } else if position == StrPos("end") {
      idx := ScaledIndex(total, 0.9);
    } else if position == StrPos("middle") {
      idx := ScaledIndex(total, 0.5);
    } else {
      var drawn := rng.RandInt(0, total);
      idx := drawn.value;
    }
    assert idx == NeedleIndex(total, position, rng.Pick(old(rng.draws), total + 1));
    r := Join(" ", Insert(words, idx, needle));
  }

  /** Re-reading the result gives the text's words in their order, cut at
      the index, with the needle's own words between: the word count is
      the text's plus the needle's. */
  lemma {:induction false} InsertNeedleWords(text: string, needle: string, idx: nat)
    requires idx <= |Split(text)|
    ensures var words := Split(text);
      && Split(Join(" ", Insert(words, idx, needle))) == words[..idx] + Split(needle) + words[idx..]
      && |Split(Join(" ", Insert(words, idx, needle)))| == |words| + |Split(needle)|
  {
    var words := Split(text);
    SplitGivesWords(text);
    assert words[..idx] + words[idx..] == words;
    SplitJoinInsert(words[..idx], needle, words[idx..]);
  }
}
