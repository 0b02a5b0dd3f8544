/** The chunk store of the retrieval experiment: documents are cut into
    overlapping word windows, numbered and kept with their document's
    metadata; a search maps the dense index's hits back to chunks.  The
    sentence encoder and the FAISS index are oracles: a search receives the
    list of positions the index returned. */
module Indexer {
  import opened Text
  import opened Slicing
  import opened Values
  import opened Generator

  /** The `metadata` dictionary of a chunk: `{"domain": ..., "has_needle": ...}`. */
  datatype Metadata = Metadata(domain: string, hasNeedle: bool)

  /** A chunk of a document; its embedding is left to the encoder. */
  datatype Chunk = Chunk(id: string, docId: int, text: string, metadata: Metadata)

  const DefaultChunkSize := 500
  const DefaultOverlap := 50

  /** `f"chunk_{n}"`. */
  function ChunkId(n: nat): string {
    "chunk_" + NatToString(n)
  }

  /** Distinct counters give distinct chunk ids. */
  lemma {:induction false} ChunkIdInjective(m: nat, n: nat)
    ensures ChunkId(m) == ChunkId(n) ==> m == n
  {
    if ChunkId(m) == ChunkId(n) {
      assert NatToString(m) == ChunkId(m)[6..];
      assert NatToString(n) == ChunkId(n)[6..];
      NatToStringInjective(m, n);
    }
  }

  /** `words[start : start + size]`: the window that starts at `start`.  It
      is a contiguous run of the words, and holds at most `size` of them
      when `size` is not negative. */
  function Window(words: seq<string>, start: nat, size: int): (w: seq<string>)
    ensures size >= 0 ==> |w| <= size
    ensures start < |words| && size > 0 ==> w != [] && w[0] == words[start]
  {
    Slice(words, start, start + size)
  }

  /** The chunk texts `_create_chunks` emits for the windows that start at
      `start`, `start + step`, ... below `|words|`: a window after the first
      that holds no more than `overlap` words is skipped. */
  function Windows(words: seq<string>, size: int, overlap: int, start: nat): seq<string>
    requires size - overlap > 0
    decreases |words| - start
  {
    if start >= |words| then []
    else
      var w := Window(words, start, size);
      var rest := Windows(words, size, overlap, start + (size - overlap));
      if start > 0 && |w| <= overlap then rest else [Join(" ", w)] + rest
  }

  /** `_create_chunks(doc)` on the document's text: `range(0, n, step)` with
      `step = size - overlap` raises ValueError when the step is zero and
      is empty when it is negative. */
  function ChunkTexts(text: string, size: int, overlap: int): (r: Result<seq<string>>)
    ensures r.Err? <==> size == overlap
    ensures r.Err? ==> r.error == ValueError
    ensures size < overlap ==> r == Ok([])
  {
    if size == overlap then Err(ValueError)
    else if size < overlap then Ok([])
    else Ok(Windows(Split(text), size, overlap, 0))
  }

  /** One step of `Windows`: the window at `start`, unless it is dropped,
      then the windows from the next start. */
  lemma {:induction false} WindowsStep(words: seq<string>, size: int, overlap: int, start: nat)
    requires size - overlap > 0 && start < |words|
    ensures var w := Window(words, start, size);
      Windows(words, size, overlap, start)
        == (if start > 0 && |w| <= overlap then [] else [Join(" ", w)])
           + Windows(words, size, overlap, start + (size - overlap))
  {
  }

  /** `WindowsStep` with the chunk texts emitted so far in front: emitting
      the window at `start` (or skipping it) and moving on leaves the
      whole list the same. */
  lemma {:induction false} WindowsAdvance(words: seq<string>, size: int, overlap: int, start: nat, texts: seq<string>)
    requires size - overlap > 0 && start < |words|
    ensures var w := Window(words, start, size);
      var emitted := if start > 0 && |w| <= overlap then texts else texts + [Join(" ", w)];
      emitted + Windows(words, size, overlap, start + (size - overlap)) == texts + Windows(words, size, overlap, start)
  {
    WindowsStep(words, size, overlap, start);
    var w := Window(words, start, size);
    var rest := Windows(words, size, overlap, start + (size - overlap));
    assert (texts + [Join(" ", w)]) + rest == texts + ([Join(" ", w)] + rest);
  }

  /** `s` is one of `0`, `step`, `2 * step`, ...: a start `range(0, n, step)`
      produces. */
  predicate MultipleOf(s: nat, step: nat)
    requires step > 0
    decreases s
  {
    s == 0 || (s >= step && MultipleOf(s - step, step))
  }

  /** `c` is the chunk text of the window at `s`, a start that is a
      multiple of the step, lies inside the document and, after the first,
      holds more than `overlap` words. */
  predicate EmittedAt(words: seq<string>, size: int, overlap: int, s: nat, c: string)
    requires size - overlap > 0
  {
    && s < |words| && MultipleOf(s, size - overlap)
    && (s > 0 ==> |Window(words, s, size)| > overlap)
    && c == Join(" ", Window(words, s, size))
  }

  /** Every chunk text is the single-space join of a window at a start
      that is a multiple of the step, inside the document, and (after the
      first) holding more than `overlap` words. */
  lemma {:induction false} WindowsShape(words: seq<string>, size: int, overlap: int, start: nat)
    requires size - overlap > 0
    requires MultipleOf(start, size - overlap)
    ensures forall c :: c in Windows(words, size, overlap, start) ==>
      exists s: nat :: start <= s && EmittedAt(words, size, overlap, s, c)
    decreases |words| - start
  {
    if start < |words| {
      var step := size - overlap;
      var next := start + step;
      assert MultipleOf(next, step);
      WindowsShape(words, size, overlap, next);
      var w := Window(words, start, size);
      var rest := Windows(words, size, overlap, next);
      assert Windows(words, size, overlap, start)
        == if start > 0 && |w| <= overlap then rest else [Join(" ", w)] + rest;
      forall c | c in Windows(words, size, overlap, start)
        ensures exists s: nat :: start <= s && EmittedAt(words, size, overlap, s, c)
      {
        if c in rest {
          var s: nat :| next <= s && EmittedAt(words, size, overlap, s, c);
          assert start <= s;
        } else {
          assert EmittedAt(words, size, overlap, start, c);
        }
      }
    }
  }

  /** A document without words has no chunks; one with words always keeps
      its first window, `words[:size]`. */
  lemma {:induction false} FirstWindow(text: string, size: int, overlap: int)
    requires size > overlap
    ensures Split(text) == [] ==> ChunkTexts(text, size, overlap) == Ok([])
    ensures Split(text) != [] ==>
      && ChunkTexts(text, size, overlap).value != []
      && ChunkTexts(text, size, overlap).value[0] == Join(" ", Window(Split(text), 0, size))
  {
  }

  /** Five words, windows of three overlapping by one: `w0 w1 w2` and
      `w2 w3 w4`; the last window, `w4` alone, is dropped. */
  lemma {:induction false} FiveWordsExample(words: seq<string>)
    requires |words| == 5
    ensures Windows(words, 3, 1, 0) == [Join(" ", words[0..3]), Join(" ", words[2..5])]
  {
    assert Window(words, 0, 3) == words[0..3];
    assert Window(words, 2, 3) == words[2..5];
    assert Window(words, 4, 3) == words[4..5];
    assert Windows(words, 3, 1, 6) == [];
    assert Windows(words, 3, 1, 4) == [];
  }

  /** The chunks `add_documents` makes for one document: numbered from
      `first` in window order, each with the document's id and metadata. */
  function DocChunks(doc: Document, first: nat, texts: seq<string>): (cs: seq<Chunk>)
    ensures |cs| == |texts|
  {
    seq(|texts|, k requires 0 <= k < |texts| =>
      Chunk(ChunkId(first + k), doc.id, texts[k], Metadata(doc.domain, doc.hasNeedle)))
  }

  /** One more chunk text makes one more chunk, numbered next. */
  lemma {:induction false} DocChunksAppend(doc: Document, first: nat, texts: seq<string>, t: string)
    ensures DocChunks(doc, first, texts + [t])
      == DocChunks(doc, first, texts) + [Chunk(ChunkId(first + |texts|), doc.id, t, Metadata(doc.domain, doc.hasNeedle))]
  {
  }

  /** The chunk list `add_documents` builds for `docs`, in document order
      and then window order, when the step is not zero. */
  function Corpus(docs: seq<Document>, size: int, overlap: int): seq<Chunk>
    requires size != overlap
  {
    if docs == [] then []
    else
      var prev := Corpus(docs[..|docs| - 1], size, overlap);
      var last := docs[|docs| - 1];
      prev + DocChunks(last, |prev|, ChunkTexts(last.text, size, overlap).value)
  }

  /** Chunk `k` of the corpus has id `chunk_k`, so the ids are
      `chunk_0` ... `chunk_{n-1}` and no two chunks share one. */
  lemma {:induction false} CorpusIds(docs: seq<Document>, size: int, overlap: int)
    requires size != overlap
    ensures forall k :: 0 <= k < |Corpus(docs, size, overlap)| ==> Corpus(docs, size, overlap)[k].id == ChunkId(k)
  {
    if docs != [] {
      CorpusIds(docs[..|docs| - 1], size, overlap);
    }
  }

  /** No two chunks of the corpus share an id. */
  lemma {:induction false} CorpusIdsDistinct(docs: seq<Document>, size: int, overlap: int)
    requires size != overlap
    ensures var cs := Corpus(docs, size, overlap);
      forall j, k :: 0 <= j < k < |cs| ==> cs[j].id != cs[k].id
  {
    var cs := Corpus(docs, size, overlap);
    CorpusIds(docs, size, overlap);
    forall j, k | 0 <= j < k < |cs| ensures cs[j].id != cs[k].id {
      ChunkIdInjective(j, k);
    }
  }

  /** `c` carries document `d`'s id, domain and needle flag, and one of its
      chunk texts. */
  predicate FromDocument(c: Chunk, d: Document, docs: seq<Document>, size: int, overlap: int)
    requires size != overlap
  {
    && d in docs && c.docId == d.id
    && c.metadata == Metadata(d.domain, d.hasNeedle)
    && c.text in ChunkTexts(d.text, size, overlap).value
  }

  /** Every chunk comes from one of the documents: it carries that
      document's id, domain and needle flag, and one of its chunk texts. */
  lemma {:induction false} CorpusProvenance(docs: seq<Document>, size: int, overlap: int)
    requires size != overlap
    ensures forall c :: c in Corpus(docs, size, overlap) ==> exists d :: FromDocument(c, d, docs, size, overlap)
  {
    if docs != [] {
      var init := docs[..|docs| - 1];
      var last := docs[|docs| - 1];
      CorpusProvenance(init, size, overlap);
      var prev := Corpus(init, size, overlap);
      var texts := ChunkTexts(last.text, size, overlap).value;
      var mine := DocChunks(last, |prev|, texts);
      forall c | c in Corpus(docs, size, overlap)
        ensures exists d :: FromDocument(c, d, docs, size, overlap)
      {
        if c in prev {
          var d :| FromDocument(c, d, init, size, overlap);
          assert FromDocument(c, d, docs, size, overlap);
        } else {
          assert c in mine;
          var k :| 0 <= k < |mine| && mine[k] == c;
          assert c.text == texts[k];
          assert FromDocument(c, last, docs, size, overlap);
        }
      }
    }
  }

  /** The documents' chunks in order, when indexing raises nothing. */
  lemma {:induction false} CorpusAppend(docs: seq<Document>, doc: Document, size: int, overlap: int)
    requires size != overlap
    ensures Corpus(docs + [doc], size, overlap)
      == Corpus(docs, size, overlap)
         + DocChunks(doc, |Corpus(docs, size, overlap)|, ChunkTexts(doc.text, size, overlap).value)
  {
    assert (docs + [doc])[..|docs|] == docs;
  }

  /** `similarity_search`'s loop as written: every position the index
      returned that is below `len(chunks)` selects `chunks[idx]`, so a
      negative position selects from the end.  The loop raises IndexError
      exactly when such a position lies below `-len(chunks)`; otherwise
      every result is a chunk of the store. */
  function RetrieveAsWritten(chunks: seq<Chunk>, found: seq<int>): (r: Result<seq<Chunk>>)
    ensures r.Ok? <==> forall k :: 0 <= k < |found| && found[k] < |chunks| ==> InIndexRange(found[k], |chunks|)
    ensures r.Err? ==> r.error == IndexError
    ensures r.Ok? ==> |r.value| <= |found| && forall c :: c in r.value ==> c in chunks
  {
    if found == [] then Ok([])
    else
      var idx := found[0];
      var rest := RetrieveAsWritten(chunks, found[1..]);
      if idx < |chunks| then
        if !InIndexRange(idx, |chunks|) then Err(IndexError)
        else if rest.Err? then rest
        else Ok([At(chunks, idx)] + rest.value)
      else rest
  }

  /** The positions with Python's negative indexing resolved: a negative
      `idx` stands for `idx + n`. */
  function Wrapped(found: seq<int>, n: nat): (w: seq<int>)
    ensures |w| == |found|
    ensures forall k :: 0 <= k < |found| ==> w[k] == if found[k] < 0 then found[k] + n else found[k]
  {
    seq(|found|, k requires 0 <= k < |found| => if found[k] < 0 then found[k] + n else found[k])
  }

  /** When the loop as written does not raise, it returns the chunks at
      the valid positions once negative positions are counted from the
      end: each `-j` among the index's answers stands for chunk
      `len(chunks) - j`. */
  lemma {:induction false} RetrieveAsWrittenWraps(chunks: seq<Chunk>, found: seq<int>)
    requires RetrieveAsWritten(chunks, found).Ok?
    ensures RetrieveAsWritten(chunks, found).value == Retrieve(chunks, Wrapped(found, |chunks|))
  {
    if found != [] {
      RetrieveAsWrittenWraps(chunks, found[1..]);
      assert Wrapped(found, |chunks|)[1..] == Wrapped(found[1..], |chunks|);
    }
  }

  /** Without negative positions the loop as written and the intended
      filter agree. */
  lemma {:induction false} RetrieveWithoutPadding(chunks: seq<Chunk>, found: seq<int>)
    requires forall k :: 0 <= k < |found| ==> found[k] >= 0
    ensures RetrieveAsWritten(chunks, found) == Ok(Retrieve(chunks, found))
  {
    RetrieveAsWrittenWraps(chunks, found);
    assert Wrapped(found, |chunks|) == found;
  }

  /** The outcome of a loop that has collected `xs` and then goes on to
      yield `r`. */
  function Preceded(xs: seq<Chunk>, r: Result<seq<Chunk>>): Result<seq<Chunk>> {
    if r.Err? then r else Ok(xs + r.value)
  }

  /** FAISS fills the positions it has no neighbour for with -1: with two
      chunks and three neighbours asked for, the loop as written returns
      the last chunk a second time. */
  lemma {:induction false} PaddingSelectsLastChunk(c0: Chunk, c1: Chunk)
    ensures RetrieveAsWritten([c0, c1], [0, 1, -1]) == Ok([c0, c1, c1])
  {
    var chunks := [c0, c1];
    var f0, f1, f2: seq<int> := [0, 1, -1], [1, -1], [-1];
    assert f0[1..] == f1 && f1[1..] == f2 && f2[1..] == [];
    assert RetrieveAsWritten(chunks, []) == Ok([]);
    assert InIndexRange(-1, 2) && At(chunks, -1) == c1 && [c1] + [] == [c1];
    assert RetrieveAsWritten(chunks, f2) == Ok([c1]);
    assert At(chunks, 1) == c1 && [c1] + [c1] == [c1, c1];
    assert RetrieveAsWritten(chunks, f1) == Ok([c1, c1]);
    assert At(chunks, 0) == c0 && [c0] + [c1, c1] == [c0, c1, c1];
  }

  /** The filter `similarity_search` intends: only positions of real chunks,
      `0 <= idx < len(chunks)`, select a chunk. */
  function Retrieve(chunks: seq<Chunk>, found: seq<int>): (r: seq<Chunk>)
    ensures |r| <= |found|
  {
    if found == [] then []
    else
      var idx := found[0];
      var rest := Retrieve(chunks, found[1..]);
      if 0 <= idx < |chunks| then [chunks[idx]] + rest else rest
  }

  /** The retrieved chunks are exactly the chunks at the valid positions,
      in the order the index ranked them: nothing raises and no padding
      entry selects a chunk. */
  lemma {:induction false} RetrieveSelects(chunks: seq<Chunk>, found: seq<int>)
    ensures Retrieve(chunks, found) == Select(chunks, Valid(found, |chunks|))
    ensures forall c :: c in Retrieve(chunks, found) ==> c in chunks
  {
    if found != [] {
      RetrieveSelects(chunks, found[1..]);
    }
  }

  /** The positions of `found` that name a chunk, in order. */
  function Valid(found: seq<int>, n: nat): (v: seq<nat>)
    ensures forall k :: 0 <= k < |v| ==> v[k] < n
  {
    if found == [] then []
    else if 0 <= found[0] < n then [found[0] as nat] + Valid(found[1..], n)
    else Valid(found[1..], n)
  }

  /** `[chunks[i] for i in positions]`. */
  function Select(chunks: seq<Chunk>, positions: seq<nat>): (r: seq<Chunk>)
    requires forall k :: 0 <= k < |positions| ==> positions[k] < |chunks|
    ensures |r| == |positions|
    ensures forall k :: 0 <= k < |r| ==> r[k] == chunks[positions[k]]
  {
    seq(|positions|, k requires 0 <= k < |positions| => chunks[positions[k]])
  }

  /** The chunk store.  `indexBuilt` stands for `self.index is not None`. */
  class VectorStore {
    const chunkSize: int
    const overlap: int
    var chunks: seq<Chunk>
    var totalChunks: int
    var indexBuilt: bool

    /** `VectorStore(chunk_size, overlap)`: no chunks and no index yet. */
    constructor (chunkSize: int, overlap: int)
      ensures this.chunkSize == chunkSize && this.overlap == overlap
      ensures chunks == [] && totalChunks == 0 && !indexBuilt
    {
      this.chunkSize := chunkSize;
      this.overlap := overlap;
      chunks := [];
      totalChunks := 0;
      indexBuilt := false;
    }

    /** `_create_chunks(doc)`: the stepped loop over window starts. */
    method CreateChunks(doc: Document) returns (r: Result<seq<string>>)
      ensures r == ChunkTexts(doc.text, chunkSize, overlap)
    {
      var words := Split(doc.text);
      var step := chunkSize - overlap;
      if step == 0 {
        return Err(ValueError);
      }
      var texts: seq<string> := [];
      if step < 0 {
        return Ok(texts);
      }
      var i: nat := 0;
      while i < |words|
        invariant texts + Windows(words, chunkSize, overlap, i) == Windows(words, chunkSize, overlap, 0)
        decreases |words| - i
      {
        var chunkWords := Window(words, i, chunkSize);
        WindowsAdvance(words, chunkSize, overlap, i, texts);
        if !(i > 0 && |chunkWords| <= overlap) {
          texts := texts + [Join(" ", chunkWords)];
        }
        i := i + step;
      }
      assert Windows(words, chunkSize, overlap, i) == [];
      assert texts + [] == texts;
      r := Ok(texts);
    }

    /** `add_documents(documents)`, chunk assembly: the chunk list is reset,
        then every document's chunks are appended with a running counter.
        A zero step raises on the first document, leaving the list empty;
        otherwise the list is the corpus, `total_chunks` its length, and an
        index is built over it. */
    method AddDocuments(documents: seq<Document>) returns (r: Result<()>)
      modifies this
      ensures r.Err? <==> chunkSize == overlap && documents != []
      ensures r.Err? ==>
        && r.error == ValueError && chunks == []
        && totalChunks == old(totalChunks) && indexBuilt == old(indexBuilt)
      ensures r.Ok? ==>
        && (documents == [] ==> chunks == [])
        && (chunkSize != overlap ==> chunks == Corpus(documents, chunkSize, overlap))
        && totalChunks == |chunks| && indexBuilt
    {
      chunks := [];
      var chunkCounter: nat := 0;
      var j := 0;
      while j < |documents|
        invariant 0 <= j <= |documents|
        invariant j > 0 ==> chunkSize != overlap
        invariant chunkSize != overlap ==> chunks == Corpus(documents[..j], chunkSize, overlap)
        invariant j == 0 ==> chunks == []
        invariant chunkCounter == |chunks|
        invariant totalChunks == old(totalChunks) && indexBuilt == old(indexBuilt)
      {
        var doc := documents[j];
        var docChunks := CreateChunks(doc);
        if docChunks.Err? {
          return Err(docChunks.error);
        }
        chunkCounter := AppendChunks(doc, docChunks.value, chunkCounter);
        assert documents[..j + 1] == documents[..j] + [doc];
        CorpusAppend(documents[..j], doc, chunkSize, overlap);
        j := j + 1;
      }
      assert documents[..j] == documents;
      totalChunks := |chunks|;
      indexBuilt := true;
      r := Ok(());
    }

    /** The inner loop of `add_documents`: each chunk text of `doc` becomes
        a chunk numbered by the running counter and is appended. */
    method AppendChunks(doc: Document, texts: seq<string>, counter: nat) returns (next: nat)
      requires counter == |chunks|
      modifies this
      ensures chunks == old(chunks) + DocChunks(doc, old(|chunks|), texts)
      ensures next == |chunks|
      ensures totalChunks == old(totalChunks) && indexBuilt == old(indexBuilt)
    {
      ghost var before := chunks;
      next := counter;
      for m := 0 to |texts|
        invariant chunks == before + DocChunks(doc, |before|, texts[..m])
        invariant next == |chunks|
        invariant totalChunks == old(totalChunks) && indexBuilt == old(indexBuilt)
      {
        var chunk := Chunk(ChunkId(next), doc.id, texts[m], Metadata(doc.domain, doc.hasNeedle));
        assert texts[..m + 1] == texts[..m] + [texts[m]];
        DocChunksAppend(doc, |before|, texts[..m], texts[m]);
        chunks := chunks + [chunk];
        next := next + 1;
      }
      assert texts[..|texts|] == texts;
    }

    /** `similarity_search(query, k)` given the positions `found` the index
        returned for the query: nothing before an index over some chunks
        exists, otherwise the loop as written over those positions. */
    method SimilaritySearch(found: seq<int>) returns (r: Result<seq<Chunk>>)
      ensures !indexBuilt || totalChunks == 0 ==> r == Ok([])
      ensures indexBuilt && totalChunks != 0 ==> r == RetrieveAsWritten(chunks, found)
    {
      if !indexBuilt || totalChunks == 0 {
        return Ok([]);
      }
      var results: seq<Chunk> := [];
      var i := 0;
      assert found[i..] == found;
      assert RetrieveAsWritten(chunks, found).Ok? ==> results + RetrieveAsWritten(chunks, found).value == RetrieveAsWritten(chunks, found).value;
      while i < |found|
        invariant 0 <= i <= |found|
        invariant RetrieveAsWritten(chunks, found) == Preceded(results, RetrieveAsWritten(chunks, found[i..]))
      {
        var idx := found[i];
        assert found[i..][1..] == found[i + 1..];
        if idx < |chunks| {
          if !InIndexRange(idx, |chunks|) {
            return Err(IndexError);
          }
          assert forall xs: seq<Chunk> :: results + ([At(chunks, idx)] + xs) == (results + [At(chunks, idx)]) + xs;
          results := results + [At(chunks, idx)];
        }
        i := i + 1;
      }
      assert found[i..] == [];
      assert results + [] == results;
      r := Ok(results);
    }
  }
}
