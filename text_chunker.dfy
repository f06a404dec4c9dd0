/** TextChunker.chunk (chunkers.py:39-129): paragraphs are packed greedily into chunks; a
    paragraph larger than the chunk size is split into sentences packed the same way; a
    sentence larger than the chunk size is cut into character windows of `chunk_size`
    characters started every `chunk_size - chunk_overlap` characters. */
module TextChunker {
  import opened Strings
  import opened Records
  import opened Library

  /** The loop state: the records emitted so far, the chunk being built and the running
      size counter (which counts a separator for every unit, even the first). */
  datatype TextState = TextState(chunks: seq<Chunk>, current: string, size: int)

  const Start := TextState([], "", 0)

  /** Emits the chunk being built, if there is one. */
  function Flush(st: TextState): seq<Chunk> {
    if |st.current| > 0 then Emit(st.chunks, st.current, "text") else st.chunks
  }

  /** Adds one unit to the chunk being built. */
  function Append(st: TextState, unit: string, separator: string): TextState {
    TextState(st.chunks, (if |st.current| > 0 then st.current + separator else "") + unit,
              st.size + |unit| + |separator|)
  }

  /** `[s[i:i + width] for i in range(start, len(s), step)]`. */
  function Windows(s: string, start: nat, width: nat, step: nat): seq<string>
    requires step > 0
    decreases |s| - start
  {
    if start >= |s| then [] else [s[start..Min(start + width, |s|)]] + Windows(s, start + step, width, step)
  }

  /** Emits one plain text record per string, in order. */
  function EmitAll(chunks: seq<Chunk>, texts: seq<string>): seq<Chunk>
    decreases |texts|
  {
    if texts == [] then chunks else EmitAll(Emit(chunks, texts[0], "text"), texts[1..])
  }

  /** One iteration of the sentence loop (chunkers.py:80-113). */
  function SentenceStep(st: TextState, sentence: string, chunkSize: nat, step: nat): TextState
    requires step > 0
  {
    if st.size + |sentence| <= chunkSize then Append(st, sentence, " ")
    else if |sentence| > chunkSize then
      TextState(EmitAll(Flush(st), Windows(sentence, 0, chunkSize, step)), st.current, st.size)
    else TextState(Flush(st), sentence, |sentence|)
  }

  function Sentences(st: TextState, sentences: seq<string>, chunkSize: nat, step: nat): TextState
    requires step > 0
    decreases |sentences|
  {
    if sentences == [] then st
    else SentenceStep(Sentences(st, sentences[..|sentences| - 1], chunkSize, step),
                      sentences[|sentences| - 1], chunkSize, step)
  }

  /** One iteration of the paragraph loop (chunkers.py:48-116). */
  function ParagraphStep(lib: Lib, st: TextState, paragraph: string, chunkSize: nat, step: nat): TextState
    requires step > 0
  {
    var para := Strip(paragraph);
    if |para| == 0 then st
    else if st.size + |para| <= chunkSize then Append(st, para, "\n\n")
    else if |para| > chunkSize then
      Sentences(TextState(Flush(st), "", 0), lib.splitSentences(para), chunkSize, step)
    else TextState(Flush(st), para, |para|)
  }

  function Paragraphs(lib: Lib, st: TextState, paragraphs: seq<string>, chunkSize: nat, step: nat): TextState
    requires step > 0
    decreases |paragraphs|
  {
    if paragraphs == [] then st
    else ParagraphStep(lib, Paragraphs(lib, st, paragraphs[..|paragraphs| - 1], chunkSize, step),
                       paragraphs[|paragraphs| - 1], chunkSize, step)
  }

  /** What `TextChunker().chunk(content, chunk_size, chunk_overlap)` returns. */
  function TextChunks(lib: Lib, content: string, chunkSize: int, chunkOverlap: int): seq<Chunk>
    requires 0 <= chunkOverlap < chunkSize
  {
    Flush(Paragraphs(lib, Start, lib.splitParagraphs(content), chunkSize, chunkSize - chunkOverlap))
  }

  method TextChunk(lib: Lib, content: string, chunkSize: int, chunkOverlap: int) returns (chunks: seq<Chunk>)
    requires 0 <= chunkOverlap < chunkSize
    ensures chunks == TextChunks(lib, content, chunkSize, chunkOverlap)
  {
    var step: nat := chunkSize - chunkOverlap;
    var current, currentSize;
    chunks, current, currentSize := PackParagraphs(lib, lib.splitParagraphs(content), chunkSize, step);
    chunks := FlushChunk(chunks, current, currentSize);
  }

  /** The paragraph loop (chunkers.py:48-116). */
  method PackParagraphs(lib: Lib, paragraphs: seq<string>, chunkSize: nat, step: nat)
    returns (chunks: seq<Chunk>, current: string, currentSize: int)
    requires step > 0
    ensures TextState(chunks, current, currentSize) == Paragraphs(lib, Start, paragraphs, chunkSize, step)
  {
    chunks, current, currentSize := [], "", 0;
    for i := 0 to |paragraphs|
      invariant TextState(chunks, current, currentSize) == Paragraphs(lib, Start, paragraphs[..i], chunkSize, step)
    {
      ParagraphsSnoc(lib, Start, paragraphs, i, chunkSize, step);
      chunks, current, currentSize := AddParagraph(lib, chunks, current, currentSize, paragraphs[i], chunkSize, step);
    }
    assert paragraphs[..|paragraphs|] == paragraphs;
  }

  /** The final `if current_chunk:` (chunkers.py:119-127). */
  method FlushChunk(chunks0: seq<Chunk>, current: string, currentSize: int) returns (chunks: seq<Chunk>)
    ensures chunks == Flush(TextState(chunks0, current, currentSize))
  {
    chunks := chunks0;
    if |current| > 0 {
      chunks := chunks + [Record(current, "text", |chunks|)];
    }
  }

  /** The body of the paragraph loop (chunkers.py:49-116). */
  method AddParagraph(lib: Lib, chunks0: seq<Chunk>, current0: string, size0: int, paragraph: string, chunkSize: nat, step: nat)
    returns (chunks: seq<Chunk>, current: string, currentSize: int)
    requires step > 0
    ensures TextState(chunks, current, currentSize) == ParagraphStep(lib, TextState(chunks0, current0, size0), paragraph, chunkSize, step)
  {
    chunks, current, currentSize := chunks0, current0, size0;
    var para := Strip(paragraph);
    if |para| > 0 {
      if currentSize + |para| <= chunkSize {
        if |current| > 0 {
          current := current + "\n\n";
        }
        current := current + para;
        currentSize := currentSize + |para| + 2;
      } else {
        if |current| > 0 {
          chunks := chunks + [Record(current, "text", |chunks|)];
        }
        if |para| > chunkSize {
          chunks, current, currentSize := PackSentences(chunks, lib.splitSentences(para), chunkSize, step);
        } else {
          current := para;
          currentSize := |para|;
        }
      }
    }
  }

  /** The sentence loop of an oversized paragraph (chunkers.py:77-113), started on an empty chunk. */
  method PackSentences(chunks0: seq<Chunk>, sentences: seq<string>, chunkSize: nat, step: nat)
    returns (chunks: seq<Chunk>, current: string, currentSize: int)
    requires step > 0
    ensures TextState(chunks, current, currentSize) == Sentences(TextState(chunks0, "", 0), sentences, chunkSize, step)
  {
    chunks, current, currentSize := chunks0, "", 0;
    for j := 0 to |sentences|
      invariant TextState(chunks, current, currentSize) == Sentences(TextState(chunks0, "", 0), sentences[..j], chunkSize, step)
    {
      SentencesSnoc(TextState(chunks0, "", 0), sentences, j, chunkSize, step);
      var sentence := sentences[j];
      if currentSize + |sentence| <= chunkSize {
        if |current| > 0 {
          current := current + " ";
        }
        current := current + sentence;
        currentSize := currentSize + |sentence| + 1;
      } else {
        if |current| > 0 {
          chunks := chunks + [Record(current, "text", |chunks|)];
        }
        if |sentence| > chunkSize {
          chunks := EmitWindows(chunks, sentence, chunkSize, step);
        } else {
          current := sentence;
          currentSize := |sentence|;
        }
      }
    }
    assert sentences[..|sentences|] == sentences;
  }

  /** The window loop of an oversized sentence (chunkers.py:100-109). */
  method EmitWindows(chunks0: seq<Chunk>, sentence: string, chunkSize: nat, step: nat) returns (chunks: seq<Chunk>)
    requires step > 0
    ensures chunks == EmitAll(chunks0, Windows(sentence, 0, chunkSize, step))
  {
    chunks := chunks0;
    var i: nat := 0;
    while i < |sentence|
      invariant EmitAll(chunks, Windows(sentence, i, chunkSize, step)) == EmitAll(chunks0, Windows(sentence, 0, chunkSize, step))
      decreases |sentence| - i
    {
      chunks := chunks + [Record(sentence[i..Min(i + chunkSize, |sentence|)], "text", |chunks|)];
      i := i + step;
    }
  }

  lemma {:induction false} ParagraphsSnoc(lib: Lib, st: TextState, paragraphs: seq<string>, i: nat, chunkSize: nat, step: nat)
    requires step > 0 && i < |paragraphs|
    ensures Paragraphs(lib, st, paragraphs[..i + 1], chunkSize, step)
         == ParagraphStep(lib, Paragraphs(lib, st, paragraphs[..i], chunkSize, step), paragraphs[i], chunkSize, step)
  {
    assert paragraphs[..i + 1][..i] == paragraphs[..i];
  }

  lemma {:induction false} SentencesSnoc(st: TextState, sentences: seq<string>, j: nat, chunkSize: nat, step: nat)
    requires step > 0 && j < |sentences|
    ensures Sentences(st, sentences[..j + 1], chunkSize, step)
         == SentenceStep(Sentences(st, sentences[..j], chunkSize, step), sentences[j], chunkSize, step)
  {
    assert sentences[..j + 1][..j] == sentences[..j];
  }

  lemma OneParagraph(lib: Lib, st: TextState, paragraph: string, chunkSize: nat, step: nat)
    requires step > 0
    ensures Paragraphs(lib, st, [paragraph], chunkSize, step) == ParagraphStep(lib, st, paragraph, chunkSize, step)
  {
    assert [paragraph][..0] == [];
  }

  lemma OneSentence(st: TextState, sentence: string, chunkSize: nat, step: nat)
    requires step > 0
    ensures Sentences(st, [sentence], chunkSize, step) == SentenceStep(st, sentence, chunkSize, step)
  {
    assert [sentence][..0] == [];
  }

  // ---------------------------------------------------------------------------
  // Character windows (chunkers.py:99-109)

  /** Window `k` starts `k` strides in and is at most `width` long. */
  lemma {:induction false} WindowAt(s: string, start: nat, width: nat, step: nat, k: nat)
    requires step > 0
    requires k < |Windows(s, start, width, step)|
    ensures start + k * step < |s|
    ensures Windows(s, start, width, step)[k] == s[start + k * step..Min(start + k * step + width, |s|)]
    decreases k
  {
    if k > 0 {
      WindowAt(s, start + step, width, step, k - 1);
      assert start + step + (k - 1) * step == start + k * step;
    }
  }

  /** Every window is non-empty and at most `width` long. */
  lemma {:induction false} WindowsBounded(s: string, start: nat, width: nat, step: nat)
    requires 0 < step && 0 < width
    ensures forall k :: 0 <= k < |Windows(s, start, width, step)| ==>
              0 < |Windows(s, start, width, step)[k]| <= width
    decreases |s| - start
  {
    if start < |s| {
      WindowsBounded(s, start + step, width, step);
    }
  }

  /** The last window starts inside the string and the next start would lie past its end. */
  lemma {:induction false} WindowsCount(s: string, start: nat, width: nat, step: nat)
    requires step > 0
    ensures start >= |s| ==> |Windows(s, start, width, step)| == 0
    ensures start < |s| ==> var n := |Windows(s, start, width, step)|;
              n >= 1 && start + (n - 1) * step < |s| <= start + n * step
    decreases |s| - start
  {
    if start < |s| {
      WindowsCount(s, start + step, width, step);
      var n' := |Windows(s, start + step, width, step)|;
      assert n' * step == (n' - 1) * step + step;
      assert (n' + 1) * step == n' * step + step;
    }
  }

  lemma {:induction false} MulCancel(a: int, b: int, c: int)
    requires c > 0 && a * c < b * c
    ensures a < b
  {
  }

  /** `n` strides first reach past `length` exactly when `n` is `ceil(length / step)`. */
  lemma {:induction false} CeilDivision(length: int, step: int, n: int)
    requires step > 0 && length > 0
    requires (n - 1) * step < length <= n * step
    ensures n == (length + step - 1) / step
  {
    var q := (length + step - 1) / step;
    var r := (length + step - 1) % step;
    assert length + step - 1 == q * step + r && 0 <= r < step;
    assert (n - 1) * step == n * step - step;
    MulCancel(n, q + 1, step);
    assert (n + 1) * step == n * step + step;
    MulCancel(q, n + 1, step);
  }

  /** A string of length L yields exactly ceil(L / step) windows. */
  lemma {:induction false} WindowCount(s: string, width: nat, step: nat)
    requires step > 0
    ensures |Windows(s, 0, width, step)| == (|s| + step - 1) / step
  {
    WindowsCount(s, 0, width, step);
    if |s| > 0 {
      CeilDivision(|s|, step, |Windows(s, 0, width, step)|);
    }
  }

  /** With a stride no larger than the width, every character lies inside some window, at
      the offset its position gives. */
  lemma {:induction false} WindowsCover(s: string, start: nat, width: nat, step: nat, j: nat)
    requires 0 < step <= width
    requires start <= j < |s|
    ensures exists k :: 0 <= k < |Windows(s, start, width, step)| &&
              start + k * step <= j < start + k * step + |Windows(s, start, width, step)[k]| &&
              Windows(s, start, width, step)[k][j - start - k * step] == s[j]
    decreases |s| - start
  {
    var w := Windows(s, start, width, step);
    if j < start + step {
      assert start + 0 * step <= j < start + 0 * step + |w[0]| && w[0][j - start - 0 * step] == s[j];
    } else {
      WindowsCover(s, start + step, width, step, j);
      var w' := Windows(s, start + step, width, step);
      var k :| 0 <= k < |w'| && start + step + k * step <= j < start + step + k * step + |w'[k]| &&
               w'[k][j - (start + step) - k * step] == s[j];
      assert w[k + 1] == w'[k];
      assert start + (k + 1) * step == start + step + k * step;
    }
  }

  // ---------------------------------------------------------------------------
  // Emitting

  lemma {:induction false} EmitAllShape(chunks: seq<Chunk>, texts: seq<string>)
    ensures |EmitAll(chunks, texts)| == |chunks| + |texts|
    ensures EmitAll(chunks, texts)[..|chunks|] == chunks
    ensures forall j :: 0 <= j < |texts| ==>
              EmitAll(chunks, texts)[|chunks| + j] == Record(texts[j], "text", |chunks| + j)
    decreases |texts|
  {
    if texts != [] {
      var chunks' := Emit(chunks, texts[0], "text");
      EmitAllShape(chunks', texts[1..]);
      var r := EmitAll(chunks, texts);
      assert r[..|chunks|] == r[..|chunks'|][..|chunks|];
      forall j | 0 <= j < |texts|
        ensures r[|chunks| + j] == Record(texts[j], "text", |chunks| + j)
      {
        if j == 0 {
          assert r[|chunks|] == r[..|chunks'|][|chunks|];
        } else {
          assert r[|chunks| + j] == r[|chunks'| + (j - 1)];
        }
      }
    }
  }

  // ---------------------------------------------------------------------------
  // The size invariant (chunkers.py:53-58, 81-85): current_size >= len(current_chunk)

  /** Plain text records, each non-empty and at most two characters over the chunk size. */
  ghost predicate ChunksBounded(chunks: seq<Chunk>, chunkSize: nat) {
    PlainRecords(chunks, "text") &&
    forall k :: 0 <= k < |chunks| ==> 0 < |chunks[k].content| <= chunkSize + 2
  }

  ghost predicate Good(st: TextState, chunkSize: nat) {
    ChunksBounded(st.chunks, chunkSize) && |st.current| <= st.size && |st.current| <= chunkSize + 2
  }

  lemma {:induction false} FlushGood(st: TextState, chunkSize: nat)
    requires Good(st, chunkSize)
    ensures ChunksBounded(Flush(st), chunkSize)
  {
  }

  lemma {:induction false} EmitAllBounded(chunks: seq<Chunk>, texts: seq<string>, chunkSize: nat)
    requires ChunksBounded(chunks, chunkSize)
    requires forall j :: 0 <= j < |texts| ==> 0 < |texts[j]| <= chunkSize + 2
    ensures ChunksBounded(EmitAll(chunks, texts), chunkSize)
  {
    EmitAllShape(chunks, texts);
    var r := EmitAll(chunks, texts);
    forall k | 0 <= k < |r|
      ensures r[k] == Record(r[k].content, "text", k) && 0 < |r[k].content| <= chunkSize + 2
    {
      if k < |chunks| {
        assert r[k] == r[..|chunks|][k];
      } else {
        assert r[k] == Record(texts[k - |chunks|], "text", k);
      }
    }
  }

  lemma {:induction false} SentenceStepGood(st: TextState, sentence: string, chunkSize: nat, step: nat)
    requires 0 < step && 0 < chunkSize
    requires Good(st, chunkSize)
    ensures Good(SentenceStep(st, sentence, chunkSize, step), chunkSize)
  {
    FlushGood(st, chunkSize);
    if st.size + |sentence| > chunkSize && |sentence| > chunkSize {
      WindowsBounded(sentence, 0, chunkSize, step);
      EmitAllBounded(Flush(st), Windows(sentence, 0, chunkSize, step), chunkSize);
    }
  }

  lemma {:induction false} SentencesGood(st: TextState, sentences: seq<string>, chunkSize: nat, step: nat)
    requires 0 < step && 0 < chunkSize
    requires Good(st, chunkSize)
    ensures Good(Sentences(st, sentences, chunkSize, step), chunkSize)
    decreases |sentences|
  {
    if sentences != [] {
      var prefix := sentences[..|sentences| - 1];
      SentencesGood(st, prefix, chunkSize, step);
      SentenceStepGood(Sentences(st, prefix, chunkSize, step), sentences[|sentences| - 1], chunkSize, step);
    }
  }

  lemma {:induction false} ParagraphStepGood(lib: Lib, st: TextState, paragraph: string, chunkSize: nat, step: nat)
    requires 0 < step && 0 < chunkSize
    requires Good(st, chunkSize)
    ensures Good(ParagraphStep(lib, st, paragraph, chunkSize, step), chunkSize)
  {
    FlushGood(st, chunkSize);
    var para := Strip(paragraph);
    if |para| > 0 && st.size + |para| > chunkSize && |para| > chunkSize {
      SentencesGood(TextState(Flush(st), "", 0), lib.splitSentences(para), chunkSize, step);
    }
  }

  lemma {:induction false} ParagraphsGood(lib: Lib, st: TextState, paragraphs: seq<string>, chunkSize: nat, step: nat)
    requires 0 < step && 0 < chunkSize
    requires Good(st, chunkSize)
    ensures Good(Paragraphs(lib, st, paragraphs, chunkSize, step), chunkSize)
    decreases |paragraphs|
  {
    if paragraphs != [] {
      var prefix := paragraphs[..|paragraphs| - 1];
      ParagraphsGood(lib, st, prefix, chunkSize, step);
      ParagraphStepGood(lib, Paragraphs(lib, st, prefix, chunkSize, step), paragraphs[|paragraphs| - 1], chunkSize, step);
    }
  }

  // ---------------------------------------------------------------------------
  // Properties of TextChunker.chunk

  /** Every record is a text record whose `chunk_index` is its position; none is empty and
      none is more than two characters (the separator slack) over `chunk_size`. */
  lemma {:induction false} TextChunksWellFormed(lib: Lib, content: string, chunkSize: int, chunkOverlap: int)
    requires 0 <= chunkOverlap < chunkSize
    ensures Positioned(TextChunks(lib, content, chunkSize, chunkOverlap))
    ensures forall k :: 0 <= k < |TextChunks(lib, content, chunkSize, chunkOverlap)| ==>
              ChunkType(TextChunks(lib, content, chunkSize, chunkOverlap)[k]) == Values.Str("text")
    ensures forall k :: 0 <= k < |TextChunks(lib, content, chunkSize, chunkOverlap)| ==>
              0 < |TextChunks(lib, content, chunkSize, chunkOverlap)[k].content| <= chunkSize + 2
  {
    var step := chunkSize - chunkOverlap;
    var st := Paragraphs(lib, Start, lib.splitParagraphs(content), chunkSize, step);
    ParagraphsGood(lib, Start, lib.splitParagraphs(content), chunkSize, step);
    FlushGood(st, chunkSize);
    PlainRecordsPositioned(Flush(st), "text");
  }

  lemma {:induction false} BlankParagraphsSkipped(lib: Lib, st: TextState, paragraphs: seq<string>, chunkSize: nat, step: nat)
    requires step > 0
    requires forall i :: 0 <= i < |paragraphs| ==> |Strip(paragraphs[i])| == 0
    ensures Paragraphs(lib, st, paragraphs, chunkSize, step) == st
    decreases |paragraphs|
  {
    if paragraphs != [] {
      BlankParagraphsSkipped(lib, st, paragraphs[..|paragraphs| - 1], chunkSize, step);
    }
  }

  /** Paragraphs that are empty after `strip` are skipped, so text made of blank paragraphs
      only gives no chunk at all. */
  lemma {:induction false} BlankTextGivesNothing(lib: Lib, content: string, chunkSize: int, chunkOverlap: int)
    requires 0 <= chunkOverlap < chunkSize
    requires forall i :: 0 <= i < |lib.splitParagraphs(content)| ==> |Strip(lib.splitParagraphs(content)[i])| == 0
    ensures TextChunks(lib, content, chunkSize, chunkOverlap) == []
  {
    var step := chunkSize - chunkOverlap;
    BlankParagraphsSkipped(lib, Start, lib.splitParagraphs(content), chunkSize, step);
    assert Paragraphs(lib, Start, lib.splitParagraphs(content), chunkSize, step) == Start;
  }

  /** Text that splits into one paragraph is that paragraph's fold, flushed. */
  lemma {:induction false} OneParagraphText(lib: Lib, content: string, paragraph: string, chunkSize: int, chunkOverlap: int)
    requires 0 <= chunkOverlap < chunkSize
    requires lib.splitParagraphs(content) == [paragraph]
    ensures TextChunks(lib, content, chunkSize, chunkOverlap) == Flush(Paragraphs(lib, Start, [paragraph], chunkSize, chunkSize - chunkOverlap))
  {
  }

  /** A first paragraph that fits starts the chunk being built. */
  lemma {:induction false} FirstParagraphFits(lib: Lib, paragraph: string, chunkSize: nat, step: nat)
    requires step > 0
    requires |Strip(paragraph)| > 0 && |Strip(paragraph)| <= chunkSize
    ensures Paragraphs(lib, Start, [paragraph], chunkSize, step) == TextState([], Strip(paragraph), |Strip(paragraph)| + 2)
  {
    OneParagraph(lib, Start, paragraph, chunkSize, step);
  }

  /** A single paragraph that fits is returned as a single record holding its stripped text. */
  lemma {:induction false} SmallTextIsOneChunk(lib: Lib, content: string, paragraph: string, chunkSize: int, chunkOverlap: int)
    requires 0 <= chunkOverlap < chunkSize
    requires lib.splitParagraphs(content) == [paragraph]
    requires 0 < |Strip(paragraph)| <= chunkSize
    ensures TextChunks(lib, content, chunkSize, chunkOverlap) == [Record(Strip(paragraph), "text", 0)]
  {
    OneParagraphText(lib, content, paragraph, chunkSize, chunkOverlap);
    FirstParagraphFits(lib, paragraph, chunkSize, chunkSize - chunkOverlap);
  }

  /** An oversized first paragraph goes straight to the sentence loop. */
  lemma {:induction false} FirstParagraphOversized(lib: Lib, paragraph: string, chunkSize: nat, step: nat)
    requires step > 0
    requires |Strip(paragraph)| > chunkSize
    ensures ParagraphStep(lib, Start, paragraph, chunkSize, step)
         == Sentences(TextState([], "", 0), lib.splitSentences(Strip(paragraph)), chunkSize, step)
  {
  }

  /** An oversized first sentence is cut into windows. */
  lemma {:induction false} FirstSentenceOversized(sentence: string, chunkSize: nat, step: nat)
    requires step > 0
    requires |sentence| > chunkSize
    ensures Sentences(TextState([], "", 0), [sentence], chunkSize, step) == TextState(EmitAll([], Windows(sentence, 0, chunkSize, step)), "", 0)
  {
    OneSentence(TextState([], "", 0), sentence, chunkSize, step);
  }

  /** A text that is one paragraph holding one oversized sentence is emitted as the
      windows of that sentence. */
  lemma {:induction false} OversizedSentenceIsWindows(lib: Lib, content: string, paragraph: string, sentence: string,
                                                      chunkSize: int, chunkOverlap: int)
    requires 0 <= chunkOverlap < chunkSize
    requires lib.splitParagraphs(content) == [paragraph] && Strip(paragraph) == sentence
    requires lib.splitSentences(sentence) == [sentence]
    requires |sentence| > chunkSize
    ensures TextChunks(lib, content, chunkSize, chunkOverlap) == EmitAll([], Windows(sentence, 0, chunkSize, chunkSize - chunkOverlap))
  {
    var step := chunkSize - chunkOverlap;
    var windows := EmitAll([], Windows(sentence, 0, chunkSize, step));
    calc {
      TextChunks(lib, content, chunkSize, chunkOverlap);
    == { OneParagraphText(lib, content, paragraph, chunkSize, chunkOverlap); }
      Flush(Paragraphs(lib, Start, [paragraph], chunkSize, step));
    == { OneParagraph(lib, Start, paragraph, chunkSize, step); }
      Flush(ParagraphStep(lib, Start, paragraph, chunkSize, step));
    == { FirstParagraphOversized(lib, paragraph, chunkSize, step); }
      Flush(Sentences(TextState([], "", 0), [sentence], chunkSize, step));
    == { FirstSentenceOversized(sentence, chunkSize, step); }
      Flush(TextState(windows, "", 0));
    }
  }

  /** The windows of one sentence, emitted from an empty list: exactly ceil(L / step) of
      them; window `k` is `sentence[k * step : k * step + width]` and holds position `k`;
      together they cover every character of the sentence. */
  lemma {:induction false} WindowRecords(sentence: string, width: nat, step: nat)
    requires 0 < step <= width
    ensures var r := EmitAll([], Windows(sentence, 0, width, step));
            && |r| == (|sentence| + step - 1) / step
            && (forall k :: 0 <= k < |r| ==>
                  k * step < |sentence| &&
                  r[k] == Record(sentence[k * step..Min(k * step + width, |sentence|)], "text", k))
            && (forall j :: 0 <= j < |sentence| ==>
                  (exists k :: 0 <= k < |r| && k * step <= j < k * step + |r[k].content| &&
                               r[k].content[j - k * step] == sentence[j]))
  {
    var r := EmitAll([], Windows(sentence, 0, width, step));
    EmitAllShape([], Windows(sentence, 0, width, step));
    WindowCount(sentence, width, step);
    forall k | 0 <= k < |r|
      ensures k * step < |sentence| && r[k] == Record(sentence[k * step..Min(k * step + width, |sentence|)], "text", k)
    {
      WindowRecordAt(sentence, width, step, k);
    }
    forall j | 0 <= j < |sentence|
      ensures exists k :: 0 <= k < |r| && k * step <= j < k * step + |r[k].content| && r[k].content[j - k * step] == sentence[j]
    {
      WindowRecordCovers(sentence, width, step, j);
    }
  }

  lemma WindowRecordAt(sentence: string, width: nat, step: nat, k: nat)
    requires 0 < step && k < |Windows(sentence, 0, width, step)|
    ensures var r := EmitAll([], Windows(sentence, 0, width, step));
            |r| == |Windows(sentence, 0, width, step)| &&
            k * step < |sentence| && r[k] == Record(sentence[k * step..Min(k * step + width, |sentence|)], "text", k)
  {
    var w := Windows(sentence, 0, width, step);
    EmitAllShape([], w);
    WindowAt(sentence, 0, width, step, k);
    assert EmitAll([], w)[0 + k] == Record(w[k], "text", k);
  }

  lemma WindowRecordCovers(sentence: string, width: nat, step: nat, j: nat)
    requires 0 < step <= width && j < |sentence|
    ensures var r := EmitAll([], Windows(sentence, 0, width, step));
            exists k :: 0 <= k < |r| && k * step <= j < k * step + |r[k].content| && r[k].content[j - k * step] == sentence[j]
  {
    var w := Windows(sentence, 0, width, step);
    var r := EmitAll([], w);
    EmitAllShape([], w);
    WindowsCover(sentence, 0, width, step, j);
    var k :| 0 <= k < |w| && 0 + k * step <= j < 0 + k * step + |w[k]| && w[k][j - 0 - k * step] == sentence[j];
    assert r[0 + k] == Record(w[k], "text", k);
  }

  /** A 2500-character sentence with chunk size 1000 and overlap 200 gives four windows, at
      offsets 0, 800, 1600 and 2400. */
  lemma {:induction false} OversizedSentenceExample(lib: Lib, content: string, paragraph: string, sentence: string)
    requires lib.splitParagraphs(content) == [paragraph] && Strip(paragraph) == sentence
    requires lib.splitSentences(sentence) == [sentence]
    requires |sentence| == 2500
    ensures var r := TextChunks(lib, content, 1000, 200);
            |r| == 4 && r[0].content == sentence[0..1000] && r[1].content == sentence[800..1800] &&
            r[2].content == sentence[1600..2500] && r[3].content == sentence[2400..2500]
  {
    OversizedSentenceIsWindows(lib, content, paragraph, sentence, 1000, 200);
    WindowCount(sentence, 1000, 800);
    assert |Windows(sentence, 0, 1000, 800)| == 4;
    WindowRecordAt(sentence, 1000, 800, 0);
    WindowRecordAt(sentence, 1000, 800, 1);
    WindowRecordAt(sentence, 1000, 800, 2);
    WindowRecordAt(sentence, 1000, 800, 3);
  }

  /** A sentence too long for any chunk, met while a chunk is being built, flushes that chunk
      without clearing it: the chunk is emitted again later, after the sentence's windows. */
  lemma {:induction false} ChunkRepeatedAfterLongSentence(first: string, long: string, chunkSize: nat, step: nat)
    requires step > 0 && 0 < |first| <= chunkSize && |long| > chunkSize
    ensures var r := Flush(Sentences(TextState([], "", 0), [first, long], chunkSize, step));
            var n := |Windows(long, 0, chunkSize, step)|;
            |r| == n + 2 && r[0] == Record(first, "text", 0) && r[n + 1] == Record(first, "text", n + 1)
  {
    var st0 := TextState([], "", 0);
    var st1 := Sentences(st0, [first], chunkSize, step);
    OneSentence(st0, first, chunkSize, step);
    assert st1 == TextState([], first, |first| + 1);
    SentencesSnoc(st0, [first, long], 1, chunkSize, step);
    assert [first, long][..1] == [first] && [first, long][..2] == [first, long];
    var w := Windows(long, 0, chunkSize, step);
    var st2 := Sentences(st0, [first, long], chunkSize, step);
    assert st2 == SentenceStep(st1, long, chunkSize, step);
    assert Flush(st1) == [Record(first, "text", 0)];
    assert st2 == TextState(EmitAll([Record(first, "text", 0)], w), first, |first| + 1);
    EmitAllShape([Record(first, "text", 0)], w);
  }
}
