/** CodeChunker (chunkers.py:261-375): the language guess, then a line-by-line automaton that
    keeps import lines aside, groups a function or class body into one chunk, and cuts other
    code once the running size passes the chunk size. Every chunk's text is the imports seen
    so far followed by its own lines. */
module CodeChunker {
  import opened Wrappers
  import opened Strings
  import opened Values
  import opened Dicts
  import opened Records
  import opened Library

  // ---------------------------------------------------------------------------
  // Language detection (chunkers.py:261-279)

  /** The signature table, in the dict's insertion order. */
  const LanguageSignatures: seq<(string, string)> := [
    (@"import\s+[\w\.]+|from\s+[\w\.]+\s+import", "python"),
    (@"function\s+[\w]+\s*\(|const\s+[\w]+\s*=|let\s+[\w]+\s*=|var\s+[\w]+\s*=", "javascript"),
    (@"public\s+class|private\s+class|protected\s+class", "java"),
    (@"#include\s*<|#include\s*""", "c/c++"),
    (@"package\s+[\w\.]+;", "java"),
    (@"using\s+[\w\.]+;", "c#"),
    (@"<!DOCTYPE\s+html|<html", "html"),
    (@"<\?php", "php")
  ]

  function Patterns(table: seq<(string, string)>): (r: seq<string>)
    ensures |r| == |table| && forall i :: 0 <= i < |table| ==> r[i] == table[i].0
  {
    seq(|table|, i requires 0 <= i < |table| => table[i].0)
  }

  /** The first-match lookup over a signature table whose languages are not "unknown". */
  function DetectIn(lib: Lib, table: seq<(string, string)>, content: string): (r: string)
    requires forall i :: 0 <= i < |table| ==> table[i].1 != "unknown"
    ensures r == "unknown" <==> forall i :: 0 <= i < |table| ==> !lib.search(table[i].0, content)
    ensures r != "unknown" ==>
              exists i :: 0 <= i < |table| && lib.search(table[i].0, content) &&
                r == table[i].1 &&
                (forall j :: 0 <= j < i ==> !lib.search(table[j].0, content))
  {
    match FirstMatch(lib, Patterns(table), content, 0)
    case None => "unknown"
    case Some(i) => table[i].1
  }

  /** `_detect_language`: the language of the first signature the content matches, or
      "unknown" when none does. */
  function DetectLanguage(lib: Lib, content: string): (r: string)
    ensures r == "unknown" <==> forall i :: 0 <= i < |LanguageSignatures| ==> !lib.search(LanguageSignatures[i].0, content)
    ensures r != "unknown" ==>
              exists i :: 0 <= i < |LanguageSignatures| && lib.search(LanguageSignatures[i].0, content) &&
                r == LanguageSignatures[i].1 &&
                (forall j :: 0 <= j < i ==> !lib.search(LanguageSignatures[j].0, content))
  {
    DetectIn(lib, LanguageSignatures, content)
  }

  /** A file that matches the Python signature is Python, whatever else it matches. */
  lemma PythonFirst(lib: Lib, content: string)
    requires lib.search(LanguageSignatures[0].0, content)
    ensures DetectLanguage(lib, content) == "python"
  {
    assert LanguageSignatures[0].1 == "python";
  }

  // ---------------------------------------------------------------------------
  // Line classes (chunkers.py:300, 305-306): each regex is used with `re.match`, so it is
  // anchored at the start of the line; `\s*` then takes all the leading whitespace.

  /** `s` starts with `keyword` followed by a whitespace character. */
  predicate KeywordThenSpace(s: string, keyword: string) {
    StartsWith(s, keyword) && |s| > |keyword| && IsSpace(s[|keyword|])
  }

  /** `re.match(r'\s*(import|from|#include|using)\s+', line)`. */
  predicate IsImportLine(line: string) {
    var rest := LStrip(line);
    KeywordThenSpace(rest, "import") || KeywordThenSpace(rest, "from") ||
    KeywordThenSpace(rest, "#include") || KeywordThenSpace(rest, "using")
  }

  /** `keyword\s+[\w]+\s*\(` at the start of `s`. */
  predicate CallShape(s: string, keyword: string) {
    KeywordThenSpace(s, keyword) &&
    var name := LStrip(s[|keyword|..]);
    |name| > 0 && IsWordChar(name[0]) &&
    var after := LStrip(DropWord(name));
    |after| > 0 && after[0] == '('
  }

  /** `re.match(r'\s*(def|function|public|private|protected)\s+[\w]+\s*\(', line)`. */
  predicate StartsFunction(line: string) {
    var rest := LStrip(line);
    CallShape(rest, "def") || CallShape(rest, "function") || CallShape(rest, "public") ||
    CallShape(rest, "private") || CallShape(rest, "protected")
  }

  /** `re.match(r'\s*(class)\s+[\w]+', line)`. */
  predicate StartsClass(line: string) {
    var rest := LStrip(line);
    KeywordThenSpace(rest, "class") &&
    var name := LStrip(rest[5..]);
    |name| > 0 && IsWordChar(name[0])
  }

  /** `line.count('{') - line.count('}')`. */
  function NetBraces(line: string): int {
    Count(line, '{') - Count(line, '}')
  }

  /** A line of the input with the three tests the loop makes of it. */
  datatype Line = Line(text: string, isImport: bool, startsFunction: bool, startsClass: bool)

  function Classify(text: string): (r: Line)
    ensures r.text == text
  {
    Line(text, IsImportLine(text), StartsFunction(text), StartsClass(text))
  }

  /** `content.split('\n')`, each line classified. */
  function Classified(texts: seq<string>): (r: seq<Line>)
    ensures |r| == |texts| && forall i :: 0 <= i < |texts| ==> r[i] == Classify(texts[i])
  {
    seq(|texts|, i requires 0 <= i < |texts| => Classify(texts[i]))
  }

  function Texts(lines: seq<Line>): (r: seq<string>)
    ensures |r| == |lines| && forall i :: 0 <= i < |lines| ==> r[i] == lines[i].text
  {
    seq(|lines|, i requires 0 <= i < |lines| => lines[i].text)
  }

  // ---------------------------------------------------------------------------
  // The line automaton (chunkers.py:288-373)

  /** Why a chunk was emitted: `current_size` passed the chunk size outside a block
      (chunkers.py:353-360), a function or class closed or reached the last line
      (chunkers.py:322-334), or the input ended (chunkers.py:362-373). */
  datatype Cut = SizeCut | BlockClose | EndOfInput

  /** One emitted chunk before rendering: the imports seen when it was emitted, its own lines,
      how many input lines had been read by then, and why it was emitted. */
  datatype Part = Part(imports: seq<Line>, body: seq<Line>, seen: nat, cut: Cut)

  /** `imports`, `current_chunk`, `current_size`, `in_function`, `in_class` and
      `function_depth`, with the chunks emitted so far. */
  datatype CodeState = CodeState(parts: seq<Part>, imports: seq<Line>, current: seq<Line>, size: int,
                                 inFunction: bool, inClass: bool, depth: int)

  const Initial := CodeState([], [], [], 0, false, false, 0)

  /** Emits the chunk being built, after `seen` lines were read, and starts an empty one. */
  function EmitPart(st: CodeState, seen: nat, cut: Cut): CodeState {
    st.(parts := st.parts + [Part(st.imports, st.current, seen, cut)], current := [], size := 0)
  }

  /** The block bookkeeping for a non-import line (chunkers.py:304-330): flags and depth are
      updated first, and a block that closes (or reaches the last line) is flushed before the
      line itself is added. */
  function BlockStep(st: CodeState, line: Line, isLast: bool, seen: nat): CodeState {
    var inFunction := line.startsFunction || st.inFunction;
    var inClass := (!line.startsFunction && line.startsClass) || st.inClass;
    var depth := st.depth + (if line.startsFunction || line.startsClass then 1 else 0) + NetBraces(line.text);
    if (inFunction || inClass) && (depth <= 0 || isLast) then
      var closed := st.(inFunction := false, inClass := false, depth := 0);
      if |closed.current| > 0 then EmitPart(closed, seen, BlockClose) else closed
    else st.(inFunction := inFunction, inClass := inClass, depth := depth)
  }

  /** One iteration of the line loop, for line `i`. */
  function CodeStep(st: CodeState, lines: seq<Line>, i: nat, chunkSize: int): CodeState
    requires i < |lines|
  {
    var line := lines[i];
    if line.isImport then st.(imports := st.imports + [line])
    else
      var st1 := BlockStep(st, line, i == |lines| - 1, i + 1);
      var st2 := st1.(current := st1.current + [line], size := st1.size + |line.text| + 1);
      if st2.size > chunkSize && !(st2.inFunction || st2.inClass) then EmitPart(st2, i + 1, SizeCut) else st2
  }

  /** The state after the first `n` lines. */
  function CodeFold(lines: seq<Line>, n: nat, chunkSize: int): CodeState
    requires n <= |lines|
  {
    if n == 0 then Initial else CodeStep(CodeFold(lines, n - 1, chunkSize), lines, n - 1, chunkSize)
  }

  /** All chunks, the last one included (chunkers.py:362-373). */
  function CodeParts(lines: seq<Line>, chunkSize: int): seq<Part> {
    var st := CodeFold(lines, |lines|, chunkSize);
    if |st.current| > 0 then EmitPart(st, |lines|, EndOfInput).parts else st.parts
  }

  function CodeMetadata(language: string, index: int): Dict<Value> {
    [("chunk_type", Validate(Str("code"))), ("language", Validate(Str(language))), ("chunk_index", Int(index))]
  }

  /** `'\n'.join(imports + current_chunk)`. */
  function PartText(p: Part): string {
    Join("\n", Texts(p.imports + p.body))
  }

  function Render(parts: seq<Part>, language: string): seq<Chunk> {
    seq(|parts|, k requires 0 <= k < |parts| => Chunk(PartText(parts[k]), CodeMetadata(language, k)))
  }

  /** What `CodeChunker().chunk(content, chunk_size, chunk_overlap)` returns. */
  function CodeChunks(lib: Lib, content: string, chunkSize: int): seq<Chunk> {
    Render(CodeParts(Classified(SplitLines(content)), chunkSize), DetectLanguage(lib, content))
  }

  /** Appends the record for the chunk being built (the three `chunks.append` sites). */
  method EmitChunk(chunks: seq<Chunk>, language: string, imports: seq<string>, current: seq<string>,
                   ghost parts: seq<Part>, ghost st: CodeState, ghost seen: nat, ghost cut: Cut)
    returns (chunks': seq<Chunk>, ghost parts': seq<Part>)
    requires chunks == Render(parts, language) && st.parts == parts
    requires imports == Texts(st.imports) && current == Texts(st.current)
    ensures parts' == EmitPart(st, seen, cut).parts && chunks' == Render(parts', language)
  {
    chunks' := chunks + [Chunk(Join("\n", imports + current), CodeMetadata(language, |chunks|))];
    parts' := parts + [Part(st.imports, st.current, seen, cut)];
    assert Texts(st.imports + st.current) == imports + current;
    RenderSnoc(parts, Part(st.imports, st.current, seen, cut), language);
  }

  lemma RenderSnoc(parts: seq<Part>, p: Part, language: string)
    ensures Render(parts + [p], language) == Render(parts, language) + [Chunk(PartText(p), CodeMetadata(language, |parts|))]
  {
    var r := Render(parts + [p], language);
    assert forall k :: 0 <= k < |parts| ==> (parts + [p])[k] == parts[k];
  }

  /** The loop's state, as the method's variables hold it. */
  ghost predicate Holds(st: CodeState, language: string, chunks: seq<Chunk>, imports: seq<string>, current: seq<string>,
                        currentSize: int, inFunction: bool, inClass: bool, functionDepth: int)
  {
    chunks == Render(st.parts, language) && imports == Texts(st.imports) && current == Texts(st.current) &&
    currentSize == st.size && inFunction == st.inFunction && inClass == st.inClass && functionDepth == st.depth
  }

  /** The body of the line loop for a non-import line (chunkers.py:304-360). */
  method CodeLine(language: string, line: Line, isLast: bool, seen: nat, chunkSize: int, ghost st: CodeState,
                  chunks: seq<Chunk>, imports: seq<string>, current: seq<string>, currentSize: int,
                  inFunction: bool, inClass: bool, functionDepth: int)
    returns (chunks': seq<Chunk>, current': seq<string>, currentSize': int,
             inFunction': bool, inClass': bool, functionDepth': int, ghost st': CodeState)
    requires Holds(st, language, chunks, imports, current, currentSize, inFunction, inClass, functionDepth)
    ensures Holds(st', language, chunks', imports, current', currentSize', inFunction', inClass', functionDepth')
    ensures var st1 := BlockStep(st, line, isLast, seen);
            var st2 := st1.(current := st1.current + [line], size := st1.size + |line.text| + 1);
            st' == if st2.size > chunkSize && !(st2.inFunction || st2.inClass) then EmitPart(st2, seen, SizeCut) else st2
  {
    chunks', current', currentSize', inFunction', inClass', functionDepth' := chunks, current, currentSize, inFunction, inClass, functionDepth;
    var opens := Count(line.text, '{') - Count(line.text, '}');
    if line.startsFunction {
      inFunction' := true;
      functionDepth' := functionDepth' + 1;
    } else if line.startsClass {
      inClass' := true;
      functionDepth' := functionDepth' + 1;
    }
    functionDepth' := functionDepth' + opens;
    st' := BlockStep(st, line, isLast, seen);
    if inFunction' || inClass' {
      if functionDepth' <= 0 || isLast {
        inFunction' := false;
        inClass' := false;
        functionDepth' := 0;
        if |current'| > 0 {
          ghost var parts;
          chunks', parts := EmitChunk(chunks', language, imports, current', st.parts, st, seen, BlockClose);
          current' := [];
          currentSize' := 0;
        }
      }
    }
    current' := current' + [line.text];
    currentSize' := currentSize' + |line.text| + 1;
    st' := st'.(current := st'.current + [line], size := st'.size + |line.text| + 1);
    if currentSize' > chunkSize && !(inFunction' || inClass') {
      ghost var parts;
      chunks', parts := EmitChunk(chunks', language, imports, current', st'.parts, st', seen, SizeCut);
      current' := [];
      currentSize' := 0;
      st' := EmitPart(st', seen, SizeCut);
    }
  }

  /** The line loop, over the lines with their tests made (chunkers.py:298-373). */
  method ChunkLines(language: string, lines: seq<Line>, chunkSize: int) returns (chunks: seq<Chunk>)
    ensures chunks == Render(CodeParts(lines, chunkSize), language)
  {
    chunks := [];
    var current: seq<string> := [];
    var currentSize := 0;
    var inFunction := false;
    var inClass := false;
    var functionDepth := 0;
    var imports: seq<string> := [];
    ghost var st := Initial;
    for i := 0 to |lines|
      invariant st == CodeFold(lines, i, chunkSize)
      invariant Holds(st, language, chunks, imports, current, currentSize, inFunction, inClass, functionDepth)
    {
      var line := lines[i];
      if line.isImport {
        imports := imports + [line.text];
        st := st.(imports := st.imports + [line]);
      } else {
        chunks, current, currentSize, inFunction, inClass, functionDepth, st :=
          CodeLine(language, line, i == |lines| - 1, i + 1, chunkSize, st,
                   chunks, imports, current, currentSize, inFunction, inClass, functionDepth);
      }
    }
    if |current| > 0 {
      ghost var parts;
      chunks, parts := EmitChunk(chunks, language, imports, current, st.parts, st, |lines|, EndOfInput);
      st := EmitPart(st, |lines|, EndOfInput);
    }
  }

  method CodeChunk(lib: Lib, content: string, chunkSize: int) returns (chunks: seq<Chunk>)
    ensures chunks == CodeChunks(lib, content, chunkSize)
  {
    var language := DetectLanguage(lib, content);
    var lines := Classified(SplitLines(content));
    chunks := ChunkLines(language, lines, chunkSize);
  }

  // ---------------------------------------------------------------------------
  // Properties

  /** The import lines, in order: the reference for what `imports` holds. */
  function ImportLines(lines: seq<Line>): seq<Line> {
    if lines == [] then []
    else ImportLines(lines[..|lines| - 1]) + (if lines[|lines| - 1].isImport then [lines[|lines| - 1]] else [])
  }

  /** The other lines, in order: the reference for what the chunk bodies hold together. */
  function CodeLines(lines: seq<Line>): seq<Line> {
    if lines == [] then []
    else CodeLines(lines[..|lines| - 1]) + (if lines[|lines| - 1].isImport then [] else [lines[|lines| - 1]])
  }

  /** The chunk bodies one after the other. */
  function Bodies(parts: seq<Part>): seq<Line> {
    if parts == [] then [] else Bodies(parts[..|parts| - 1]) + parts[|parts| - 1].body
  }

  predicate NoImports(body: seq<Line>) {
    forall j :: 0 <= j < |body| ==> !body[j].isImport
  }

  /** `current_size` for a chunk body: each line counts its length plus one. */
  function LineSize(body: seq<Line>): int {
    if body == [] then 0 else LineSize(body[..|body| - 1]) + |body[|body| - 1].text| + 1
  }

  /** How many lines had been read when chunk `k` was emitted, pinned by why it was emitted:
      after a size cut, the last line read is the last line of its body; after a block close,
      it is the closing line, which is not in the body but opens the next chunk; at the end of
      the input, it is the last line, and the chunk is the last one. A size cut also happens
      only once the body's size passed the chunk size. */
  ghost predicate Pinned(lines: seq<Line>, parts: seq<Part>, k: nat, chunkSize: int)
    requires k < |parts| && parts[k].seen <= |lines|
  {
    var p := parts[k];
    match p.cut
    case SizeCut =>
      0 < p.seen && !lines[p.seen - 1].isImport && CodeLines(lines[..p.seen]) == Bodies(parts[..k + 1]) &&
      LineSize(p.body) > chunkSize
    case BlockClose =>
      0 < p.seen && !lines[p.seen - 1].isImport && CodeLines(lines[..p.seen]) == Bodies(parts[..k + 1]) + [lines[p.seen - 1]]
    case EndOfInput =>
      p.seen == |lines| && k == |parts| - 1 && CodeLines(lines) == Bodies(parts)
  }

  /** Every emitted chunk has a non-empty body free of import lines, was emitted after at most
      `bound` lines, at the point `Pinned` states, and carries exactly the import lines read
      up to that point. */
  ghost predicate PartsOk(lines: seq<Line>, bound: nat, parts: seq<Part>, chunkSize: int)
    requires bound <= |lines|
  {
    forall k :: 0 <= k < |parts| ==>
      |parts[k].body| > 0 && NoImports(parts[k].body) &&
      parts[k].seen <= bound && parts[k].imports == ImportLines(lines[..parts[k].seen]) &&
      Pinned(lines, parts, k, chunkSize)
  }

  /** No chunk was emitted at the end of the input yet. */
  predicate Running(parts: seq<Part>) {
    forall k :: 0 <= k < |parts| ==> parts[k].cut != EndOfInput
  }

  /** What holds after the first `n` lines: `imports` is exactly the import lines read so far,
      the emitted bodies followed by the chunk being built are exactly the other lines, and
      `current_size` is the size of the chunk being built. */
  ghost predicate Inv(lines: seq<Line>, n: nat, st: CodeState, chunkSize: int)
    requires n <= |lines|
  {
    && st.imports == ImportLines(lines[..n])
    && Bodies(st.parts) + st.current == CodeLines(lines[..n])
    && NoImports(st.current)
    && st.size == LineSize(st.current)
    && Running(st.parts)
    && PartsOk(lines, n, st.parts, chunkSize)
  }

  lemma LinesSnoc(lines: seq<Line>, n: nat)
    requires n < |lines|
    ensures ImportLines(lines[..n + 1]) == ImportLines(lines[..n]) + (if lines[n].isImport then [lines[n]] else [])
    ensures CodeLines(lines[..n + 1]) == CodeLines(lines[..n]) + (if lines[n].isImport then [] else [lines[n]])
  {
    assert lines[..n + 1][..n] == lines[..n];
  }

  lemma BodiesSnoc(parts: seq<Part>, p: Part)
    ensures Bodies(parts + [p]) == Bodies(parts) + p.body
  {
    assert (parts + [p])[..|parts|] == parts;
  }

  lemma LineSizeSnoc(body: seq<Line>, l: Line)
    ensures LineSize(body + [l]) == LineSize(body) + |l.text| + 1
  {
    assert (body + [l])[..|body|] == body;
  }

  /** Appending a chunk leaves what `Pinned` says about the earlier, still running ones. */
  lemma PinnedSnoc(lines: seq<Line>, parts: seq<Part>, p: Part, k: nat, chunkSize: int)
    requires k < |parts| && parts[k].seen <= |lines| && parts[k].cut != EndOfInput
    requires Pinned(lines, parts, k, chunkSize)
    ensures Pinned(lines, parts + [p], k, chunkSize)
  {
    assert (parts + [p])[..k + 1] == parts[..k + 1];
    assert (parts + [p])[k] == parts[k];
  }

  /** The point where a chunk is emitted, for each reason it is emitted, is the one `Pinned`
      states of it. */
  lemma PinNew(lines: seq<Line>, st: CodeState, n: nat, cut: Cut, chunkSize: int)
    requires n <= |lines|
    requires cut == SizeCut ==>
               0 < n && !lines[n - 1].isImport && CodeLines(lines[..n]) == Bodies(st.parts) + st.current &&
               LineSize(st.current) > chunkSize
    requires cut == BlockClose ==>
               0 < n && !lines[n - 1].isImport && CodeLines(lines[..n]) == Bodies(st.parts) + st.current + [lines[n - 1]]
    requires cut == EndOfInput ==> n == |lines| && CodeLines(lines) == Bodies(st.parts) + st.current
    ensures Pinned(lines, EmitPart(st, n, cut).parts, |st.parts|, chunkSize)
  {
    var p := Part(st.imports, st.current, n, cut);
    var parts' := st.parts + [p];
    BodiesSnoc(st.parts, p);
    assert parts'[..|st.parts| + 1] == parts';
    assert parts'[|st.parts|] == p;
  }

  /** Emitting a non-empty, import-free chunk that carries the imports of the first `n` lines
      keeps the emitted chunks well formed and moves its lines from `current` to the bodies,
      provided the new chunk is pinned where it is emitted. */
  lemma EmitKeeps(lines: seq<Line>, n: nat, bound: nat, st: CodeState, cut: Cut, chunkSize: int)
    requires n <= bound <= |lines| && PartsOk(lines, bound, st.parts, chunkSize) && Running(st.parts)
    requires st.imports == ImportLines(lines[..n]) && |st.current| > 0 && NoImports(st.current)
    requires Pinned(lines, EmitPart(st, n, cut).parts, |st.parts|, chunkSize)
    ensures PartsOk(lines, bound, EmitPart(st, n, cut).parts, chunkSize)
    ensures cut != EndOfInput ==> Running(EmitPart(st, n, cut).parts)
    ensures Bodies(EmitPart(st, n, cut).parts) + EmitPart(st, n, cut).current == Bodies(st.parts) + st.current
  {
    var p := Part(st.imports, st.current, n, cut);
    var parts' := st.parts + [p];
    BodiesSnoc(st.parts, p);
    forall k | 0 <= k < |st.parts|
      ensures Pinned(lines, parts', k, chunkSize)
    {
      PinnedSnoc(lines, st.parts, p, k, chunkSize);
    }
    assert forall k :: 0 <= k < |st.parts| ==> parts'[k] == st.parts[k];
  }

  /** The block bookkeeping for a non-import line emits, at most, the chunk being built, and
      then the line read last is the closing line that follows it. */
  lemma BlockStepKeeps(lines: seq<Line>, n: nat, st: CodeState, chunkSize: int)
    requires n < |lines| && !lines[n].isImport
    requires st.imports == ImportLines(lines[..n + 1]) && NoImports(st.current) && st.size == LineSize(st.current)
    requires Running(st.parts) && PartsOk(lines, n + 1, st.parts, chunkSize)
    requires Bodies(st.parts) + st.current + [lines[n]] == CodeLines(lines[..n + 1])
    ensures var st1 := BlockStep(st, lines[n], n == |lines| - 1, n + 1);
            st1.imports == st.imports && NoImports(st1.current) && st1.size == LineSize(st1.current) &&
            Running(st1.parts) && PartsOk(lines, n + 1, st1.parts, chunkSize) &&
            Bodies(st1.parts) + st1.current == Bodies(st.parts) + st.current
  {
    var st1 := BlockStep(st, lines[n], n == |lines| - 1, n + 1);
    var closed := st.(inFunction := false, inClass := false, depth := 0);
    if st1.parts != st.parts {
      assert |closed.current| > 0 && st1 == EmitPart(closed, n + 1, BlockClose);
      assert lines[(n + 1) - 1] == lines[n];
      PinNew(lines, closed, n + 1, BlockClose, chunkSize);
      EmitKeeps(lines, n + 1, n + 1, closed, BlockClose, chunkSize);
    } else {
      assert st1.current == st.current && st1.size == st.size && st1.imports == st.imports;
    }
  }

  lemma PartsOkWiden(lines: seq<Line>, a: nat, b: nat, parts: seq<Part>, chunkSize: int)
    requires a <= b <= |lines| && PartsOk(lines, a, parts, chunkSize)
    ensures PartsOk(lines, b, parts, chunkSize)
  {
  }

  lemma StepKeeps(lines: seq<Line>, n: nat, st: CodeState, chunkSize: int)
    requires n < |lines| && Inv(lines, n, st, chunkSize)
    ensures Inv(lines, n + 1, CodeStep(st, lines, n, chunkSize), chunkSize)
  {
    LinesSnoc(lines, n);
    PartsOkWiden(lines, n, n + 1, st.parts, chunkSize);
    if !lines[n].isImport {
      LineStepKeeps(lines, n, st, chunkSize);
    }
  }

  /** A non-import line is added to the chunk being built, after the block bookkeeping and
      before the size cut. */
  lemma LineStepKeeps(lines: seq<Line>, n: nat, st: CodeState, chunkSize: int)
    requires n < |lines| && !lines[n].isImport
    requires st.imports == ImportLines(lines[..n + 1]) && NoImports(st.current) && st.size == LineSize(st.current)
    requires Running(st.parts) && PartsOk(lines, n + 1, st.parts, chunkSize)
    requires Bodies(st.parts) + st.current + [lines[n]] == CodeLines(lines[..n + 1])
    ensures Inv(lines, n + 1, CodeStep(st, lines, n, chunkSize), chunkSize)
  {
    BlockStepKeeps(lines, n, st, chunkSize);
    AddLineKeeps(lines, n, BlockStep(st, lines[n], n == |lines| - 1, n + 1), chunkSize);
  }

  /** Adding the line to the chunk being built keeps the invariant, and so does the size cut
      that then emits the chunk once its size passed the chunk size. */
  lemma AddLineKeeps(lines: seq<Line>, n: nat, st: CodeState, chunkSize: int)
    requires n < |lines| && !lines[n].isImport
    requires st.imports == ImportLines(lines[..n + 1]) && NoImports(st.current) && st.size == LineSize(st.current)
    requires Running(st.parts) && PartsOk(lines, n + 1, st.parts, chunkSize)
    requires Bodies(st.parts) + st.current + [lines[n]] == CodeLines(lines[..n + 1])
    ensures var st2 := st.(current := st.current + [lines[n]], size := st.size + |lines[n].text| + 1);
            Inv(lines, n + 1, st2, chunkSize) &&
            (st2.size > chunkSize ==> Inv(lines, n + 1, EmitPart(st2, n + 1, SizeCut), chunkSize))
  {
    var st2 := st.(current := st.current + [lines[n]], size := st.size + |lines[n].text| + 1);
    LineSizeSnoc(st.current, lines[n]);
    assert Bodies(st2.parts) + st2.current == Bodies(st.parts) + st.current + [lines[n]];
    if st2.size > chunkSize {
      SizeCutKeeps(lines, n, st2, chunkSize);
    }
  }

  /** The size cut right after line `n` was added keeps the invariant. */
  lemma SizeCutKeeps(lines: seq<Line>, n: nat, st: CodeState, chunkSize: int)
    requires n < |lines| && !lines[n].isImport && Inv(lines, n + 1, st, chunkSize)
    requires Bodies(st.parts) + st.current == CodeLines(lines[..n + 1])
    requires |st.current| > 0 && st.size > chunkSize
    ensures Inv(lines, n + 1, EmitPart(st, n + 1, SizeCut), chunkSize)
  {
    assert lines[(n + 1) - 1] == lines[n];
    PinNew(lines, st, n + 1, SizeCut, chunkSize);
    EmitKeeps(lines, n + 1, n + 1, st, SizeCut, chunkSize);
  }

  lemma {:induction false} FoldKeeps(lines: seq<Line>, n: nat, chunkSize: int)
    requires n <= |lines|
    ensures Inv(lines, n, CodeFold(lines, n, chunkSize), chunkSize)
  {
    if n == 0 {
      assert lines[..0] == [];
    } else {
      FoldKeeps(lines, n - 1, chunkSize);
      StepKeeps(lines, n - 1, CodeFold(lines, n - 1, chunkSize), chunkSize);
    }
  }

  /** The chunks partition the non-import lines: their bodies, in order, are exactly those
      lines, each once; no body is empty or holds an import line; and each chunk carries the
      import lines read up to the point where it was emitted, which `Pinned` fixes. */
  lemma CodePartsPartition(lines: seq<Line>, chunkSize: int)
    ensures Bodies(CodeParts(lines, chunkSize)) == CodeLines(lines)
    ensures PartsOk(lines, |lines|, CodeParts(lines, chunkSize), chunkSize)
  {
    FoldKeeps(lines, |lines|, chunkSize);
    var st := CodeFold(lines, |lines|, chunkSize);
    assert lines[..|lines|] == lines;
    if |st.current| > 0 {
      PinNew(lines, st, |lines|, EndOfInput, chunkSize);
      EmitKeeps(lines, |lines|, |lines|, st, EndOfInput, chunkSize);
    }
  }

  /** The non-import lines are lines of the input that are not imports. */
  lemma {:induction false} CodeLinesFrom(lines: seq<Line>)
    ensures forall l :: l in CodeLines(lines) ==> l in lines && !l.isImport
  {
    if lines != [] {
      CodeLinesFrom(lines[..|lines| - 1]);
    }
  }

  /** Each code chunk is `'\n'.join(imports seen so far + body)` for a non-empty body of
      non-import lines, where "so far" is the point `Pinned` fixes; the bodies together are the
      non-import lines in order, each once. */
  lemma CodeChunksContent(lib: Lib, content: string, chunkSize: int)
    ensures var lines := Classified(SplitLines(content));
            var parts := CodeParts(lines, chunkSize);
            var chunks := CodeChunks(lib, content, chunkSize);
            |chunks| == |parts| && Bodies(parts) == CodeLines(lines) &&
            forall k :: 0 <= k < |chunks| ==>
              |parts[k].body| > 0 && NoImports(parts[k].body) && parts[k].seen <= |lines| &&
              Pinned(lines, parts, k, chunkSize) &&
              chunks[k].content == Join("\n", Texts(ImportLines(lines[..parts[k].seen]) + parts[k].body))
  {
    var lines := Classified(SplitLines(content));
    var parts := CodeParts(lines, chunkSize);
    CodePartsPartition(lines, chunkSize);
    PartsContent(lines, parts, DetectLanguage(lib, content), chunkSize);
  }

  lemma PartsContent(lines: seq<Line>, parts: seq<Part>, language: string, chunkSize: int)
    requires PartsOk(lines, |lines|, parts, chunkSize)
    ensures var chunks := Render(parts, language);
            |chunks| == |parts| &&
            forall k :: 0 <= k < |chunks| ==>
              |parts[k].body| > 0 && NoImports(parts[k].body) && parts[k].seen <= |lines| &&
              Pinned(lines, parts, k, chunkSize) &&
              chunks[k].content == Join("\n", Texts(ImportLines(lines[..parts[k].seen]) + parts[k].body))
  {
    var chunks := Render(parts, language);
    forall k | 0 <= k < |chunks|
      ensures chunks[k].content == Join("\n", Texts(ImportLines(lines[..parts[k].seen]) + parts[k].body))
    {
      assert chunks[k].content == PartText(parts[k]);
    }
  }

  /** No line that `re.match(r'\s*(import|from|#include|using)\s+', line)` accepts enters a
      chunk body, and every body line is a line of the input. */
  lemma ImportsNeverInBodies(lib: Lib, content: string, chunkSize: int)
    ensures var parts := CodeParts(Classified(SplitLines(content)), chunkSize);
            forall k, j :: 0 <= k < |parts| && 0 <= j < |parts[k].body| ==>
              parts[k].body[j].text in SplitLines(content) && !IsImportLine(parts[k].body[j].text)
  {
    var texts := SplitLines(content);
    var lines := Classified(texts);
    var parts := CodeParts(lines, chunkSize);
    CodePartsPartition(lines, chunkSize);
    CodeLinesFrom(lines);
    forall k, j | 0 <= k < |parts| && 0 <= j < |parts[k].body|
      ensures parts[k].body[j].text in texts && !IsImportLine(parts[k].body[j].text)
    {
      var l := parts[k].body[j];
      BodyInBodies(parts, k, j);
      ClassifiedFrom(texts, l);
    }
  }

  lemma ClassifiedFrom(texts: seq<string>, l: Line)
    requires l in Classified(texts)
    ensures l.text in texts && (l.isImport <==> IsImportLine(l.text))
  {
    var i :| 0 <= i < |texts| && Classified(texts)[i] == l;
  }

  lemma {:induction false} BodyInBodies(parts: seq<Part>, k: nat, j: nat)
    requires k < |parts| && j < |parts[k].body|
    ensures parts[k].body[j] in Bodies(parts)
  {
    if k < |parts| - 1 {
      BodyInBodies(parts[..|parts| - 1], k, j);
    }
  }

  /** `chunk_index` runs 0..n-1; every record is typed "code" and names the language. */
  lemma CodeChunksPositioned(lib: Lib, content: string, chunkSize: int)
    ensures var chunks := CodeChunks(lib, content, chunkSize);
            Positioned(chunks) &&
            forall k :: 0 <= k < |chunks| ==>
              ChunkType(chunks[k]) == Str("code") &&
              Lookup(chunks[k].metadata, "language") == Some(Str(DetectLanguage(lib, content)))
  {
    RenderPositioned(CodeParts(Classified(SplitLines(content)), chunkSize), DetectLanguage(lib, content));
  }

  lemma RenderPositioned(parts: seq<Part>, language: string)
    ensures var chunks := Render(parts, language);
            Positioned(chunks) &&
            forall k :: 0 <= k < |chunks| ==>
              ChunkType(chunks[k]) == Str("code") && Lookup(chunks[k].metadata, "language") == Some(Str(language))
  {
    var chunks := Render(parts, language);
    forall k | 0 <= k < |chunks|
      ensures Lookup(chunks[k].metadata, "chunk_index") == Some(Int(k))
      ensures ChunkType(chunks[k]) == Str("code") && Lookup(chunks[k].metadata, "language") == Some(Str(language))
    {
      var m := chunks[k].metadata;
      assert m == CodeMetadata(language, k);
      assert m[1..] == [("language", Str(language)), ("chunk_index", Int(k))];
      assert m[1..][1..] == [("chunk_index", Int(k))];
      assert Lookup(m[1..][1..], "chunk_index") == Some(Int(k));
      assert Lookup(m[1..], "chunk_index") == Some(Int(k));
    }
  }

  /** While a function or class is open and does not close on this line, the line joins the
      chunk being built and nothing is emitted, however large the chunk grows. */
  lemma OpenBlockNotSplit(lines: seq<Line>, i: nat, st: CodeState, chunkSize: int)
    requires i < |lines| - 1 && !lines[i].isImport
    requires st.inFunction || st.inClass || lines[i].startsFunction || lines[i].startsClass
    requires st.depth + (if lines[i].startsFunction || lines[i].startsClass then 1 else 0) + NetBraces(lines[i].text) > 0
    ensures CodeStep(st, lines, i, chunkSize).parts == st.parts
    ensures CodeStep(st, lines, i, chunkSize).current == st.current + [lines[i]]
    ensures CodeStep(st, lines, i, chunkSize).inFunction || CodeStep(st, lines, i, chunkSize).inClass
  {
  }

  /** When a block closes, the chunk is emitted before the closing line is added, so the
      closing line opens the next chunk. */
  lemma ClosingLineOpensNextChunk(lines: seq<Line>, i: nat, st: CodeState, chunkSize: int)
    requires i < |lines| && !lines[i].isImport && !lines[i].startsFunction && !lines[i].startsClass
    requires (st.inFunction || st.inClass) && st.depth + NetBraces(lines[i].text) <= 0
    requires |st.current| > 0 && |lines[i].text| + 1 <= chunkSize
    ensures CodeStep(st, lines, i, chunkSize).parts == st.parts + [Part(st.imports, st.current, i + 1, BlockClose)]
    ensures CodeStep(st, lines, i, chunkSize).current == [lines[i]]
    ensures !CodeStep(st, lines, i, chunkSize).inFunction && !CodeStep(st, lines, i, chunkSize).inClass
  {
  }

  /** An import read after a chunk was cut by size is not prefixed to that chunk: only the
      imports seen so far are. */
  lemma LaterImportNotPrefixed(lines: seq<Line>, chunkSize: int)
    requires |lines| == 2 && lines[1].isImport
    requires !lines[0].isImport && !lines[0].startsFunction && !lines[0].startsClass
    requires |lines[0].text| + 1 > chunkSize
    ensures CodeParts(lines, chunkSize) == [Part([], [lines[0]], 1, SizeCut)]
  {
    var st1 := CodeFold(lines, 1, chunkSize);
    assert CodeFold(lines, 0, chunkSize) == Initial;
    assert st1 == CodeStep(Initial, lines, 0, chunkSize);
    var b := BlockStep(Initial, lines[0], false, 1);
    assert b.parts == [] && b.current == [] && b.size == 0 && !b.inFunction && !b.inClass && b.imports == [];
    var st2 := b.(current := [lines[0]], size := |lines[0].text| + 1);
    assert b.current + [lines[0]] == [lines[0]];
    assert st1 == EmitPart(st2, 1, SizeCut);
    assert [] + [Part([], [lines[0]], 1, SizeCut)] == [Part([], [lines[0]], 1, SizeCut)];
    assert st1.parts == [Part([], [lines[0]], 1, SizeCut)] && st1.current == [];
    assert CodeFold(lines, 2, chunkSize) == CodeStep(st1, lines, 1, chunkSize);
  }

  /** A function header that also opens a brace counts twice (once as a header, once as a
      brace), so its matching closing brace leaves the depth at 1 and the function open. */
  lemma BracedFunctionStaysOpen(lines: seq<Line>, chunkSize: int)
    requires |lines| >= 3
    requires !lines[0].isImport && lines[0].startsFunction && NetBraces(lines[0].text) == 1
    requires !lines[1].isImport && !lines[1].startsFunction && !lines[1].startsClass && NetBraces(lines[1].text) == -1
    ensures var st := CodeFold(lines, 2, chunkSize);
            st.inFunction && st.depth == 1 && st.parts == [] && st.current == [lines[0], lines[1]]
  {
    var st0 := CodeFold(lines, 0, chunkSize);
    var st1 := CodeFold(lines, 1, chunkSize);
    assert st0 == Initial;
    assert st1 == CodeStep(st0, lines, 0, chunkSize);
    assert st1.inFunction && st1.depth == 2 && st1.parts == [] && st1.current == [lines[0]];
    assert CodeFold(lines, 2, chunkSize) == CodeStep(st1, lines, 1, chunkSize);
  }
}
