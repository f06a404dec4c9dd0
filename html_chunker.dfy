/** HTMLChunker.chunk (chunkers.py:145-245) over an already parsed page: the page metadata
    (title and coerced `<meta>` values), then one record per non-empty semantic section,
    oversized sections re-split by TextChunker, and a TextChunker fallback over the page text
    when the page has no semantic section at all. */
module HtmlChunker {
  import opened Wrappers
  import opened Strings
  import opened Values
  import opened Dicts
  import opened Records
  import opened Library
  import TextChunker

  /** The tags whose elements count as sections, in the order they are searched. */
  const SectionTags: seq<string> := ["div", "section", "article", "main", "header", "footer", "nav", "aside"]

  // ---------------------------------------------------------------------------
  // Meta-value coercion (chunkers.py:163-172)

  /** `content.replace('.', '', 1).isdigit() and content.count('.') == 1`. */
  predicate IsFloatText(content: string) {
    IsDigits(RemoveFirst(content, '.')) && Count(content, '.') == 1
  }

  /** The value stored for a `<meta>` tag's `content`: "true"/"false" in any case are booleans,
      an all-digit string is an integer, a number with one decimal point is a float, and
      anything else stays a string. The tests run in that order. */
  function CoerceMeta(content: string): (r: Value)
    ensures r == Bool(true) <==> Lower(content) == "true"
    ensures r == Bool(false) <==> Lower(content) == "false"
    ensures r.Int? <==> IsDigits(content)
    ensures r.Int? ==> IsDigits(content) && r.i == DecimalValue(content)
    ensures r.Float? <==> IsFloatText(content)
    ensures r.Float? ==> r.text == content
    ensures r.Str? ==> r.s == content
    ensures r.Bool? || r.Int? || r.Float? || r.Str?
  {
    LowerOfDigits(content);
    LowerKeepsDot(content);
    if Lower(content) == "true" then Bool(true)
    else if Lower(content) == "false" then Bool(false)
    else if IsDigits(content) then Int(DecimalValue(content))
    else if IsFloatText(content) then Float(content)
    else Validate(Str(content))
  }

  /** Digits are not changed by lower-casing, so a digit string is never "true" or "false",
      and it has no decimal point. */
  lemma LowerOfDigits(s: string)
    ensures IsDigits(s) ==> Lower(s) == s && Count(s, '.') == 0
  {
    if IsDigits(s) {
      assert forall i :: 0 <= i < |s| ==> s[i] != '.';
      assert '.' !in s;
    }
  }

  /** A string holding a decimal point lower-cases to one that holds it at the same place,
      so it is neither "true" nor "false". */
  lemma LowerKeepsDot(s: string)
    ensures Count(s, '.') > 0 ==> Lower(s) != "true" && Lower(s) != "false"
  {
    if Count(s, '.') > 0 {
      assert '.' in multiset(s);
      var i :| 0 <= i < |s| && s[i] == '.';
      assert Lower(s)[i] == '.';
    }
  }

  /** The float rule in plain terms: exactly one decimal point, at least one more character,
      and every other character a digit. */
  lemma {:induction false} FloatTextShape(s: string)
    ensures IsFloatText(s) <==>
              (Count(s, '.') == 1 && |s| >= 2 && forall i :: 0 <= i < |s| && s[i] != '.' ==> IsDigit(s[i]))
  {
    if Count(s, '.') == 1 {
      var r := RemoveFirst(s, '.');
      assert '.' in multiset(s);
      assert multiset(r) == multiset(s) - multiset{'.'};
      assert multiset(r)['.'] == 0;
      assert (forall j :: 0 <= j < |r| ==> IsDigit(r[j])) <==> (forall i :: 0 <= i < |s| && s[i] != '.' ==> IsDigit(s[i])) by {
        if forall j :: 0 <= j < |r| ==> IsDigit(r[j]) {
          forall i | 0 <= i < |s| && s[i] != '.'
            ensures IsDigit(s[i])
          {
            assert s[i] in multiset(s);
            assert s[i] in multiset(r);
            var j :| 0 <= j < |r| && r[j] == s[i];
          }
        }
        if forall i :: 0 <= i < |s| && s[i] != '.' ==> IsDigit(s[i]) {
          forall j | 0 <= j < |r|
            ensures IsDigit(r[j])
          {
            assert r[j] in multiset(r);
            assert r[j] != '.';
            assert r[j] in multiset(s);
            var i :| 0 <= i < |s| && s[i] == r[j];
          }
        }
      }
    }
  }

  /** A meta tag takes part only when both its name and its content are non-empty. */
  predicate Applies(meta: MetaTag) {
    |meta.name| > 0 && |meta.content| > 0
  }

  function ApplyMeta(d: Dict<Value>, meta: MetaTag): Dict<Value> {
    if Applies(meta) then Set(d, meta.name, CoerceMeta(meta.content)) else d
  }

  /** The `<meta>` loop (chunkers.py:158-172), tag by tag in document order. */
  function ApplyMetas(d: Dict<Value>, metas: seq<MetaTag>): Dict<Value>
    decreases |metas|
  {
    if metas == [] then d else ApplyMeta(ApplyMetas(d, metas[..|metas| - 1]), metas[|metas| - 1])
  }

  /** `soup.title.string if soup.title else ""`. */
  function TitleValue(title: TitleTag): Value {
    match title
    case NoTitle => Str("")
    case Title(None) => Null
    case Title(Some(s)) => Str(s)
  }

  /** The metadata every record of the page starts from (chunkers.py:150-172). */
  function BaseMetadata(page: Page): Dict<Value> {
    ApplyMetas([("chunk_type", Validate(Str("html"))), ("title", Validate(TitleValue(page.title)))], page.metas)
  }

  /** Meta tags that do not take part leave the metadata alone. */
  lemma {:induction false} IgnoredMetas(d: Dict<Value>, metas: seq<MetaTag>)
    requires forall i :: 0 <= i < |metas| ==> !Applies(metas[i])
    ensures ApplyMetas(d, metas) == d
    decreases |metas|
  {
    if metas != [] {
      IgnoredMetas(d, metas[..|metas| - 1]);
    }
  }

  /** A key no taking-part meta tag names keeps its value. */
  lemma {:induction false} MetaUntouched(d: Dict<Value>, metas: seq<MetaTag>, k: string)
    requires forall i :: 0 <= i < |metas| && Applies(metas[i]) ==> metas[i].name != k
    ensures Lookup(ApplyMetas(d, metas), k) == Lookup(d, k)
    decreases |metas|
  {
    if metas != [] {
      var n := |metas| - 1;
      MetaUntouched(d, metas[..n], k);
      if Applies(metas[n]) {
        SetReads(ApplyMetas(d, metas[..n]), metas[n].name, CoerceMeta(metas[n].content));
      }
    }
  }

  /** The last taking-part meta tag with a given name decides that key's value. */
  lemma {:induction false} MetaLastWins(d: Dict<Value>, metas: seq<MetaTag>, j: nat)
    requires j < |metas| && Applies(metas[j])
    requires forall i :: j < i < |metas| && Applies(metas[i]) ==> metas[i].name != metas[j].name
    ensures Lookup(ApplyMetas(d, metas), metas[j].name) == Some(CoerceMeta(metas[j].content))
    decreases |metas|
  {
    var n := |metas| - 1;
    var before := ApplyMetas(d, metas[..n]);
    if j == n {
      SetReads(before, metas[j].name, CoerceMeta(metas[j].content));
    } else {
      MetaLastWins(d, metas[..n], j);
      if Applies(metas[n]) {
        SetReads(before, metas[n].name, CoerceMeta(metas[n].content));
      }
    }
  }

  /** Unless a meta tag is named after them, the page metadata says `chunk_type: "html"` and
      carries the title. */
  lemma PageMetadata(page: Page)
    requires forall i :: 0 <= i < |page.metas| && Applies(page.metas[i]) ==>
               page.metas[i].name != "chunk_type" && page.metas[i].name != "title"
    ensures Lookup(BaseMetadata(page), "chunk_type") == Some(Str("html"))
    ensures Lookup(BaseMetadata(page), "title") == Some(TitleValue(page.title))
  {
    var d := [("chunk_type", Validate(Str("html"))), ("title", Validate(TitleValue(page.title)))];
    MetaUntouched(d, page.metas, "chunk_type");
    MetaUntouched(d, page.metas, "title");
  }

  // ---------------------------------------------------------------------------
  // Sections (chunkers.py:177-182)

  /** `for tag in tags: sections.extend(soup.find_all(tag))`. */
  function CollectSections(page: Page, tags: seq<string>): seq<Section>
    decreases |tags|
  {
    if tags == [] then [] else CollectSections(page, tags[..|tags| - 1]) + page.findAll(tags[|tags| - 1])
  }

  lemma CollectSnoc(page: Page, tags: seq<string>, n: nat)
    requires n < |tags|
    ensures CollectSections(page, tags[..n + 1]) == CollectSections(page, tags[..n]) + page.findAll(tags[n])
  {
    assert tags[..n + 1][..n] == tags[..n];
  }

  /** All divs come first, then all sections, and so on down the tag list. */
  lemma SectionsInTagOrder(page: Page)
    ensures CollectSections(page, SectionTags)
         == page.findAll("div") + page.findAll("section") + page.findAll("article") + page.findAll("main")
          + page.findAll("header") + page.findAll("footer") + page.findAll("nav") + page.findAll("aside")
  {
    var t := SectionTags;
    assert t[..0] == [];
    CollectSnoc(page, t, 0);
    CollectSnoc(page, t, 1);
    CollectSnoc(page, t, 2);
    CollectSnoc(page, t, 3);
    CollectSnoc(page, t, 4);
    CollectSnoc(page, t, 5);
    CollectSnoc(page, t, 6);
    CollectSnoc(page, t, 7);
    assert t[..8] == t;
  }

  /** `section.get('id', '')`, validated. */
  function SectionId(section: Section): Value {
    Validate(Str(section.id.GetOr("")))
  }

  /** `section.get('class', '')`, validated: the class names joined by single spaces. */
  function SectionClass(section: Section): Value {
    match section.classes
    case None => Validate(Str(""))
    case Some(names) => Validate(List(seq(|names|, k requires 0 <= k < |names| => Str(names[k]))))
  }

  /** The fields a section record adds to the page metadata, in the order they are set. */
  function SectionFields(section: Section, index: int): Dict<Value> {
    [("chunk_index", Int(index)), ("section_id", SectionId(section)), ("section_class", SectionClass(section))]
  }

  /** The fields a sub-chunk record adds to the page metadata, in the order they are set. */
  function SubFields(section: Section, sub: Chunk, index: int): Dict<Value> {
    SectionFields(section, index) + [("sub_chunk", Bool(true)), ("original_chunk_type", Validate(ChunkType(sub)))]
  }

  /** The fields a fallback record adds to the page metadata, in the order they are set. */
  function FallbackFields(text: Chunk, index: int): Dict<Value> {
    [("chunk_index", Int(index)), ("original_chunk_type", Validate(ChunkType(text)))]
  }

  /** The record of a section small enough to be kept whole. */
  function SectionRecord(base: Dict<Value>, section: Section, index: int): Chunk {
    Chunk(section.text, Update(base, SectionFields(section, index)))
  }

  /** The record made from one TextChunker record of an oversized section. */
  function SubRecord(base: Dict<Value>, section: Section, sub: Chunk, index: int): Chunk {
    Chunk(sub.content, Update(base, SubFields(section, sub, index)))
  }

  /** The sub-chunk loop (chunkers.py:208-225), generic in how a record is built from a
      TextChunker record and its index. The index is `len(chunks) + i` read from the list as it
      grows, so it advances by two per sub-chunk. */
  function AppendIndexed(chunks: seq<Chunk>, subs: seq<Chunk>, make: (Chunk, int) -> Chunk): seq<Chunk>
    decreases |subs|
  {
    if subs == [] then chunks
    else
      var before := AppendIndexed(chunks, subs[..|subs| - 1], make);
      before + [make(subs[|subs| - 1], |before| + (|subs| - 1))]
  }

  function AppendSubs(base: Dict<Value>, section: Section, chunks: seq<Chunk>, subs: seq<Chunk>): seq<Chunk> {
    AppendIndexed(chunks, subs, (sub, index) => SubRecord(base, section, sub, index))
  }

  /** One iteration of the section loop (chunkers.py:185-225). */
  function SectionStep(lib: Lib, base: Dict<Value>, chunks: seq<Chunk>, section: Section, chunkSize: int, chunkOverlap: int): seq<Chunk>
    requires 0 <= chunkOverlap < chunkSize
  {
    if |section.text| == 0 then chunks
    else if |section.text| <= chunkSize then chunks + [SectionRecord(base, section, |chunks|)]
    else AppendSubs(base, section, chunks, TextChunker.TextChunks(lib, section.text, chunkSize, chunkOverlap))
  }

  function SectionSteps(lib: Lib, base: Dict<Value>, chunks: seq<Chunk>, sections: seq<Section>, chunkSize: int, chunkOverlap: int): seq<Chunk>
    requires 0 <= chunkOverlap < chunkSize
    decreases |sections|
  {
    if sections == [] then chunks
    else SectionStep(lib, base, SectionSteps(lib, base, chunks, sections[..|sections| - 1], chunkSize, chunkOverlap),
                     sections[|sections| - 1], chunkSize, chunkOverlap)
  }

  /** The fallback (chunkers.py:226-243): the page text through TextChunker, each record
      re-tagged with the page metadata, its position and its original type. */
  function Fallback(base: Dict<Value>, texts: seq<Chunk>): seq<Chunk> {
    seq(|texts|, i requires 0 <= i < |texts| => Chunk(texts[i].content, Update(base, FallbackFields(texts[i], i))))
  }

  /** What `HTMLChunker().chunk(content, chunk_size, chunk_overlap)` returns. */
  function HtmlChunks(lib: Lib, content: string, chunkSize: int, chunkOverlap: int): seq<Chunk>
    requires 0 <= chunkOverlap < chunkSize
  {
    var page := lib.parseHtml(content);
    var base := BaseMetadata(page);
    var sections := CollectSections(page, SectionTags);
    if |sections| > 0 then SectionSteps(lib, base, [], sections, chunkSize, chunkOverlap)
    else Fallback(base, TextChunker.TextChunks(lib, page.text, chunkSize, chunkOverlap))
  }

  method HtmlChunk(lib: Lib, content: string, chunkSize: int, chunkOverlap: int) returns (chunks: seq<Chunk>)
    requires 0 <= chunkOverlap < chunkSize
    ensures chunks == HtmlChunks(lib, content, chunkSize, chunkOverlap)
  {
    var page := lib.parseHtml(content);
    var metadata := PageMetadataOf(page);
    var sections := FindSections(page);
    if |sections| > 0 {
      chunks := ChunkSections(lib, metadata, sections, chunkSize, chunkOverlap);
    } else {
      var textChunks := TextChunker.TextChunk(lib, page.text, chunkSize, chunkOverlap);
      chunks := ChunkFallback(metadata, textChunks);
    }
  }

  /** The title and `<meta>` part (chunkers.py:150-172). */
  method PageMetadataOf(page: Page) returns (metadata: Dict<Value>)
    ensures metadata == BaseMetadata(page)
  {
    metadata := [("chunk_type", Validate(Str("html"))), ("title", Validate(TitleValue(page.title)))];
    ghost var start := metadata;
    for i := 0 to |page.metas|
      invariant metadata == ApplyMetas(start, page.metas[..i])
    {
      ApplyMetasSnoc(start, page.metas, i);
      var meta := page.metas[i];
      if |meta.name| > 0 && |meta.content| > 0 {
        metadata := Set(metadata, meta.name, CoerceMeta(meta.content));
      }
    }
    assert page.metas[..|page.metas|] == page.metas;
  }

  lemma ApplyMetasSnoc(d: Dict<Value>, metas: seq<MetaTag>, i: nat)
    requires i < |metas|
    ensures ApplyMetas(d, metas[..i + 1]) == ApplyMeta(ApplyMetas(d, metas[..i]), metas[i])
  {
    assert metas[..i + 1][..i] == metas[..i];
  }

  /** The section search (chunkers.py:177-182). */
  method FindSections(page: Page) returns (sections: seq<Section>)
    ensures sections == CollectSections(page, SectionTags)
  {
    sections := [];
    for t := 0 to |SectionTags|
      invariant sections == CollectSections(page, SectionTags[..t])
    {
      CollectSnoc(page, SectionTags, t);
      sections := sections + page.findAll(SectionTags[t]);
    }
    assert SectionTags[..|SectionTags|] == SectionTags;
  }

  /** The section loop (chunkers.py:184-225). */
  method ChunkSections(lib: Lib, metadata: Dict<Value>, sections: seq<Section>, chunkSize: int, chunkOverlap: int)
    returns (chunks: seq<Chunk>)
    requires 0 <= chunkOverlap < chunkSize
    ensures chunks == SectionSteps(lib, metadata, [], sections, chunkSize, chunkOverlap)
  {
    chunks := [];
    for j := 0 to |sections|
      invariant chunks == SectionSteps(lib, metadata, [], sections[..j], chunkSize, chunkOverlap)
    {
      assert sections[..j + 1][..j] == sections[..j];
      var section := sections[j];
      var sectionText := section.text;
      if |sectionText| > 0 {
        if |sectionText| <= chunkSize {
          chunks := chunks + [Chunk(sectionText, Update(metadata, SectionFields(section, |chunks|)))];
        } else {
          var subChunks := TextChunker.TextChunk(lib, sectionText, chunkSize, chunkOverlap);
          chunks := AddSubChunks(metadata, section, chunks, subChunks);
        }
      }
    }
    assert sections[..|sections|] == sections;
  }

  /** The sub-chunk loop of an oversized section (chunkers.py:208-225). */
  method AddSubChunks(base: Dict<Value>, section: Section, chunks0: seq<Chunk>, subChunks: seq<Chunk>) returns (chunks: seq<Chunk>)
    ensures chunks == AppendSubs(base, section, chunks0, subChunks)
  {
    chunks := chunks0;
    ghost var make := (sub, index) => SubRecord(base, section, sub, index);
    for i := 0 to |subChunks|
      invariant chunks == AppendIndexed(chunks0, subChunks[..i], make)
    {
      assert subChunks[..i + 1][..i] == subChunks[..i];
      chunks := chunks + [Chunk(subChunks[i].content, Update(base, SubFields(section, subChunks[i], |chunks| + i)))];
    }
    assert subChunks[..|subChunks|] == subChunks;
  }

  /** The fallback loop (chunkers.py:232-243). */
  method ChunkFallback(metadata: Dict<Value>, textChunks: seq<Chunk>) returns (chunks: seq<Chunk>)
    ensures chunks == Fallback(metadata, textChunks)
  {
    chunks := [];
    for i := 0 to |textChunks|
      invariant chunks == Fallback(metadata, textChunks[..i])
    {
      chunks := chunks + [Chunk(textChunks[i].content, Update(metadata, FallbackFields(textChunks[i], i)))];
    }
    assert textChunks[..|textChunks|] == textChunks;
  }

  // ---------------------------------------------------------------------------
  // Properties

  /** The keys a section record sets. */
  predicate IsSectionKey(k: string) {
    k == "chunk_index" || k == "section_id" || k == "section_class"
  }

  /** The keys a sub-chunk record sets. */
  predicate IsSubKey(k: string) {
    IsSectionKey(k) || k == "sub_chunk" || k == "original_chunk_type"
  }

  lemma SubFieldsKeys(section: Section, sub: Chunk, index: int)
    ensures DistinctKeys(SubFields(section, sub, index))
    ensures forall k :: (forall i :: 0 <= i < |SubFields(section, sub, index)| ==> SubFields(section, sub, index)[i].0 != k) <==> !IsSubKey(k)
  {
    var p := SubFields(section, sub, index);
    assert |p| == 5;
    assert p[0].0 == "chunk_index" && p[1].0 == "section_id" && p[2].0 == "section_class";
    assert p[3].0 == "sub_chunk" && p[4].0 == "original_chunk_type";
    assert |p[0].0| == 11 && |p[1].0| == 10 && |p[2].0| == 13 && |p[3].0| == 9 && |p[4].0| == 19;
  }

  lemma SectionFieldsKeys(section: Section, index: int)
    ensures DistinctKeys(SectionFields(section, index))
    ensures forall k :: (forall i :: 0 <= i < |SectionFields(section, index)| ==> SectionFields(section, index)[i].0 != k) <==> !IsSectionKey(k)
  {
    var p := SectionFields(section, index);
    assert |p| == 3;
    assert p[0].0 == "chunk_index" && p[1].0 == "section_id" && p[2].0 == "section_class";
    assert |p[0].0| == 11 && |p[1].0| == 10 && |p[2].0| == 13;
  }

  /** A small section's record holds the section text and reads back its index, id and class;
      every other key is the page's. */
  lemma SectionRecordReads(base: Dict<Value>, section: Section, index: int)
    ensures SectionRecord(base, section, index).content == section.text
    ensures Lookup(SectionRecord(base, section, index).metadata, "chunk_index") == Some(Int(index))
    ensures Lookup(SectionRecord(base, section, index).metadata, "section_id") == Some(SectionId(section))
    ensures Lookup(SectionRecord(base, section, index).metadata, "section_class") == Some(SectionClass(section))
    ensures forall k :: !IsSectionKey(k) ==> Lookup(SectionRecord(base, section, index).metadata, k) == Lookup(base, k)
  {
    var p := SectionFields(section, index);
    SectionFieldsKeys(section, index);
    UpdateDistinct(base, p);
    assert p[0].0 == "chunk_index" && p[1].0 == "section_id" && p[2].0 == "section_class";
  }

  /** A sub-chunk record holds the TextChunker record's text and reads back its index, id,
      class, `sub_chunk: True` and the original type; every other key is the page's. */
  lemma SubRecordReads(base: Dict<Value>, section: Section, sub: Chunk, index: int)
    ensures SubRecord(base, section, sub, index).content == sub.content
    ensures Lookup(SubRecord(base, section, sub, index).metadata, "chunk_index") == Some(Int(index))
    ensures Lookup(SubRecord(base, section, sub, index).metadata, "section_id") == Some(SectionId(section))
    ensures Lookup(SubRecord(base, section, sub, index).metadata, "section_class") == Some(SectionClass(section))
    ensures Lookup(SubRecord(base, section, sub, index).metadata, "sub_chunk") == Some(Bool(true))
    ensures Lookup(SubRecord(base, section, sub, index).metadata, "original_chunk_type") == Some(Validate(ChunkType(sub)))
    ensures forall k :: !IsSubKey(k) ==> Lookup(SubRecord(base, section, sub, index).metadata, k) == Lookup(base, k)
  {
    var p := SubFields(section, sub, index);
    SubFieldsKeys(section, sub, index);
    UpdateDistinct(base, p);
    assert p[0].0 == "chunk_index" && p[1].0 == "section_id" && p[2].0 == "section_class";
    assert p[3].0 == "sub_chunk" && p[4].0 == "original_chunk_type";
  }

  /** The sub-chunk loop appends one record per TextChunker record, in order; the j-th
      appended record is made from the j-th TextChunker record with index `k + 2j`, where `k`
      is the number of records before the section. */
  lemma {:induction false} AppendIndexedShape(chunks: seq<Chunk>, subs: seq<Chunk>, make: (Chunk, int) -> Chunk)
    ensures |AppendIndexed(chunks, subs, make)| == |chunks| + |subs|
    ensures AppendIndexed(chunks, subs, make)[..|chunks|] == chunks
    ensures forall j :: 0 <= j < |subs| ==> AppendIndexed(chunks, subs, make)[|chunks| + j] == make(subs[j], |chunks| + 2 * j)
    decreases |subs|
  {
    if subs != [] {
      var n := |subs| - 1;
      AppendIndexedShape(chunks, subs[..n], make);
      var before := AppendIndexed(chunks, subs[..n], make);
      var r := AppendIndexed(chunks, subs, make);
      assert r == before + [make(subs[n], |chunks| + 2 * n)];
      assert r[..|chunks|] == before[..|chunks|];
      forall j | 0 <= j < |subs|
        ensures r[|chunks| + j] == make(subs[j], |chunks| + 2 * j)
      {
        if j < n {
          assert r[|chunks| + j] == before[|chunks| + j];
          assert subs[..n][j] == subs[j];
        }
      }
    }
  }

  /** An empty section adds nothing; a small one adds exactly one record holding its text at
      the next index; an oversized one adds one record per TextChunker record of its text,
      each marked as a sub-chunk of original type "text", the j-th at index `k + 2j`. */
  lemma SectionStepShape(lib: Lib, base: Dict<Value>, chunks: seq<Chunk>, section: Section, chunkSize: int, chunkOverlap: int)
    requires 0 <= chunkOverlap < chunkSize
    ensures var r := SectionStep(lib, base, chunks, section, chunkSize, chunkOverlap);
            && |chunks| <= |r|
            && r[..|chunks|] == chunks
            && (|section.text| == 0 ==> r == chunks)
            && (0 < |section.text| <= chunkSize ==>
                  |r| == |chunks| + 1 && r[|chunks|].content == section.text &&
                  Lookup(r[|chunks|].metadata, "chunk_index") == Some(Int(|chunks|)))
            && (|section.text| > chunkSize ==>
                  SubChunksAppended(r, chunks, TextChunker.TextChunks(lib, section.text, chunkSize, chunkOverlap)))
  {
    if |section.text| == 0 {
    } else if |section.text| <= chunkSize {
      SmallSectionStep(lib, base, chunks, section, chunkSize, chunkOverlap);
    } else {
      LargeSectionStep(lib, base, chunks, section, chunkSize, chunkOverlap);
    }
  }

  lemma SmallSectionStep(lib: Lib, base: Dict<Value>, chunks: seq<Chunk>, section: Section, chunkSize: int, chunkOverlap: int)
    requires 0 <= chunkOverlap < chunkSize
    requires 0 < |section.text| <= chunkSize
    ensures var r := SectionStep(lib, base, chunks, section, chunkSize, chunkOverlap);
            && |r| == |chunks| + 1 && r[..|chunks|] == chunks && r[|chunks|].content == section.text
            && Lookup(r[|chunks|].metadata, "chunk_index") == Some(Int(|chunks|))
  {
    var r := SectionStep(lib, base, chunks, section, chunkSize, chunkOverlap);
    assert r == chunks + [SectionRecord(base, section, |chunks|)];
    SectionRecordReads(base, section, |chunks|);
    assert r[..|chunks|] == chunks;
  }

  /** `r` is `chunks` followed by one record per TextChunker record in `subs`: the j-th keeps
      the text of `subs[j]`, has index `k + 2j` (where `k` is `|chunks|`), and is marked as a
      sub-chunk of original type "text". */
  predicate SubChunksAppended(r: seq<Chunk>, chunks: seq<Chunk>, subs: seq<Chunk>) {
    && |r| == |chunks| + |subs| && r[..|chunks|] == chunks
    && forall j :: 0 <= j < |subs| ==>
         r[|chunks| + j].content == subs[j].content &&
         Lookup(r[|chunks| + j].metadata, "chunk_index") == Some(Int(|chunks| + 2 * j)) &&
         Lookup(r[|chunks| + j].metadata, "sub_chunk") == Some(Bool(true)) &&
         Lookup(r[|chunks| + j].metadata, "original_chunk_type") == Some(Str("text"))
  }

  /** The records the sub-chunk loop appends for TextChunker records of type "text". */
  lemma SubChunksShape(base: Dict<Value>, section: Section, chunks: seq<Chunk>, subs: seq<Chunk>)
    requires forall j :: 0 <= j < |subs| ==> ChunkType(subs[j]) == Str("text")
    ensures SubChunksAppended(AppendSubs(base, section, chunks, subs), chunks, subs)
  {
    var make := (sub, index) => SubRecord(base, section, sub, index);
    var r := AppendIndexed(chunks, subs, make);
    AppendIndexedShape(chunks, subs, make);
    forall j | 0 <= j < |subs|
      ensures r[|chunks| + j].content == subs[j].content
      ensures Lookup(r[|chunks| + j].metadata, "chunk_index") == Some(Int(|chunks| + 2 * j))
      ensures Lookup(r[|chunks| + j].metadata, "sub_chunk") == Some(Bool(true))
      ensures Lookup(r[|chunks| + j].metadata, "original_chunk_type") == Some(Str("text"))
    {
      assert r[|chunks| + j] == SubRecord(base, section, subs[j], |chunks| + 2 * j);
      TextSubRecord(base, section, subs[j], |chunks| + 2 * j);
    }
  }

  /** The fields of a sub-chunk record made from a "text" record. */
  lemma TextSubRecord(base: Dict<Value>, section: Section, sub: Chunk, index: int)
    requires ChunkType(sub) == Str("text")
    ensures SubRecord(base, section, sub, index).content == sub.content
    ensures Lookup(SubRecord(base, section, sub, index).metadata, "chunk_index") == Some(Int(index))
    ensures Lookup(SubRecord(base, section, sub, index).metadata, "sub_chunk") == Some(Bool(true))
    ensures Lookup(SubRecord(base, section, sub, index).metadata, "original_chunk_type") == Some(Str("text"))
  {
    SubRecordReads(base, section, sub, index);
  }

  lemma LargeSectionStep(lib: Lib, base: Dict<Value>, chunks: seq<Chunk>, section: Section, chunkSize: int, chunkOverlap: int)
    requires 0 <= chunkOverlap < chunkSize
    requires |section.text| > chunkSize
    ensures SubChunksAppended(SectionStep(lib, base, chunks, section, chunkSize, chunkOverlap), chunks,
                              TextChunker.TextChunks(lib, section.text, chunkSize, chunkOverlap))
  {
    TextChunker.TextChunksWellFormed(lib, section.text, chunkSize, chunkOverlap);
    SubChunksShape(base, section, chunks, TextChunker.TextChunks(lib, section.text, chunkSize, chunkOverlap));
  }

  /** The section loop only appends: the records of earlier sections stay where they are. */
  lemma {:induction false} SectionStepsExtend(lib: Lib, base: Dict<Value>, chunks: seq<Chunk>, sections: seq<Section>, chunkSize: int, chunkOverlap: int)
    requires 0 <= chunkOverlap < chunkSize
    ensures |chunks| <= |SectionSteps(lib, base, chunks, sections, chunkSize, chunkOverlap)|
    ensures SectionSteps(lib, base, chunks, sections, chunkSize, chunkOverlap)[..|chunks|] == chunks
    decreases |sections|
  {
    if sections != [] {
      var n := |sections| - 1;
      SectionStepsExtend(lib, base, chunks, sections[..n], chunkSize, chunkOverlap);
      var before := SectionSteps(lib, base, chunks, sections[..n], chunkSize, chunkOverlap);
      SectionStepShape(lib, base, before, sections[n], chunkSize, chunkOverlap);
      var r := SectionSteps(lib, base, chunks, sections, chunkSize, chunkOverlap);
      assert r[..|chunks|] == r[..|before|][..|chunks|];
    }
  }

  /** Sections whose text is empty produce no record. */
  lemma {:induction false} EmptySectionsSkipped(lib: Lib, base: Dict<Value>, chunks: seq<Chunk>, sections: seq<Section>, chunkSize: int, chunkOverlap: int)
    requires 0 <= chunkOverlap < chunkSize
    requires forall i :: 0 <= i < |sections| ==> |sections[i].text| == 0
    ensures SectionSteps(lib, base, chunks, sections, chunkSize, chunkOverlap) == chunks
    decreases |sections|
  {
    if sections != [] {
      EmptySectionsSkipped(lib, base, chunks, sections[..|sections| - 1], chunkSize, chunkOverlap);
    }
  }

  /** Sections that all fit give one record each, holding the section's text at its
      position. */
  lemma {:induction false} SmallSectionsPositioned(lib: Lib, base: Dict<Value>, sections: seq<Section>, chunkSize: int, chunkOverlap: int)
    requires 0 <= chunkOverlap < chunkSize
    requires forall i :: 0 <= i < |sections| ==> 0 < |sections[i].text| <= chunkSize
    ensures |SectionSteps(lib, base, [], sections, chunkSize, chunkOverlap)| == |sections|
    ensures forall i :: 0 <= i < |sections| ==>
              SectionSteps(lib, base, [], sections, chunkSize, chunkOverlap)[i] == SectionRecord(base, sections[i], i)
    decreases |sections|
  {
    if sections != [] {
      var n := |sections| - 1;
      SmallSectionsPositioned(lib, base, sections[..n], chunkSize, chunkOverlap);
      var before := SectionSteps(lib, base, [], sections[..n], chunkSize, chunkOverlap);
      var r := SectionSteps(lib, base, [], sections, chunkSize, chunkOverlap);
      assert r == before + [SectionRecord(base, sections[n], n)];
      forall i | 0 <= i < n
        ensures r[i] == SectionRecord(base, sections[i], i)
      {
        assert sections[..n][i] == sections[i];
      }
    }
  }

  /** In the fallback every record keeps the TextChunker record's text, its `chunk_index` is
      its position and its original type is "text". */
  lemma FallbackPositioned(lib: Lib, base: Dict<Value>, text: string, chunkSize: int, chunkOverlap: int)
    requires 0 <= chunkOverlap < chunkSize
    ensures var texts := TextChunker.TextChunks(lib, text, chunkSize, chunkOverlap);
            var r := Fallback(base, texts);
            && |r| == |texts|
            && Positioned(r)
            && forall i :: 0 <= i < |r| ==>
                 r[i].content == texts[i].content &&
                 Lookup(r[i].metadata, "original_chunk_type") == Some(Str("text"))
  {
    var texts := TextChunker.TextChunks(lib, text, chunkSize, chunkOverlap);
    TextChunker.TextChunksWellFormed(lib, text, chunkSize, chunkOverlap);
    var r := Fallback(base, texts);
    forall i | 0 <= i < |r|
      ensures Lookup(r[i].metadata, "chunk_index") == Some(Int(i))
      ensures Lookup(r[i].metadata, "original_chunk_type") == Some(Str("text"))
    {
      var p := FallbackFields(texts[i], i);
      assert |p[0].0| == 11 && |p[1].0| == 19;
      UpdateDistinct(base, p);
      assert p[0].0 == "chunk_index" && p[1].0 == "original_chunk_type";
    }
  }

  lemma NoSectionsFound(page: Page)
    requires forall t :: t in SectionTags ==> page.findAll(t) == []
    ensures CollectSections(page, SectionTags) == []
  {
    SectionsInTagOrder(page);
    assert forall i :: 0 <= i < |SectionTags| ==> page.findAll(SectionTags[i]) == [];
  }

  /** A page with no semantic section is chunked as its text. */
  lemma NoSectionsFallsBack(lib: Lib, content: string, chunkSize: int, chunkOverlap: int)
    requires 0 <= chunkOverlap < chunkSize
    requires forall t :: t in SectionTags ==> lib.parseHtml(content).findAll(t) == []
    ensures HtmlChunks(lib, content, chunkSize, chunkOverlap)
         == Fallback(BaseMetadata(lib.parseHtml(content)), TextChunker.TextChunks(lib, lib.parseHtml(content).text, chunkSize, chunkOverlap))
  {
    NoSectionsFound(lib.parseHtml(content));
  }

  /** A single oversized section that TextChunker cuts in two gets indices 0 and 2. */
  lemma TwoSubChunksSkipAnIndex(lib: Lib, base: Dict<Value>, section: Section, chunkSize: int, chunkOverlap: int)
    requires 0 <= chunkOverlap < chunkSize
    requires |section.text| > chunkSize
    requires |TextChunker.TextChunks(lib, section.text, chunkSize, chunkOverlap)| == 2
    ensures var r := SectionSteps(lib, base, [], [section], chunkSize, chunkOverlap);
            |r| == 2 && Lookup(r[0].metadata, "chunk_index") == Some(Int(0)) &&
            Lookup(r[1].metadata, "chunk_index") == Some(Int(2))
  {
    var none: seq<Chunk> := [];
    assert [section][..0] == [];
    var r := SectionStep(lib, base, none, section, chunkSize, chunkOverlap);
    assert SectionSteps(lib, base, none, [section], chunkSize, chunkOverlap) == r;
    LargeSectionStep(lib, base, none, section, chunkSize, chunkOverlap);
    assert Lookup(r[|none| + 0].metadata, "chunk_index") == Some(Int(|none| + 2 * 0));
    assert Lookup(r[|none| + 1].metadata, "chunk_index") == Some(Int(|none| + 2 * 1));
  }
}
