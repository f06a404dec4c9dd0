# Chunking engine model

A Dafny model of the chunking core of a document-ingestion service. The service cuts a
document into `{content, metadata}` records before they are embedded. Five chunkers are
modelled:

- **TextChunker** packs paragraphs greedily. An oversized paragraph is re-packed by
  sentences, and an oversized sentence is cut into overlapping character windows.
- **HTMLChunker** builds page metadata from the title and the `<meta>` tags, with the values
  coerced to booleans, integers, floats or strings. It then emits one record per non-empty
  semantic section and sends oversized sections through TextChunker. A page with no
  semantic section falls back to TextChunker over the page text.
- **CodeChunker** guesses the language from an ordered signature table. It then runs a
  line-by-line automaton: import lines are kept aside, each chunk is prefixed with the
  imports read before it was emitted, and function and class bodies are not split.
- **JsonChunker** packs the entries of an object, or the elements of an array, greedily by
  their serialized size. A scalar document gives one record; text that does not parse goes
  to TextChunker.
- **SmartChunker** is an ordered content classifier (html, json, code, text) followed by a
  routing table.

The model also covers `Document`'s rule for resolving a missing `content_type`, and its
defaults: chunk size 1000 and overlap 200.

Every loop in the source that updates state is a `method` proved equal to a specification
function, usually a prefix fold. The two first-match searches (the signature loops of
`_detect_language` and `detect_content_type`) only return early and change nothing, so they
are the recursive function `Library.FirstMatch`. The properties are lemmas about those
functions. The services the code calls
are fields of `Library.Lib`, supplied by the caller: the regex engine, BeautifulSoup, and
`json.loads` / `json.dumps`. Every result holds whatever those fields are.

Modules, in dependency order:
`Wrappers`, `Strings`, `Values`, `Dicts`, `Records`, `Library`, `TextChunker`, `HtmlChunker`,
`CodeChunker`, `JsonChunker`, `SmartChunker`, `Document`.

The model keeps these behaviours of the code as written:

- The sub-chunks of an oversized HTML section get `chunk_index` values `k, k+2, k+4, …`.
  The index is `len(chunks) + i`, read from a list that grows as the loop runs.
- When TextChunker meets a sentence too long for any chunk, it emits the chunk being built
  but does not clear it, so that chunk is emitted a second time later.
- CodeChunker counts a brace-opening function header twice, so the function's closing brace
  does not close it.
- CodeChunker emits the chunk before the line that closes a block is added, so that line
  starts the next chunk.

## Model

| member | source | states |
|---|---|---|
| Values.Validate | chunkers.py:28-37 | The result is a scalar. A scalar is returned unchanged. Any other value becomes a string, and a value that is neither a scalar nor a list becomes its `str`. |
| Values.ValidateIdempotent | chunkers.py:28-37 | Validating an already validated value changes nothing. |
| Values.ValidateStringList | chunkers.py:33-34 | A list of strings is stored as the strings joined by single spaces. |
| Strings.StripShape | chunkers.py:49 | The result is empty exactly when the input is all whitespace. Otherwise it starts and ends with a non-space character. |
| Strings.LStripShape | chunkers.py:300 | The result is a suffix of the input that does not start with whitespace. Every character dropped is whitespace. |
| Strings.RStripShape | chunkers.py:49 | The result is a prefix of the input that does not end with whitespace. Every character dropped is whitespace. |
| Strings.Count | chunkers.py:309 | `str.count` of a character is its multiplicity in the string. |
| Strings.IndexOf | chunkers.py:169 | The position found holds the character, and no earlier position does. |
| Strings.RemoveFirst | chunkers.py:169 | `replace('.', '', 1)` cuts out the first occurrence, found by `IndexOf`, and keeps every other character in order. Without an occurrence it changes nothing. |
| Strings.SplitLines | chunkers.py:286 | `split('\n')` gives at least one piece. No piece holds a newline, and joining the pieces with newlines gives back the input. |
| Strings.NatToDecimal | chunkers.py:34 | `str(n)`, as the list join applies it to an integer item. The digits read back as `n` under `DecimalValue`, the model of `int(content)`, and have no leading zero. |
| Dicts.LookupMissing | chunkers.py:159 | A key is absent exactly when no entry carries it. |
| Dicts.SetReads | chunkers.py:164-172 | After `d[k] = v`, `k` reads `v` and every other key reads as before. The dict grows by one exactly when `k` was new, and existing keys keep their places. |
| Dicts.UpdateUntouched | chunkers.py:192-198 | `d.update(pairs)` leaves every key that the pairs do not name unchanged. |
| Dicts.UpdateLastWins | chunkers.py:192-198 | A key reads the value of the last pair that names it. |
| Dicts.UpdateKeepsPositions | chunkers.py:192-198 | `update` never removes or reorders existing keys. |
| Dicts.UpdateDistinct | chunkers.py:192-198 | With distinct keys, every pair reads back its value and every other key is unchanged. |
| Records.PlainRecordsPositioned | chunkers.py:62-69 | Plain records carry their chunk type, and their `chunk_index` is their position. |
| Library.FirstMatch | chunkers.py:275-277 | Returns the first pattern, in order, that the content matches, and None exactly when none matches. |
| TextChunker.TextChunk | chunkers.py:39-129 | The paragraph, sentence and window loops compute `TextChunks`. |
| TextChunker.PackParagraphs | chunkers.py:48-116 | The paragraph loop computes the `Paragraphs` fold, starting from an empty chunk. |
| TextChunker.AddParagraph | chunkers.py:49-116 | One paragraph updates the records, the chunk being built and the size exactly as `ParagraphStep` says. |
| TextChunker.FlushChunk | chunkers.py:118-127 | The last chunk is emitted exactly when it is non-empty. |
| TextChunker.PackSentences | chunkers.py:75-113 | The sentence loop computes the `Sentences` fold. |
| TextChunker.EmitWindows | chunkers.py:99-109 | The window loop emits one record per `range(0, len, step)` slice. |
| TextChunker.TextChunksWellFormed | chunkers.py:53-127 | Every record is a "text" record whose index is its position. None is empty, and none is longer than `chunk_size + 2` (the separator slack). |
| TextChunker.WindowAt | chunkers.py:100-101 | Window `k` is `sentence[k*step : k*step + chunk_size]`. |
| TextChunker.WindowsBounded | chunkers.py:100-101 | Every window is non-empty and at most `chunk_size` long. |
| TextChunker.WindowCount | chunkers.py:100 | A sentence of length L gives ceil(L / step) windows. |
| TextChunker.WindowsCover | chunkers.py:100-101 | When step <= chunk_size, every character of the sentence lies in some window. |
| TextChunker.WindowRecords | chunkers.py:99-109 | The windows of a sentence are records 0..n-1, with the slice contents above, and together they cover the sentence. |
| TextChunker.EmitAllShape | chunkers.py:102-109 | Emitting texts appends one plain record per text, in order, and leaves the earlier records alone. |
| TextChunker.SentencesGood | chunkers.py:80-113 | The sentence loop keeps `len(current_chunk) <= current_size`, and every record it emits stays within `chunk_size + 2`. |
| TextChunker.ParagraphsGood | chunkers.py:48-116 | The paragraph loop keeps the same invariant. |
| TextChunker.BlankParagraphsSkipped | chunkers.py:49-51 | Paragraphs that strip to nothing change nothing. |
| TextChunker.BlankTextGivesNothing | chunkers.py:42-51 | A text with only blank paragraphs gives no record. |
| TextChunker.FirstParagraphFits | chunkers.py:54-58 | A first paragraph that fits becomes the chunk being built, with size `len + 2`. |
| TextChunker.SmallTextIsOneChunk | chunkers.py:48-127 | A single paragraph that fits gives exactly one record: the stripped paragraph, at index 0. |
| TextChunker.FirstParagraphOversized | chunkers.py:73-78 | An oversized paragraph is re-packed by sentences, starting from an empty chunk. |
| TextChunker.FirstSentenceOversized | chunkers.py:99-109 | An oversized first sentence gives exactly its windows. |
| TextChunker.OversizedSentenceIsWindows | chunkers.py:39-129 | A text that is one oversized sentence gives exactly its windows. |
| TextChunker.OversizedSentenceExample | chunkers.py:99-109 | 2500 characters with size 1000 and overlap 200 give four windows, at 0, 800, 1600 and 2400. |
| TextChunker.ChunkRepeatedAfterLongSentence | chunkers.py:86-113 | A chunk being built when an oversized sentence arrives is emitted before that sentence's windows and again after them. |
| HtmlChunker.CoerceMeta | chunkers.py:163-172 | "true" or "false" in any case become booleans. An all-digit string becomes its integer value. A string with one `.` and digits otherwise becomes a float. Anything else stays the same string. These are if-and-only-if statements, and the tests run in that order. |
| HtmlChunker.LowerOfDigits | chunkers.py:163-169 | A digit string is unchanged by `lower()` and holds no `.`. |
| HtmlChunker.LowerKeepsDot | chunkers.py:163-169 | A string with a `.` is neither "true" nor "false" after `lower()`. |
| HtmlChunker.FloatTextShape | chunkers.py:169 | The float test holds exactly when the string has one `.`, at least two characters, and digits everywhere else. |
| HtmlChunker.IgnoredMetas | chunkers.py:158-159 | Meta tags with an empty name or an empty content change nothing. |
| HtmlChunker.MetaUntouched | chunkers.py:158-172 | A key that no applying meta tag names keeps its value. |
| HtmlChunker.MetaLastWins | chunkers.py:158-172 | A key reads the coerced content of the last applying meta tag with that name. |
| HtmlChunker.PageMetadata | chunkers.py:150-156 | Unless a meta tag overrides them, the page metadata holds `chunk_type: "html"` and the title. |
| HtmlChunker.SectionsInTagOrder | chunkers.py:177-182 | The sections are all divs, then all sections, and so on through `aside`. |
| HtmlChunker.SectionRecordReads | chunkers.py:191-203 | A small section's record holds the section's text and reads back its index, id and class. Every other key is the page's. |
| HtmlChunker.SubRecordReads | chunkers.py:210-224 | A sub-chunk record reads back its index, id, class, `sub_chunk: True` and its original type. Every other key is the page's. |
| HtmlChunker.AppendIndexedShape | chunkers.py:210-224 | The sub-chunk loop appends one record per TextChunker record, in order. The j-th record gets index `k + 2j`. |
| HtmlChunker.SectionStepShape | chunkers.py:185-224 | An empty section adds nothing. A small section adds one record with its text at the next index. An oversized section adds its sub-chunks of type "text" at `k + 2j`. |
| HtmlChunker.SubChunksShape | chunkers.py:208-224 | The sub-chunks of "text" records keep their text and carry `sub_chunk` and `original_chunk_type: "text"`. |
| HtmlChunker.SectionStepsExtend | chunkers.py:185-224 | The section loop only appends records. |
| HtmlChunker.EmptySectionsSkipped | chunkers.py:186-188 | Sections with empty text give no record. |
| HtmlChunker.SmallSectionsPositioned | chunkers.py:185-203 | When every section fits, section i gives record i. |
| HtmlChunker.FallbackPositioned | chunkers.py:226-243 | Fallback records keep the TextChunker text, their index is their position, and their original type is "text". |
| HtmlChunker.NoSectionsFallsBack | chunkers.py:177-243 | A page with none of the eight section tags is chunked through the fallback. |
| HtmlChunker.TwoSubChunksSkipAnIndex | chunkers.py:210-214 | One oversized section that TextChunker cuts in two gives indices 0 and 2. |
| HtmlChunker.HtmlChunk | chunkers.py:145-245 | The method, with its meta, section, sub-chunk and fallback loops, computes `HtmlChunks`. |
| HtmlChunker.PageMetadataOf | chunkers.py:150-172 | The meta loop computes `BaseMetadata`: the title record, then each applying meta tag in document order. |
| HtmlChunker.FindSections | chunkers.py:177-182 | The tag loop collects the `find_all` results tag by tag, in the tag list's order. |
| HtmlChunker.ChunkSections | chunkers.py:185-224 | The section loop computes `SectionSteps` from an empty list. |
| HtmlChunker.AddSubChunks | chunkers.py:208-224 | The sub-chunk loop computes `AppendSubs`, with indices read from the growing list. |
| HtmlChunker.ChunkFallback | chunkers.py:225-243 | The fallback loop computes `Fallback`. |
| HtmlChunker.NoSectionsFound | chunkers.py:177-184 | When no tag finds anything, the section list is empty. |
| HtmlChunker.LargeSectionStep | chunkers.py:205-224 | An oversized section appends its TextChunker records as sub-chunks at `k + 2j`. |
| HtmlChunker.SmallSectionStep | chunkers.py:191-203 | A small non-empty section appends one record, at the next index. |
| CodeChunker.DetectLanguage | chunkers.py:261-279 | The result is the language of the first signature the content matches, in table order. It is "unknown" exactly when no signature matches. |
| CodeChunker.PythonFirst | chunkers.py:265-277 | Content that matches the Python signature is Python, whatever else it matches. |
| CodeChunker.CodeChunk | chunkers.py:281-375 | The line loop computes `CodeChunks`. |
| CodeChunker.ChunkLines | chunkers.py:298-373 | The loop over the classified lines renders `CodeParts`. |
| CodeChunker.CodeLine | chunkers.py:304-360 | One non-import line updates flags, depth, size and chunks exactly as `CodeStep` does. |
| CodeChunker.EmitChunk | chunkers.py:329-373 | Each of the three `chunks.append` sites adds the next rendered part. |
| CodeChunker.StepKeeps | chunkers.py:298-360 | One line keeps the loop invariant: the imports seen, the non-import lines split between emitted bodies and the chunk being built, `current_size` equal to that chunk's size, and well-formed emitted parts pinned where they were emitted. |
| CodeChunker.FoldKeeps | chunkers.py:298-360 | The invariant holds after every prefix of the lines. |
| CodeChunker.CodePartsPartition | chunkers.py:298-373 | The chunk bodies, in order, are exactly the non-import lines, each once. No body is empty or holds an import line. Each chunk carries exactly the import lines read up to its emission point. That point is fixed by the reason: the body's last line for a size cut (and only once the body's size passed `chunk_size`), the closing line just after the body for a block close, and the end of the input for the last flush. |
| CodeChunker.CodeChunksContent | chunkers.py:329-373 | Each chunk's content is `'\n'.join(imports + body)`, with the imports read up to the emission point fixed as above. |
| CodeChunker.LaterImportNotPrefixed | chunkers.py:296-360 | A line cut off by size, followed by an import, gives one chunk without that import. |
| CodeChunker.ImportsNeverInBodies | chunkers.py:299-302 | No line that the import regex accepts is ever part of a body. |
| CodeChunker.CodeLinesFrom | chunkers.py:299-302 | Every non-import line is an input line that is not an import. |
| CodeChunker.CodeChunksPositioned | chunkers.py:328-334 | `chunk_index` runs 0..n-1, the type is "code", and `language` is the detected language. |
| CodeChunker.OpenBlockNotSplit | chunkers.py:319-360 | Inside an open function or class, a line that does not close it joins the chunk and nothing is emitted, whatever the size. |
| CodeChunker.ClosingLineOpensNextChunk | chunkers.py:319-345 | When a block closes, the chunk is emitted first and the closing line starts the next chunk. |
| CodeChunker.BracedFunctionStaysOpen | chunkers.py:308-318 | After `function f() {` ... `}`, the depth is 1 and the function is still open. |
| JsonChunker.PackItems | chunkers.py:428-540 | The item loop appends the records of the greedy packing `Pack` to the caller's list. |
| JsonChunker.ProcessDict | chunkers.py:428-482 | `_process_dict` packs the object's entries, sized by `len(json.dumps({key: value}))`. |
| JsonChunker.ProcessList | chunkers.py:485-540 | `_process_list` packs the array's elements, sized by `len(json.dumps(item))`. |
| JsonChunker.JsonChunk | chunkers.py:391-426 | The method computes `JsonChunks`: a decode error, an object, an array or a scalar. |
| JsonChunker.PackShape | chunkers.py:428-482 | Every item lands in exactly one group, in input order. A packed group is non-empty. From two items on, a group's total size is within `chunk_size`. Every packed group but the last was closed by an item that did not fit beside it. An item is emitted alone exactly when it does not fit into an empty group: an alone item is larger than `chunk_size` and comes first or after another alone item, and a packed group that comes first or after an alone item opens with an item that fits. |
| JsonChunker.PackStepKeeps | chunkers.py:442-470 | One item keeps the packing invariant: items in order, `current_size` equal to the sizes of `current_chunk`, well-formed and greedily closed groups, and items emitted alone only from an empty group. |
| JsonChunker.PackFoldKeeps | chunkers.py:442-470 | The packing invariant holds after every prefix of the items. |
| JsonChunker.OversizedItemPlacement | chunkers.py:442-480 | An oversized item right after a group keeps `current_chunk = [item]` and becomes a group of its own. One met with an empty group is emitted alone. |
| JsonChunker.EmitGroupsShape | chunkers.py:445-480 | Each group appends one "json" record at the next index, after the caller's records. |
| JsonChunker.PackedRecords | chunkers.py:428-540 | A packing gives the plain "json" records 0..n-1 of its groups, in order. |
| JsonChunker.ObjectChunks | chunkers.py:405-482 | An object gives records 0..n-1 whose entry groups are, together, its entries in order. |
| JsonChunker.ArrayChunks | chunkers.py:408-540 | An array gives records 0..n-1 whose element groups are, together, its elements in order. |
| JsonChunker.ScalarDocument | chunkers.py:411-420 | A scalar document gives one record holding the original text, at index 0. |
| JsonChunker.DecodeErrorFallsBack | chunkers.py:421-424 | Text that does not parse gives exactly TextChunker's records. |
| SmartChunker.DetectContentType | chunkers.py:556-592 | The result is html exactly when a marker matches. It is json exactly when there is no marker and the stripped text is bracketed and parses. It is code exactly when neither holds and a code signature matches, and text otherwise. |
| SmartChunker.EffectiveType | chunkers.py:596-597 | A non-empty given type is kept. `None` and `""` are both detected. |
| SmartChunker.SmartChunk | chunkers.py:594-609 | The method computes `SmartChunks`. |
| SmartChunker.EmptyTypeIsDetected | chunkers.py:596-597 | `content_type=""` is chunked exactly as a missing type. |
| SmartChunker.OtherTypesAreText | chunkers.py:600-609 | Any other non-empty type goes to TextChunker. |
| SmartChunker.HtmlMarkerWins | chunkers.py:556-601 | An HTML marker routes to HTMLChunker, whatever else the content looks like. |
| SmartChunker.PlainContentIsText | chunkers.py:556-609 | Content that is not HTML, not JSON and matches no code signature goes to TextChunker. |
| SmartChunker.UnbracketedIsNotJson | chunkers.py:562-567 | Stripped content that does not start with `{` or `[` is never detected as JSON. |
| Document.VerifyContentType | models/document.py:14-24 | A given type (including `""`) is returned unchanged. With no type, non-empty content is detected and empty or missing content gives "text". With no type, the result is always html, json, code or text. |
| Document.MakeDocument | models/document.py:6-12 | An omitted chunk size or overlap takes the default, 1000 or 200. The type is resolved by `verify_content_type`. |
| Document.DefaultsAreChunkable | models/document.py:11-24 | A document built with the defaults has overlap below size and a type SmartChunker routes on. Empty content gives "text". |
| Document.EmptyTypeKept | models/document.py:16-17 | An explicit `""` type survives validation unchanged. |

## Left out

- The regex engine, BeautifulSoup and the json module are not modelled. The regex searches,
  the paragraph and sentence splits, the parsed page, `json.loads` and `json.dumps` are
  supplied as `Library.Lib`, and every result holds for any such functions.
- CodeChunker's three line regexes are anchored and simple, so they are modelled exactly as
  prefix tests. The exception is `\w`, which is taken as ASCII word characters.
- `str.isdigit` is taken as the ASCII digits, and `str.lower` as ASCII lower-casing.
  Unicode digits and case mappings are not modelled.
- The `str.isspace` / `\s` set follows Python's whitespace set.
- `chunk_id` (a random `uuid4`) is omitted from every metadata dict. A `<meta>` tag named
  `chunk_id` is therefore not overwritten by it in the model. Every other key keeps its
  insertion order.
- Floats from `<meta>` tags keep their literal text. `float()` rounding is not modelled.
- `Values.PyRepr`: `repr` of a string inside a list is written `'s'`, without Python's
  escaping or switch to double quotes.
- The `Json` datatype takes an object's entries to have distinct keys, as the items of a
  Python dict do, so a packed group's entries are appended in order.
- The JSON content length is not bounded. The size estimate is a sum of per-item
  `json.dumps` lengths, not the length of the serialized group.
- `SmartChunker.DetectContentType` parses the stripped text while JsonChunker parses the
  original. The model does not relate the two, since `json.loads` is not modelled.
- TextChunker, and everything that reaches it, requires `0 <= chunk_overlap < chunk_size`.
  With a larger overlap, Python's `range` raises an error or yields nothing, and that case
  is not modelled.
- `Document.MakeDocument`: pydantic validation of the other fields, and `metadata`, are not
  modelled.
- The CLI, the vector-store services and the HTTP layer are not part of this model.
