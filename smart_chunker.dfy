/** SmartChunker (chunkers.py:556-610): an ordered classifier (html, then json, then code,
    then text) and a routing table to the four chunkers. */
module SmartChunker {
  import opened Wrappers
  import opened Strings
  import opened Records
  import opened Library
  import TextChunker
  import HtmlChunker
  import CodeChunker
  import JsonChunker

  /** The HTML markers, searched case-insensitively anywhere in the content. */
  const HtmlMarkers := @"<!DOCTYPE\s+html|<html|<body|<div|<p>|<head>"

  /** The code signatures, in order (the JavaScript one has no `var` alternative here). */
  const CodePatterns: seq<string> := [
    @"import\s+[\w\.]+|from\s+[\w\.]+\s+import",
    @"function\s+[\w]+\s*\(|const\s+[\w]+\s*=|let\s+[\w]+\s*=",
    @"public\s+class|private\s+class|protected\s+class",
    @"#include\s*<|#include\s*""",
    @"package\s+[\w\.]+;",
    @"using\s+[\w\.]+;",
    @"<\?php"
  ]

  /** The stripped content is bracketed by `{`…`}` or `[`…`]` and parses. */
  predicate LooksLikeJson(lib: Lib, content: string) {
    var trimmed := Strip(content);
    && ((StartsWith(trimmed, "{") && EndsWith(trimmed, "}")) || (StartsWith(trimmed, "[") && EndsWith(trimmed, "]")))
    && lib.parseJson(trimmed).Some?
  }

  /** `detect_content_type`: the checks run in order and the first that succeeds decides. */
  function DetectContentType(lib: Lib, content: string): (r: string)
    ensures r == "html" || r == "json" || r == "code" || r == "text"
    ensures r == "html" <==> lib.search(HtmlMarkers, content)
    ensures r == "json" <==> !lib.search(HtmlMarkers, content) && LooksLikeJson(lib, content)
    ensures r == "code" <==>
              !lib.search(HtmlMarkers, content) && !LooksLikeJson(lib, content) &&
              exists i :: 0 <= i < |CodePatterns| && lib.search(CodePatterns[i], content)
    ensures r == "text" <==>
              !lib.search(HtmlMarkers, content) && !LooksLikeJson(lib, content) &&
              forall i :: 0 <= i < |CodePatterns| ==> !lib.search(CodePatterns[i], content)
  {
    if lib.search(HtmlMarkers, content) then "html"
    else if LooksLikeJson(lib, content) then "json"
    else if FirstMatch(lib, CodePatterns, content, 0).Some? then "code"
    else "text"
  }

  /** The type `chunk` routes on: the given one, unless it is `None` or `""` (both falsy). */
  function EffectiveType(lib: Lib, content: string, contentType: Option<string>): (r: string)
    ensures contentType.Some? && |contentType.value| > 0 ==> r == contentType.value
    ensures contentType.None? || contentType.value == "" ==> r == DetectContentType(lib, content)
  {
    if contentType.None? || |contentType.value| == 0 then DetectContentType(lib, content) else contentType.value
  }

  /** What `SmartChunker().chunk(content, content_type, chunk_size, chunk_overlap)` returns. */
  function SmartChunks(lib: Lib, content: string, contentType: Option<string>, chunkSize: int, chunkOverlap: int): seq<Chunk>
    requires 0 <= chunkOverlap < chunkSize
  {
    var t := EffectiveType(lib, content, contentType);
    if t == "html" then HtmlChunker.HtmlChunks(lib, content, chunkSize, chunkOverlap)
    else if t == "code" then CodeChunker.CodeChunks(lib, content, chunkSize)
    else if t == "json" then JsonChunker.JsonChunks(lib, content, chunkSize, chunkOverlap)
    else TextChunker.TextChunks(lib, content, chunkSize, chunkOverlap)
  }

  method SmartChunk(lib: Lib, content: string, contentType: Option<string>, chunkSize: int, chunkOverlap: int)
    returns (chunks: seq<Chunk>)
    requires 0 <= chunkOverlap < chunkSize
    ensures chunks == SmartChunks(lib, content, contentType, chunkSize, chunkOverlap)
  {
    var t := if contentType.None? || |contentType.value| == 0 then DetectContentType(lib, content) else contentType.value;
    if t == "html" {
      chunks := HtmlChunker.HtmlChunk(lib, content, chunkSize, chunkOverlap);
    } else if t == "code" {
      chunks := CodeChunker.CodeChunk(lib, content, chunkSize);
    } else if t == "json" {
      chunks := JsonChunker.JsonChunk(lib, content, chunkSize, chunkOverlap);
    } else {
      chunks := TextChunker.TextChunk(lib, content, chunkSize, chunkOverlap);
    }
  }

  /** An empty `content_type` is falsy, so it is detected exactly as a missing one is. */
  lemma EmptyTypeIsDetected(lib: Lib, content: string, chunkSize: int, chunkOverlap: int)
    requires 0 <= chunkOverlap < chunkSize
    ensures SmartChunks(lib, content, Some(""), chunkSize, chunkOverlap) == SmartChunks(lib, content, None, chunkSize, chunkOverlap)
  {
  }

  /** A given type other than html, code and json, however it is spelt, goes to TextChunker. */
  lemma OtherTypesAreText(lib: Lib, content: string, t: string, chunkSize: int, chunkOverlap: int)
    requires 0 <= chunkOverlap < chunkSize
    requires |t| > 0 && t != "html" && t != "code" && t != "json"
    ensures SmartChunks(lib, content, Some(t), chunkSize, chunkOverlap) == TextChunker.TextChunks(lib, content, chunkSize, chunkOverlap)
  {
  }

  /** An HTML marker decides for HTMLChunker, whatever else the content looks like. */
  lemma HtmlMarkerWins(lib: Lib, content: string, chunkSize: int, chunkOverlap: int)
    requires 0 <= chunkOverlap < chunkSize && lib.search(HtmlMarkers, content)
    ensures SmartChunks(lib, content, None, chunkSize, chunkOverlap) == HtmlChunker.HtmlChunks(lib, content, chunkSize, chunkOverlap)
  {
  }

  /** Without a type, content that matches no marker, is not bracketed JSON and matches no code
      signature goes to TextChunker. */
  lemma PlainContentIsText(lib: Lib, content: string, chunkSize: int, chunkOverlap: int)
    requires 0 <= chunkOverlap < chunkSize
    requires !lib.search(HtmlMarkers, content) && !LooksLikeJson(lib, content)
    requires forall i :: 0 <= i < |CodePatterns| ==> !lib.search(CodePatterns[i], content)
    ensures SmartChunks(lib, content, None, chunkSize, chunkOverlap) == TextChunker.TextChunks(lib, content, chunkSize, chunkOverlap)
  {
  }

  lemma StartsWithChar(s: string, c: char)
    ensures StartsWith(s, [c]) <==> |s| > 0 && s[0] == c
  {
    if |s| > 0 {
      assert s[..1] == [s[0]];
    }
  }

  /** Content whose stripped form is not bracketed is never detected as JSON, even if it parses. */
  lemma UnbracketedIsNotJson(lib: Lib, content: string)
    requires |Strip(content)| > 0 && Strip(content)[0] != '{' && Strip(content)[0] != '['
    ensures DetectContentType(lib, content) != "json"
  {
    StartsWithChar(Strip(content), '{');
    StartsWithChar(Strip(content), '[');
  }
}
