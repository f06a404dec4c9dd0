/** The `Document` request model (models/document.py:6-24): how a missing `content_type` is
    resolved before chunking, and the default chunk size and overlap. */
module Document {
  import opened Wrappers
  import opened Library
  import SmartChunker

  /** `settings.DEFAULT_CHUNK_SIZE` and `settings.DEFAULT_CHUNK_OVERLAP` (config.py:14-15). */
  const DefaultChunkSize := 1000
  const DefaultChunkOverlap := 200

  /** A validated document; `metadata` is not modelled. */
  datatype Document = Document(uid: string, content: string, contentType: string, chunkSize: int, chunkOverlap: int)

  /** `verify_content_type`: `content` is `None` when the `content` field is not among the
      values validated so far. */
  function VerifyContentType(lib: Lib, contentType: Option<string>, content: Option<string>): (r: string)
    ensures contentType.Some? ==> r == contentType.value
    ensures contentType.None? && content.Some? && |content.value| > 0 ==> r == SmartChunker.DetectContentType(lib, content.value)
    ensures contentType.None? && (content.None? || |content.value| == 0) ==> r == "text"
    ensures contentType.None? ==> r == "html" || r == "json" || r == "code" || r == "text"
  {
    if contentType.Some? then contentType.value
    else if content.Some? && |content.value| > 0 then SmartChunker.DetectContentType(lib, content.value)
    else "text"
  }

  /** Building a `Document`: an omitted size or overlap takes its default. */
  function MakeDocument(lib: Lib, uid: string, content: string, contentType: Option<string>,
                        chunkSize: Option<int>, chunkOverlap: Option<int>): (d: Document)
    ensures d.uid == uid && d.content == content
    ensures d.contentType == VerifyContentType(lib, contentType, Some(content))
    ensures d.chunkSize == (if chunkSize.Some? then chunkSize.value else 1000)
    ensures d.chunkOverlap == (if chunkOverlap.Some? then chunkOverlap.value else 200)
  {
    Document(uid, content, VerifyContentType(lib, contentType, Some(content)),
             chunkSize.GetOr(DefaultChunkSize), chunkOverlap.GetOr(DefaultChunkOverlap))
  }

  /** A document built with the defaults can be chunked: its overlap is below its size, and its
      type is one SmartChunker routes on. */
  lemma DefaultsAreChunkable(lib: Lib, uid: string, content: string)
    ensures var d := MakeDocument(lib, uid, content, None, None, None);
            0 <= d.chunkOverlap < d.chunkSize &&
            (d.contentType == "html" || d.contentType == "json" || d.contentType == "code" || d.contentType == "text") &&
            (|content| == 0 ==> d.contentType == "text")
  {
  }

  /** An explicit empty `content_type` survives validation, so SmartChunker later detects it. */
  lemma EmptyTypeKept(lib: Lib, content: Option<string>)
    ensures VerifyContentType(lib, Some(""), content) == ""
  {
  }
}
