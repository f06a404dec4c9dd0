/** The `{content, metadata}` records every chunker returns. */
module Records {
  import opened Wrappers
  import opened Values
  import opened Dicts

  datatype Chunk = Chunk(content: string, metadata: Dict<Value>)

  /** The metadata of a plain record: `{"chunk_type": t, "chunk_index": k}` (the random
      `chunk_id` that sits between the two is not modelled). */
  function RecordMetadata(chunkType: string, index: int): Dict<Value> {
    [("chunk_type", Str(chunkType)), ("chunk_index", Int(index))]
  }

  function Record(content: string, chunkType: string, index: int): Chunk {
    Chunk(content, RecordMetadata(chunkType, index))
  }

  /** The `chunk_type` a record carries (`None` when it has none). */
  function ChunkType(c: Chunk): Value {
    Lookup(c.metadata, "chunk_type").GetOr(Null)
  }

  /** Every record's `chunk_index` is its position in the list. */
  ghost predicate Positioned(chunks: seq<Chunk>) {
    forall k :: 0 <= k < |chunks| ==> Lookup(chunks[k].metadata, "chunk_index") == Some(Int(k))
  }

  /** Every record is the plain record of type `chunkType` for its position. */
  ghost predicate PlainRecords(chunks: seq<Chunk>, chunkType: string) {
    forall k :: 0 <= k < |chunks| ==> chunks[k] == Record(chunks[k].content, chunkType, k)
  }

  /** Appending the plain record for position `|chunks|`. */
  function Emit(chunks: seq<Chunk>, content: string, chunkType: string): seq<Chunk> {
    chunks + [Record(content, chunkType, |chunks|)]
  }

  /** Plain records are positioned, and carry the type they were made with. */
  lemma PlainRecordsPositioned(chunks: seq<Chunk>, chunkType: string)
    requires PlainRecords(chunks, chunkType)
    ensures Positioned(chunks)
    ensures forall k :: 0 <= k < |chunks| ==> ChunkType(chunks[k]) == Str(chunkType)
  {
  }
}
