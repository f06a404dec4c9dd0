/** JsonChunker (chunkers.py:391-540): an object is cut between its entries and an array
    between its elements, by one greedy packing of pre-sized items; a scalar document is one
    chunk, and text that does not parse goes to TextChunker. */
module JsonChunker {
  import opened Wrappers
  import opened Values
  import opened Dicts
  import opened Records
  import opened Library
  import TextChunker

  // ---------------------------------------------------------------------------
  // Greedy packing (`_process_dict`, chunkers.py:428-482, and `_process_list`,
  // chunkers.py:484-538, which differ only in how an item is sized and serialized)

  /** An emitted chunk: a packed group (`json.dumps(current_chunk)`), or an item that did not
      fit when the group was empty, emitted on its own (`item_str`). */
  datatype Group<T> = Packed(items: seq<T>) | Alone(item: T)

  /** `current_chunk` and `current_size`, with the groups emitted so far. */
  datatype PackState<T> = PackState(groups: seq<Group<T>>, current: seq<T>, size: int)

  /** One iteration of the item loop. */
  function PackStep<T>(st: PackState<T>, item: T, itemSize: int, chunkSize: int): PackState<T> {
    if st.size + itemSize <= chunkSize then st.(current := st.current + [item], size := st.size + itemSize)
    else if |st.current| > 0 then PackState(st.groups + [Packed(st.current)], [item], itemSize)
    else st.(groups := st.groups + [Alone(item)])
  }

  /** The state after the loop over `items`. */
  function PackFold<T>(items: seq<T>, size: T -> nat, chunkSize: int): PackState<T> {
    if items == [] then PackState([], [], 0)
    else
      var last := items[|items| - 1];
      PackStep(PackFold(items[..|items| - 1], size, chunkSize), last, size(last), chunkSize)
  }

  /** Every group, the last one included. */
  function Pack<T>(items: seq<T>, size: T -> nat, chunkSize: int): seq<Group<T>> {
    var st := PackFold(items, size, chunkSize);
    if |st.current| > 0 then st.groups + [Packed(st.current)] else st.groups
  }

  /** The records for `groups`, appended to the caller's list, each with `chunk_type` "json"
      and its position in that list. */
  function EmitGroups<T>(chunks: seq<Chunk>, groups: seq<Group<T>>, render: Group<T> -> string): seq<Chunk> {
    if groups == [] then chunks
    else Emit(EmitGroups(chunks, groups[..|groups| - 1], render), render(groups[|groups| - 1]), "json")
  }

  /** The loop both `_process_dict` and `_process_list` run, appending to the caller's list. */
  method PackItems<T>(items: seq<T>, size: T -> nat, render: Group<T> -> string, chunks0: seq<Chunk>, chunkSize: int)
    returns (chunks: seq<Chunk>)
    ensures chunks == EmitGroups(chunks0, Pack(items, size, chunkSize), render)
  {
    chunks := chunks0;
    var current: seq<T> := [];
    var currentSize := 0;
    ghost var groups: seq<Group<T>> := [];
    for i := 0 to |items|
      invariant PackState(groups, current, currentSize) == PackFold(items[..i], size, chunkSize)
      invariant chunks == EmitGroups(chunks0, groups, render)
    {
      assert items[..i + 1][..i] == items[..i];
      var item := items[i];
      var itemSize := size(item);
      if currentSize + itemSize <= chunkSize {
        current := current + [item];
        currentSize := currentSize + itemSize;
      } else if |current| > 0 {
        chunks := chunks + [Record(render(Packed(current)), "json", |chunks|)];
        assert (groups + [Packed(current)])[..|groups|] == groups;
        groups := groups + [Packed(current)];
        current := [item];
        currentSize := itemSize;
      } else {
        chunks := chunks + [Record(render(Alone(item)), "json", |chunks|)];
        assert (groups + [Alone(item)])[..|groups|] == groups;
        groups := groups + [Alone(item)];
      }
    }
    assert items[..|items|] == items;
    if |current| > 0 {
      chunks := chunks + [Record(render(Packed(current)), "json", |chunks|)];
      assert (groups + [Packed(current)])[..|groups|] == groups;
      groups := groups + [Packed(current)];
    }
  }

  // ---------------------------------------------------------------------------
  // Objects and arrays

  /** A key and its value, as `json_dict.items()` yields them. */
  type Entry = (string, Json)

  /** `item_str` for an object entry: `json.dumps({key: value})`. */
  function EntryText(lib: Lib, entry: Entry): string {
    lib.dumps(JObject([entry]))
  }

  function EntrySize(lib: Lib): Entry -> nat {
    entry => |EntryText(lib, entry)|
  }

  function EntryGroupText(lib: Lib, g: Group<Entry>): string {
    match g
    case Packed(entries) => lib.dumps(JObject(entries))
    case Alone(entry) => EntryText(lib, entry)
  }

  function ElementSize(lib: Lib): Json -> nat {
    element => |lib.dumps(element)|
  }

  function ElementGroupText(lib: Lib, g: Group<Json>): string {
    match g
    case Packed(elements) => lib.dumps(JArray(elements))
    case Alone(element) => lib.dumps(element)
  }

  function EntryRender(lib: Lib): Group<Entry> -> string {
    g => EntryGroupText(lib, g)
  }

  function ElementRender(lib: Lib): Group<Json> -> string {
    g => ElementGroupText(lib, g)
  }

  /** `_process_dict`. */
  method ProcessDict(lib: Lib, entries: seq<Entry>, chunks0: seq<Chunk>, chunkSize: int) returns (chunks: seq<Chunk>)
    ensures chunks == EmitGroups(chunks0, Pack(entries, EntrySize(lib), chunkSize), EntryRender(lib))
  {
    chunks := PackItems(entries, EntrySize(lib), EntryRender(lib), chunks0, chunkSize);
  }

  /** `_process_list`. */
  method ProcessList(lib: Lib, elements: seq<Json>, chunks0: seq<Chunk>, chunkSize: int) returns (chunks: seq<Chunk>)
    ensures chunks == EmitGroups(chunks0, Pack(elements, ElementSize(lib), chunkSize), ElementRender(lib))
  {
    chunks := PackItems(elements, ElementSize(lib), ElementRender(lib), chunks0, chunkSize);
  }

  /** What `JsonChunker().chunk(content, chunk_size, chunk_overlap)` returns. The overlap only
      matters, and only has to be below the chunk size, when the text does not parse. */
  function JsonChunks(lib: Lib, content: string, chunkSize: int, chunkOverlap: int): seq<Chunk>
    requires lib.parseJson(content).None? ==> 0 <= chunkOverlap < chunkSize
  {
    match lib.parseJson(content)
    case None => TextChunker.TextChunks(lib, content, chunkSize, chunkOverlap)
    case Some(JObject(entries)) => EmitGroups([], Pack(entries, EntrySize(lib), chunkSize), EntryRender(lib))
    case Some(JArray(elements)) => EmitGroups([], Pack(elements, ElementSize(lib), chunkSize), ElementRender(lib))
    case Some(_) => [Chunk(content, [("chunk_type", Validate(Str("json"))), ("chunk_index", Int(0))])]
  }

  method JsonChunk(lib: Lib, content: string, chunkSize: int, chunkOverlap: int) returns (chunks: seq<Chunk>)
    requires lib.parseJson(content).None? ==> 0 <= chunkOverlap < chunkSize
    ensures chunks == JsonChunks(lib, content, chunkSize, chunkOverlap)
  {
    var parsed := lib.parseJson(content);
    if parsed.None? {
      chunks := TextChunker.TextChunk(lib, content, chunkSize, chunkOverlap);
      return;
    }
    chunks := [];
    match parsed.value
    case JObject(entries) =>
      chunks := ProcessDict(lib, entries, chunks, chunkSize);
    case JArray(elements) =>
      chunks := ProcessList(lib, elements, chunks, chunkSize);
    case _ =>
      chunks := chunks + [Chunk(content, [("chunk_type", Validate(Str("json"))), ("chunk_index", Int(0))])];
  }

  // ---------------------------------------------------------------------------
  // Properties of the packing

  /** The items of the groups, one after the other. */
  function Flatten<T>(groups: seq<Group<T>>): seq<T> {
    if groups == [] then []
    else Flatten(groups[..|groups| - 1]) + Members(groups[|groups| - 1])
  }

  function Members<T>(g: Group<T>): seq<T> {
    match g
    case Packed(items) => items
    case Alone(item) => [item]
  }

  /** The sum of the item sizes: what `current_size` adds up. */
  function SizeSum<T>(items: seq<T>, size: T -> nat): int {
    if items == [] then 0 else SizeSum(items[..|items| - 1], size) + size(items[|items| - 1])
  }

  /** A packed group is non-empty and, once it holds two items or more, within the chunk size;
      an item emitted alone is larger than the chunk size. */
  predicate GroupOk<T>(g: Group<T>, size: T -> nat, chunkSize: int) {
    match g
    case Packed(items) => |items| > 0 && (|items| >= 2 ==> SizeSum(items, size) <= chunkSize)
    case Alone(item) => size(item) > chunkSize
  }

  /** A packed group was closed because the next item did not fit beside it. */
  predicate ClosedGreedily<T>(g: Group<T>, next: T, size: T -> nat, chunkSize: int) {
    g.Packed? ==> SizeSum(g.items, size) + size(next) > chunkSize
  }

  /** The group before position `k` is an item emitted alone, or there is none: the group at
      `k` was started with `current_chunk` empty. */
  predicate StartsEmpty<T>(groups: seq<Group<T>>, k: int)
    requires 0 <= k < |groups|
  {
    k == 0 || groups[k - 1].Alone?
  }

  /** Every group is well formed; every packed group but the last was closed greedily; an item
      is emitted alone only when `current_chunk` is empty; and a packed group started with
      `current_chunk` empty opens with an item that fits. */
  ghost predicate GroupsOk<T>(groups: seq<Group<T>>, size: T -> nat, chunkSize: int) {
    && (forall k :: 0 <= k < |groups| ==> GroupOk(groups[k], size, chunkSize))
    && (forall k :: 0 < k < |groups| ==>
          |Members(groups[k])| > 0 && ClosedGreedily(groups[k - 1], Members(groups[k])[0], size, chunkSize))
    && (forall k :: 0 <= k < |groups| && groups[k].Alone? ==> StartsEmpty(groups, k))
    && (forall k :: 0 <= k < |groups| && groups[k].Packed? && StartsEmpty(groups, k) ==>
          size(groups[k].items[0]) <= chunkSize)
  }

  /** A last packed group is followed by the group being built, whose first item closed it;
      a group being built after an item emitted alone, or first, opens with an item that fits. */
  ghost predicate TailOk<T>(groups: seq<Group<T>>, current: seq<T>, size: T -> nat, chunkSize: int) {
    && (|groups| > 0 && groups[|groups| - 1].Packed? ==>
          |current| > 0 && ClosedGreedily(groups[|groups| - 1], current[0], size, chunkSize))
    && (|current| > 0 && (|groups| == 0 || groups[|groups| - 1].Alone?) ==> size(current[0]) <= chunkSize)
  }

  /** What holds after the loop has read `items`. */
  ghost predicate PackInv<T>(items: seq<T>, st: PackState<T>, size: T -> nat, chunkSize: int) {
    && Flatten(st.groups) + st.current == items
    && st.size == SizeSum(st.current, size)
    && (|st.current| >= 2 ==> st.size <= chunkSize)
    && GroupsOk(st.groups, size, chunkSize)
    && TailOk(st.groups, st.current, size, chunkSize)
  }

  lemma FlattenSnoc<T>(groups: seq<Group<T>>, g: Group<T>)
    ensures Flatten(groups + [g]) == Flatten(groups) + Members(g)
  {
    assert (groups + [g])[..|groups|] == groups;
  }

  lemma SizeSumSnoc<T>(items: seq<T>, item: T, size: T -> nat)
    ensures SizeSum(items + [item], size) == SizeSum(items, size) + size(item)
  {
    assert (items + [item])[..|items|] == items;
  }

  /** Closing a group: a well-formed group added after a last group it closes keeps them ok. */
  lemma GroupsSnoc<T>(groups: seq<Group<T>>, g: Group<T>, size: T -> nat, chunkSize: int)
    requires GroupsOk(groups, size, chunkSize) && GroupOk(g, size, chunkSize)
    requires |groups| > 0 ==> |Members(g)| > 0 && ClosedGreedily(groups[|groups| - 1], Members(g)[0], size, chunkSize)
    requires g.Alone? ==> |groups| == 0 || groups[|groups| - 1].Alone?
    requires g.Packed? && (|groups| == 0 || groups[|groups| - 1].Alone?) ==> size(g.items[0]) <= chunkSize
    ensures GroupsOk(groups + [g], size, chunkSize)
  {
    var groups' := groups + [g];
    forall k | 0 <= k < |groups'| && groups'[k].Alone?
      ensures StartsEmpty(groups', k)
    {
      if k < |groups| {
        assert StartsEmpty(groups, k);
      }
    }
    forall k | 0 <= k < |groups'| && groups'[k].Packed? && StartsEmpty(groups', k)
      ensures size(groups'[k].items[0]) <= chunkSize
    {
      if k < |groups| {
        assert StartsEmpty(groups, k);
      }
    }
    forall k | 0 < k < |groups'|
      ensures |Members(groups'[k])| > 0 && ClosedGreedily(groups'[k - 1], Members(groups'[k])[0], size, chunkSize)
    {
      if k < |groups| {
        assert groups'[k - 1] == groups[k - 1] && groups'[k] == groups[k];
      }
    }
  }

  lemma FitsKeeps<T>(items: seq<T>, st: PackState<T>, item: T, size: T -> nat, chunkSize: int)
    requires PackInv(items, st, size, chunkSize) && st.size + size(item) <= chunkSize
    ensures PackInv(items + [item], st.(current := st.current + [item], size := st.size + size(item)), size, chunkSize)
  {
    SizeSumSnoc(st.current, item, size);
    assert Flatten(st.groups) + (st.current + [item]) == (Flatten(st.groups) + st.current) + [item];
    if |st.current| > 0 {
      assert (st.current + [item])[0] == st.current[0];
    }
  }

  lemma ClosesKeeps<T>(items: seq<T>, st: PackState<T>, item: T, size: T -> nat, chunkSize: int)
    requires PackInv(items, st, size, chunkSize) && st.size + size(item) > chunkSize && |st.current| > 0
    ensures PackInv(items + [item], PackState(st.groups + [Packed(st.current)], [item], size(item)), size, chunkSize)
  {
    FlattenSnoc(st.groups, Packed(st.current));
    SizeSumSnoc([], item, size);
    assert [] + [item] == [item];
    assert Flatten(st.groups) + st.current + [item] == (Flatten(st.groups) + st.current) + [item];
    GroupsSnoc(st.groups, Packed(st.current), size, chunkSize);
  }

  lemma AloneKeeps<T>(items: seq<T>, st: PackState<T>, item: T, size: T -> nat, chunkSize: int)
    requires PackInv(items, st, size, chunkSize) && st.size + size(item) > chunkSize && |st.current| == 0
    ensures PackInv(items + [item], st.(groups := st.groups + [Alone(item)]), size, chunkSize)
  {
    FlattenSnoc(st.groups, Alone(item));
    assert st.current == [];
    GroupsSnoc(st.groups, Alone(item), size, chunkSize);
  }

  lemma PackStepKeeps<T>(items: seq<T>, st: PackState<T>, item: T, size: T -> nat, chunkSize: int)
    requires PackInv(items, st, size, chunkSize)
    ensures PackInv(items + [item], PackStep(st, item, size(item), chunkSize), size, chunkSize)
  {
    if st.size + size(item) <= chunkSize {
      FitsKeeps(items, st, item, size, chunkSize);
    } else if |st.current| > 0 {
      ClosesKeeps(items, st, item, size, chunkSize);
    } else {
      AloneKeeps(items, st, item, size, chunkSize);
    }
  }

  lemma {:induction false} PackFoldKeeps<T>(items: seq<T>, size: T -> nat, chunkSize: int)
    ensures PackInv(items, PackFold(items, size, chunkSize), size, chunkSize)
  {
    if items == [] {
      PackInvStart(size, chunkSize);
    } else {
      var init := items[..|items| - 1];
      var last := items[|items| - 1];
      assert init + [last] == items;
      PackFoldKeeps(init, size, chunkSize);
      PackStepKeeps(init, PackFold(init, size, chunkSize), last, size, chunkSize);
    }
  }

  lemma PackInvStart<T>(size: T -> nat, chunkSize: int)
    ensures PackInv([], PackState([], [], 0), size, chunkSize)
  {
    assert Flatten<T>([]) + [] == [];
  }

  /** Every item lands in exactly one chunk, in input order; every packed group is non-empty
      and, from two items on, within the chunk size; every item emitted alone is larger than
      the chunk size; and every packed group but the last was closed by an item that did not
      fit beside it. */
  lemma PackShape<T>(items: seq<T>, size: T -> nat, chunkSize: int)
    ensures Flatten(Pack(items, size, chunkSize)) == items
    ensures GroupsOk(Pack(items, size, chunkSize), size, chunkSize)
  {
    var st := PackFold(items, size, chunkSize);
    PackFoldKeeps(items, size, chunkSize);
    if |st.current| > 0 {
      FlattenSnoc(st.groups, Packed(st.current));
      GroupsSnoc(st.groups, Packed(st.current), size, chunkSize);
    }
  }

  /** An oversized item that comes straight after a packed group opens a group of its own
      (`json.dumps([item])`), while one that comes first is emitted alone (`item_str`). */
  lemma OversizedItemPlacement<T>(a: T, b: T, size: T -> nat, chunkSize: int)
    requires size(a) <= chunkSize < size(b)
    ensures Pack([a, b], size, chunkSize) == [Packed([a]), Packed([b])]
    ensures Pack([b], size, chunkSize) == [Alone(b)]
  {
    assert [a, b][..1] == [a];
    assert [a][..0] == [];
    assert [b][..0] == [];
    var empty := PackState([], [], 0);
    assert PackFold([a], size, chunkSize) == PackStep(empty, a, size(a), chunkSize) == PackState([], [a], size(a));
    assert PackFold([a, b], size, chunkSize) == PackState([Packed([a])], [b], size(b));
    assert PackFold([b], size, chunkSize) == PackStep(empty, b, size(b), chunkSize) == PackState([Alone(b)], [], 0);
  }

  // ---------------------------------------------------------------------------
  // Properties of the records

  /** The records appended for `groups` come after the caller's, in group order, each the plain
      "json" record for its position. */
  lemma {:induction false} EmitGroupsShape<T>(chunks: seq<Chunk>, groups: seq<Group<T>>, render: Group<T> -> string)
    ensures var r := EmitGroups(chunks, groups, render);
            |r| == |chunks| + |groups| && r[..|chunks|] == chunks &&
            forall k :: 0 <= k < |groups| ==> r[|chunks| + k] == Record(render(groups[k]), "json", |chunks| + k)
  {
    if groups != [] {
      EmitGroupsShape(chunks, groups[..|groups| - 1], render);
    }
  }

  /** The records for a packing are the plain "json" records 0..n-1 of its groups, in order. */
  lemma PackedRecords<T>(items: seq<T>, size: T -> nat, render: Group<T> -> string, chunkSize: int)
    ensures var groups := Pack(items, size, chunkSize);
            var r := EmitGroups([], groups, render);
            PlainRecords(r, "json") && Positioned(r) && Flatten(groups) == items && |r| == |groups| &&
            forall k :: 0 <= k < |r| ==> r[k].content == render(groups[k])
  {
    var groups := Pack(items, size, chunkSize);
    var none: seq<Chunk> := [];
    var r := EmitGroups(none, groups, render);
    PackShape(items, size, chunkSize);
    EmitGroupsShape(none, groups, render);
    forall k | 0 <= k < |r|
      ensures r[k] == Record(r[k].content, "json", k) && r[k].content == render(groups[k])
    {
      assert r[|none| + k] == Record(render(groups[k]), "json", |none| + k);
    }
    PlainRecordsPositioned(r, "json");
  }

  /** A parsed object gives the "json" records 0..n-1 of its entry groups, whose entries
      together are the object's, in order. */
  lemma ObjectChunks(lib: Lib, content: string, chunkSize: int, chunkOverlap: int)
    requires lib.parseJson(content).Some? && lib.parseJson(content).value.JObject?
    ensures var entries := lib.parseJson(content).value.entries;
            var groups := Pack(entries, EntrySize(lib), chunkSize);
            var r := JsonChunks(lib, content, chunkSize, chunkOverlap);
            PlainRecords(r, "json") && Positioned(r) && Flatten(groups) == entries && |r| == |groups| &&
            forall k :: 0 <= k < |r| ==> r[k].content == EntryGroupText(lib, groups[k])
  {
    var entries := lib.parseJson(content).value.entries;
    PackedRecords(entries, EntrySize(lib), EntryRender(lib), chunkSize);
    assert JsonChunks(lib, content, chunkSize, chunkOverlap) == EmitGroups([], Pack(entries, EntrySize(lib), chunkSize), EntryRender(lib));
  }

  /** A parsed array gives the "json" records 0..n-1 of its element groups, whose elements
      together are the array's, in order. */
  lemma ArrayChunks(lib: Lib, content: string, chunkSize: int, chunkOverlap: int)
    requires lib.parseJson(content).Some? && lib.parseJson(content).value.JArray?
    ensures var elements := lib.parseJson(content).value.elements;
            var groups := Pack(elements, ElementSize(lib), chunkSize);
            var r := JsonChunks(lib, content, chunkSize, chunkOverlap);
            PlainRecords(r, "json") && Positioned(r) && Flatten(groups) == elements && |r| == |groups| &&
            forall k :: 0 <= k < |r| ==> r[k].content == ElementGroupText(lib, groups[k])
  {
    var elements := lib.parseJson(content).value.elements;
    PackedRecords(elements, ElementSize(lib), ElementRender(lib), chunkSize);
    assert JsonChunks(lib, content, chunkSize, chunkOverlap) == EmitGroups([], Pack(elements, ElementSize(lib), chunkSize), ElementRender(lib));
  }

  /** A scalar document is one chunk holding the original text verbatim, at index 0. */
  lemma ScalarDocument(lib: Lib, content: string, chunkSize: int, chunkOverlap: int)
    requires lib.parseJson(content).Some? && !lib.parseJson(content).value.JObject? && !lib.parseJson(content).value.JArray?
    ensures JsonChunks(lib, content, chunkSize, chunkOverlap) == [Record(content, "json", 0)]
  {
  }

  /** Text that does not parse is chunked exactly as TextChunker chunks it. */
  lemma DecodeErrorFallsBack(lib: Lib, content: string, chunkSize: int, chunkOverlap: int)
    requires lib.parseJson(content).None? && 0 <= chunkOverlap < chunkSize
    ensures JsonChunks(lib, content, chunkSize, chunkOverlap) == TextChunker.TextChunks(lib, content, chunkSize, chunkOverlap)
  {
  }
}
