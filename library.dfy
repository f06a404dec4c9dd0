/** What the chunkers take from the libraries they call (the regex engine, BeautifulSoup and
    the json module). None of them is modelled; each appears as a total function supplied
    by the caller, and everything proved holds whatever those functions are. */
module Library {
  import opened Wrappers

  /** A JSON document as `json.loads` returns it; an object keeps its keys in order. */
  datatype Json =
    | JNull
    | JBool(b: bool)
    | JNumber(text: string)
    | JString(s: string)
    | JArray(elements: seq<Json>)
    | JObject(entries: seq<(string, Json)>)

  /** `soup.title`: absent, or present with or without a single `.string`. */
  datatype TitleTag = NoTitle | Title(text: Option<string>)

  /** A `<meta>` tag's `name` and `content` attributes; an absent attribute reads as "". */
  datatype MetaTag = MetaTag(name: string, content: string)

  /** One element found by `soup.find_all(tag)`: its `get_text(separator=' ', strip=True)`,
      its `id` attribute and its (multi-valued) `class` attribute. */
  datatype Section = Section(text: string, id: Option<string>, classes: Option<seq<string>>)

  /** The parsed page as HTMLChunker sees it. `findAll(tag)` lists the elements with that tag
      in document order; `text` is `soup.get_text(separator='\n', strip=True)`. */
  datatype Page = Page(title: TitleTag, metas: seq<MetaTag>, findAll: string -> seq<Section>, text: string)

  datatype Lib = Lib(
    /** `re.search(pattern, content, re.IGNORECASE)` finds a match. */
    search: (string, string) -> bool,
    /** `re.split(r'\n\s*\n', content)`. */
    splitParagraphs: string -> seq<string>,
    /** `re.split(r'(?<=[.!?])\s+', paragraph)`. */
    splitSentences: string -> seq<string>,
    /** `BeautifulSoup(content, 'html.parser')`. */
    parseHtml: string -> Page,
    /** `json.loads(content)`; `None` stands for a `JSONDecodeError`. */
    parseJson: string -> Option<Json>,
    /** `json.dumps(value)`. */
    dumps: Json -> string)

  /** The index of the first pattern, from `start` on, that `content` matches. */
  function FirstMatch(lib: Lib, patterns: seq<string>, content: string, start: nat): (r: Option<nat>)
    ensures r.Some? ==> start <= r.value < |patterns| && lib.search(patterns[r.value], content)
    ensures r.Some? ==> forall j :: start <= j < r.value ==> !lib.search(patterns[j], content)
    ensures r.None? <==> forall j :: start <= j < |patterns| ==> !lib.search(patterns[j], content)
    decreases |patterns| - start
  {
    if start >= |patterns| then None
    else if lib.search(patterns[start], content) then Some(start)
    else FirstMatch(lib, patterns, content, start + 1)
  }
}
