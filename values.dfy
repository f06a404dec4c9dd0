/** Python values that reach chunk metadata, and the coercion every chunker applies to them
    before they are stored (`_validate_metadata_value`). */
module Values {
  import opened Strings

  /** A Python value as far as metadata is concerned. A float keeps its literal text, and a
      value of any other type keeps the text `str()` gives for it. */
  datatype Value =
    | Null
    | Str(s: string)
    | Int(i: int)
    | Float(text: string)
    | Bool(b: bool)
    | List(items: seq<Value>)
    | Other(text: string)

  /** The values a metadata store accepts: str, int, float, bool or None. */
  predicate IsScalar(v: Value) {
    v.Null? || v.Str? || v.Int? || v.Float? || v.Bool?
  }

  /** `str(v)`. */
  function PyStr(v: Value): string
    decreases v, 0
  {
    match v
    case Null => "None"
    case Str(s) => s
    case Int(i) => IntToDecimal(i)
    case Float(text) => text
    case Bool(b) => if b then "True" else "False"
    case List(items) => "[" + Join(", ", seq(|items|, k requires 0 <= k < |items| => PyRepr(items[k]))) + "]"
    case Other(text) => text
  }

  /** `repr(v)`, as `str` uses it for the elements of a list. */
  function PyRepr(v: Value): string
    decreases v, 1
  {
    match v
    case Str(s) => "'" + s + "'"
    case _ => PyStr(v)
  }

  /** `_validate_metadata_value`: scalars pass through unchanged, a list becomes the
      space-separated `str` of its elements, anything else becomes its `str`. */
  function Validate(v: Value): (r: Value)
    ensures IsScalar(r)
    ensures IsScalar(v) ==> r == v
    ensures !IsScalar(v) ==> r.Str?
    ensures v.Other? ==> r == Str(PyStr(v))
  {
    match v
    case List(items) => Str(Join(" ", seq(|items|, k requires 0 <= k < |items| => PyStr(items[k]))))
    case Other(text) => Str(text)
    case _ => v
  }

  /** Validating twice is validating once. */
  lemma ValidateIdempotent(v: Value)
    ensures Validate(Validate(v)) == Validate(v)
  {
  }

  /** A list of strings is validated to the strings joined by single spaces (how a
      multi-valued HTML attribute such as `class` is stored). */
  lemma {:induction false} ValidateStringList(names: seq<string>)
    ensures Validate(List(seq(|names|, k requires 0 <= k < |names| => Str(names[k])))) == Str(Join(" ", names))
  {
    var items := seq(|names|, k requires 0 <= k < |names| => Str(names[k]));
    var strs := seq(|items|, k requires 0 <= k < |items| => PyStr(items[k]));
    assert strs == names;
  }
}
