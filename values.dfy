/** The document and record shapes shared by the retrieval servers and formatters. */
module Values {
  import opened Wrappers
  import Text

  /** A metadata value as the vector store hands it back: a string, an int, or any
      other scalar (float, bool), kept as the text Python's `str()` gives for it. */
  datatype Value = Str(s: string) | Int(i: int) | Other(text: string)

  type Metadata = map<string, Value>

  /** `str(v)`, the text an f-string interpolates. */
  function Show(v: Value): (r: string)
    ensures v.Str? ==> r == v.s
  {
    match v
    case Str(s) => s
    case Int(i) => Text.IntToString(i)
    case Other(t) => t
  }

  /** A library `Document`: its text and its metadata dict. */
  datatype Doc = Doc(content: string, metadata: Metadata)

  /** A search record as a dict: each field may be missing (`None` here), so that the
      `.get(key, default)` lookups of the code that reads records can be stated. */
  datatype Record = Record(
    metadata: Option<Metadata>,
    score: Option<real>,
    title: Option<Value>,
    content: Option<string>)

  /** `m.get(k, default)`. */
  function GetOr(m: Metadata, k: string, default: Value): Value {
    if k in m then m[k] else default
  }

  /** Python's `s[:k]`: a negative `k` counts from the end. */
  function SliceTo<T>(s: seq<T>, k: int): (r: seq<T>)
    ensures |r| <= |s| && r == s[..|r|]
    ensures k >= 0 ==> |r| == if k <= |s| then k else |s|
    ensures k < 0 ==> |r| == if |s| + k >= 0 then |s| + k else 0
  {
    if k >= 0 then (if k <= |s| then s[..k] else s)
    else if |s| + k >= 0 then s[..|s| + k]
    else []
  }
}
