/** Values, documents and collections as the replicator sees them. */
module Documents {
  import opened Common

  /** The Go types of integers: `int` in loaded configurations, `int32` and `int64` in decoded documents. */
  datatype Width = Platform | Bits32 | Bits64

  function MaxOf(width: Width): int {
    if width == Bits32 then 0x7fff_ffff else 0x7fff_ffff_ffff_ffff
  }

  function MinOf(width: Width): int {
    -MaxOf(width) - 1
  }

  /** The integers of the type; a loaded `int` has 64 bits. */
  predicate Fits(width: Width, i: int) {
    MinOf(width) <= i <= MaxOf(width)
  }

  /** A value as Go holds it after decoding.  Floats are exact reals. */
  datatype Value =
    | Null
    | Bool(b: bool)
    | Int(width: Width, i: int)
    | Float(f: real)
    | Str(s: string)
    | List(items: seq<Value>)
    | Doc(fields: map<string, Value>)

  /** A value a decoded document can hold. */
  predicate Stored(v: Value) {
    v.Int? ==> v.width != Platform && Fits(v.width, v.i)
  }

  type Document = map<string, Value>

  /** A MongoDB collection, indexed by `_id`. */
  type Collection = map<Value, Document>

  const ID := "_id"

  function Get(c: Collection, key: Value): Option<Document> {
    if key in c then Some(c[key]) else None
  }
}
