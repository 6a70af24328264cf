/** A parsed JSON value, as `json.loads` hands it to the corpus preparation
    code, and the dynamic Python operations that code applies to it: the
    `key in value` test, the `value[key]` subscript and the type name used in
    error messages. Reading and parsing the file are not part of this model. */
module Json {
  import opened Python

  /** `null`, a string, an integer, a floating-point number, a boolean, an
      array or an object. An object is a dictionary: its key order plays no
      part in anything modelled here. */
  datatype Value =
    | Null
    | Str(s: string)
    | Int(i: int)
    | Float(x: real)
    | Bool(b: bool)
    | List(items: seq<Value>)
    | Dict(fields: map<string, Value>)

  /** The smallest and largest values of a Python 2 `int` on a 64-bit
      platform (`-sys.maxint - 1` and `sys.maxint`); `json.loads` turns a
      number outside them into a `long`. */
  const MinInt: int := -0x8000_0000_0000_0000
  const MaxInt: int := 0x7FFF_FFFF_FFFF_FFFF

  /** The name Python 2 gives to the type of the value (`type(v).__name__`);
      `json.loads` produces `unicode` strings, and `long` for an integer that
      does not fit in an `int`. */
  function TypeName(v: Value): (name: string)
    ensures name != []
  {
    match v
    case Null => "NoneType"
    case Str(_) => "unicode"
    case Int(i) => if MinInt <= i <= MaxInt then "int" else "long"
    case Float(_) => "float"
    case Bool(_) => "bool"
    case List(_) => "list"
    case Dict(_) => "dict"
  }

  /** The type names that appear in error messages: a JSON integer is an
      `int` within the machine range and a `long` beyond it. */
  lemma ScalarTypeNames(v: Value)
    ensures v.Int? && MinInt <= v.i <= MaxInt ==> TypeName(v) == "int"
    ensures v.Int? && !(MinInt <= v.i <= MaxInt) ==> TypeName(v) == "long"
    ensures v.Float? ==> TypeName(v) == "float"
    ensures v.Bool? ==> TypeName(v) == "bool"
    ensures v.Null? ==> TypeName(v) == "NoneType"
    ensures v.Str? ==> TypeName(v) == "unicode"
  {
  }

  /** `needle` occurs in `hay` starting at position `i`. */
  predicate OccursAt(needle: string, hay: string, i: int) {
    0 <= i <= |hay| - |needle| && hay[i..i + |needle|] == needle
  }

  /** `needle` occurs as a contiguous piece of `hay`. */
  predicate IsSubstring(needle: string, hay: string) {
    exists i | 0 <= i <= |hay| - |needle| :: OccursAt(needle, hay, i)
  }

  /** Python's `key in v` for a string `key`: a dictionary tests its keys, a
      list its elements, a string its substrings; `None` and the scalars are
      not iterable and raise TypeError. */
  function Contains(v: Value, key: string): (r: Result<bool>)
    ensures v.Dict? ==> r == Ok(key in v.fields)
    ensures v.List? ==> r == Ok(Str(key) in v.items)
    ensures v.Str? ==> r == Ok(IsSubstring(key, v.s))
    ensures r.Raise? <==> !(v.Dict? || v.List? || v.Str?)
    ensures r.Raise? ==> r.error == TypeError("argument of type '" + TypeName(v) + "' is not iterable")
  {
    match v
    case Dict(m) => Ok(key in m)
    case List(xs) => Ok(Str(key) in xs)
    case Str(s) => Ok(IsSubstring(key, s))
    case _ => Raise(TypeError("argument of type '" + TypeName(v) + "' is not iterable"))
  }

  /** Python's `v[key]` for a `str` key (the keys the preparation code uses
      are byte-string literals): a dictionary looks the key up and raises
      KeyError when it is missing; every other value rejects a string index
      with TypeError. */
  function Subscript(v: Value, key: string): (r: Result<Value>)
    ensures r.Ok? <==> v.Dict? && key in v.fields
    ensures r.Ok? ==> r.value == v.fields[key]
    ensures v.Dict? && key !in v.fields ==> r == Raise(KeyError(key))
    ensures !v.Dict? ==> r.Raise? && r.error.TypeError?
  {
    match v
    case Dict(m) => if key in m then Ok(m[key]) else Raise(KeyError(key))
    case Str(_) => Raise(TypeError("string indices must be integers"))
    case List(_) => Raise(TypeError("list indices must be integers, not str"))
    case _ => Raise(TypeError("'" + TypeName(v) + "' object has no attribute '__getitem__'"))
  }
}
