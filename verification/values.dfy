/** The values that travel through an export: cells, records and the
    configuration array handed to `build` and `buildFromBuilder`. */
module Values {

  datatype Option<+T> = None | Some(value: T)

  /** A PHP scalar as it reaches the CSV writer (floats are not modelled). */
  datatype Value = Null | Flag(b: bool) | Num(n: int) | Text(s: string)

  /** A record after normalisation: a string-keyed associative array. */
  type Record = map<string, Value>

  /** The `$config` array: `header` and `chunk` are the keys the exporter reads. */
  type Config = map<string, Value>

  /** Concatenation is associative; stated over an arbitrary element type so
      that proofs about rows never compare the rows' cells. */
  lemma AppendAssoc<T>(a: seq<T>, b: seq<T>, c: seq<T>)
    ensures (a + b) + c == a + (b + c)
  {
  }

  /** The empty sequence is a left unit of concatenation. */
  lemma EmptyAppend<T>(a: seq<T>)
    ensures [] + a == a
  {
  }

  /** `Arr::get` on a plain key: the stored value, or `default` when the key is absent.
      A key that is present but holds null yields null, not the default. */
  function Get(m: map<string, Value>, key: string, default: Value): Value
  {
    if key in m then m[key] else default
  }
}
