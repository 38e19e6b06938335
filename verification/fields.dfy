/** The field spec and its split into data paths and column titles
    (`getDataFields` / `getHeaderFields` in src/Export.php). */
module Fields {

  /** One entry of the field array: `'path'` (an integer key) or
      `'path' => 'Display Name'` (a string key). */
  datatype FieldEntry = Plain(path: string) | Renamed(path: string, display: string)

  /** The value stored for an entry in the field array, which is its column title. */
  function Title(e: FieldEntry): string
  {
    match e
    case Plain(p) => p
    case Renamed(_, d) => d
  }

  /** `getHeaderFields`: the values of the field array in declaration order. */
  function HeaderFields(fields: seq<FieldEntry>): (titles: seq<string>)
    ensures |titles| == |fields|
    ensures forall i :: 0 <= i < |fields| && fields[i].Plain? ==> titles[i] == fields[i].path
    ensures forall i :: 0 <= i < |fields| && fields[i].Renamed? ==> titles[i] == fields[i].display
  {
    if fields == [] then [] else [Title(fields[0])] + HeaderFields(fields[1..])
  }

  /** What `getDataFields` returns: the source path of every entry, in declaration order. */
  function DataFields(fields: seq<FieldEntry>): (paths: seq<string>)
    ensures |paths| == |fields|
    ensures forall i :: 0 <= i < |fields| ==> paths[i] == fields[i].path
  {
    if fields == [] then [] else [fields[0].path] + DataFields(fields[1..])
  }

  /** The entry that yields column `path` titled `title`: an entry whose title
      is its own path is written without a key. */
  function Entry(path: string, title: string): FieldEntry
  {
    if path == title then Plain(path) else Renamed(path, title)
  }

  /** Rebuilds a field spec from the parallel path and title lists. */
  function Pair(paths: seq<string>, titles: seq<string>): (fields: seq<FieldEntry>)
    requires |paths| == |titles|
    ensures |fields| == |paths|
  {
    if paths == [] then [] else [Entry(paths[0], titles[0])] + Pair(paths[1..], titles[1..])
  }

  /** Pairing two lists and splitting the result gives the two lists back. */
  lemma {:induction false} PairThenSplit(paths: seq<string>, titles: seq<string>)
    requires |paths| == |titles|
    ensures DataFields(Pair(paths, titles)) == paths
    ensures HeaderFields(Pair(paths, titles)) == titles
  {
    if paths != [] {
      PairThenSplit(paths[1..], titles[1..]);
      assert Pair(paths, titles)[1..] == Pair(paths[1..], titles[1..]);
    }
  }

  /** The split loses nothing: a spec with no redundant rename
      (`'id' => 'id'`) is recovered from its two lists. */
  lemma {:induction false} SplitThenPair(fields: seq<FieldEntry>)
    requires forall i :: 0 <= i < |fields| && fields[i].Renamed? ==> fields[i].display != fields[i].path
    ensures Pair(DataFields(fields), HeaderFields(fields)) == fields
  {
    if fields != [] {
      SplitThenPair(fields[1..]);
      assert DataFields(fields)[1..] == DataFields(fields[1..]);
      assert HeaderFields(fields)[1..] == HeaderFields(fields[1..]);
    }
  }
}
