/** Row emission: the header row and one row per record that the per-record
    hook does not skip (`addHeader` / `addCsvRows` in src/Export.php). */
module Rows {
  import opened Values

  /** What a `beforeEach` callback leaves behind: the value it returned and the
      record as it looks afterwards (an object record may be changed in place). */
  datatype HookOutcome = HookOutcome(returned: Value, record: Record)

  type RecordHook = Record -> HookOutcome

  /** The column value of `path`; a missing path gives null. */
  function Lookup(record: Record, path: string): (v: Value)
    ensures path !in record ==> v == Null
    ensures path in record ==> v == record[path]
  {
    Get(record, path, Null)
  }

  /** The CSV row of one normalised record. */
  function Row(paths: seq<string>, record: Record): (row: seq<Value>)
    ensures |row| == |paths|
    ensures forall i :: 0 <= i < |paths| ==> row[i] == Lookup(record, paths[i])
  {
    if paths == [] then [] else [Lookup(record, paths[0])] + Row(paths[1..], record)
  }

  /** The header row as handed to the writer: one string cell per title. */
  function Cells(titles: seq<string>): (row: seq<Value>)
    ensures |row| == |titles|
    ensures forall i :: 0 <= i < |titles| ==> row[i] == Text(titles[i])
  {
    if titles == [] then [] else [Text(titles[0])] + Cells(titles[1..])
  }

  /** The header is written unless the config's `header` entry is exactly `false`. */
  predicate HeaderEnabled(config: Config): (on: bool)
    ensures on <==> "header" !in config || config["header"] != Flag(false)
  {
    Get(config, "header", Flag(true)) != Flag(false)
  }

  /** The rows `addHeader` writes. */
  function HeaderRow(config: Config, titles: seq<string>): (rows: seq<seq<Value>>)
    ensures |rows| <= 1
    ensures rows == [] <==> "header" in config && config["header"] == Flag(false)
    ensures rows != [] ==> rows[0] == Cells(titles)
  {
    if HeaderEnabled(config) then [Cells(titles)] else []
  }

  /** The record a row is made from, or None when the hook returned exactly `false`. */
  function Admit(hook: Option<RecordHook>, record: Record): (kept: Option<Record>)
    ensures hook.None? ==> kept == Some(record)
    ensures hook.Some? ==> (kept.None? <==> hook.value(record).returned == Flag(false))
    ensures hook.Some? && kept.Some? ==> kept.value == hook.value(record).record
  {
    match hook
    case None => Some(record)
    case Some(f) =>
      var outcome := f(record);
      if outcome.returned == Flag(false) then None else Some(outcome.record)
  }

  /** The rows `addCsvRows` writes for a collection. */
  function RecordRows(paths: seq<string>, records: seq<Record>, hook: Option<RecordHook>): seq<seq<Value>>
  {
    if records == [] then []
    else
      var first := match Admit(hook, records[0])
        case None => []
        case Some(r) => [Row(paths, r)];
      first + RecordRows(paths, records[1..], hook)
  }

  /** Every row is as wide as the list of data paths, and there are at most
      as many rows as records. */
  lemma {:induction false} RecordRowsWidth(paths: seq<string>, records: seq<Record>, hook: Option<RecordHook>)
    ensures |RecordRows(paths, records, hook)| <= |records|
    ensures forall i :: 0 <= i < |RecordRows(paths, records, hook)| ==> |RecordRows(paths, records, hook)[i]| == |paths|
  {
    if records != [] {
      RecordRowsWidth(paths, records[1..], hook);
    }
  }

  /** Rows of a concatenation are the concatenated rows. */
  lemma {:induction false} RecordRowsAppend(paths: seq<string>, a: seq<Record>, b: seq<Record>, hook: Option<RecordHook>)
    ensures RecordRows(paths, a + b, hook) == RecordRows(paths, a, hook) + RecordRows(paths, b, hook)
  {
    if a == [] {
      assert a + b == b;
    } else {
      assert (a + b)[0] == a[0];
      assert (a + b)[1..] == a[1..] + b;
      RecordRowsAppend(paths, a[1..], b, hook);
      var first := RecordRows(paths, [a[0]], hook);
      RecordRowsOne(paths, a[0], hook);
      AppendAssoc(first, RecordRows(paths, a[1..], hook), RecordRows(paths, b, hook));
    }
  }

  /** The indices below `k` of the records the hook keeps, in increasing order. */
  function Kept(records: seq<Record>, hook: Option<RecordHook>, k: nat): (idx: seq<nat>)
    requires k <= |records|
    ensures forall m :: 0 <= m < |idx| ==> idx[m] < k && Admit(hook, records[idx[m]]).Some?
  {
    if k == 0 then []
    else Kept(records, hook, k - 1) + (if Admit(hook, records[k - 1]).Some? then [k - 1] else [])
  }

  /** `Kept` lists every kept index below `k`, each once, in increasing order. */
  lemma {:induction false} KeptEnumerates(records: seq<Record>, hook: Option<RecordHook>, k: nat)
    requires k <= |records|
    ensures forall m, n :: 0 <= m < n < |Kept(records, hook, k)| ==> Kept(records, hook, k)[m] < Kept(records, hook, k)[n]
    ensures forall i :: 0 <= i < k && Admit(hook, records[i]).Some? ==> i in Kept(records, hook, k)
  {
    if k > 0 {
      KeptEnumerates(records, hook, k - 1);
    }
  }

  /** The rows of a one-record collection. */
  lemma RecordRowsOne(paths: seq<string>, record: Record, hook: Option<RecordHook>)
    ensures Admit(hook, record).None? ==> RecordRows(paths, [record], hook) == []
    ensures Admit(hook, record).Some? ==> RecordRows(paths, [record], hook) == [Row(paths, Admit(hook, record).value)]
  {
    assert [record][1..] == [];
  }

  /** Extending a prefix of a collection by one record adds that record's row,
      unless the hook skips it. */
  lemma RecordRowsPrefixStep(paths: seq<string>, records: seq<Record>, hook: Option<RecordHook>, k: nat)
    requires k < |records|
    ensures Admit(hook, records[k]).None? ==> RecordRows(paths, records[..k + 1], hook) == RecordRows(paths, records[..k], hook)
    ensures Admit(hook, records[k]).Some? ==>
              RecordRows(paths, records[..k + 1], hook) == RecordRows(paths, records[..k], hook) + [Row(paths, Admit(hook, records[k]).value)]
  {
    assert records[..k + 1] == records[..k] + [records[k]];
    RecordRowsAppend(paths, records[..k], [records[k]], hook);
    RecordRowsOne(paths, records[k], hook);
  }

  /** Order preservation: row m of a collection's output is the row of the
      m-th kept record, as the hook left it, and there is one row per kept record. */
  lemma {:induction false} RowsFollowKept(paths: seq<string>, records: seq<Record>, hook: Option<RecordHook>, k: nat)
    requires k <= |records|
    ensures |RecordRows(paths, records[..k], hook)| == |Kept(records, hook, k)|
    ensures forall m :: 0 <= m < |Kept(records, hook, k)| ==>
              RecordRows(paths, records[..k], hook)[m] == Row(paths, Admit(hook, records[Kept(records, hook, k)[m]]).value)
  {
    if k > 0 {
      RowsFollowKept(paths, records, hook, k - 1);
      var before := records[..k - 1];
      var last := records[k - 1];
      assert records[..k] == before + [last];
      RecordRowsAppend(paths, before, [last], hook);
      RecordRowsOne(paths, last, hook);
      var rows, idx := RecordRows(paths, records[..k], hook), Kept(records, hook, k);
      var rows0, idx0 := RecordRows(paths, before, hook), Kept(records, hook, k - 1);
      assert |rows0| == |idx0|;
      if Admit(hook, last).Some? {
        assert rows == rows0 + [Row(paths, Admit(hook, last).value)];
        assert idx == idx0 + [k - 1];
        forall m | 0 <= m < |idx|
          ensures rows[m] == Row(paths, Admit(hook, records[idx[m]]).value)
        {
          if m < |idx0| {
            assert rows[m] == rows0[m] && idx[m] == idx0[m];
          } else {
            assert idx[m] == k - 1 && records[k - 1] == last;
            assert rows[m] == Row(paths, Admit(hook, last).value);
          }
        }
      } else {
        assert rows == rows0;
        assert idx == idx0;
      }
    }
  }

  /** Over a whole collection: the i-th row written is the projection of the
      i-th kept record, cell by cell, and every row has one cell per path. */
  lemma KeptRowCells(paths: seq<string>, records: seq<Record>, hook: Option<RecordHook>)
    ensures |RecordRows(paths, records, hook)| == |Kept(records, hook, |records|)|
    ensures forall m :: 0 <= m < |RecordRows(paths, records, hook)| ==> |RecordRows(paths, records, hook)[m]| == |paths|
    ensures forall m, c :: 0 <= m < |Kept(records, hook, |records|)| && 0 <= c < |paths| ==>
              RecordRows(paths, records, hook)[m][c] == Lookup(Admit(hook, records[Kept(records, hook, |records|)[m]]).value, paths[c])
  {
    assert records[..|records|] == records;
    RowsFollowKept(paths, records, hook, |records|);
    RecordRowsWidth(paths, records, hook);
    var rows, idx := RecordRows(paths, records, hook), Kept(records, hook, |records|);
    forall m, c | 0 <= m < |idx| && 0 <= c < |paths|
      ensures rows[m][c] == Lookup(Admit(hook, records[idx[m]]).value, paths[c])
    {
      assert rows[m] == Row(paths, Admit(hook, records[idx[m]]).value);
    }
  }

  /** The rows of the records from `j` on: those of record `j`, then those of the rest. */
  lemma RecordRowsFrom(paths: seq<string>, records: seq<Record>, hook: Option<RecordHook>, j: nat)
    requires j < |records|
    ensures RecordRows(paths, records, hook) ==
            RecordRows(paths, records[..j], hook) + (RecordRows(paths, [records[j]], hook)
              + RecordRows(paths, records[j + 1..], hook))
  {
    assert records == records[..j] + records[j..];
    RecordRowsAppend(paths, records[..j], records[j..], hook);
    assert records[j..] == [records[j]] + records[j + 1..];
    RecordRowsAppend(paths, [records[j]], records[j + 1..], hook);
  }

  /** A record the hook skips contributes no row: the output is the same as
      if the record were not in the collection. */
  lemma SkipDropsRecord(paths: seq<string>, records: seq<Record>, hook: Option<RecordHook>, j: nat)
    requires j < |records| && Admit(hook, records[j]).None?
    ensures RecordRows(paths, records, hook) == RecordRows(paths, records[..j] + records[j + 1..], hook)
  {
    var before, after := records[..j], records[j + 1..];
    RecordRowsFrom(paths, records, hook, j);
    RecordRowsOne(paths, records[j], hook);
    EmptyAppend(RecordRows(paths, after, hook));
    RecordRowsAppend(paths, before, after, hook);
  }

  /** A record the hook does not skip (any return other than exactly `false`)
      contributes exactly one row, from the record as the hook left it, in its place. */
  lemma KeepAddsRow(paths: seq<string>, records: seq<Record>, f: RecordHook, j: nat)
    requires j < |records| && f(records[j]).returned != Flag(false)
    ensures RecordRows(paths, records, Some(f)) ==
            RecordRows(paths, records[..j], Some(f)) + [Row(paths, f(records[j]).record)] + RecordRows(paths, records[j + 1..], Some(f))
  {
    RecordRowsFrom(paths, records, Some(f), j);
    RecordRowsOne(paths, records[j], Some(f));
    AppendAssoc(RecordRows(paths, records[..j], Some(f)), [Row(paths, f(records[j]).record)], RecordRows(paths, records[j + 1..], Some(f)));
  }

  /** With no hook there is one row per record, in collection order. */
  lemma {:induction false} NoHookOneRowPerRecord(paths: seq<string>, records: seq<Record>)
    ensures |RecordRows(paths, records, None)| == |records|
    ensures forall i :: 0 <= i < |records| ==> RecordRows(paths, records, None)[i] == Row(paths, records[i])
  {
    if records != [] {
      NoHookOneRowPerRecord(paths, records[1..]);
    }
  }
}
