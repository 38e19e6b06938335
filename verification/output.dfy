/** What one `build` or `buildFromBuilder` call appends to the writer. */
module Output {
  import opened Values
  import opened Fields
  import opened Rows
  import opened Chunks

  /** The rows one `build` call appends: the header row, if enabled, then the
      rows of the collection. */
  function BuildOutput(records: seq<Record>, fields: seq<FieldEntry>, config: Config, hook: Option<RecordHook>): seq<seq<Value>>
  {
    HeaderRow(config, HeaderFields(fields)) + RecordRows(DataFields(fields), records, hook)
  }

  /** The rows one `buildFromBuilder` call appends for the pages the builder yields. */
  function BuilderOutput(pages: seq<seq<Record>>, fields: seq<FieldEntry>, config: Config,
                         pageHook: Option<PageHook>, hook: Option<RecordHook>): seq<seq<Value>>
  {
    HeaderRow(config, HeaderFields(fields)) + ChunkRows(DataFields(fields), pages, pageHook, hook)
  }

  /** Shape of a `build` output: the header first (unless `header` is exactly
      `false`), then one row per kept record, each as wide as the field spec,
      holding the looked-up value of each data path. */
  lemma BuildOutputShape(records: seq<Record>, fields: seq<FieldEntry>, config: Config, hook: Option<RecordHook>)
    ensures var out := BuildOutput(records, fields, config, hook);
            var h := if HeaderEnabled(config) then 1 else 0;
            && |out| == h + |Kept(records, hook, |records|)|
            && (HeaderEnabled(config) ==> out[0] == Cells(HeaderFields(fields)))
            && (forall i :: h <= i < |out| ==> |out[i]| == |fields|)
            && (forall m, c :: 0 <= m < |Kept(records, hook, |records|)| && 0 <= c < |fields| ==>
                  out[h + m][c] == Lookup(Admit(hook, records[Kept(records, hook, |records|)[m]]).value, fields[c].path))
  {
    var paths := DataFields(fields);
    var data := RecordRows(paths, records, hook);
    KeptRowCells(paths, records, hook);
    forall c | 0 <= c < |fields|
      ensures paths[c] == fields[c].path
    {
    }
    if HeaderEnabled(config) {
      assert BuildOutput(records, fields, config, hook) == [Cells(HeaderFields(fields))] + data;
    } else {
      EmptyAppend(data);
      assert BuildOutput(records, fields, config, hook) == data;
    }
  }

  /** `header => false` removes exactly the first row; the data rows are the same. */
  lemma HeaderToggle(records: seq<Record>, fields: seq<FieldEntry>, on: Config, off: Config, hook: Option<RecordHook>)
    requires HeaderEnabled(on) && !HeaderEnabled(off)
    ensures BuildOutput(records, fields, on, hook) == [Cells(HeaderFields(fields))] + BuildOutput(records, fields, off, hook)
  {
  }

  /** A `buildFromBuilder` over pages with no page hook writes what `build`
      writes for the same records in one collection. */
  lemma BuilderMatchesBuild(pages: seq<seq<Record>>, fields: seq<FieldEntry>, config: Config, hook: Option<RecordHook>)
    ensures BuilderOutput(pages, fields, config, None, hook) == BuildOutput(Flatten(pages), fields, config, hook)
  {
    NoPageHookFlattens(DataFields(fields), pages, hook);
  }
}
