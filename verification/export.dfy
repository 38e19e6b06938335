/** The exporter (class `Export` in src/Export.php). The CSV writer is modelled
    by the rows it has accepted; quoting and serialisation are the writer's. */
module Laracsv {
  import opened Values
  import opened Fields
  import opened Rows
  import opened Chunks
  import opened Output

  class Export {
    /** The rows the CSV writer holds, oldest first. */
    var rows: seq<seq<Value>>
    /** The callback run on each record before it is written. */
    var beforeEachCallback: Option<RecordHook>
    /** The callback run on each page before its records are written. */
    var beforeEachChunkCallback: Option<PageHook>
    /** The configuration of the latest build. */
    var config: Config

    /** Uses the given writer, or a fresh empty one, with no callbacks set. */
    constructor (writer: Option<seq<seq<Value>>>)
      ensures rows == (if writer.Some? then writer.value else [])
      ensures beforeEachCallback == None && beforeEachChunkCallback == None
      ensures config == map[]
    {
      rows := if writer.Some? then writer.value else [];
      beforeEachCallback := None;
      beforeEachChunkCallback := None;
      config := map[];
    }

    /** Writes the header row, if enabled, then one row per record of the
        collection that the record callback does not skip. */
    method Build(collection: seq<Record>, fields: seq<FieldEntry>, config: Config) returns (self: Export)
      modifies this`rows, this`config
      ensures self == this && this.config == config
      ensures old(rows) <= rows
      ensures rows == old(rows) + BuildOutput(collection, fields, config, beforeEachCallback)
    {
      this.config := config;
      AddHeader(HeaderFields(fields));
      var dataFields := GetDataFields(fields);
      AddCsvRows(dataFields, collection);
      AppendAssoc(old(rows), HeaderRow(config, HeaderFields(fields)), RecordRows(dataFields, collection, beforeEachCallback));
      self := this;
    }

    /** Writes the header row, if enabled, then walks the pages the builder
        yields for the configured page size: a page the chunk callback skips
        writes nothing, every other page is written as a collection. */
    method BuildFromBuilder(builder: Value -> seq<seq<Record>>, fields: seq<FieldEntry>, config: Config)
      returns (self: Export)
      modifies this`rows, this`config
      ensures self == this && this.config == config
      ensures old(rows) <= rows
      ensures rows == old(rows) + BuilderOutput(builder(ChunkSize(config)), fields, config,
                                                beforeEachChunkCallback, beforeEachCallback)
    {
      this.config := config;
      var chunkSize := ChunkSize(config);
      var dataFields := GetDataFields(fields);
      AddHeader(HeaderFields(fields));
      var pages := builder(chunkSize);
      ForEachChunk(dataFields, pages);
      AppendAssoc(old(rows), HeaderRow(config, HeaderFields(fields)),
                  ChunkRows(dataFields, pages, beforeEachChunkCallback, beforeEachCallback));
      self := this;
    }

    /** The builder's page loop: the per-page callback is run on each page in turn. */
    method ForEachChunk(dataFields: seq<string>, pages: seq<seq<Record>>)
      modifies this`rows
      ensures rows == old(rows) + ChunkRows(dataFields, pages, beforeEachChunkCallback, beforeEachCallback)
    {
      var chunkHook, recordHook := beforeEachChunkCallback, beforeEachCallback;
      for p := 0 to |pages|
        invariant rows == old(rows) + ChunkRows(dataFields, pages[..p], chunkHook, recordHook)
      {
        ChunkRowsPrefixStep(dataFields, pages, chunkHook, recordHook, p);
        AppendAssoc(old(rows), ChunkRows(dataFields, pages[..p], chunkHook, recordHook),
                    PageRows(dataFields, pages[p], chunkHook, recordHook));
        AddChunk(dataFields, pages[p]);
      }
      assert pages[..|pages|] == pages;
    }

    /** The callback `buildFromBuilder` hands to the builder for each page:
        nothing is written when the chunk callback returns exactly `false`,
        otherwise the page, as the callback left it, is written as a collection. */
    method AddChunk(dataFields: seq<string>, collection: seq<Record>)
      modifies this`rows
      ensures rows == old(rows) + PageRows(dataFields, collection, beforeEachChunkCallback, beforeEachCallback)
    {
      var page := collection;
      var callback := beforeEachChunkCallback;
      if callback.Some? {
        var outcome := callback.value(page);
        if outcome.returned == Flag(false) {
          return;
        }
        page := outcome.page;
      }
      AddCsvRows(dataFields, page);
    }

    /** Replaces the record callback; writes nothing. */
    method BeforeEach(callback: RecordHook) returns (self: Export)
      modifies this`beforeEachCallback
      ensures self == this && beforeEachCallback == Some(callback)
    {
      beforeEachCallback := Some(callback);
      self := this;
    }

    /** Replaces the chunk callback; writes nothing. */
    method BeforeEachChunk(callback: PageHook) returns (self: Export)
      modifies this`beforeEachChunkCallback
      ensures self == this && beforeEachChunkCallback == Some(callback)
    {
      beforeEachChunkCallback := Some(callback);
      self := this;
    }

    /** The data paths of a field spec: the field array's values (the titles),
        with the value of every string-keyed entry overwritten by its key. */
    method GetDataFields(fields: seq<FieldEntry>) returns (dataFields: seq<string>)
      ensures |dataFields| == |fields|
      ensures forall i :: 0 <= i < |fields| ==> dataFields[i] == fields[i].path
      ensures dataFields == DataFields(fields)
    {
      dataFields := HeaderFields(fields);
      for i := 0 to |fields|
        invariant |dataFields| == |fields|
        invariant forall j :: 0 <= j < i ==> dataFields[j] == fields[j].path
        invariant forall j :: i <= j < |fields| ==> dataFields[j] == Title(fields[j])
      {
        if fields[i].Renamed? {
          dataFields := dataFields[i := fields[i].path];
        }
      }
    }

    /** Appends one row per record that the record callback does not skip,
        each row holding the looked-up value of every data path. */
    method AddCsvRows(dataFields: seq<string>, collection: seq<Record>)
      modifies this`rows
      ensures rows == old(rows) + RecordRows(dataFields, collection, beforeEachCallback)
    {
      var hook := beforeEachCallback;
      for k := 0 to |collection|
        invariant rows == old(rows) + RecordRows(dataFields, collection[..k], hook)
      {
        RecordRowsPrefixStep(dataFields, collection, hook, k);
        var model := collection[k];
        var callback := beforeEachCallback;
        if callback.Some? {
          var outcome := callback.value(model);
          if outcome.returned == Flag(false) {
            continue;
          }
          model := outcome.record;
        }
        var csvRow := ProjectRow(dataFields, model);
        assert Admit(hook, collection[k]) == Some(model);
        AppendAssoc(old(rows), RecordRows(dataFields, collection[..k], hook), [csvRow]);
        rows := rows + [csvRow];
      }
      assert collection[..|collection|] == collection;
    }

    /** The row of one normalised record: for each data path in turn, its
        value in the record, or null when the record has no such key. */
    method ProjectRow(dataFields: seq<string>, model: Record) returns (csvRow: seq<Value>)
      ensures |csvRow| == |dataFields|
      ensures forall j :: 0 <= j < |dataFields| ==> csvRow[j] == Lookup(model, dataFields[j])
      ensures csvRow == Row(dataFields, model)
    {
      csvRow := [];
      for c := 0 to |dataFields|
        invariant |csvRow| == c
        invariant forall j :: 0 <= j < c ==> csvRow[j] == Lookup(model, dataFields[j])
      {
        csvRow := csvRow + [Get(model, dataFields[c], Null)];
      }
    }

    /** Appends the header row unless the configuration's `header` entry is
        exactly `false`. */
    method AddHeader(headers: seq<string>)
      modifies this`rows
      ensures rows == old(rows) + HeaderRow(config, headers)
    {
      if Get(config, "header", Flag(true)) != Flag(false) {
        rows := rows + [Cells(headers)];
      }
    }
  }
}
