/** The scenarios of the repository's test suite (tests/Laracsv/ExportTest.php),
    stated over the model. */
module Scenarios {
  import opened Values
  import opened Fields
  import opened Rows
  import opened Chunks
  import opened Output

  /** The field array of the custom-headers test: unnamed entries keep their
      path as title, named ones show the display name. */
  lemma CustomHeadersExample()
    ensures var fields := [Plain("id"), Renamed("title", "Name"), Plain("price"),
                           Renamed("original_price", "Retail Price"),
                           Renamed("custom_field", "Custom Field")];
            HeaderFields(fields) == ["id", "Name", "price", "Retail Price", "Custom Field"] &&
            DataFields(fields) == ["id", "title", "price", "original_price", "custom_field"]
  {
    var fields := [Plain("id"), Renamed("title", "Name"), Plain("price"),
                   Renamed("original_price", "Retail Price"),
                   Renamed("custom_field", "Custom Field")];
    assert HeaderFields(fields[4..]) == ["Custom Field"];
    assert HeaderFields(fields[3..]) == ["Retail Price", "Custom Field"];
    assert HeaderFields(fields[2..]) == ["price", "Retail Price", "Custom Field"];
    assert HeaderFields(fields[1..]) == ["Name", "price", "Retail Price", "Custom Field"];
    assert DataFields(fields[4..]) == ["custom_field"];
    assert DataFields(fields[3..]) == ["original_price", "custom_field"];
    assert DataFields(fields[2..]) == ["price", "original_price", "custom_field"];
    assert DataFields(fields[1..]) == ["title", "price", "original_price", "custom_field"];
  }

  /** Ten records: pages of 5 give two full pages; with no `chunk` entry the
      page size is 1000 and a single page holds all ten. */
  lemma TenRecordsPaging(records: seq<Record>, config: Config)
    requires |records| == 10 && "chunk" !in config
    ensures Paginate(records, 5) == [records[..5], records[5..]]
    ensures ChunkSize(config) == Num(1000) && Paginate(records, 1000) == [records]
    ensures ChunkSize(config["chunk" := Num(5)]) == Num(5)
  {
    assert Paginate(records[5..], 5) == [records[5..]];
  }

  /** The hook of the before-each test: it skips the record with id 2 and sets
      two columns of every other record. */
  function SkipIdTwo(r: Record): HookOutcome
  {
    if Lookup(r, "id") == Num(2) then HookOutcome(Flag(false), r)
    else HookOutcome(Null, r["custom_field" := Text("Test Value")]["price" := Num(30)])
  }

  /** Five records of which only the second is skipped give four rows, in order. */
  lemma FiveRecordsSecondSkipped(paths: seq<string>, r1: Record, r2: Record, r3: Record, r4: Record, r5: Record,
                                 hook: Option<RecordHook>)
    requires Admit(hook, r2).None?
    requires Admit(hook, r1).Some? && Admit(hook, r3).Some? && Admit(hook, r4).Some? && Admit(hook, r5).Some?
    ensures var rows := RecordRows(paths, [r1, r2, r3, r4, r5], hook);
            && |rows| == 4
            && rows[0] == Row(paths, Admit(hook, r1).value) && rows[1] == Row(paths, Admit(hook, r3).value)
            && rows[2] == Row(paths, Admit(hook, r4).value) && rows[3] == Row(paths, Admit(hook, r5).value)
  {
    var k1, k3, k4, k5 := Admit(hook, r1).value, Admit(hook, r3).value, Admit(hook, r4).value, Admit(hook, r5).value;
    var t5 := RecordRows(paths, [r5], hook);
    assert |t5| == 1 && t5[0] == Row(paths, k5) by {
      RecordRowsOne(paths, r5, hook);
    }
    var t4 := RecordRows(paths, [r4, r5], hook);
    assert t4 == [Row(paths, k4)] + t5 by {
      assert [r4, r5][1..] == [r5];
    }
    var t3 := RecordRows(paths, [r3, r4, r5], hook);
    assert t3 == [Row(paths, k3)] + t4 by {
      assert [r3, r4, r5][1..] == [r4, r5];
    }
    var t2 := RecordRows(paths, [r2, r3, r4, r5], hook);
    assert t2 == t3 by {
      assert [r2, r3, r4, r5][1..] == [r3, r4, r5];
    }
    var t1 := RecordRows(paths, [r1, r2, r3, r4, r5], hook);
    assert t1 == [Row(paths, k1)] + t2 by {
      assert [r1, r2, r3, r4, r5][1..] == [r2, r3, r4, r5];
    }
  }

  /** On every record but the one with id 2 the before-each test hook keeps the
      record, sets `price` and `custom_field`, and leaves `id` alone. */
  lemma SkipIdTwoSetsColumns(r: Record)
    requires Lookup(r, "id") != Num(2)
    ensures Admit(Some(SkipIdTwo), r).Some?
    ensures var kept := Admit(Some(SkipIdTwo), r).value;
            Lookup(kept, "id") == Lookup(r, "id") && Lookup(kept, "price") == Num(30) &&
            Lookup(kept, "custom_field") == Text("Test Value")
  {
    assert "id" != "price" && "id" != "custom_field";
  }

  /** The five products of the before-each test, by id. */
  const Products: seq<Record> := [map["id" := Num(1)], map["id" := Num(2)], map["id" := Num(3)],
                                  map["id" := Num(4)], map["id" := Num(5)]]

  /** The field array of the before-each test. */
  const ProductFields: seq<FieldEntry> := [Plain("id"), Renamed("title", "Name"), Plain("price"),
                                           Renamed("original_price", "Retail Price"),
                                           Renamed("custom_field", "Custom Field")]

  /** With the before-each test hook the five products give four rows; the
      second is product 3 with the values the hook set. */
  lemma SkipIdTwoRows(paths: seq<string>)
    requires |paths| == 5 && paths[0] == "id" && paths[2] == "price" && paths[4] == "custom_field"
    ensures var rows := RecordRows(paths, Products, Some(SkipIdTwo));
            |rows| == 4 && |rows[1]| == 5 &&
            rows[1][0] == Num(3) && rows[1][2] == Num(30) && rows[1][4] == Text("Test Value")
  {
    var r1, r2, r3, r4, r5 := Products[0], Products[1], Products[2], Products[3], Products[4];
    assert Products == [r1, r2, r3, r4, r5];
    var hook := Some(SkipIdTwo);
    assert Lookup(r2, "id") == Num(2);
    SkipIdTwoSetsColumns(r1);
    SkipIdTwoSetsColumns(r3);
    SkipIdTwoSetsColumns(r4);
    SkipIdTwoSetsColumns(r5);
    FiveRecordsSecondSkipped(paths, r1, r2, r3, r4, r5, hook);
  }

  /** The before-each test: the product with id 2 is skipped, so there are
      five lines with the header, and the third line is product 3 carrying
      the values the hook set. */
  lemma SkipIdTwoExample()
    ensures var out := BuildOutput(Products, ProductFields, map[], Some(SkipIdTwo));
            |out| == 5 && |out[2]| == 5 &&
            out[2][0] == Num(3) && out[2][2] == Num(30) && out[2][4] == Text("Test Value")
  {
    var paths := DataFields(ProductFields);
    assert paths[0] == "id" && paths[2] == "price" && paths[4] == "custom_field";
    SkipIdTwoRows(paths);
    assert |HeaderRow(map[], HeaderFields(ProductFields))| == 1;
  }
}
