/** Chunked export: the pages the query builder hands over, the per-page hook,
    and the page size (`buildFromBuilder` in src/Export.php). */
module Chunks {
  import opened Values
  import opened Rows

  /** The page size used when the config has no `chunk` entry. */
  const DEFAULT_CHUNK_SIZE: int := 1000

  /** The page size handed to the builder: the config's `chunk` entry if present, else 1000. */
  function ChunkSize(config: Config): (size: Value)
    ensures "chunk" in config ==> size == config["chunk"]
    ensures "chunk" !in config ==> size == Num(1000)
  {
    Get(config, "chunk", Num(DEFAULT_CHUNK_SIZE))
  }

  /** What a `beforeEachChunk` callback leaves behind: the value it returned and
      the page as it looks afterwards (relations may have been loaded into it). */
  datatype PageOutcome = PageOutcome(returned: Value, page: seq<Record>)

  type PageHook = seq<Record> -> PageOutcome

  /** The page whose records are written, or None when the hook returned exactly `false`. */
  function AdmitPage(pageHook: Option<PageHook>, page: seq<Record>): (kept: Option<seq<Record>>)
    ensures pageHook.None? ==> kept == Some(page)
    ensures pageHook.Some? ==> (kept.None? <==> pageHook.value(page).returned == Flag(false))
    ensures pageHook.Some? && kept.Some? ==> kept.value == pageHook.value(page).page
  {
    match pageHook
    case None => Some(page)
    case Some(f) =>
      var outcome := f(page);
      if outcome.returned == Flag(false) then None else Some(outcome.page)
  }

  /** The rows written for one page. */
  function PageRows(paths: seq<string>, page: seq<Record>, pageHook: Option<PageHook>, hook: Option<RecordHook>): seq<seq<Value>>
  {
    match AdmitPage(pageHook, page)
    case None => []
    case Some(p) => RecordRows(paths, p, hook)
  }

  /** The rows written for a sequence of pages, page after page. */
  function ChunkRows(paths: seq<string>, pages: seq<seq<Record>>, pageHook: Option<PageHook>, hook: Option<RecordHook>): seq<seq<Value>>
  {
    if pages == [] then []
    else PageRows(paths, pages[0], pageHook, hook) + ChunkRows(paths, pages[1..], pageHook, hook)
  }

  /** Every row written for a sequence of pages is as wide as the list of data paths. */
  lemma {:induction false} ChunkRowsWidth(paths: seq<string>, pages: seq<seq<Record>>, pageHook: Option<PageHook>, hook: Option<RecordHook>)
    ensures forall i :: 0 <= i < |ChunkRows(paths, pages, pageHook, hook)| ==> |ChunkRows(paths, pages, pageHook, hook)[i]| == |paths|
  {
    if pages != [] {
      ChunkRowsWidth(paths, pages[1..], pageHook, hook);
      match AdmitPage(pageHook, pages[0])
      case None =>
      case Some(p) => RecordRowsWidth(paths, p, hook);
    }
  }

  /** The records of all pages, in order. */
  function Flatten<T>(pages: seq<seq<T>>): seq<T>
  {
    if pages == [] then [] else pages[0] + Flatten(pages[1..])
  }

  /** A reference paging of a result set into pages of `n` records, the last
      possibly shorter; no page is empty. */
  function Paginate<T>(records: seq<T>, n: nat): (pages: seq<seq<T>>)
    requires n > 0
    ensures Flatten(pages) == records
    ensures forall i :: 0 <= i < |pages| ==> 0 < |pages[i]| <= n
    ensures forall i :: 0 <= i < |pages| - 1 ==> |pages[i]| == n
    decreases |records|
  {
    if records == [] then []
    else if |records| <= n then
      assert [records][1..] == [];
      [records]
    else
      var rest := Paginate(records[n..], n);
      assert ([records[..n]] + rest)[1..] == rest;
      assert records == records[..n] + records[n..];
      [records[..n]] + rest
  }

  /** Rows of concatenated page sequences are the concatenated rows. */
  lemma {:induction false} ChunkRowsAppend(paths: seq<string>, a: seq<seq<Record>>, b: seq<seq<Record>>,
                                           pageHook: Option<PageHook>, hook: Option<RecordHook>)
    ensures ChunkRows(paths, a + b, pageHook, hook) == ChunkRows(paths, a, pageHook, hook) + ChunkRows(paths, b, pageHook, hook)
  {
    if a == [] {
      assert a + b == b;
    } else {
      assert (a + b)[0] == a[0];
      assert (a + b)[1..] == a[1..] + b;
      ChunkRowsAppend(paths, a[1..], b, pageHook, hook);
      AppendAssoc(PageRows(paths, a[0], pageHook, hook), ChunkRows(paths, a[1..], pageHook, hook), ChunkRows(paths, b, pageHook, hook));
    }
  }

  /** Extending a prefix of the pages by one page adds that page's rows. */
  lemma ChunkRowsPrefixStep(paths: seq<string>, pages: seq<seq<Record>>, pageHook: Option<PageHook>, hook: Option<RecordHook>, k: nat)
    requires k < |pages|
    ensures ChunkRows(paths, pages[..k + 1], pageHook, hook) ==
            ChunkRows(paths, pages[..k], pageHook, hook) + PageRows(paths, pages[k], pageHook, hook)
  {
    assert pages[..k + 1] == pages[..k] + [pages[k]];
    ChunkRowsAppend(paths, pages[..k], [pages[k]], pageHook, hook);
    assert [pages[k]][1..] == [];
  }

  /** The rows of the pages from `j` on: those of page `j`, then those of the rest. */
  lemma ChunkRowsFrom(paths: seq<string>, pages: seq<seq<Record>>, pageHook: Option<PageHook>, hook: Option<RecordHook>, j: nat)
    requires j < |pages|
    ensures ChunkRows(paths, pages, pageHook, hook) ==
            ChunkRows(paths, pages[..j], pageHook, hook) + (PageRows(paths, pages[j], pageHook, hook)
              + ChunkRows(paths, pages[j + 1..], pageHook, hook))
  {
    var rest := pages[j..];
    assert pages == pages[..j] + rest;
    ChunkRowsAppend(paths, pages[..j], rest, pageHook, hook);
    assert rest[0] == pages[j] && rest[1..] == pages[j + 1..];
  }

  /** A page the hook skips contributes no row, and the pages after it are
      still written, in order. */
  lemma SkippedPageDropsOnlyItsRows(paths: seq<string>, pages: seq<seq<Record>>, f: PageHook, hook: Option<RecordHook>, j: nat)
    requires j < |pages| && f(pages[j]).returned == Flag(false)
    ensures ChunkRows(paths, pages, Some(f), hook) ==
            ChunkRows(paths, pages[..j], Some(f), hook) + ChunkRows(paths, pages[j + 1..], Some(f), hook)
  {
    ChunkRowsFrom(paths, pages, Some(f), hook, j);
  }

  /** A page the hook does not skip is written as a collection, from the page
      as the hook left it, between the rows of the pages around it. */
  lemma KeptPageWritesItsRecords(paths: seq<string>, pages: seq<seq<Record>>, f: PageHook, hook: Option<RecordHook>, j: nat)
    requires j < |pages| && f(pages[j]).returned != Flag(false)
    ensures ChunkRows(paths, pages, Some(f), hook) ==
            ChunkRows(paths, pages[..j], Some(f), hook) + RecordRows(paths, f(pages[j]).page, hook)
              + ChunkRows(paths, pages[j + 1..], Some(f), hook)
  {
    ChunkRowsFrom(paths, pages, Some(f), hook, j);
    AppendAssoc(ChunkRows(paths, pages[..j], Some(f), hook), RecordRows(paths, f(pages[j]).page, hook),
                ChunkRows(paths, pages[j + 1..], Some(f), hook));
  }

  /** Without a page hook, paging is invisible: the rows are those of the
      collection of all pages' records. */
  lemma {:induction false} NoPageHookFlattens(paths: seq<string>, pages: seq<seq<Record>>, hook: Option<RecordHook>)
    ensures ChunkRows(paths, pages, None, hook) == RecordRows(paths, Flatten(pages), hook)
  {
    if pages != [] {
      NoPageHookFlattens(paths, pages[1..], hook);
      RecordRowsAppend(paths, pages[0], Flatten(pages[1..]), hook);
    }
  }

  /** Exporting a result set through pages of any positive size without a page
      hook writes the same rows as exporting it in one collection. */
  lemma PagingPreservesRows(paths: seq<string>, records: seq<Record>, n: nat, hook: Option<RecordHook>)
    requires n > 0
    ensures ChunkRows(paths, Paginate(records, n), None, hook) == RecordRows(paths, records, hook)
  {
    NoPageHookFlattens(paths, Paginate(records, n), hook);
  }
}
