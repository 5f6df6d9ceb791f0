/** The execution history screen: pages of past runs accumulated as the user asks for
    more, and the aggregate statistics beside them. */
module History {
  import opened Remote

  /** One past run, with the fields the screen reads. */
  datatype Record = Record(
    id: int,
    snippetId: Option<int>,
    code: string,
    output: Option<string>,
    error: Option<string>,
    executionTime: int)

  /** The `data` of a successful history reply: one page and whether more follow. */
  datatype Page = Page(records: seq<Record>, hasMore: bool)

  /** The aggregate the statistics endpoint returns (the average is only displayed). */
  datatype Stats = Stats(totalExecutions: int, avgExecutionTime: real, errorCount: int)

  /** The query string of `GET /api/execute/history`. */
  datatype PageQuery = PageQuery(limit: nat, offset: nat)

  /** What the screen shows: the full-page spinner, the "no history yet" text, or the list
      with (or without) its Load More button, which is disabled while a page loads. */
  datatype HistoryView = LoadingPage | NoHistory | RecordList(showLoadMore: bool, loadMoreEnabled: bool)

  const PageSize: nat := 20
  const HistoryFailed := "Failed to load execution history"

  /** The list after a page fetched at `offset` arrives: the first page replaces what is
      shown, any later page is appended after it. */
  function Accumulate(shown: seq<Record>, offset: nat, page: seq<Record>): (r: seq<Record>)
    ensures offset == 0 ==> r == page
    ensures offset > 0 ==> |r| == |shown| + |page| && r[..|shown|] == shown && r[|shown|..] == page
  {
    if offset == 0 then page else shown + page
  }

  /** The records of the given pages, in order. */
  function Concat(pages: seq<seq<Record>>): seq<Record> {
    if pages == [] then [] else Concat(pages[..|pages| - 1]) + pages[|pages| - 1]
  }

  class ExecutionHistory {
    var history: seq<Record>
    var loading: bool
    var error: string
    var stats: Option<Stats>
    var limit: nat
    var offset: nat
    var hasMore: bool

    /** The page size never changes and the offset is always a whole number of pages. */
    predicate Valid()
      reads this
    {
      limit == PageSize && offset % limit == 0
    }

    constructor ()
      ensures Valid()
      ensures history == [] && loading && error == "" && stats.None?
      ensures limit == PageSize && offset == 0 && !hasMore
    {
      history, loading, error, stats := [], true, "", None;
      limit, offset, hasMore := PageSize, 0, false;
    }

    /** The first step of `fetchHistory`: the query for the current page. */
    method BeginFetch() returns (query: PageQuery)
      modifies this
      ensures query == PageQuery(limit, offset)
      ensures loading
      ensures history == old(history) && error == old(error) && stats == old(stats)
      ensures limit == old(limit) && offset == old(offset) && hasMore == old(hasMore)
    {
      loading := true;
      query := PageQuery(limit, offset);
    }

    /** The rest of `fetchHistory` with the reply `o`. A success accumulates the page and
        takes `hasMore` from the server; a thrown request reports the error and keeps the
        list and the cursor; loading ends in every case. */
    method CompleteFetch(o: Outcome<Page>)
      modifies this
      ensures history == if o.Ok? then Accumulate(old(history), offset, o.data.records) else old(history)
      ensures hasMore == if o.Ok? then o.data.hasMore else old(hasMore)
      ensures error == if o.Threw() then HistoryFailed else old(error)
      ensures !loading
      ensures limit == old(limit) && offset == old(offset) && stats == old(stats)
    {
      if o.Ok? {
        history := Accumulate(history, offset, o.data.records);
        hasMore := o.data.hasMore;
      } else if o.Threw() {
        error := HistoryFailed;
      }
      loading := false;
    }

    /** `fetchStats`: only a success changes anything; a failure is swallowed. */
    method FetchStats(o: Outcome<Stats>)
      modifies this
      ensures stats == if o.Ok? then Some(o.data) else old(stats)
      ensures history == old(history) && error == old(error) && loading == old(loading)
      ensures limit == old(limit) && offset == old(offset) && hasMore == old(hasMore)
    {
      if o.Ok? {
        stats := Some(o.data);
      }
    }

    /** `loadMore`: move the cursor one page on, whether or not the server said more
        records exist. */
    method LoadMore()
      requires Valid()
      modifies this
      ensures Valid()
      ensures offset == old(offset) + limit && offset > old(offset)
      ensures limit == old(limit) && hasMore == old(hasMore)
      ensures history == old(history) && error == old(error) && loading == old(loading) && stats == old(stats)
    {
      offset := offset + limit;
    }

    /** What the screen renders: the spinner only while loading with nothing to show,
        and Load More only when the server said more records exist. */
    function View(): (v: HistoryView)
      reads this
      ensures v == LoadingPage <==> loading && history == []
      ensures v == NoHistory <==> !loading && history == []
      ensures v.RecordList? <==> history != []
      ensures v.RecordList? ==> (v.showLoadMore <==> hasMore) && (v.loadMoreEnabled <==> !loading)
    {
      if loading && history == [] then LoadingPage
      else if history == [] then NoHistory
      else RecordList(hasMore, !loading)
    }
  }

  /** Fetching a first page and then, page after page, clicking Load More and fetching the
      next one, shows the concatenation of all pages in the order they were fetched. */
  method FetchPages(pages: seq<seq<Record>>) returns (shown: seq<Record>, offset: nat)
    ensures shown == Concat(pages)
    ensures offset == |pages| * PageSize
  {
    var h := new ExecutionHistory();
    var i := 0;
    while i < |pages|
      invariant 0 <= i <= |pages|
      invariant h.Valid()
      invariant h.offset == i * PageSize
      invariant h.history == Concat(pages[..i])
    {
      var query := h.BeginFetch();
      h.CompleteFetch(Ok(Page(pages[i], true)));
      assert pages[..i + 1][..i] == pages[..i];
      h.LoadMore();
      i := i + 1;
    }
    assert pages[..|pages|] == pages;
    shown, offset := h.history, h.offset;
  }
}
