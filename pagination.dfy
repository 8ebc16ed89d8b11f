/** The transaction listing: getTransactionsByPage fetches one page, and
    getTransactions walks every page the first one announces, merging the
    `Table1` rows in page order. */
module Pagination {
  import opened Php
  import opened Wire
  import opened Requests

  /** getTransactionsByPage: one page of the listing over `range`, as
      makeRequest returns it. */
  function GetTransactionsByPage(invoke: Request -> Reply, id: Identity, range: DateRange, page: int): (r: Outcome<Envelope>)
    ensures var reply := invoke(TransactionsPageRequest(id, range, page));
      && (r.Err? <==> reply.Fault?)
      && (r.Err? ==> r.failure == Raised(reply.message, FaultCode))
      && (r.Ok? ==> r.value == reply.envelope)
  {
    Exchange(invoke, TransactionsPageRequest(id, range, page))
  }

  /** getTransactionsByPage with the date range fixed, as getTransactions
      calls it. */
  function PageSource(invoke: Request -> Reply, id: Identity, range: DateRange): int -> Outcome<Envelope> {
    page => GetTransactionsByPage(invoke, id, range, page)
  }

  /** The service the listing talks to: `pages` is its answer for each page
      number, and `log` records every page asked for, in the order asked. */
  class PageService {
    const pages: int -> Outcome<Envelope>
    var log: seq<int>

    constructor(pages: int -> Outcome<Envelope>)
      ensures this.pages == pages && log == []
    {
      this.pages := pages;
      log := [];
    }

    /** One call of getTransactionsByPage. */
    method Fetch(page: int) returns (r: Outcome<Envelope>)
      modifies this
      ensures r == pages(page)
      ensures log == old(log) + [page]
    {
      log := log + [page];
      r := pages(page);
    }
  }

  /** `$meta->PgCount` as the comparisons read it: absent (no summary
      record, or no such column) reads as 0; PageCountOfDigits gives the
      numeric case. */
  function PageCount(first: Envelope): (n: int)
    ensures first.table.None? || "PgCount" !in first.table.value ==> n == 0
  {
    CastColumn(Column(first, "PgCount"))
  }

  /** A page count sent as a digit string is that number. */
  lemma PageCountOfDigits(first: Envelope, count: string)
    requires first.table.Some? && first.table.value["PgCount" := count] == first.table.value
    requires IsDigits(count)
    ensures PageCount(first) == DigitsValue(count)
  {
    assert Column(first, "PgCount") == Some(count);
  }

  /** The last page the driver requests: the announced count when it is
      above 1, otherwise page 1 alone. */
  function LastPage(first: Envelope): (n: int)
    ensures n >= 1 && n >= PageCount(first)
    ensures n == 1 || n == PageCount(first)
  {
    if PageCount(first) > 1 then PageCount(first) else 1
  }

  /** The rows of the first page: `Table1`, or none when it is absent. */
  function FirstRows(first: Envelope): (rows: seq<Record>)
    ensures first.table1.None? ==> rows == []
    ensures first.table1.Some? ==> rows == first.table1.value
  {
    if first.table1.Some? then first.table1.value else []
  }

  /** `acc` followed by the rows of `rest`, unless `rest` failed. */
  function Prepend(acc: seq<Record>, rest: Outcome<seq<Record>>): (r: Outcome<seq<Record>>)
    ensures r.Ok? <==> rest.Ok?
    ensures r.Ok? ==> r.value == acc + rest.value
    ensures r.Err? ==> r == rest
  {
    if rest.Ok? then Ok(acc + rest.value) else rest
  }

  /** The rows of pages `page` through `last` in page order, or the failure
      of the first page that fails: a transport fault, or a page without
      `Table1` for array_merge. Every failure comes from a page of the
      range: that page's own failure, or the merge failure naming it. */
  function RowsFrom(fetch: int -> Outcome<Envelope>, page: int, last: int): (r: Outcome<seq<Record>>)
    ensures page > last ==> r == Ok([])
    ensures r.Err? ==> exists p :: (page <= p <= last &&
      (fetch(p) == Err(r.failure) || (r.failure == MergeError(p) && fetch(p).Ok? && fetch(p).value.table1.None?)))
    decreases last - page
  {
    if page > last then Ok([])
    else match fetch(page)
      case Err(f) => Err(f)
      case Ok(e) =>
        if e.table1.None? then Err(MergeError(page))
        else Prepend(e.table1.value, RowsFrom(fetch, page + 1, last))
  }

  /** A page reply the merge can use: the call went through and the page
      carries `Table1`. */
  predicate Answers(reply: Outcome<Envelope>) {
    reply.Ok? && reply.value.table1.Some?
  }

  /** Why the listing stops at a page that does not answer with rows: its
      transport failure, or array_merge's failure on a page without `Table1`. */
  function Refusal(reply: Outcome<Envelope>, page: int): Failure
    requires !Answers(reply)
  {
    if reply.Err? then reply.failure else MergeError(page)
  }

  /** The merge of a range of pages succeeds exactly when every page of the
      range answers with rows. */
  lemma {:induction false} RowsFromSucceeds(fetch: int -> Outcome<Envelope>, page: int, last: int)
    ensures RowsFrom(fetch, page, last).Ok? <==> forall q :: page <= q <= last ==> Answers(fetch(q))
    decreases last - page
  {
    if page <= last {
      RowsFromSucceeds(fetch, page + 1, last);
      if Answers(fetch(page)) {
        assert (forall q :: page <= q <= last ==> Answers(fetch(q)))
          <==> (forall q :: page + 1 <= q <= last ==> Answers(fetch(q)));
      }
    }
  }

  /** The merge stops at the first page that does not answer with rows, and
      fails with that page's failure; no later page has any effect. */
  lemma {:induction false} RowsFromStopsAtFirstRefusal(fetch: int -> Outcome<Envelope>, page: int, last: int, p: int)
    requires page <= p <= last
    requires forall q :: page <= q < p ==> Answers(fetch(q))
    requires !Answers(fetch(p))
    ensures RowsFrom(fetch, page, last) == Err(Refusal(fetch(p), p))
    decreases p - page
  {
    if page < p {
      assert Answers(fetch(page));
      RowsFromStopsAtFirstRefusal(fetch, page + 1, last, p);
    }
  }

  /** What getTransactions returns: page 1 decides the page count; the rows
      of page 1 come first, then those of pages 2 to the count in order. */
  function Transactions(fetch: int -> Outcome<Envelope>): (r: Outcome<seq<Record>>)
    ensures fetch(1).Err? ==> r == Err(fetch(1).failure)
    ensures fetch(1).Ok? && r.Ok? ==> FirstRows(fetch(1).value) <= r.value
    ensures fetch(1).Ok? && LastPage(fetch(1).value) == 1 ==> r == Ok(FirstRows(fetch(1).value))
  {
    match fetch(1)
    case Err(f) => Err(f)
    case Ok(first) =>
      if PageCount(first) > 1 then Prepend(FirstRows(first), RowsFrom(fetch, 2, PageCount(first)))
      else Ok(FirstRows(first))
  }

  /** The page numbers `lo` to `hi` in ascending order, none when `hi < lo`;
      SpanAscending gives its entries. */
  function Span(lo: int, hi: int): (s: seq<int>)
    ensures |s| == if hi < lo then 0 else hi - lo + 1
    decreases hi - lo
  {
    if hi < lo then [] else Span(lo, hi - 1) + [hi]
  }

  /** Entry `i` of `Span(lo, hi)` is page `lo + i`: the pages are asked for
      one at a time, in strictly ascending order, none twice, none skipped. */
  lemma {:induction false} SpanAscending(lo: int, hi: int, i: int)
    requires 0 <= i < |Span(lo, hi)|
    ensures Span(lo, hi)[i] == lo + i
    decreases hi - lo
  {
    if i < |Span(lo, hi)| - 1 {
      SpanAscending(lo, hi - 1, i);
    }
  }

  /** Asking for `lo` and then for `lo + 1` to `hi` is asking for `lo` to `hi`. */
  lemma SpanCons(lo: int, hi: int)
    requires lo <= hi
    ensures [lo] + Span(lo + 1, hi) == Span(lo, hi)
  {
    var a, b := [lo] + Span(lo + 1, hi), Span(lo, hi);
    assert |a| == |b|;
    forall i | 0 <= i < |a| ensures a[i] == b[i] {
      SpanAscending(lo, hi, i);
      if i > 0 {
        SpanAscending(lo + 1, hi, i - 1);
        assert a[i] == Span(lo + 1, hi)[i - 1];
      }
    }
  }

  /** The listing once page 1 has answered `first`. */
  lemma ListingOfFirstPage(fetch: int -> Outcome<Envelope>, first: Envelope)
    requires fetch(1) == Ok(first)
    ensures PageCount(first) > 1 ==> Transactions(fetch) == Prepend(FirstRows(first), RowsFrom(fetch, 2, PageCount(first)))
    ensures PageCount(first) > 1 ==> LastPage(first) == PageCount(first)
    ensures PageCount(first) <= 1 ==> Transactions(fetch) == Ok(FirstRows(first)) && LastPage(first) == 1
  {
  }

  /** getTransactions. The pages it asks the service for are, in order,
      1, 2, ... up to the page where it stopped: only page 1 when page 1
      fails, never past the count page 1 announced, and all of them when it
      succeeds. Every later page before the last one asked for answered with
      rows; when a later page does not, the listing stops there with that
      page's failure. */
  method GetTransactions(service: PageService) returns (r: Outcome<seq<Record>>)
    modifies service
    ensures r == Transactions(service.pages)
    ensures var asked := |service.log| - |old(service.log)|;
      && 1 <= asked
      && service.log == old(service.log) + Span(1, asked)
      && (service.pages(1).Err? ==> asked == 1)
      && (service.pages(1).Ok? ==> asked <= LastPage(service.pages(1).value))
      && (r.Ok? ==> asked == LastPage(service.pages(1).value))
      && (forall q :: 2 <= q < asked ==> Answers(service.pages(q)))
      && (2 <= asked ==> (r.Ok? <==> Answers(service.pages(asked))))
      && (service.pages(1).Ok? && r.Err? ==>
            2 <= asked && !Answers(service.pages(asked)) && r == Err(Refusal(service.pages(asked), asked)))
  {
    ghost var before := service.log;
    var response := service.Fetch(1);
    ghost var afterFirst := service.log;
    LogOfListing(before, afterFirst, afterFirst, 0);
    if response.Err? {
      r := Err(response.failure);
      return;
    }
    var meta := response.value;
    var transactions := FirstRows(meta);
    var pgCount := PageCount(meta);
    ListingOfFirstPage(service.pages, meta);
    if pgCount > 1 {
      r := MergeLaterPages(service, transactions, pgCount);
      LogOfListing(before, afterFirst, service.log, |service.log| - |afterFirst|);
    } else {
      r := Ok(transactions);
    }
  }

  /** The log after page 1 and then pages 2 to `k + 1` is the log before
      with pages 1 to `k + 1` added. */
  lemma LogOfListing(before: seq<int>, afterFirst: seq<int>, after: seq<int>, k: int)
    requires afterFirst == before + [1]
    requires k >= 0 && after == afterFirst + Span(2, k + 1)
    ensures |after| - |before| == k + 1
    ensures after == before + Span(1, k + 1)
  {
    SpanCons(1, k + 1);
    assert after == before + ([1] + Span(2, k + 1));
  }

  /** The loop of getTransactions: asks for pages 2, 3, ... up to `last` in
      order and merges their rows after `transactions`, stopping at the first
      page that does not answer with rows: every page asked for before it
      answered, and its failure is the result. */
  method MergeLaterPages(service: PageService, transactions: seq<Record>, last: int)
    returns (r: Outcome<seq<Record>>)
    requires last > 1
    modifies service
    ensures r == Prepend(transactions, RowsFrom(service.pages, 2, last))
    ensures var asked := |service.log| - |old(service.log)|;
      && 1 <= asked <= last - 1
      && service.log == old(service.log) + Span(2, asked + 1)
      && (r.Ok? ==> asked == last - 1)
      && (forall q :: 2 <= q <= asked ==> Answers(service.pages(q)))
      && (r.Ok? <==> Answers(service.pages(asked + 1)))
      && (r.Err? ==> r == Err(Refusal(service.pages(asked + 1), asked + 1)))
  {
    ghost var before := service.log;
    var merged := transactions;
    var page := 2;
    while page <= last
      invariant 2 <= page <= last + 1
      invariant service.log == before + Span(2, page - 1)
      invariant forall q :: 2 <= q < page ==> Answers(service.pages(q))
      invariant Prepend(transactions, RowsFrom(service.pages, 2, last)) == Prepend(merged, RowsFrom(service.pages, page, last))
    {
      var response := service.Fetch(page);
      assert service.log == before + Span(2, page);
      if response.Err? {
        r := Err(response.failure);
        return;
      }
      if response.value.table1.None? {
        r := Err(MergeError(page));
        return;
      }
      PrependTwice(merged, response.value.table1.value, RowsFrom(service.pages, page + 1, last));
      merged := merged + response.value.table1.value;
      page := page + 1;
    }
    assert merged + [] == merged;
    r := Ok(merged);
  }

  lemma PrependTwice(acc: seq<Record>, rows: seq<Record>, rest: Outcome<seq<Record>>)
    ensures Prepend(acc, Prepend(rows, rest)) == Prepend(acc + rows, rest)
  {
    if rest.Ok? {
      assert acc + (rows + rest.value) == (acc + rows) + rest.value;
    }
  }

  // ---------------------------------------------------------------------
  // Properties of the listing

  /** The rows of a run of pages laid end to end; the first page may lack
      `Table1`, a later one may not. */
  function AllRows(pages: seq<Envelope>): seq<Record>
    requires |pages| >= 1
  {
    FirstRows(pages[0]) + LaterRows(pages[1..])
  }

  function LaterRows(pages: seq<Envelope>): seq<Record> {
    if pages == [] then []
    else (if pages[0].table1.Some? then pages[0].table1.value else []) + LaterRows(pages[1..])
  }

  /** When every page answers, later pages with `Table1`, the pages
      requested run from `from` to `last` and their rows come back in
      request order. */
  lemma {:induction false} RowsFromInOrder(fetch: int -> Outcome<Envelope>,
                                           pages: seq<Envelope>, from: int, last: int)
    requires from >= 1 && last == from + |pages| - 1
    requires forall i :: 0 <= i < |pages| ==> fetch(from + i) == Ok(pages[i])
    requires forall i :: 0 <= i < |pages| ==> pages[i].table1.Some?
    ensures RowsFrom(fetch, from, last) == Ok(LaterRows(pages))
    decreases |pages|
  {
    if pages != [] {
      assert fetch(from + 0) == Ok(pages[0]);
      var tail := pages[1..];
      forall i | 0 <= i < |tail|
        ensures fetch(from + 1 + i) == Ok(tail[i])
      {
        assert fetch(from + (i + 1)) == Ok(pages[i + 1]);
      }
      RowsFromInOrder(fetch, tail, from + 1, last);
    }
  }

  /** The listing is the rows of pages 1 to the announced count, in page
      order, when every page answers and each later page has `Table1`. */
  lemma TransactionsInPageOrder(fetch: int -> Outcome<Envelope>, pages: seq<Envelope>)
    requires |pages| >= 1 && |pages| == LastPage(pages[0])
    requires forall i :: 0 <= i < |pages| ==> fetch(i + 1) == Ok(pages[i])
    requires forall i :: 1 <= i < |pages| ==> pages[i].table1.Some?
    ensures Transactions(fetch) == Ok(AllRows(pages))
  {
    assert fetch(0 + 1) == Ok(pages[0]);
    var later := pages[1..];
    if PageCount(pages[0]) > 1 {
      forall i | 0 <= i < |later|
        ensures fetch(2 + i) == Ok(later[i])
      {
        assert fetch((i + 1) + 1) == Ok(pages[i + 1]);
      }
      RowsFromInOrder(fetch, later, 2, PageCount(pages[0]));
    } else {
      assert later == [] && LaterRows(later) == [];
      assert AllRows(pages) == FirstRows(pages[0]) + [] == FirstRows(pages[0]);
      assert Transactions(fetch) == Ok(FirstRows(pages[0]));
    }
  }

  /** Later pages are read only for their `Table1` rows: two services that
      answer page 1 alike, and fail or give the same `Table1` alike on every
      later page, yield the same listing, whatever summary the later pages
      carry. */
  lemma {:induction false} RowsFromIgnoresLaterSummary(a: int -> Outcome<Envelope>, b: int -> Outcome<Envelope>,
                                                        page: int, last: int)
    requires forall p :: page <= p <= last ==> SameRows(a(p), b(p))
    ensures RowsFrom(a, page, last) == RowsFrom(b, page, last)
    decreases last - page
  {
    if page <= last {
      assert SameRows(a(page), b(page));
      RowsFromIgnoresLaterSummary(a, b, page + 1, last);
    }
  }

  /** Two page replies that agree on everything but the summary record. */
  predicate SameRows(x: Outcome<Envelope>, y: Outcome<Envelope>) {
    match x
    case Err(f) => y == Err(f)
    case Ok(e) => y.Ok? && y.value.table1 == e.table1
  }

  lemma PageCountReadOnlyFromFirstPage(a: int -> Outcome<Envelope>, b: int -> Outcome<Envelope>)
    requires a(1) == b(1)
    requires forall p :: p >= 2 ==> SameRows(a(p), b(p))
    ensures Transactions(a) == Transactions(b)
  {
    var first := a(1);
    if first.Ok? && PageCount(first.value) > 1 {
      RowsFromIgnoresLaterSummary(a, b, 2, PageCount(first.value));
    }
  }
}
