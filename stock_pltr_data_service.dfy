/** The StockPltr cache of stockpltr/service/StockPltrDataService.java:
    stored quote records and comments, served while fresh, refreshed from
    the crawler otherwise, with the stored copy as a fallback when the
    crawl yields nothing. The two JPA repositories become two sequences
    of stored rows, in insertion order; the crawler is an outcome passed
    in; the clock is an injected `now` in seconds. */
module StockPltrService {
  import opened Wrappers
  import opened Sorting
  import opened StockPltrModel

  /** Records crawled less than five minutes ago are served as they are. */
  const DataWindow: int := 300
  /** Comments crawled less than ten minutes ago are served as they are. */
  const CommentWindow: int := 600
  /** How many popular comments the statistics report. */
  const TopCount: nat := 5

  // ---------------------------------------------------------------------
  // Repository queries

  /** The rows satisfying p, in stored order. */
  function Filter<T(!new)>(s: seq<T>, p: T -> bool): (r: seq<T>)
    ensures |r| <= |s|
    ensures forall x :: x in r <==> x in s && p(x)
  {
    if s == [] then []
    else Filter(s[..|s| - 1], p) + (if p(s[|s| - 1]) then [s[|s| - 1]] else [])
  }

  /** Filtering a row appended at the end. */
  lemma FilterSnoc<T(!new)>(s: seq<T>, x: T, p: T -> bool)
    ensures Filter(s + [x], p) == Filter(s, p) + (if p(x) then [x] else [])
  {
    assert (s + [x])[..|s|] == s;
  }

  /** The stored records of one symbol. */
  function RecordsOf(rows: seq<StockPltrData>, symbol: string): seq<StockPltrData> {
    Filter(rows, (d: StockPltrData) => d.symbol == symbol)
  }

  function ByCrawlTime(d: StockPltrData): (int, int) { (d.crawlTime, 0) }

  /** findLatestBySymbol as its query reads: the symbol's rows ordered by
      crawl time, newest first, with no row limit, returned through an
      Optional. With two or more rows the single-result lookup throws
      (IncorrectResultSizeDataAccessException). */
  function FindLatestBySymbolAsWritten(rows: seq<StockPltrData>, symbol: string): (r: Outcome<Option<StockPltrData>>)
  {
    var matching := SortBy(RecordsOf(rows, symbol), ByCrawlTime);
    if |matching| == 0 then Done(None)
    else if |matching| == 1 then Done(Some(matching[0]))
    else Thrown
  }

  /** findLatestBySymbol as its name promises: the symbol's most recently
      crawled row, if any. */
  function LatestBySymbol(rows: seq<StockPltrData>, symbol: string): Option<StockPltrData> {
    var matching := SortBy(RecordsOf(rows, symbol), ByCrawlTime);
    if matching == [] then None else Some(matching[0])
  }

  /** The latest row is a stored row of the symbol that no other row of the
      symbol was crawled after; there is none only when the symbol has no
      row at all. */
  lemma LatestBySymbolIsLatest(rows: seq<StockPltrData>, symbol: string)
    ensures LatestBySymbol(rows, symbol).None? <==> forall d :: d in rows ==> d.symbol != symbol
    ensures LatestBySymbol(rows, symbol).Some? ==>
      var latest := LatestBySymbol(rows, symbol).value;
      latest in rows && latest.symbol == symbol &&
      forall d :: d in rows && d.symbol == symbol ==> d.crawlTime <= latest.crawlTime
  {
    var matching := RecordsOf(rows, symbol);
    var sorted := SortBy(matching, ByCrawlTime);
    assert forall d :: d in matching ==> d in multiset(sorted);
    if sorted != [] {
      var latest := sorted[0];
      assert latest in multiset(matching);
      assert latest in matching;
      forall d | d in rows && d.symbol == symbol
        ensures d.crawlTime <= latest.crawlTime
      {
        assert d in matching;
        SortByFirst(matching, ByCrawlTime, d);
      }
    }
  }

  /** With at most one row for the symbol the query as written returns
      that row, like the corrected lookup. */
  lemma AsWrittenAgreesOnSingleRow(rows: seq<StockPltrData>, symbol: string)
    requires |RecordsOf(rows, symbol)| <= 1
    ensures FindLatestBySymbolAsWritten(rows, symbol) == Done(LatestBySymbol(rows, symbol))
  {
  }

  /** Saving a fresh crawl of a symbol that already has a row leaves two
      rows, after which the query as written throws on every call, while
      the latest row is still there to be found. */
  lemma AsWrittenThrowsAfterRefresh(rows: seq<StockPltrData>, d: StockPltrData)
    requires LatestBySymbol(rows, d.symbol).Some?
    ensures FindLatestBySymbolAsWritten(rows + [d], d.symbol).Thrown?
    ensures LatestBySymbol(rows + [d], d.symbol).Some?
  {
    var p := (x: StockPltrData) => x.symbol == d.symbol;
    FilterSnoc(rows, d, p);
    assert |RecordsOf(rows + [d], d.symbol)| == |RecordsOf(rows, d.symbol)| + 1;
  }

  /** A concrete case: two crawls of PLTR ten minutes apart. */
  lemma AsWrittenCounterexample()
    ensures var first := NewStockPltrData("PLTR", 0);
      var second := NewStockPltrData("PLTR", 600);
      FindLatestBySymbolAsWritten([first, second], "PLTR").Thrown? &&
      LatestBySymbol([first, second], "PLTR") == Some(second)
  {
    var first := NewStockPltrData("PLTR", 0);
    var second := NewStockPltrData("PLTR", 600);
    LatestBySymbolIsLatest([first], "PLTR");
    AsWrittenThrowsAfterRefresh([first], second);
    assert [first] + [second] == [first, second];
    LatestBySymbolIsLatest([first, second], "PLTR");
  }

  /** The stored comments of one symbol from one data source. */
  function CommentsOf(comments: seq<StockComment>, symbol: string): seq<StockComment> {
    Filter(comments, (c: StockComment) => c.stockSymbol == symbol && c.dataSource == StockPltrSource)
  }

  function ByCommentTime(c: StockComment): (int, int) { (c.commentTime, 0) }

  /** findByStockSymbolAndDataSourceOrderByCommentTimeDesc(symbol,
      "stockpltr"): the symbol's StockPltr comments, newest comment first. */
  function StoredComments(comments: seq<StockComment>, symbol: string): (r: seq<StockComment>)
    ensures SortedDesc(r, ByCommentTime)
    ensures multiset(r) == multiset(CommentsOf(comments, symbol))
  {
    SortBy(CommentsOf(comments, symbol), ByCommentTime)
  }

  /** The stored comments of one symbol from any source. */
  function CommentsBySymbol(comments: seq<StockComment>, symbol: string): seq<StockComment> {
    Filter(comments, (c: StockComment) => c.stockSymbol == symbol)
  }

  function ByPopularity(c: StockComment): (int, int) { (c.likesCount, c.commentTime) }

  /** findPopularComments: the symbol's comments, most liked first, newer
      first among equally liked ones. */
  function PopularComments(comments: seq<StockComment>, symbol: string): (r: seq<StockComment>)
    ensures SortedDesc(r, ByPopularity)
    ensures multiset(r) == multiset(CommentsBySymbol(comments, symbol))
  {
    SortBy(CommentsBySymbol(comments, symbol), ByPopularity)
  }

  /** How many comments carry the given sentiment. */
  function CountSentiment(comments: seq<StockComment>, sentiment: Option<string>): nat {
    if comments == [] then 0
    else
      var last := if comments[|comments| - 1].sentiment == sentiment then 1 else 0;
      CountSentiment(comments[..|comments| - 1], sentiment) + last
  }

  /** countByStockSymbolAndSentiment: GROUP BY sentiment, COUNT. */
  function Tally(comments: seq<StockComment>): map<Option<string>, nat> {
    if comments == [] then map[]
    else
      var m := Tally(comments[..|comments| - 1]);
      var s := comments[|comments| - 1].sentiment;
      m[s := (if s in m then m[s] else 0) + 1]
  }

  /** The tally has a group for each sentiment that occurs, holding the
      number of comments with it, and no other group. */
  lemma {:induction false} TallyCounts(comments: seq<StockComment>, sentiment: Option<string>)
    ensures sentiment in Tally(comments) <==> CountSentiment(comments, sentiment) > 0
    ensures sentiment in Tally(comments) ==> Tally(comments)[sentiment] == CountSentiment(comments, sentiment)
  {
    if comments != [] {
      TallyCounts(comments[..|comments| - 1], sentiment);
    }
  }

  /** The statistics the service reports for one symbol. */
  datatype CommentStatistics = CommentStatistics(
    totalCount: nat,
    sentimentStatistics: map<Option<string>, nat>,
    topComments: seq<StockComment>)

  /** The first n rows, or all of them when there are fewer (stream.limit). */
  function Limit<T>(s: seq<T>, n: nat): (r: seq<T>)
    ensures |r| == if |s| < n then |s| else n
    ensures r == s[..|r|]
  {
    if |s| <= n then s else s[..n]
  }

  /** getCommentStatistics over the stored comments. */
  function Statistics(comments: seq<StockComment>, symbol: string): (r: CommentStatistics)
    ensures |r.topComments| <= TopCount
    ensures r.totalCount == |CommentsBySymbol(comments, symbol)|
  {
    var bySymbol := CommentsBySymbol(comments, symbol);
    CommentStatistics(|bySymbol|, Tally(bySymbol), Limit(PopularComments(comments, symbol), TopCount))
  }

  /** The top comments are five of the symbol's comments (all of them when
      it has fewer), most popular first. */
  lemma TopCommentsOfSymbol(comments: seq<StockComment>, symbol: string)
    ensures var top := Statistics(comments, symbol).topComments;
      var total := Statistics(comments, symbol).totalCount;
      |top| == (if total < TopCount then total else TopCount) &&
      SortedDesc(top, ByPopularity) &&
      forall t :: t in top ==> t in comments && t.stockSymbol == symbol
  {
    var popular := PopularComments(comments, symbol);
    var top := Statistics(comments, symbol).topComments;
    assert top == popular[..|top|];
    forall t | t in top
      ensures t in comments && t.stockSymbol == symbol
    {
      assert t in multiset(popular);
    }
  }

  /** Every comment of the symbol left out of the top comments ranks at or
      below each of them. */
  lemma TopCommentsOutrankTheRest(comments: seq<StockComment>, symbol: string, x: StockComment)
    requires x in comments && x.stockSymbol == symbol
    requires x !in Statistics(comments, symbol).topComments
    ensures forall t :: t in Statistics(comments, symbol).topComments ==>
      RanksBefore(ByPopularity(t), ByPopularity(x))
  {
    var popular := PopularComments(comments, symbol);
    var top := Statistics(comments, symbol).topComments;
    assert top == popular[..|top|];
    assert x in CommentsBySymbol(comments, symbol);
    assert x in multiset(popular);
    var j :| 0 <= j < |popular| && popular[j] == x;
    forall t | t in top
      ensures RanksBefore(ByPopularity(t), ByPopularity(x))
    {
      var i :| 0 <= i < |top| && top[i] == t;
      assert popular[i] == t;
    }
  }

  // ---------------------------------------------------------------------
  // The cache

  /** crawlTime.isAfter(now minus the window). */
  predicate Fresh(crawlTime: int, now: int, window: int) {
    crawlTime > now - window
  }

  /** The record the save stamps and stores. */
  function Stamped(d: StockPltrData, now: int): StockPltrData {
    d.(updatedAt := Some(now))
  }

  /** The records batchUpdateStockData saves for the first n symbols: each
      crawled record, stamped, in order. */
  function BatchRecords(crawls: nat -> Outcome<Option<StockPltrData>>, n: nat, now: int): seq<StockPltrData> {
    if n == 0 then []
    else
      var saved := match crawls(n - 1)
        case Done(Some(d)) => [Stamped(d, now)]
        case _ => [];
      BatchRecords(crawls, n - 1, now) + saved
  }

  /** The comments batchUpdateStockData saves for the first n symbols: the
      crawled comments of each symbol whose record step did not throw. */
  function BatchComments(crawls: nat -> Outcome<Option<StockPltrData>>, commentCrawls: nat -> Outcome<seq<StockComment>>, n: nat): seq<StockComment> {
    if n == 0 then []
    else
      var saved := if crawls(n - 1).Thrown? || commentCrawls(n - 1).Thrown? then [] else commentCrawls(n - 1).value;
      BatchComments(crawls, commentCrawls, n - 1) + saved
  }

  /** A failure on one symbol does not stop the others: every record
      crawled for any of the first n symbols is saved. */
  lemma {:induction false} BatchSavesEveryRecord(crawls: nat -> Outcome<Option<StockPltrData>>, n: nat, now: int, i: nat)
    requires i < n && crawls(i).Done? && crawls(i).value.Some?
    ensures Stamped(crawls(i).value.value, now) in BatchRecords(crawls, n, now)
  {
    if i < n - 1 {
      BatchSavesEveryRecord(crawls, n - 1, now, i);
    }
  }

  /** Every comment crawled for a symbol whose record step went through is
      saved, whatever happened to the other symbols. */
  lemma {:induction false} BatchSavesEveryComment(crawls: nat -> Outcome<Option<StockPltrData>>, commentCrawls: nat -> Outcome<seq<StockComment>>, n: nat, i: nat, c: StockComment)
    requires i < n && crawls(i).Done? && commentCrawls(i).Done? && c in commentCrawls(i).value
    ensures c in BatchComments(crawls, commentCrawls, n)
  {
    if i < n - 1 {
      BatchSavesEveryComment(crawls, commentCrawls, n - 1, i, c);
    }
  }

  /** A record saved at time t is served from the cache by a later call at
      `later` as long as it was crawled within the window before `later`:
      the lookup then finds a record at least as recent. */
  lemma RefreshThenCached(rows: seq<StockPltrData>, d: StockPltrData, now: int, later: int)
    requires Fresh(d.crawlTime, later, DataWindow)
    ensures var latest := LatestBySymbol(rows + [Stamped(d, now)], d.symbol);
      latest.Some? && Fresh(latest.value.crawlTime, later, DataWindow)
  {
    var saved := Stamped(d, now);
    LatestBySymbolIsLatest(rows + [saved], d.symbol);
    assert saved in rows + [saved];
  }

  class StockPltrDataService {
    /** stockpltr.crawl.enabled */
    const crawlEnabled: bool
    /** The stock record table, in insertion order. */
    var records: seq<StockPltrData>
    /** The comment table, in insertion order. */
    var comments: seq<StockComment>

    constructor (crawlEnabled: bool)
      ensures this.crawlEnabled == crawlEnabled && records == [] && comments == []
    {
      this.crawlEnabled := crawlEnabled;
      records := [];
      comments := [];
    }

    /** saveStockData: stamps the record with the save time and inserts it. */
    method SaveStockData(data: StockPltrData, now: int) returns (saved: StockPltrData)
      modifies this`records
      ensures saved == Stamped(data, now) && saved.updatedAt == Some(now)
      ensures records == old(records) + [saved]
    {
      saved := data.(updatedAt := Some(now));
      records := records + [saved];
    }

    /** saveStockComments: inserts the comments in order. */
    method SaveStockComments(cs: seq<StockComment>)
      modifies this`comments
      ensures comments == old(comments) + cs
    {
      comments := comments + cs;
    }

    /** getStockData. `crawl` is what the crawler yields for the symbol:
        Done(Some(record)), Done(None) when it finds nothing, or Thrown when
        an exception escapes the crawl or the save of its result. A fresh
        cached record is returned without crawling; otherwise a crawled
        record is saved and returned; otherwise the cached record, however
        stale, or None. An exception gives None. */
    method GetStockData(symbol: string, now: int, crawl: Outcome<Option<StockPltrData>>) returns (r: Option<StockPltrData>)
      modifies this`records
      ensures var cached := LatestBySymbol(old(records), symbol);
        cached.Some? && Fresh(cached.value.crawlTime, now, DataWindow) ==> r == cached && records == old(records)
      ensures var cached := LatestBySymbol(old(records), symbol);
        !(cached.Some? && Fresh(cached.value.crawlTime, now, DataWindow)) ==>
          match crawl
          case Thrown => r.None? && records == old(records)
          case Done(None) => r == cached && records == old(records)
          case Done(Some(d)) => r == Some(Stamped(d, now)) && records == old(records) + [Stamped(d, now)]
    {
      var existing := LatestBySymbol(records, symbol);
      if existing.Some? && existing.value.crawlTime > now - DataWindow {
        return existing;
      }
      match crawl {
        case Thrown =>
          return None;
        case Done(newData) =>
          if newData.Some? {
            var saved := SaveStockData(newData.value, now);
            return Some(saved);
          }
          return existing;
      }
    }

    /** getStockData with findLatestBySymbol as its query is written. Once
        the symbol has two or more stored rows the lookup throws, the catch
        returns null, and nothing is crawled or saved: the symbol stays
        unreadable. With at most one row it serves, crawls and saves as
        GetStockData does. */
    method GetStockDataAsWritten(symbol: string, now: int, crawl: Outcome<Option<StockPltrData>>) returns (r: Option<StockPltrData>)
      modifies this`records
      ensures |RecordsOf(old(records), symbol)| >= 2 ==> r.None? && records == old(records)
      ensures var cached := LatestBySymbol(old(records), symbol);
        |RecordsOf(old(records), symbol)| <= 1 && cached.Some? && Fresh(cached.value.crawlTime, now, DataWindow) ==>
          r == cached && records == old(records)
      ensures var cached := LatestBySymbol(old(records), symbol);
        |RecordsOf(old(records), symbol)| <= 1 && !(cached.Some? && Fresh(cached.value.crawlTime, now, DataWindow)) ==>
          match crawl
          case Thrown => r.None? && records == old(records)
          case Done(None) => r == cached && records == old(records)
          case Done(Some(d)) => r == Some(Stamped(d, now)) && records == old(records) + [Stamped(d, now)]
    {
      var lookup := FindLatestBySymbolAsWritten(records, symbol);
      if lookup.Thrown? {
        return None;
      }
      AsWrittenAgreesOnSingleRow(records, symbol);
      var existing := lookup.value;
      if existing.Some? && existing.value.crawlTime > now - DataWindow {
        return existing;
      }
      match crawl {
        case Thrown =>
          return None;
        case Done(newData) =>
          if newData.Some? {
            var saved := SaveStockData(newData.value, now);
            return Some(saved);
          }
          return existing;
      }
    }

    /** getStockComments. `crawl` is what the crawler yields (Thrown when an
        exception escapes the crawl or the save). Stored comments whose
        newest one was crawled within ten minutes are returned as they are;
        otherwise non-empty crawled comments are saved and returned;
        otherwise the stored comments. An exception gives the empty list. */
    method GetStockComments(symbol: string, now: int, crawl: Outcome<seq<StockComment>>) returns (r: seq<StockComment>)
      modifies this`comments
      ensures var stored := StoredComments(old(comments), symbol);
        stored != [] && Fresh(stored[0].crawlTime, now, CommentWindow) ==> r == stored && comments == old(comments)
      ensures var stored := StoredComments(old(comments), symbol);
        !(stored != [] && Fresh(stored[0].crawlTime, now, CommentWindow)) ==>
          match crawl
          case Thrown => r == [] && comments == old(comments)
          case Done(cs) =>
            if cs != [] then r == cs && comments == old(comments) + cs
            else r == stored && comments == old(comments)
    {
      var existing := StoredComments(comments, symbol);
      if existing != [] && existing[0].crawlTime > now - CommentWindow {
        return existing;
      }
      match crawl {
        case Thrown =>
          return [];
        case Done(newComments) =>
          if newComments != [] {
            SaveStockComments(newComments);
            return newComments;
          }
          return existing;
      }
    }

    /** batchUpdateStockData: nothing when crawling is disabled; otherwise,
        symbol by symbol, save the crawled record if any, then the crawled
        comments if any. A throw in the record step skips that symbol's
        comments; a throw never stops the loop. crawls(i) and
        commentCrawls(i) are the crawler's outcomes for symbols[i]. */
    method BatchUpdateStockData(symbols: seq<string>, now: int,
                                crawls: nat -> Outcome<Option<StockPltrData>>,
                                commentCrawls: nat -> Outcome<seq<StockComment>>)
      modifies this`records, this`comments
      ensures !crawlEnabled ==> records == old(records) && comments == old(comments)
      ensures crawlEnabled ==> records == old(records) + BatchRecords(crawls, |symbols|, now)
      ensures crawlEnabled ==> comments == old(comments) + BatchComments(crawls, commentCrawls, |symbols|)
    {
      if !crawlEnabled {
        return;
      }
      for i := 0 to |symbols|
        invariant records == old(records) + BatchRecords(crawls, i, now)
        invariant comments == old(comments) + BatchComments(crawls, commentCrawls, i)
      {
        match crawls(i) {
          case Thrown =>
          case Done(stockData) =>
            if stockData.Some? {
              var _ := SaveStockData(stockData.value, now);
            }
            match commentCrawls(i) {
              case Thrown =>
              case Done(cs) =>
                if cs != [] {
                  SaveStockComments(cs);
                }
            }
        }
      }
    }

    /** getCommentStatistics: the total, the sentiment groups and at most
        five popular comments of the symbol. */
    function GetCommentStatistics(symbol: string): (r: CommentStatistics)
      reads this
      ensures |r.topComments| <= TopCount
      ensures forall c :: c in r.topComments ==> c in comments && c.stockSymbol == symbol
    {
      TopCommentsOfSymbol(comments, symbol);
      Statistics(comments, symbol)
    }
  }
}
