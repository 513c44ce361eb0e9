/** The two StockPltr entities, stockpltr/model/StockPltrData.java and
    stockpltr/model/StockComment.java, as field layouts. Both are plain
    beans: the services copy them into and out of the repositories, so
    they are values here. Times are seconds on an injected clock. */
module StockPltrModel {
  import opened Wrappers

  /** The data source every StockPltr record and comment is tagged with. */
  const StockPltrSource: string := "stockpltr"

  /** One crawled snapshot of a stock's quote and valuation figures. */
  datatype StockPltrData = StockPltrData(
    symbol: string,
    companyName: Option<string>,
    currentPrice: Option<real>,
    priceChange: Option<real>,
    priceChangePercent: Option<real>,
    volume: Option<int>,
    marketCap: Option<int>,
    peRatio: Option<real>,
    pbRatio: Option<real>,
    dividendYield: Option<real>,
    recommendation: Option<string>,
    targetPrice: Option<real>,
    dataSource: string,
    crawlTime: int,
    createdAt: int,
    updatedAt: Option<int>)

  /** One crawled user comment on a stock. */
  datatype StockComment = StockComment(
    stockSymbol: string,
    commentId: string,
    userName: Option<string>,
    userAvatar: Option<string>,
    content: Option<string>,
    likesCount: int,
    repliesCount: int,
    sentiment: Option<string>,
    sentimentScore: Option<real>,
    commentTime: int,
    dataSource: string,
    crawlTime: int,
    createdAt: int)

  /** new StockPltrData(symbol) at time `now`: created and crawled now,
      tagged "stockpltr", every figure still null. */
  function NewStockPltrData(symbol: string, now: int): (d: StockPltrData)
    ensures d.symbol == symbol && d.dataSource == StockPltrSource
    ensures d.crawlTime == now && d.createdAt == now && d.updatedAt.None?
    ensures d.companyName.None? && d.currentPrice.None?
  {
    StockPltrData(symbol, None, None, None, None, None, None, None, None, None, None, None,
                  StockPltrSource, now, now, None)
  }

  /** new StockComment(symbol, commentId) at time `now`: created and crawled
      now, tagged "stockpltr", no likes or replies, no content and no
      sentiment yet. The comment time, which the bean leaves null until a
      setter runs, starts out as `now` here. */
  function NewStockComment(symbol: string, commentId: string, now: int): (c: StockComment)
    ensures c.stockSymbol == symbol && c.commentId == commentId && c.dataSource == StockPltrSource
    ensures c.crawlTime == now && c.createdAt == now
    ensures c.likesCount == 0 && c.repliesCount == 0
    ensures c.content.None? && c.sentiment.None? && c.sentimentScore.None?
  {
    StockComment(symbol, commentId, None, None, None, 0, 0, None, None, now, StockPltrSource, now, now)
  }
}
