/** The quote record of stock/model/StockData.java: one row of the stock
    table. Its fields are updated in place by setters, by the scrapers and
    by the persistence hook, so it is a class. Null columns are `None`;
    times are seconds on an injected clock. */
module StockModel {
  import opened Wrappers

  class StockData {
    var symbol: Option<string>
    var name: Option<string>
    var currentPrice: Option<real>
    var openPrice: Option<real>
    var highPrice: Option<real>
    var lowPrice: Option<real>
    var previousClose: Option<real>
    var changePercent: Option<real>
    var volume: Option<real>
    var marketCap: Option<real>
    var peRatio: Option<real>
    var lastUpdated: int
    var createdAt: int

    /** Every column that the scrapers may fill in is still null. */
    predicate NoQuote()
      reads this
    {
      currentPrice.None? && openPrice.None? && highPrice.None? && lowPrice.None?
      && previousClose.None? && changePercent.None? && volume.None?
      && marketCap.None? && peRatio.None?
    }

    /** The no-argument constructor: both timestamps are the clock reading. */
    constructor Empty(now: int)
      ensures symbol.None? && name.None? && NoQuote()
      ensures createdAt == now && lastUpdated == now
    {
      symbol := None;
      name := None;
      currentPrice := None;
      openPrice := None;
      highPrice := None;
      lowPrice := None;
      previousClose := None;
      changePercent := None;
      volume := None;
      marketCap := None;
      peRatio := None;
      createdAt := now;
      lastUpdated := now;
    }

    /** The (symbol, name) constructor: the no-argument one, then the two names. */
    constructor (symbol: string, name: string, now: int)
      ensures this.symbol == Some(symbol) && this.name == Some(name) && NoQuote()
      ensures createdAt == now && lastUpdated == now
    {
      this.symbol := Some(symbol);
      this.name := Some(name);
      currentPrice := None;
      openPrice := None;
      highPrice := None;
      lowPrice := None;
      previousClose := None;
      changePercent := None;
      volume := None;
      marketCap := None;
      peRatio := None;
      createdAt := now;
      lastUpdated := now;
    }

    /** getPriceChange: how far the price moved from the previous close, or
        zero while either price is unknown. */
    function PriceChange(): (r: real)
      reads this
      ensures currentPrice.Some? && previousClose.Some? ==> previousClose.value + r == currentPrice.value
      ensures currentPrice.None? || previousClose.None? ==> r == 0.0
    {
      if currentPrice.Some? && previousClose.Some? then currentPrice.value - previousClose.value
      else 0.0
    }

    /** The pre-update hook: stamps lastUpdated with the clock and touches
        nothing else. */
    method UpdateLastModified(now: int)
      modifies this`lastUpdated
      ensures lastUpdated == now
    {
      lastUpdated := now;
    }
  }
}
