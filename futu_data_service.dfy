/** The Futu market-data service of futu/service/FutuDataService.java. The
    OpenAPI connection is simulated in the source, so connecting always
    succeeds once the settings are valid. Quotes and K-lines are mock
    records; the Math.random() values they are built from are injected
    here as parameters. */
module FutuService {
  import opened Wrappers
  import opened Text
  import opened Decimal
  import opened StockModel
  import opened StockService
  import opened FutuSettings
  import opened TechnicalAnalysis

  /** Seconds in a day on the injected clock. */
  const Day: int := 86400

  /** The base price of every mock quote: new BigDecimal("150.00"). */
  const BasePrice: real := 150.0

  // ---------------------------------------------------------------------
  // Symbol handling

  predicate NoDot(s: string) {
    forall i :: 0 <= i < |s| ==> s[i] != '.'
  }

  /** The text after the first '.', if there is one. */
  function AfterFirstDot(s: string): Option<string> {
    if s == [] then None
    else if s[0] == '.' then Some(s[1..])
    else AfterFirstDot(s[1..])
  }

  /** The text before the first '.', or all of it. */
  function UpToDot(s: string): string {
    if s == [] || s[0] == '.' then [] else [s[0]] + UpToDot(s[1..])
  }

  /** The string has no character other than '.'. */
  predicate AllDots(s: string) {
    s == [] || (s[0] == '.' && AllDots(s[1..]))
  }

  /** The ticker of a market-qualified code such as "US.AAPL": the text
      between the first and the second '.', or the whole code when it has
      no '.'. None stands for the ArrayIndexOutOfBoundsException of a code
      with nothing but dots after its first one, such as "US.". Lemma
      CleanSymbolIsSplit shows this is the second piece of split("\\."). */
  function CleanSymbol(symbol: string): (r: Option<string>) {
    match AfterFirstDot(symbol)
    case None => Some(symbol)
    case Some(rest) => if AllDots(rest) then None else Some(UpToDot(rest))
  }

  /** createMockStockData's expression as written: the second element of
      symbol.split("\\.") when the symbol contains ".", else the symbol. */
  function SplitTicker(symbol: string): Option<string> {
    if Contains(symbol, ".") then
      var parts := Split(symbol, ".");
      if |parts| >= 2 then Some(parts[1]) else None
    else Some(symbol)
  }

  lemma {:induction false} AfterFirstDotParts(s: string) returns (a: string)
    ensures AfterFirstDot(s).None? ==> NoDot(s)
    ensures AfterFirstDot(s).Some? ==> NoDot(a) && s == a + "." + AfterFirstDot(s).value
    decreases |s|
  {
    a := [];
    if s != [] && s[0] != '.' {
      var a' := AfterFirstDotParts(s[1..]);
      a := [s[0]] + a';
      if AfterFirstDot(s).Some? {
        assert s == [s[0]] + s[1..];
      }
    }
  }

  lemma {:induction false} AfterFirstDotOf(a: string, rest: string)
    requires NoDot(a)
    ensures AfterFirstDot(a + "." + rest) == Some(rest)
    decreases |a|
  {
    if a != [] {
      assert (a + "." + rest)[1..] == a[1..] + "." + rest;
      AfterFirstDotOf(a[1..], rest);
    } else {
      assert a + "." + rest == "." + rest;
    }
  }

  lemma {:induction false} UpToDotOf(b: string, tail: string)
    requires NoDot(b) && (tail == [] || tail[0] == '.')
    ensures UpToDot(b + tail) == b
    decreases |b|
  {
    if b != [] {
      assert (b + tail)[1..] == b[1..] + tail;
      UpToDotOf(b[1..], tail);
    } else {
      assert b + tail == tail;
    }
  }

  /** Where the first '.' is, the text before it is UpToDot. */
  lemma {:induction false} UpToDotAt(x: string, k: nat)
    requires k < |x| && x[k] == '.' && NoDot(x[..k])
    ensures UpToDot(x) == x[..k]
    decreases k
  {
    if k > 0 {
      assert x[1..][..k - 1] == x[1..k];
      UpToDotAt(x[1..], k - 1);
      assert x[..k] == [x[0]] + x[1..k];
    }
  }

  lemma {:induction false} UpToDotNoDot(x: string)
    requires NoDot(x)
    ensures UpToDot(x) == x
    decreases |x|
  {
    if x != [] {
      UpToDotNoDot(x[1..]);
    }
  }

  /** A one-character separator occurs exactly where that character is. */
  lemma OccursDot(x: string, j: nat)
    ensures OccursAt(x, ".", j) <==> j < |x| && x[j] == '.'
  {
    if j < |x| {
      assert |x[j..j + 1]| == 1 && x[j..j + 1][0] == x[j];
    }
  }

  /** The first piece of a split is the text before the first '.'. */
  lemma SplitAllFirst(x: string)
    ensures SplitAll(x, ".")[0] == UpToDot(x)
  {
    match IndexOf(x, ".")
    case None =>
      forall j | 0 <= j < |x|
        ensures x[j] != '.'
      {
        OccursDot(x, j);
      }
      UpToDotNoDot(x);
    case Some(k) =>
      OccursDot(x, k);
      forall j | 0 <= j < k
        ensures x[..k][j] != '.'
      {
        OccursDot(x, j);
      }
      UpToDotAt(x, k);
  }

  /** Splitting a string of dots gives empty pieces only. */
  lemma {:induction false} SplitAllDots(x: string)
    requires AllDots(x)
    ensures forall j :: 0 <= j < |SplitAll(x, ".")| ==> SplitAll(x, ".")[j] == []
    decreases |x|
  {
    if x == [] {
      NotContains(x, ".");
    } else {
      IndexOfAfter([], ".", x[1..]);
      assert [] + "." + x[1..] == x;
      SplitAllFound(x, ".", 0);
      SplitAllDots(x[1..]);
    }
  }

  /** Splitting a string with some other character gives a non-empty piece. */
  lemma {:induction false} SplitAllSomePiece(x: string) returns (j: nat)
    requires !AllDots(x)
    ensures j < |SplitAll(x, ".")| && SplitAll(x, ".")[j] != []
    decreases |x|
  {
    match IndexOf(x, ".")
    case None =>
      j := 0;
    case Some(k) =>
      SplitAllFound(x, ".", k);
      if k > 0 {
        j := 0;
      } else {
        OccursDot(x, 0);
        var j' := SplitAllSomePiece(x[1..]);
        j := j' + 1;
      }
  }

  /** The scanner agrees with the source's split-based expression on every
      input, including the codes whose split has fewer than two pieces. */
  lemma CleanSymbolIsSplit(symbol: string)
    ensures CleanSymbol(symbol) == SplitTicker(symbol)
  {
    var a := AfterFirstDotParts(symbol);
    match AfterFirstDot(symbol)
    case None =>
      NotContains(symbol, ".");
    case Some(rest) =>
      IndexOfAfter(a, ".", rest);
      SplitAllFound(symbol, ".", |a|);
      assert symbol[..|a|] == a && symbol[|a| + 1..] == rest;
      var all := SplitAll(symbol, ".");
      assert all == [a] + SplitAll(rest, ".");
      var parts := DropTrailingEmpty(all);
      if AllDots(rest) {
        SplitAllDots(rest);
      } else {
        var j := SplitAllSomePiece(rest);
        assert all[j + 1] != [];
        SplitAllFirst(rest);
        assert parts[1] == all[1];
      }
  }

  /** A code without a market prefix is its own ticker. */
  lemma CleanSymbolUnqualified(symbol: string)
    requires NoDot(symbol)
    ensures CleanSymbol(symbol) == Some(symbol)
  {
    AfterFirstDotNoDot(symbol);
  }

  lemma {:induction false} AfterFirstDotNoDot(s: string)
    requires NoDot(s)
    ensures AfterFirstDot(s) == None
    decreases |s|
  {
    if s != [] {
      AfterFirstDotNoDot(s[1..]);
    }
  }

  /** The ticker of market + "." + ticker is the ticker, whatever follows a
      further dot. */
  lemma CleanSymbolQualified(market: string, ticker: string, tail: string)
    requires NoDot(market) && NoDot(ticker) && ticker != []
    requires tail == [] || tail[0] == '.'
    ensures CleanSymbol(market + "." + ticker + tail) == Some(ticker)
  {
    AfterFirstDotOf(market, ticker + tail);
    assert market + "." + ticker + tail == market + "." + (ticker + tail);
    UpToDotOf(ticker, tail);
  }

  /** A market prefix with nothing after its dot has no ticker. */
  lemma CleanSymbolMissingTicker(market: string)
    requires NoDot(market)
    ensures CleanSymbol(market + ".") == None
  {
    AfterFirstDotOf(market, []);
    assert market + "." + [] == market + ".";
  }

  /** The Futu code that the analysis service asks for names the
      upper-cased symbol as its ticker. */
  lemma HistoryCodeTicker(symbol: string, count: int)
    requires NoDot(symbol) && symbol != []
    ensures CleanSymbol(HistorySourceFor(true, symbol, count).code) == Some(Upper(symbol))
  {
    var u := Upper(symbol);
    UpperNoDot(symbol);
    assert NoDot("US");
    CleanSymbolQualified("US", u, []);
    assert "US." + u == "US" + "." + u + [];
  }

  /** Upper-casing adds no dot. */
  lemma UpperNoDot(symbol: string)
    requires NoDot(symbol)
    ensures NoDot(Upper(symbol))
  {
    var u := Upper(symbol);
    forall i | 0 <= i < |u|
      ensures u[i] != '.'
    {
      assert u[i] == UpperChar(symbol[i]);
    }
  }

  // ---------------------------------------------------------------------
  // Company names

  /** The seven tickers that the service knows by name. */
  const KnownCompanies: map<string, string> := map[
    "AAPL" := "Apple Inc.",
    "GOOGL" := "Alphabet Inc.",
    "MSFT" := "Microsoft Corporation",
    "AMZN" := "Amazon.com Inc.",
    "TSLA" := "Tesla Inc.",
    "META" := "Meta Platforms Inc.",
    "NVDA" := "NVIDIA Corporation"
  ]

  /** getCompanyName: the known name of the upper-cased ticker, otherwise
      the ticker as given followed by " Corporation". */
  function CompanyName(symbol: string): string
  {
    match Upper(symbol)
    case "AAPL" => "Apple Inc."
    case "GOOGL" => "Alphabet Inc."
    case "MSFT" => "Microsoft Corporation"
    case "AMZN" => "Amazon.com Inc."
    case "TSLA" => "Tesla Inc."
    case "META" => "Meta Platforms Inc."
    case "NVDA" => "NVIDIA Corporation"
    case _ => symbol + " Corporation"
  }

  /** The seven known tickers, in any letter case, are named from the
      table; any other symbol is named after itself. */
  lemma CompanyNameOf(symbol: string)
    ensures Upper(symbol) in KnownCompanies ==> CompanyName(symbol) == KnownCompanies[Upper(symbol)]
    ensures Upper(symbol) !in KnownCompanies ==> CompanyName(symbol) == symbol + " Corporation"
  {
  }

  /** A known ticker has the same name in any letter case. */
  lemma CompanyNameIgnoresCase(symbol: string)
    requires Upper(symbol) in KnownCompanies
    ensures CompanyName(symbol) == CompanyName(Upper(symbol))
  {
    UpperIdempotent(symbol);
    CompanyNameOf(symbol);
    CompanyNameOf(Upper(symbol));
  }

  /** The tickers of the codes that createMockStockData accepts, in order. */
  function Quotable(symbols: seq<string>): (r: seq<string>)
    ensures |r| <= |symbols|
  {
    if symbols == [] then []
    else
      var last := symbols[|symbols| - 1];
      Quotable(symbols[..|symbols| - 1]) + (if CleanSymbol(last).Some? then [CleanSymbol(last).value] else [])
  }

  lemma QuotableSnoc(symbols: seq<string>, i: nat)
    requires i < |symbols|
    ensures Quotable(symbols[..i + 1])
      == Quotable(symbols[..i]) + (if CleanSymbol(symbols[i]).Some? then [CleanSymbol(symbols[i]).value] else [])
  {
    assert symbols[..i + 1][..i] == symbols[..i];
  }

  /** Every accepted code contributes exactly its ticker. */
  lemma {:induction false} QuotableOfTickers(symbols: seq<string>)
    requires forall i :: 0 <= i < |symbols| ==> NoDot(symbols[i])
    ensures Quotable(symbols) == symbols
  {
    if symbols != [] {
      var init := symbols[..|symbols| - 1];
      QuotableOfTickers(init);
      CleanSymbolUnqualified(symbols[|symbols| - 1]);
      assert symbols == init + [symbols[|symbols| - 1]];
    }
  }

  /** The instant of the i-th of `count` mock daily bars: `count` days
      before now, plus i days. */
  function BarTime(now: int, count: int, i: int): int {
    now - count * Day + i * Day
  }

  /** Mock bars are one day apart, oldest first, and the newest is one day
      before now. */
  lemma BarTimesDaily(now: int, count: int, i: int, j: int)
    requires i < j
    ensures BarTime(now, count, j) - BarTime(now, count, i) == (j - i) * Day
    ensures BarTime(now, count, i) < BarTime(now, count, j)
    ensures BarTime(now, count, count - 1) == now - Day
  {
  }

  /** The rows that saving each record writes. */
  function Rows(ds: seq<StockData>): (r: seq<StockRow>)
    reads set d | d in ds
    ensures |r| == |ds|
  {
    if ds == [] then [] else [RowOf(ds[0])] + Rows(ds[1..])
  }

  /** The three Math.random() values one mock record is built from, in the
      order the source draws them: for its price, its open price and its
      volume. */
  datatype Draw = Draw(price: real, open: real, volume: real)

  /** Each value lies in [0, 1), as Math.random() promises. */
  predicate Uniform(draw: Draw) {
    0.0 <= draw.price < 1.0 && 0.0 <= draw.open < 1.0 && 0.0 <= draw.volume < 1.0
  }

  /** The (long) cast of a double: the integer part, rounded toward zero. */
  function Truncate(x: real): (n: int)
    ensures x >= 0.0 ==> n as real <= x < n as real + 1.0
    ensures x < 0.0 ==> n as real - 1.0 < x <= n as real
  {
    if x >= 0.0 then x.Floor else -((-x).Floor)
  }

  /** A quote's price: the base price moved by -5% to +5%. */
  function QuotePrice(draw: Draw): real {
    BasePrice * (1.0 + draw.price * 0.1 - 0.05)
  }

  /** A quote's open price: the base price moved by -1% to +1%. */
  function QuoteOpen(draw: Draw): real {
    BasePrice * (1.0 + draw.open * 0.02 - 0.01)
  }

  /** A quote's volume: 1,000,000 shares plus up to 10,000,000 more. */
  function QuoteVolume(draw: Draw): int {
    Truncate(draw.volume * 10000000.0 + 1000000.0)
  }

  /** A bar's price: the base price moved by -2.5% to +2.5%. */
  function BarPrice(draw: Draw): real {
    BasePrice * (1.0 + draw.price * 0.05 - 0.025)
  }

  /** A bar's open price: its price moved by -0.5% to +0.5%. */
  function BarOpen(draw: Draw): real {
    BarPrice(draw) * (0.995 + draw.open * 0.01)
  }

  /** A bar's volume: 500,000 shares plus up to 5,000,000 more. */
  function BarVolume(draw: Draw): int {
    Truncate(draw.volume * 5000000.0 + 500000.0)
  }

  /** With values drawn from [0, 1), a mock quote's price lies within 5%
      of the base price, its open within 1%, and its volume between
      1,000,000 and 10,999,999 shares. */
  lemma QuoteDrawBounds(draw: Draw)
    requires Uniform(draw)
    ensures 142.5 <= QuotePrice(draw) < 157.5
    ensures 148.5 <= QuoteOpen(draw) < 151.5
    ensures 1000000 <= QuoteVolume(draw) < 11000000
  {
    assert 0.0 <= draw.volume * 10000000.0 < 10000000.0;
  }

  /** With values drawn from [0, 1), a mock bar's price lies within 2.5%
      of the base price, its open within 0.5% of its price, and its volume
      between 500,000 and 5,499,999 shares. */
  lemma BarDrawBounds(draw: Draw)
    requires Uniform(draw)
    ensures 146.25 <= BarPrice(draw) < 153.75
    ensures BarPrice(draw) * 0.995 <= BarOpen(draw) < BarPrice(draw) * 1.005
    ensures 500000 <= BarVolume(draw) < 5500000
  {
    var p := BarPrice(draw);
    assert BarOpen(draw) == p * 0.995 + (p * draw.open) * 0.01;
    assert p * draw.open < p by {
      assert p * (1.0 - draw.open) > 0.0;
    }
    assert 0.0 <= draw.volume * 5000000.0 < 5000000.0;
  }

  /** The fields a mock quote of `ticker` built from `draw` carries. */
  predicate MockQuote(d: StockData, ticker: string, draw: Draw, now: int)
    reads d
  {
    var p := QuotePrice(draw);
    d.symbol == Some(ticker) && d.name == Some(CompanyName(ticker))
    && d.currentPrice == Some(p) && d.previousClose == Some(BasePrice)
    && d.openPrice == Some(QuoteOpen(draw))
    && d.highPrice == Some(p * 1.02) && d.lowPrice == Some(p * 0.98)
    && d.volume == Some(QuoteVolume(draw) as real)
    && d.changePercent == Some(RoundHalfUp((p - BasePrice) / BasePrice, 4) * 100.0)
    && d.marketCap.None? && d.peRatio.None?
    && d.createdAt == now && d.lastUpdated == now
  }

  /** The fields the i-th mock bar, built from `draw`, carries. */
  predicate MockBar(d: StockData, ticker: string, draw: Draw, now: int, t: int)
    reads d
  {
    var p := BarPrice(draw);
    d.symbol == Some(ticker) && d.name == Some(CompanyName(ticker))
    && d.currentPrice == Some(p) && d.openPrice == Some(BarOpen(draw))
    && d.highPrice == Some(p * 1.01) && d.lowPrice == Some(p * 0.99)
    && d.volume == Some(BarVolume(draw) as real)
    && d.previousClose.None? && d.changePercent.None? && d.marketCap.None? && d.peRatio.None?
    && d.createdAt == now && d.lastUpdated == t
  }

  /** The mock record createMockStockData builds for a ticker. */
  method NewQuote(ticker: string, draw: Draw, now: int) returns (d: StockData)
    ensures fresh(d) && MockQuote(d, ticker, draw, now)
  {
    d := new StockData(ticker, CompanyName(ticker), now);
    var p := QuotePrice(draw);
    d.currentPrice := Some(p);
    d.previousClose := Some(BasePrice);
    d.openPrice := Some(QuoteOpen(draw));
    d.highPrice := Some(p * 1.02);
    d.lowPrice := Some(p * 0.98);
    d.volume := Some(QuoteVolume(draw) as real);
    d.changePercent := Some(RoundHalfUp((p - BasePrice) / BasePrice, 4) * 100.0);
  }

  /** One mock bar of getHistoricalKLine's loop body, dated t. */
  method NewBar(ticker: string, draw: Draw, now: int, t: int) returns (d: StockData)
    ensures fresh(d) && MockBar(d, ticker, draw, now, t)
  {
    d := new StockData(ticker, CompanyName(ticker), now);
    var p := BarPrice(draw);
    d.currentPrice := Some(p);
    d.openPrice := Some(BarOpen(draw));
    d.highPrice := Some(p * 1.01);
    d.lowPrice := Some(p * 0.99);
    d.volume := Some(BarVolume(draw) as real);
    d.lastUpdated := t;
  }

  /** The rows are those of quotes of the tickers, one each, in order. */
  predicate QuotedRows(rows: seq<StockRow>, tickers: seq<string>) {
    |rows| == |tickers| && forall j :: 0 <= j < |rows| ==> QuotedRow(rows[j], tickers[j])
  }

  predicate QuotedRow(row: StockRow, ticker: string) {
    row.symbol == Some(ticker) && row.name == Some(CompanyName(ticker))
  }

  lemma QuotedRowsSnoc(rows: seq<StockRow>, tickers: seq<string>, row: StockRow, ticker: string)
    requires QuotedRows(rows, tickers) && QuotedRow(row, ticker)
    ensures QuotedRows(rows + [row], tickers + [ticker])
  {
  }

  lemma {:induction false} RowsSnoc(ds: seq<StockData>, d: StockData)
    ensures Rows(ds + [d]) == Rows(ds) + [RowOf(d)]
    decreases |ds|
  {
    if ds != [] {
      assert (ds + [d])[1..] == ds[1..] + [d];
      RowsSnoc(ds[1..], d);
    }
  }

  /** The tickers a batch quotes: those of the accepted codes while the
      service can connect, none otherwise. */
  function BatchTickers(symbols: seq<string>, reachable: bool): (r: seq<string>) {
    if reachable then Quotable(symbols) else []
  }

  /** A code that gets quoted extends the batch by its row. */
  lemma BatchStepQuoted(symbols: seq<string>, i: nat, reachable: bool, rows: seq<StockRow>, row: StockRow)
    requires i < |symbols| && QuotedRows(rows, BatchTickers(symbols[..i], reachable))
    requires reachable && CleanSymbol(symbols[i]).Some?
    requires QuotedRow(row, CleanSymbol(symbols[i]).value)
    ensures QuotedRows(rows + [row], BatchTickers(symbols[..i + 1], reachable))
  {
    QuotableSnoc(symbols, i);
    QuotedRowsSnoc(rows, Quotable(symbols[..i]), row, CleanSymbol(symbols[i]).value);
  }

  /** A code that gets no quote leaves the batch as it is. */
  lemma BatchStepSkipped(symbols: seq<string>, i: nat, reachable: bool, rows: seq<StockRow>)
    requires i < |symbols| && QuotedRows(rows, BatchTickers(symbols[..i], reachable))
    requires !(reachable && CleanSymbol(symbols[i]).Some?)
    ensures QuotedRows(rows, BatchTickers(symbols[..i + 1], reachable))
  {
    QuotableSnoc(symbols, i);
    assert Quotable(symbols[..i]) + [] == Quotable(symbols[..i]);
  }

  class FutuDataService {
    const config: FutuConfig
    var isConnected: bool
    /** The rows saved to the stock table, in order. */
    var saved: seq<StockRow>

    constructor (config: FutuConfig)
      ensures this.config == config && !isConnected && saved == []
    {
      this.config := config;
      isConnected := false;
      saved := [];
    }

    /** connectToFutu: the simulated connection always comes up. */
    method ConnectToFutu()
      modifies this`isConnected
      ensures isConnected
    {
      isConnected := true;
    }

    /** initConnection: nothing happens unless the settings are enabled and
        valid; then the service connects. */
    method InitConnection()
      modifies this`isConnected
      ensures !config.IsValid() ==> isConnected == old(isConnected)
      ensures config.IsValid() ==> isConnected
    {
      if !config.enabled || !config.IsValid() {
        return;
      }
      ConnectToFutu();
    }

    /** closeConnection: afterwards the service is disconnected. */
    method CloseConnection()
      modifies this`isConnected
      ensures !isConnected
    {
      isConnected := false;
    }

    /** createMockStockData from the values in `draw`; Thrown when the code
        has no ticker. */
    method CreateMockStockData(symbol: string, now: int, draw: Draw) returns (r: Outcome<StockData>)
      ensures r.Done? <==> CleanSymbol(symbol).Some?
      ensures r.Done? ==> fresh(r.value) && MockQuote(r.value, CleanSymbol(symbol).value, draw, now)
    {
      var clean := CleanSymbol(symbol);
      if clean.None? {
        return Thrown;
      }
      var d := NewQuote(clean.value, draw, now);
      r := Done(d);
    }

    /** getRealTimeQuote: one reconnect attempt while disconnected; null
        while still disconnected or when the mock quote throws. */
    method GetRealTimeQuote(symbol: string, now: int, draw: Draw) returns (r: Option<StockData>)
      modifies this`isConnected
      ensures isConnected == (old(isConnected) || config.IsValid())
      ensures r.Some? <==> isConnected && CleanSymbol(symbol).Some?
      ensures r.Some? ==> fresh(r.value) && MockQuote(r.value, CleanSymbol(symbol).value, draw, now)
    {
      if !isConnected {
        InitConnection();
        if !isConnected {
          return None;
        }
      }
      var quote := CreateMockStockData(symbol, now, draw);
      if quote.Thrown? {
        return None;
      }
      r := Some(quote.value);
    }

    /** One step of getBatchRealTimeQuotes: quote the code and save the
        quote when there is one. */
    method QuoteAndSave(symbol: string, now: int, draw: Draw) returns (quote: Option<StockData>)
      modifies this`isConnected, this`saved
      ensures isConnected == (old(isConnected) || config.IsValid())
      ensures quote.Some? <==> isConnected && CleanSymbol(symbol).Some?
      ensures quote.Some? ==> fresh(quote.value) && QuotedRow(RowOf(quote.value), CleanSymbol(symbol).value)
      ensures saved == old(saved) + (if quote.Some? then [RowOf(quote.value)] else [])
    {
      quote := GetRealTimeQuote(symbol, now, draw);
      if quote.Some? {
        saved := saved + [RowOf(quote.value)];
      }
    }

    /** One pass of getBatchRealTimeQuotes' loop over the i-th code: the
        quote, when there is one, joins the results and its row the saved
        rows. */
    method BatchStep(symbols: seq<string>, i: nat, now: int, draw: Draw, ghost reachable: bool,
                     results: seq<StockData>, ghost rows: seq<StockRow>, ghost base: seq<StockRow>)
      returns (results': seq<StockData>, ghost rows': seq<StockRow>)
      requires i < |symbols| && reachable == (isConnected || config.IsValid())
      requires QuotedRows(rows, BatchTickers(symbols[..i], reachable))
      requires rows == Rows(results) && saved == base + rows
      modifies this`isConnected, this`saved
      ensures isConnected == (old(isConnected) || config.IsValid())
      ensures QuotedRows(rows', BatchTickers(symbols[..i + 1], reachable))
      ensures rows' == Rows(results') && saved == base + rows'
      ensures forall d :: d in results' ==> d in results || fresh(d)
    {
      var quote := QuoteAndSave(symbols[i], now, draw);
      assert Rows(results) == rows;
      if quote.Some? {
        var d := quote.value;
        BatchStepQuoted(symbols, i, reachable, rows, RowOf(d));
        RowsSnoc(results, d);
        results' := results + [d];
        rows' := rows + [RowOf(d)];
        assert saved == (base + rows) + [RowOf(d)] == base + rows';
      } else {
        BatchStepSkipped(symbols, i, reachable, rows);
        results', rows' := results, rows;
      }
    }

    /** getBatchRealTimeQuotes: the non-null quotes in input order, each one
        also saved; the i-th code is quoted from draws(i). Quotes come only
        when the service is or can get connected. */
    method GetBatchRealTimeQuotes(symbols: seq<string>, now: int, draws: nat -> Draw) returns (results: seq<StockData>)
      modifies this`isConnected, this`saved
      ensures isConnected == (old(isConnected) || (symbols != [] && config.IsValid()))
      ensures QuotedRows(Rows(results), BatchTickers(symbols, old(isConnected) || config.IsValid()))
      ensures forall d :: d in results ==> fresh(d)
      ensures saved == old(saved) + Rows(results)
    {
      ghost var reachable := isConnected || config.IsValid();
      ghost var base := saved;
      results := [];
      ghost var rows: seq<StockRow> := [];
      var i := 0;
      while i < |symbols|
        invariant 0 <= i <= |symbols|
        invariant isConnected == (old(isConnected) || (i > 0 && config.IsValid()))
        invariant QuotedRows(rows, BatchTickers(symbols[..i], reachable))
        invariant forall d :: d in results ==> fresh(d)
        invariant rows == Rows(results) && saved == base + rows
      {
        results, rows := BatchStep(symbols, i, now, draws(i), reachable, results, rows, base);
        i := i + 1;
      }
      assert symbols[..|symbols|] == symbols;
    }

    /** getHistoricalKLine: empty while disconnected or when the code has no
        ticker; otherwise `count` mock daily bars, oldest first, the i-th
        built from draws(i). */
    method GetHistoricalKLine(symbol: string, period: string, count: int, now: int, draws: nat -> Draw)
      returns (r: seq<StockData>)
      ensures !isConnected || CleanSymbol(symbol).None? ==> r == []
      ensures isConnected && CleanSymbol(symbol).Some? ==>
        |r| == (if count > 0 then count else 0)
        && forall i :: 0 <= i < |r| ==>
          fresh(r[i]) && MockBar(r[i], CleanSymbol(symbol).value, draws(i), now, BarTime(now, count, i))
    {
      var clean := CleanSymbol(symbol);
      if !isConnected || clean.None? {
        return [];
      }
      r := [];
      var i := 0;
      while i < count
        invariant 0 <= i && |r| == i
        invariant count > 0 ==> i <= count
        invariant count <= 0 ==> i == 0
        invariant forall j :: 0 <= j < i ==> fresh(r[j]) && MockBar(r[j], clean.value, draws(j), now, BarTime(now, count, j))
      {
        var d := NewBar(clean.value, draws(i), now, BarTime(now, count, i));
        r := r + [d];
        i := i + 1;
      }
    }
  }
}
