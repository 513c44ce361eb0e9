/** The parsing and lookup logic of stock/service/StockDataService.java: the
    market-cap and company-name parsers, the quote-statistics table reader,
    the upper-cased repository lookups and the scheduled-update symbol
    choice. The page download is left out; the table arrives as the
    (label text, value text) pairs of its rows. */
module StockService {
  import opened Wrappers
  import opened Decimal
  import opened Text
  import opened Sorting
  import opened StockModel

  // ---------------------------------------------------------------------
  // parseMarketCap

  /** The factor a trailing K, M, B or T stands for, as a number of decimal
      places: the factor is 10 to that power. */
  function SuffixPlaces(c: char): (m: Option<nat>)
    ensures m.Some? <==> c in "KMBT"
  {
    if c == 'K' then Some(3)
    else if c == 'M' then Some(6)
    else if c == 'B' then Some(9)
    else if c == 'T' then Some(12)
    else None
  }

  /** The four factors are a thousand, a million, a billion and a trillion. */
  lemma SuffixFactors()
    ensures Pow10(SuffixPlaces('K').value) == 1000
    ensures Pow10(SuffixPlaces('M').value) == 1000000
    ensures Pow10(SuffixPlaces('B').value) == 1000000000
    ensures Pow10(SuffixPlaces('T').value) == 1000000000000
  {
    assert Pow10(3) == 1000 by {
      assert Pow10(1) == 10 && Pow10(2) == 100;
    }
    assert Pow10(6) == 1000000 by {
      assert Pow10(4) == 10000 && Pow10(5) == 100000;
    }
    assert Pow10(9) == 1000000000 by {
      assert Pow10(7) == 10000000 && Pow10(8) == 100000000;
    }
    assert Pow10(12) == 1000000000000 by {
      assert Pow10(10) == 10000000000 && Pow10(11) == 100000000000;
    }
  }

  /** An upper-cased, trimmed, non-blank market cap without its K/M/B/T
      suffix. */
  function NumberPart(t: string): (n: string)
    requires t != []
    ensures n == t || (SuffixPlaces(t[|t| - 1]).Some? && t == n + [t[|t| - 1]])
  {
    if SuffixPlaces(t[|t| - 1]).Some? then t[..|t| - 1] else t
  }

  /** A parsed number times 10^places; None stays None. */
  function Scale(v: Option<real>, places: nat): (r: Option<real>)
    ensures r.Some? <==> v.Some?
  {
    if v.None? then None else Some(Shift(v.value, places))
  }

  /** The value of an upper-cased, trimmed, non-blank market cap: the
      number part read as a BigDecimal and scaled by the suffix's factor;
      None where the number part is not a number. */
  function ParseScaled(t: string): (r: Option<real>)
    requires t != []
  {
    Scale(ParseDecimal(NumberPart(t)), SuffixPlaces(t[|t| - 1]).GetOr(0))
  }

  /** parseMarketCap: null for a null, blank or "N/A" text; otherwise the
      trimmed, upper-cased text read by ParseScaled. */
  function ParseMarketCap(text: Option<string>): (r: Option<real>)
    ensures text.None? || Trim(text.value) == [] || text.value == "N/A" ==> r.None?
  {
    if text.None? || Trim(text.value) == [] || text.value == "N/A" then None
    else ParseScaled(Upper(Trim(text.value)))
  }

  /** A text that is neither blank nor "N/A" is read in its trimmed,
      upper-cased form. */
  lemma ParseMarketCapNormalised(text: string)
    requires text != "N/A" && Trim(text) != []
    ensures ParseMarketCap(Some(text)) == ParseScaled(Upper(Trim(text)))
  {
  }

  /** A normalised number with a K/M/B/T suffix is the number scaled by
      the suffix's factor. */
  lemma ParseScaledSuffixed(number: string, suffix: char)
    requires suffix in "KMBT"
    ensures ParseScaled(number + [suffix]) == Scale(ParseDecimal(number), SuffixPlaces(suffix).value)
  {
    var t := number + [suffix];
    assert t[|t| - 1] == suffix;
    assert t[..|t| - 1] == number;
    assert NumberPart(t) == number;
  }

  /** A normalised number without a suffix is read as it is. */
  lemma ParseScaledPlain(number: string)
    requires number != [] && SuffixPlaces(number[|number| - 1]).None?
    ensures ParseScaled(number) == ParseDecimal(number)
  {
    assert NumberPart(number) == number;
  }

  /** Digits and one visible character: nothing to trim, and the character
      is upper-cased. */
  lemma NormaliseSuffixed(digits: string, c: char)
    requires digits != [] && AllDigits(digits) && !IsTrimmed(c)
    ensures digits + [c] != "N/A" && Trim(digits + [c]) != []
    ensures Upper(Trim(digits + [c])) == digits + [UpperChar(c)]
  {
    var s := digits + [c];
    assert s[0] == digits[0] && IsDigit(s[0]);
    TrimVisible(s);
    UpperConcat(digits, [c]);
    UpperOfUpperCase(digits);
  }

  /** Digits and a visible character are read as the digits and the
      upper-cased character. */
  lemma ReadSuffixedUpperCased(digits: string, c: char)
    requires digits != [] && AllDigits(digits) && !IsTrimmed(c)
    ensures ParseMarketCap(Some(digits + [c])) == ParseScaled(digits + [UpperChar(c)])
  {
    NormaliseSuffixed(digits, c);
    ParseMarketCapNormalised(digits + [c]);
  }

  /** A run of digits followed by a K/M/B/T suffix, in either case, is the
      digits' BigDecimal value times the suffix's power of ten. */
  lemma ParseMarketCapSuffixed(digits: string, c: char)
    requires digits != [] && AllDigits(digits) && UpperChar(c) in "KMBT"
    ensures ParseMarketCap(Some(digits + [c])) == Scale(ParseDecimal(digits), SuffixPlaces(UpperChar(c)).value)
  {
    ReadSuffixedUpperCased(digits, c);
    ParseScaledSuffixed(digits, UpperChar(c));
  }

  /** A run of digits: nothing to trim, nothing to upper-case, no suffix. */
  lemma NormalisePlain(digits: string)
    requires digits != [] && AllDigits(digits)
    ensures digits != "N/A" && Trim(digits) != [] && Upper(Trim(digits)) == digits
    ensures SuffixPlaces(digits[|digits| - 1]).None?
  {
    assert IsDigit(digits[0]) && IsDigit(digits[|digits| - 1]);
    TrimVisible(digits);
    UpperOfUpperCase(digits);
  }

  /** A bare run of digits is its BigDecimal value. */
  lemma ParseMarketCapPlain(digits: string)
    requires digits != [] && AllDigits(digits)
    ensures ParseMarketCap(Some(digits)) == ParseDecimal(digits)
  {
    NormalisePlain(digits);
    ParseMarketCapNormalised(digits);
    ParseScaledPlain(digits);
  }

  // ---------------------------------------------------------------------
  // Company name from the quote header

  /** The header text up to its first "(", trimmed; the whole text when it
      has no "(". */
  function ExtractName(fullName: string): (r: string)
    ensures |r| <= |fullName|
  {
    match IndexOf(fullName, "(")
    case Some(i) => Trim(fullName[..i])
    case None => fullName
  }

  /** "Apple Inc. (AAPL)" gives "Apple Inc.": the name part, trimmed. */
  lemma ExtractNameOfHeader(company: string, rest: string)
    requires forall i :: 0 <= i < |company| ==> company[i] != '('
    ensures ExtractName(company + "(" + rest) == Trim(company)
  {
    IndexOfAfter(company, "(", rest);
    assert (company + "(" + rest)[..|company|] == company;
  }

  /** A header without "(" is kept as it is, untrimmed. */
  lemma ExtractNameWithoutParen(fullName: string)
    requires forall i :: 0 <= i < |fullName| ==> fullName[i] != '('
    ensures ExtractName(fullName) == fullName
  {
    NotContains(fullName, "(");
  }

  // ---------------------------------------------------------------------
  // The quote-statistics table

  /** The columns the statistics table can fill in. */
  datatype Summary = Summary(
    openPrice: Option<real>, lowPrice: Option<real>, highPrice: Option<real>,
    volume: Option<real>, marketCap: Option<real>, peRatio: Option<real>)

  /** A parsed value where there is one, else the value already set (the
      setter is never reached when the constructor throws). */
  function FirstSome(parsed: Option<real>, current: Option<real>): Option<real> {
    if parsed.Some? then parsed else current
  }

  /** The statistics-table rows the reader acts on. */
  datatype Column = Open | DayRange | Volume | MarketCap | PeRatio | Ignored

  /** The column a lower-cased row label names. */
  function ColumnOf(heading: string): (c: Column)
    ensures c == Open <==> heading == "open"
    ensures c == DayRange <==> heading == "day's range"
    ensures c == Volume <==> heading == "volume"
    ensures c == MarketCap <==> heading == "market cap"
    ensures c == PeRatio <==> heading == "pe ratio (ttm)"
  {
    if heading == "open" then Open
    else if heading == "day's range" then DayRange
    else if heading == "volume" then Volume
    else if heading == "market cap" then MarketCap
    else if heading == "pe ratio (ttm)" then PeRatio
    else Ignored
  }

  /** A day's range "low - high": exactly two parts, the low bound set
      first, the high bound only when it parses too. */
  function ApplyRange(s: Summary, value: string): (r: Summary)
    ensures r.openPrice == s.openPrice && r.volume == s.volume
    ensures r.marketCap == s.marketCap && r.peRatio == s.peRatio
    ensures r.highPrice != s.highPrice ==> r.lowPrice.Some?
  {
    var range := Split(value, " - ");
    if |range| != 2 then s
    else
      match ParseDecimal(range[0])
      case None => s
      case Some(low) => s.(lowPrice := Some(low), highPrice := FirstSome(ParseDecimal(range[1]), s.highPrice))
  }

  /** One table row, once its column is known and its value stripped of
      commas: the value is parsed into that column. A day's range must
      split on " - " into exactly two parts; the low bound is set before the
      high one is parsed, so a bad high bound leaves the low bound set. A
      market cap that does not parse clears the column, and a PE of "N/A"
      is skipped. */
  function ApplyColumn(s: Summary, column: Column, value: string): (r: Summary)
    ensures r.openPrice != s.openPrice ==> column == Open
    ensures r.lowPrice != s.lowPrice || r.highPrice != s.highPrice ==> column == DayRange
    ensures r.volume != s.volume ==> column == Volume
    ensures r.marketCap != s.marketCap ==> column == MarketCap
    ensures r.peRatio != s.peRatio ==> column == PeRatio && value != "N/A"
  {
    match column
    case Open => s.(openPrice := FirstSome(ParseDecimal(value), s.openPrice))
    case DayRange => ApplyRange(s, value)
    case Volume => s.(volume := FirstSome(ParseDecimal(value), s.volume))
    case MarketCap => s.(marketCap := ParseMarketCap(Some(value)))
    case PeRatio => if value == "N/A" then s else s.(peRatio := FirstSome(ParseDecimal(value), s.peRatio))
    case Ignored => s
  }

  /** One table row as the page shows it: the label is lower-cased and the
      commas are removed from the value. */
  function ApplyRow(s: Summary, labelText: string, valueText: string): Summary {
    ApplyColumn(s, ColumnOf(Lower(labelText)), RemoveChar(valueText, ','))
  }

  /** "low - high" with bounds free of spaces and commas: the value is kept
      as it is and splits into the two bounds. */
  lemma RangeValue(low: string, high: string)
    requires high != []
    requires forall i :: 0 <= i < |low| ==> low[i] != ' ' && low[i] != ','
    requires forall i :: 0 <= i < |high| ==> high[i] != ' ' && high[i] != ','
    ensures RemoveChar(low + " - " + high, ',') == low + " - " + high
    ensures Split(low + " - " + high, " - ") == [low, high]
  {
    RemoveAbsentChar(low, ',');
    RemoveAbsentChar(high, ',');
    RemoveAbsentChar(" - ", ',');
    RemoveCharConcat(low, " - ", ',');
    RemoveCharConcat(low + " - ", high, ',');
    SplitTwo(low, " - ", high);
  }

  /** A day's range "low - high" whose two bounds parse sets both bounds. */
  lemma DayRangeSetsBounds(s: Summary, labelText: string, low: string, high: string, lowValue: real, highValue: real)
    requires Lower(labelText) == "day's range"
    requires ParseDecimal(low) == Some(lowValue) && ParseDecimal(high) == Some(highValue) && high != []
    requires forall i :: 0 <= i < |low| ==> low[i] != ' ' && low[i] != ','
    requires forall i :: 0 <= i < |high| ==> high[i] != ' ' && high[i] != ','
    ensures ApplyRow(s, labelText, low + " - " + high) == s.(lowPrice := Some(lowValue), highPrice := Some(highValue))
  {
    RangeValue(low, high);
  }

  /** A day's range that does not split into exactly two parts changes nothing. */
  lemma DayRangeNeedsTwoParts(s: Summary, labelText: string, valueText: string)
    requires Lower(labelText) == "day's range" && |Split(RemoveChar(valueText, ','), " - ")| != 2
    ensures ApplyRow(s, labelText, valueText) == s
  {
  }

  /** A PE ratio of "N/A" leaves the row's record as it was. */
  lemma PeNotAvailableSkipped(s: Summary, labelText: string)
    requires Lower(labelText) == "pe ratio (ttm)"
    ensures ApplyRow(s, labelText, "N/A") == s
  {
    RemoveAbsentChar("N/A", ',');
  }

  /** The rows applied first to last. */
  function ApplyRows(s: Summary, rows: seq<(string, string)>): Summary {
    if rows == [] then s
    else
      var last := rows[|rows| - 1];
      ApplyRow(ApplyRows(s, rows[..|rows| - 1]), last.0, last.1)
  }

  /** The statistics columns of a quote record. */
  function SummaryOf(data: StockData): Summary
    reads data
  {
    Summary(data.openPrice, data.lowPrice, data.highPrice, data.volume, data.marketCap, data.peRatio)
  }

  /** The body of the table reader's row callback: one switch on the label. */
  method ExtractSummaryRow(data: StockData, labelText: string, valueText: string)
    modifies data`openPrice, data`lowPrice, data`highPrice, data`volume, data`marketCap, data`peRatio
    ensures SummaryOf(data) == ApplyRow(old(SummaryOf(data)), labelText, valueText)
  {
    var value := RemoveChar(valueText, ',');
    match ColumnOf(Lower(labelText)) {
      case Open =>
        var v := ParseDecimal(value);
        if v.Some? { data.openPrice := v; }
      case DayRange =>
        var range := Split(value, " - ");
        if |range| == 2 {
          var low := ParseDecimal(range[0]);
          if low.Some? {
            data.lowPrice := low;
            var high := ParseDecimal(range[1]);
            if high.Some? { data.highPrice := high; }
          }
        }
      case Volume =>
        var v := ParseDecimal(value);
        if v.Some? { data.volume := v; }
      case MarketCap =>
        data.marketCap := ParseMarketCap(Some(value));
      case PeRatio =>
        if value != "N/A" {
          var v := ParseDecimal(value);
          if v.Some? { data.peRatio := v; }
        }
      case Ignored =>
    }
  }

  /** extractFromSummaryTable: every row of the table, in order. */
  method ExtractFromSummaryTable(data: StockData, rows: seq<(string, string)>)
    modifies data`openPrice, data`lowPrice, data`highPrice, data`volume, data`marketCap, data`peRatio
    ensures SummaryOf(data) == ApplyRows(old(SummaryOf(data)), rows)
  {
    var i := 0;
    while i < |rows|
      invariant 0 <= i <= |rows|
      invariant SummaryOf(data) == ApplyRows(old(SummaryOf(data)), rows[..i])
    {
      assert rows[..i + 1][..i] == rows[..i];
      ExtractSummaryRow(data, rows[i].0, rows[i].1);
      i := i + 1;
    }
    assert rows[..|rows|] == rows;
  }

  // ---------------------------------------------------------------------
  // The stock table and the service's lookups

  /** A stored quote row, as the repository queries see it. */
  datatype StockRow = StockRow(symbol: Option<string>, name: Option<string>, currentPrice: Option<real>, lastUpdated: int)

  /** The row a save of `data` writes. */
  function RowOf(data: StockData): StockRow
    reads data
  {
    StockRow(data.symbol, data.name, data.currentPrice, data.lastUpdated)
  }

  function LastUpdatedKey(r: StockRow): (int, int) { (r.lastUpdated, 0) }

  /** The rows stored for exactly this symbol, in stored order. */
  function RowsOf(rows: seq<StockRow>, symbol: string): (r: seq<StockRow>)
    ensures forall x :: x in r <==> x in rows && x.symbol == Some(symbol)
    ensures forall x: StockRow :: x.symbol == Some(symbol) ==> multiset(r)[x] == multiset(rows)[x]
  {
    if rows == [] then []
    else
      assert rows == rows[..|rows| - 1] + [rows[|rows| - 1]];
      var last := rows[|rows| - 1];
      RowsOf(rows[..|rows| - 1], symbol) + (if last.symbol == Some(symbol) then [last] else [])
  }

  /** The rows' prices, the series the indicators read. */
  function PriceSeries(rows: seq<StockRow>): (r: seq<Option<real>>)
    ensures |r| == |rows| && forall i :: 0 <= i < |rows| ==> r[i] == rows[i].currentPrice
  {
    if rows == [] then [] else [rows[0].currentPrice] + PriceSeries(rows[1..])
  }

  /** The default watch list of the scheduled update. */
  const DefaultSymbols: seq<string> := ["AAPL", "GOOGL", "MSFT", "AMZN", "TSLA", "META", "NVDA", "NFLX", "AMD", "INTC"]

  /** The symbols a scheduled update works through: the active ones, or the
      default watch list while there are none. */
  function ScheduledSymbols(active: seq<string>): (r: seq<string>)
    ensures r != [] && (active != [] ==> r == active)
  {
    if active == [] then DefaultSymbols else active
  }

  /** The rows the updates of `symbols` save, in order: one for each symbol
      whose fetch returned a row. */
  function SavedRows(symbols: seq<string>, fetch: string -> Option<StockRow>): (r: seq<StockRow>)
    ensures |r| <= |symbols|
  {
    if symbols == [] then []
    else
      var fetched := fetch(symbols[|symbols| - 1]);
      SavedRows(symbols[..|symbols| - 1], fetch) + (if fetched.Some? then [fetched.value] else [])
  }

  /** When every fetch succeeds, every symbol saves its row, in order; when
      every fetch fails, nothing is saved. */
  lemma {:induction false} SavedRowsAll(symbols: seq<string>, fetch: string -> Option<StockRow>)
    ensures (forall x :: x in symbols ==> fetch(x).Some?) ==>
      |SavedRows(symbols, fetch)| == |symbols| &&
      forall i :: 0 <= i < |symbols| ==> SavedRows(symbols, fetch)[i] == fetch(symbols[i]).value
    ensures (forall x :: x in symbols ==> fetch(x).None?) ==> SavedRows(symbols, fetch) == []
    decreases |symbols|
  {
    if symbols != [] {
      var init := symbols[..|symbols| - 1];
      assert forall x :: x in init ==> x in symbols;
      SavedRowsAll(init, fetch);
    }
  }

  /** The distinct symbols of the stored rows, in order of first appearance. */
  function ActiveSymbols(rows: seq<StockRow>): (r: seq<string>)
    ensures forall x :: x in r <==> exists i :: 0 <= i < |rows| && rows[i].symbol == Some(x)
    ensures forall i, j :: 0 <= i < j < |r| ==> r[i] != r[j]
  {
    if rows == [] then []
    else
      var init := ActiveSymbols(rows[..|rows| - 1]);
      var last := rows[|rows| - 1];
      assert forall i :: 0 <= i < |rows| - 1 ==> rows[..|rows| - 1][i] == rows[i];
      if last.symbol.Some? && last.symbol.value !in init then init + [last.symbol.value] else init
  }

  class StockDataService {
    /** The stock table, in insertion order. */
    var repository: seq<StockRow>

    constructor (rows: seq<StockRow>)
      ensures repository == rows
    {
      repository := rows;
    }

    /** getHistoricalData: the rows of the upper-cased symbol, newest first. */
    function GetHistoricalData(symbol: string): (r: seq<StockRow>)
      reads this
      ensures forall x :: x in r <==> x in repository && x.symbol == Some(Upper(symbol))
      ensures forall x: StockRow :: x.symbol == Some(Upper(symbol)) ==> multiset(r)[x] == multiset(repository)[x]
      ensures SortedDesc(r, LastUpdatedKey)
    {
      var matching := RowsOf(repository, Upper(symbol));
      var sorted := SortBy(matching, LastUpdatedKey);
      assert forall x :: x in sorted <==> x in multiset(matching);
      sorted
    }

    /** getStockData: the newest row of the upper-cased symbol, if any. */
    function GetStockData(symbol: string): (r: Option<StockRow>)
      reads this
    {
      var history := GetHistoricalData(symbol);
      if history == [] then None else Some(history[0])
    }

    /** Both lookups ignore the case of the symbol they are given. */
    lemma LookupIgnoresCase(symbol: string)
      ensures GetHistoricalData(symbol) == GetHistoricalData(Upper(symbol))
      ensures GetStockData(symbol) == GetStockData(Upper(symbol))
    {
      UpperIdempotent(symbol);
    }

    /** The latest record is absent exactly when the symbol has no row, and
        is otherwise one of its rows, updated no earlier than any other. */
    lemma GetStockDataNewest(symbol: string)
      ensures GetStockData(symbol).None? <==> forall x :: x in repository ==> x.symbol != Some(Upper(symbol))
      ensures GetStockData(symbol).Some? ==>
        var latest := GetStockData(symbol).value;
        latest in repository && latest.symbol == Some(Upper(symbol))
        && forall x :: x in repository && x.symbol == Some(Upper(symbol)) ==> latest.lastUpdated >= x.lastUpdated
    {
      var history := GetHistoricalData(symbol);
      if history != [] {
        assert history[0] in history;
        forall x | x in repository && x.symbol == Some(Upper(symbol))
          ensures history[0].lastUpdated >= x.lastUpdated
        {
          var k :| 0 <= k < |history| && history[k] == x;
          if k > 0 {
            assert RanksBefore(LastUpdatedKey(history[0]), LastUpdatedKey(history[k]));
          }
        }
      }
    }

    /** manualUpdateStockData: a fetched quote is saved and returned; a
        failed fetch saves nothing and gives null. */
    method ManualUpdateStockData(fetched: Option<StockData>) returns (r: Option<StockData>)
      modifies this
      ensures r == fetched
      ensures repository == old(repository) + (if fetched.Some? then [RowOf(fetched.value)] else [])
    {
      if fetched.Some? {
        repository := repository + [RowOf(fetched.value)];
      }
      r := fetched;
    }

    /** scheduledUpdateStockData: one update per scheduled symbol, in
        order. Each update (updateStockDataAsync) fetches the symbol and saves
        the row it gets, as manualUpdateStockData does; the row each fetch
        yields, or None when it fails, is the parameter `fetch`. */
    method ScheduledUpdateStockData(fetch: string -> Option<StockRow>) returns (dispatched: seq<string>)
      modifies this
      ensures dispatched == ScheduledSymbols(ActiveSymbols(old(repository)))
      ensures ActiveSymbols(old(repository)) == [] ==> dispatched == DefaultSymbols
      ensures repository == old(repository) + SavedRows(dispatched, fetch)
    {
      var symbols := ActiveSymbols(repository);
      if symbols == [] {
        symbols := DefaultSymbols;
      }
      dispatched := [];
      var i := 0;
      while i < |symbols|
        invariant 0 <= i <= |symbols|
        invariant dispatched == symbols[..i]
        invariant repository == old(repository) + SavedRows(dispatched, fetch)
      {
        var fetched := fetch(symbols[i]);
        if fetched.Some? {
          repository := repository + [fetched.value];
        }
        assert (dispatched + [symbols[i]])[..i] == dispatched;
        dispatched := dispatched + [symbols[i]];
        i := i + 1;
      }
      assert symbols[..|symbols|] == symbols;
    }
  }
}
