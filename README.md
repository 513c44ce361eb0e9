# Stock quant system: a Dafny model of its core

This project models the computing core of a Spring Boot stock-analysis
service, written in Dafny and proved:

- the technical-indicator engine (SMA, EMA, RSI, a simplified MACD,
  Bollinger Bands), the trend classifier and the trading-signal rule list,
  with `BigDecimal` HALF_UP rounding written out over exact reals;
- the StockPltr data service: a freshness-gated cache that serves the
  stored record while it is fresh, crawls when it is stale, and falls back
  to the stale record when the crawl finds nothing. The service is modelled
  with the lookup its repository query evidently intends; the query as
  written breaks it (see "## Findings"), and that variant is modelled too;
- the small parsers of the Yahoo reader and the StockPltr crawler: market
  capitalisation with K/M/B/T suffixes, the company name before "(", the
  statistics-table switch, the first number in a text, "N minutes/hours/days
  ago", and keyword sentiment;
- the Futu market-data service, with its connection flag, symbol prefix
  stripping, company names, and mock quotes and K-lines;
- the tweet record: preview, validity, status URL, and equality and hash
  code;
- the Twitter monitor: it remembers the last tweet id, and it tells every
  listener about a new one;
- the Futu and crawler configuration objects.

Conventions:

- A Java `null` is `None` of `Option`.
- An exception a method can raise or catch is `Thrown` of `Outcome`.
- Times are integer seconds on a clock that is handed in as `now`.
- Random draws, the crawler's results and the price histories the
  repository returns are parameters.
- Objects whose fields the source updates in place are classes:
  `StockData`, `FutuConfig`, `CrawlerConfig`, `TwitterMonitor`, and the
  services that own the connection flag or the stored rows.
- Everything else is a datatype or a function.

The source lists on which the indicators run are `seq<Option<real>>`, and
`None` is a row without a current price. The model keeps the code's index
conventions:

- SMA and RSI read from index 0.
- EMA seeds from the last index and walks towards index 0.

## Model

| member | source | states |
|---|---|---|
| TechnicalAnalysis.CalculateSma | src/main/java/com/quant/analysis/service/TechnicalAnalysisService.java:39-56 | The summing loop computes exactly the SMA specification: null below `period` rows, otherwise the HALF_UP 4-place mean of the first `period` prices |
| TechnicalAnalysis.SmaNullIff | src/main/java/com/quant/analysis/service/TechnicalAnalysisService.java:43-55 | SMA is null exactly when there are fewer than `period` rows; it throws exactly when `period` is 0 (division by zero) |
| TechnicalAnalysis.SmaWindow | src/main/java/com/quant/analysis/service/TechnicalAnalysisService.java:48-53 | Only the first `period` rows matter: appending rows never changes the SMA |
| TechnicalAnalysis.SmaNegativePeriod | src/main/java/com/quant/analysis/service/TechnicalAnalysisService.java:43-55 | A negative period passes the length test, sums no price and gives 0 |
| TechnicalAnalysis.SmaBounded | src/main/java/com/quant/analysis/service/TechnicalAnalysisService.java:48-55 | When the window's prices lie between two integers, so does the rounded SMA |
| TechnicalAnalysis.CalculateEma | src/main/java/com/quant/analysis/service/TechnicalAnalysisService.java:64-83 | The loop computes the EMA specification: seed with the last price, fold `price*k + ema*(1-k)` from index size-2 down to max(0, size-period), then round to 4 places |
| TechnicalAnalysis.EmaNullIff | src/main/java/com/quant/analysis/service/TechnicalAnalysisService.java:68-73 | EMA is null exactly for an empty series; it throws exactly when the period is -1 (an infinite multiplier) or the seed row has no price |
| TechnicalAnalysis.EmaNegativePeriod | src/main/java/com/quant/analysis/service/TechnicalAnalysisService.java:73-82 | A period below -1 folds no price: the EMA is the last price, rounded to 4 places |
| TechnicalAnalysis.EmaBounded | src/main/java/com/quant/analysis/service/TechnicalAnalysisService.java:73-82 | With a multiplier in [0, 1], the EMA stays within integer bounds that enclose every price |
| TechnicalAnalysis.SumChanges | src/main/java/com/quant/analysis/service/TechnicalAnalysisService.java:103-112 | The loop's totals equal the gain and loss sums of the first period+1 prices; a zero change is added to the losses as 0 |
| TechnicalAnalysis.CalculateRsi | src/main/java/com/quant/analysis/service/TechnicalAnalysisService.java:91-127 | The method computes the RSI specification: null, 100 for a zero average loss, or 100 - round2(100 / (1 + round6(avgGain/avgLoss))) |
| TechnicalAnalysis.RsiNullIff | src/main/java/com/quant/analysis/service/TechnicalAnalysisService.java:95-97 | RSI is null exactly when there are fewer than period+1 rows; a negative period sums no change and gives 100 |
| TechnicalAnalysis.RsiRange | src/main/java/com/quant/analysis/service/TechnicalAnalysisService.java:114-126 | Every RSI value lies in [0, 100] |
| TechnicalAnalysis.RsiNoLosses | src/main/java/com/quant/analysis/service/TechnicalAnalysisService.java:106-119 | A window in which no price falls gives exactly 100 |
| TechnicalAnalysis.CalculateMacd | src/main/java/com/quant/analysis/service/TechnicalAnalysisService.java:134-160 | The method equals the MACD specification over the EMA12 and EMA26 series |
| TechnicalAnalysis.MacdShape | src/main/java/com/quant/analysis/service/TechnicalAnalysisService.java:142-157 | The map is empty exactly when either EMA is null; otherwise it has the keys MACD, Signal and Histogram, with MACD = EMA12 - EMA26, Signal = 0.8 MACD and Histogram = 0.2 MACD |
| TechnicalAnalysis.MacdThrowsIff | src/main/java/com/quant/analysis/service/TechnicalAnalysisService.java:138-140 | MACD throws exactly when one of its EMAs throws |
| TechnicalAnalysis.CalculateBollingerBands | src/main/java/com/quant/analysis/service/TechnicalAnalysisService.java:169-208 | The method equals the Bollinger specification: SMA middle band, variance = round6(sum of squared distances / period), bands at middle ± sqrt(variance) × stdDev |
| TechnicalAnalysis.SumSquaredDistances | src/main/java/com/quant/analysis/service/TechnicalAnalysisService.java:187-194 | The loop's total is the sum of squared distances of the first `period` prices from the middle band |
| TechnicalAnalysis.BollingerShape | src/main/java/com/quant/analysis/service/TechnicalAnalysisService.java:175-205 | The map is empty exactly when there are fewer than `period` rows; otherwise Middle is the SMA and the two bands lie at equal distances from it |
| TechnicalAnalysis.BollingerOrdered | src/main/java/com/quant/analysis/service/TechnicalAnalysisService.java:196-205 | For a non-negative stdDev and square root, Lower ≤ Middle ≤ Upper |
| TechnicalAnalysis.BollingerThrowsIff | src/main/java/com/quant/analysis/service/TechnicalAnalysisService.java:175-196 | Bollinger throws exactly when `period` is 0 |
| TechnicalAnalysis.BollingerNegativePeriod | src/main/java/com/quant/analysis/service/TechnicalAnalysisService.java:175-205 | A negative period gives a zero middle band and a zero variance, so all three bands are 0 |
| TechnicalAnalysis.AnalyzeTrendIff | src/main/java/com/quant/analysis/service/TechnicalAnalysisService.java:253-268 | UNKNOWN exactly when either SMA is null; otherwise UPTREND, DOWNTREND or SIDEWAYS exactly when SMA20 is above, below or equal to SMA50 |
| TechnicalAnalysis.TradingSignalIff | src/main/java/com/quant/analysis/service/TechnicalAnalysisService.java:273-299 | BUY and SELL exactly under the first matching rule (RSI > 70 sell, RSI < 30 buy, uptrend above 50 buy, downtrend below 50 sell); HOLD otherwise, and HOLD when RSI or trend is null |
| TechnicalAnalysis.UnknownTrendSignal | src/main/java/com/quant/analysis/service/TechnicalAnalysisService.java:283-298 | An UNKNOWN trend is not null, so only the two RSI thresholds can move the signal off HOLD |
| TechnicalAnalysis.HistorySourceFor | src/main/java/com/quant/analysis/service/TechnicalAnalysisService.java:304-313 | When Futu is connected, the history is Futu's daily K-line for "US." + the upper-cased symbol, with the same count; otherwise it is the local repository for the symbol as given |
| TechnicalAnalysis.AnalysisSteps | src/main/java/com/quant/analysis/service/TechnicalAnalysisService.java:222-240 | comprehensiveAnalysis takes ten steps, each filling one of the ten documented keys |
| TechnicalAnalysis.CollectError | src/main/java/com/quant/analysis/service/TechnicalAnalysisService.java:220-245 | An "Error" entry appears exactly when some step throws |
| TechnicalAnalysis.CollectKeys | src/main/java/com/quant/analysis/service/TechnicalAnalysisService.java:222-240 | When no step throws, the result has the initial keys plus every step's key |
| TechnicalAnalysis.CollectKeeps | src/main/java/com/quant/analysis/service/TechnicalAnalysisService.java:220-245 | A key already put is never taken away, whatever a later step does |
| TechnicalAnalysis.CollectOmits | src/main/java/com/quant/analysis/service/TechnicalAnalysisService.java:220-245 | A key whose first step comes after the throwing step is missing from the result |
| TechnicalAnalysis.ComprehensiveErrorIff | src/main/java/com/quant/analysis/service/TechnicalAnalysisService.java:215-248 | The analysis reports an Error exactly when EMA12, EMA26 or RSI14 throws; the exception never propagates |
| TechnicalAnalysis.ComprehensiveKeys | src/main/java/com/quant/analysis/service/TechnicalAnalysisService.java:215-248 | Without an error the keys are exactly the ten documented ones; with one, the SMAs are present and the trading signal is not |
| TechnicalAnalysis.StepsKeys | src/main/java/com/quant/analysis/service/TechnicalAnalysisService.java:222-240 | Ten successful steps with the documented keys fill exactly the documented key set |
| StockModel.StockData.Empty | src/main/java/com/quant/stock/model/StockData.java:68-71 | The no-argument constructor sets createdAt and lastUpdated to now and leaves every other field null |
| StockModel.StockData.constructor | src/main/java/com/quant/stock/model/StockData.java:74-78 | The two-argument constructor also sets the symbol and the name |
| StockModel.StockData.PriceChange | src/main/java/com/quant/stock/model/StockData.java:221-226 | previousClose + change = currentPrice when both are present; the change is ZERO when either is missing |
| StockModel.StockData.UpdateLastModified | src/main/java/com/quant/stock/model/StockData.java:232-234 | Only lastUpdated changes, and it becomes now |
| StockService.SuffixFactors | src/main/java/com/quant/stock/service/StockDataService.java:243-255 | K, M, B and T multiply by 10^3, 10^6, 10^9 and 10^12 |
| StockService.ParseMarketCap | src/main/java/com/quant/stock/service/StockDataService.java:235-238 | null, blank and "N/A" give null |
| StockService.ParseMarketCapNormalised | src/main/java/com/quant/stock/service/StockDataService.java:240 | Any other text is trimmed and upper-cased before it is read |
| StockService.ParseScaledSuffixed | src/main/java/com/quant/stock/service/StockDataService.java:243-258 | A trailing K/M/B/T is dropped and the rest is read and scaled by its factor; an unreadable rest gives null |
| StockService.ParseScaledPlain | src/main/java/com/quant/stock/service/StockDataService.java:257-262 | Text without a suffix is read with multiplier 1; unreadable text gives null, not an exception |
| StockService.ParseMarketCapSuffixed | src/main/java/com/quant/stock/service/StockDataService.java:235-263 | End to end: digits followed by a suffix in either case parse to the digits' value times the suffix's factor |
| StockService.ParseMarketCapPlain | src/main/java/com/quant/stock/service/StockDataService.java:235-263 | End to end: plain digits parse to their value |
| StockService.ExtractName | src/main/java/com/quant/stock/service/StockDataService.java:116-122 | The extracted name is never longer than the header text |
| StockService.ExtractNameOfHeader | src/main/java/com/quant/stock/service/StockDataService.java:118-119 | The name is the trimmed text before the first "(" |
| StockService.ExtractNameWithoutParen | src/main/java/com/quant/stock/service/StockDataService.java:120-121 | Without a "(" the whole text is kept, untrimmed |
| StockService.ColumnOf | src/main/java/com/quant/stock/service/StockDataService.java:200-222 | Each of the five lower-cased labels selects its own column, and no other label selects one |
| StockService.ApplyRange | src/main/java/com/quant/stock/service/StockDataService.java:204-210 | The day's range touches only the low and high prices, and it never sets the high without the low |
| StockService.ApplyColumn | src/main/java/com/quant/stock/service/StockDataService.java:200-222 | A row changes only the field of its own column, and a PE of "N/A" changes nothing |
| StockService.DayRangeSetsBounds | src/main/java/com/quant/stock/service/StockDataService.java:204-209 | "low - high" with readable numbers sets exactly the low and the high price |
| StockService.DayRangeNeedsTwoParts | src/main/java/com/quant/stock/service/StockDataService.java:205-206 | A range that does not split into exactly two parts leaves the record unchanged |
| StockService.PeNotAvailableSkipped | src/main/java/com/quant/stock/service/StockDataService.java:217-220 | A PE ratio of "N/A" leaves the record unchanged |
| StockService.ExtractSummaryRow | src/main/java/com/quant/stock/service/StockDataService.java:192-226 | One table row updates the record as the row specification says; a number that does not parse stops the row where Java's NumberFormatException would |
| StockService.ExtractFromSummaryTable | src/main/java/com/quant/stock/service/StockDataService.java:190-228 | The loop over the rows applies them in order to the record |
| StockService.RowsOf | src/main/java/com/quant/stock/repository/StockDataRepository.java:34 | A symbol's rows are exactly its stored rows, each as often as it is stored |
| StockService.PriceSeries | src/main/java/com/quant/stock/service/StockDataService.java:63-65 | The series the indicators read is the current price of each history row, in the same order |
| StockService.ScheduledSymbols | src/main/java/com/quant/stock/service/StockDataService.java:272-276 | The active symbols are updated when there are any; the ten default symbols otherwise, so the list is never empty |
| StockService.ActiveSymbols | src/main/java/com/quant/stock/repository/StockDataRepository.java:52-53 | The distinct stored symbols, each once, and nothing else |
| StockService.StockDataService.GetHistoricalData | src/main/java/com/quant/stock/service/StockDataService.java:63-65 | Exactly the rows of the upper-cased symbol, with their multiplicities, newest first |
| StockService.StockDataService.LookupIgnoresCase | src/main/java/com/quant/stock/service/StockDataService.java:53-65 | Both lookups give the same answer for a symbol and its upper-cased form |
| StockService.StockDataService.GetStockDataNewest | src/main/java/com/quant/stock/service/StockDataService.java:53-56 | The latest row is a stored row of the upper-cased symbol that no other row of it postdates; there is none only when the symbol has no row |
| StockService.StockDataService.ManualUpdateStockData | src/main/java/com/quant/stock/service/StockDataService.java:290-301 | A fetched record is saved and returned; a failed fetch saves nothing and returns null |
| StockService.StockDataService.ScheduledUpdateStockData | src/main/java/com/quant/stock/service/StockDataService.java:269-283 | One update runs for each active symbol, or for each of DEFAULT_SYMBOLS when there are none, in order; the table grows by exactly the rows those updates fetched |
| StockService.SavedRows | src/main/java/com/quant/stock/service/StockDataService.java:81-93 | updateStockDataAsync saves a row only when its fetch returned one, so the updates save at most one row per symbol |
| StockService.SavedRowsAll | src/main/java/com/quant/stock/service/StockDataService.java:81-93 | When every fetch succeeds each symbol's row is saved, in dispatch order; when every fetch fails nothing is saved |
| FutuSettings.FutuConfig.constructor | src/main/java/com/quant/config/FutuConfig.java:14-32 | The defaults (enabled, 127.0.0.1, port 11111 and the rest), which form a valid configuration |
| FutuSettings.FutuConfig.SetEnabled | src/main/java/com/quant/config/FutuConfig.java:43-45 | Sets the flag and may change nothing else |
| FutuSettings.FutuConfig.SetHost | src/main/java/com/quant/config/FutuConfig.java:51-53 | Sets the host and may change nothing else |
| FutuSettings.FutuConfig.SetPort | src/main/java/com/quant/config/FutuConfig.java:59-61 | Sets the port and may change nothing else |
| FutuSettings.FutuConfig.IsValid | src/main/java/com/quant/config/FutuConfig.java:171-175 | Valid exactly when enabled, the host is present and not blank, and 1 ≤ port ≤ 65535 |
| FutuSettings.FutuConfig.ConnectionUrlParts | src/main/java/com/quant/config/FutuConfig.java:163-165 | The URL's first ":" follows the host, the text before it is the host, and the text after it reads back as the port |
| FutuSettings.HostText | src/main/java/com/quant/config/FutuConfig.java:164 | A present host is printed as itself |
| FutuService.CleanSymbolIsSplit | src/main/java/com/quant/futu/service/FutuDataService.java:229 | The stripping matches `split("\\.")`: element 1 of the split when there is a "."; the symbol itself when there is none; a failure when element 1 does not exist |
| FutuService.CleanSymbolUnqualified | src/main/java/com/quant/futu/service/FutuDataService.java:229 | A symbol without "." is kept unchanged |
| FutuService.CleanSymbolQualified | src/main/java/com/quant/futu/service/FutuDataService.java:229 | "MARKET.TICKER" and "MARKET.TICKER.more" give TICKER |
| FutuService.CleanSymbolMissingTicker | src/main/java/com/quant/futu/service/FutuDataService.java:229 | "MARKET." has no element 1, so the mock quote fails |
| FutuService.HistoryCodeTicker | src/main/java/com/quant/futu/service/FutuDataService.java:257 | The code built for the history request strips back to the upper-cased symbol |
| FutuService.CompanyNameOf | src/main/java/com/quant/futu/service/FutuDataService.java:284-295 | The seven known tickers, in any case, get their company names; any other symbol gets symbol + " Corporation" |
| FutuService.CompanyNameIgnoresCase | src/main/java/com/quant/futu/service/FutuDataService.java:285 | A known ticker is recognised in any letter case |
| FutuService.QuotableOfTickers | src/main/java/com/quant/futu/service/FutuDataService.java:133-140 | Plain tickers are all quoted, in input order |
| FutuService.BarTimesDaily | src/main/java/com/quant/futu/service/FutuDataService.java:260-277 | The mock bars are one day apart and strictly increasing, and the last one is a day before now |
| FutuService.FutuDataService.ConnectToFutu | src/main/java/com/quant/futu/service/FutuDataService.java:69-88 | Connecting always leaves the service connected |
| FutuService.FutuDataService.InitConnection | src/main/java/com/quant/futu/service/FutuDataService.java:41-64 | A disabled or invalid configuration changes nothing; a valid one connects |
| FutuService.FutuDataService.CloseConnection | src/main/java/com/quant/futu/service/FutuDataService.java:212-223 | Closing always leaves the service disconnected |
| FutuService.FutuDataService.CreateMockStockData | src/main/java/com/quant/futu/service/FutuDataService.java:228-250 | A mock quote exists exactly when the symbol strips to a ticker. It carries the ticker and its company name. From the three random values it carries the price, the open price and the volume (truncated to a whole number). The high, low and rounded change percent follow from the price. The previous close is the base price, and the market cap and P/E stay null |
| FutuService.QuoteDrawBounds | src/main/java/com/quant/futu/service/FutuDataService.java:233-242 | With random values in [0, 1), a quote's price is within 5% of 150, its open price within 1%, and its volume between 1,000,000 and 10,999,999 |
| FutuService.BarDrawBounds | src/main/java/com/quant/futu/service/FutuDataService.java:265-272 | With random values in [0, 1), a bar's price is within 2.5% of 150, its open price within 0.5% of that price, and its volume between 500,000 and 5,499,999 |
| FutuService.FutuDataService.GetRealTimeQuote | src/main/java/com/quant/futu/service/FutuDataService.java:95-122 | When disconnected, the service makes one reconnect attempt; the quote is returned exactly when it is then connected and the symbol has a ticker, and null otherwise |
| FutuService.FutuDataService.QuoteAndSave | src/main/java/com/quant/futu/service/FutuDataService.java:133-140 | One batch step: a non-null quote is kept and saved; a null one is skipped |
| FutuService.FutuDataService.GetBatchRealTimeQuotes | src/main/java/com/quant/futu/service/FutuDataService.java:130-143 | The results are exactly the non-null quotes, in input order, and each of them is saved |
| FutuService.FutuDataService.GetHistoricalKLine | src/main/java/com/quant/futu/service/FutuDataService.java:152-175 | Empty when disconnected; otherwise `count` bars of the ticker, one day apart, oldest first, each with the price, open price, high, low and volume its random values give |
| StockPltrModel.NewStockPltrData | src/main/java/com/quant/stockpltr/model/StockPltrData.java:78-86 | A new record carries its symbol, the "stockpltr" source and the creation time as crawl time, and no figures yet |
| StockPltrModel.NewStockComment | src/main/java/com/quant/stockpltr/model/StockComment.java:64-73 | A new comment carries its symbol, its id and the "stockpltr" source, with no likes, no replies and no sentiment |
| StockPltrCrawling.ExtractNumber | src/main/java/com/quant/stockpltr/crawler/StockPltrCrawler.java:369-376 | null exactly when the text has no digit |
| StockPltrCrawling.ExtractNumberMatch | src/main/java/com/quant/stockpltr/crawler/StockPltrCrawler.java:370-373 | The match starts at the first digit, has the shape digits, optional ".", digits, and cannot be extended |
| StockPltrCrawling.ExtractNumberParses | src/main/java/com/quant/stockpltr/crawler/StockPltrCrawler.java:370-373 | Every match reads as a decimal number |
| StockPltrCrawling.ExtractNumberOfInteger | src/main/java/com/quant/stockpltr/crawler/StockPltrCrawler.java:369-376 | In a text with one printed integer, that integer is the match |
| StockPltrCrawling.FindCount | src/main/java/com/quant/stockpltr/crawler/StockPltrCrawler.java:403-405 | A found count is a non-empty run of digits |
| StockPltrCrawling.FindCountSound | src/main/java/com/quant/stockpltr/crawler/StockPltrCrawler.java:403-405 | A found count is a maximal digit run that is followed, after optional whitespace, by the unit |
| StockPltrCrawling.FindCountComplete | src/main/java/com/quant/stockpltr/crawler/StockPltrCrawler.java:402-417 | Whenever a digit run followed by optional whitespace and the unit occurs in the text ("发布于 5 分钟前"), a count is found, and the one found starts no later: together with FindCountSound, the count is the leftmost match, as Matcher.find returns |
| StockPltrCrawling.ExtractCountNoDigits | src/main/java/com/quant/stockpltr/crawler/StockPltrCrawler.java:402-418 | A text without digits gives 0 minutes, hours or days |
| StockPltrCrawling.ExtractCountOfFormatted | src/main/java/com/quant/stockpltr/crawler/StockPltrCrawler.java:402-418 | "n units ago" gives n, and a number beyond int range throws as Integer.parseInt does |
| StockPltrCrawling.ClampScore | src/main/java/com/quant/stockpltr/crawler/StockPltrCrawler.java:448 | The stored score lies in [-1, 1] and is the raw score whenever that is already in range |
| StockPltrCrawling.AnalyzeSentiment | src/main/java/com/quant/stockpltr/crawler/StockPltrCrawler.java:423-457 | The scoring loop computes exactly the analysed comment |
| StockPltrCrawling.HitsCountsWordsPresent | src/main/java/com/quant/stockpltr/crawler/StockPltrCrawler.java:432-445 | The loop counts each keyword present in the text once, however often it occurs |
| StockPltrCrawling.ScoreNeedsNoClamp | src/main/java/com/quant/stockpltr/crawler/StockPltrCrawler.java:446-448 | With ten positive and nine negative keywords the raw score already lies in [-0.9, 1.0] |
| StockPltrCrawling.LabelByCounts | src/main/java/com/quant/stockpltr/crawler/StockPltrCrawler.java:450-456 | "positive" exactly when positives outnumber negatives by two or more, "negative" symmetrically, "neutral" otherwise |
| StockPltrCrawling.NoKeywordNeutral | src/main/java/com/quant/stockpltr/crawler/StockPltrCrawler.java:428-456 | Content without any keyword scores 0 and is "neutral" |
| StockPltrCrawling.AnalyzedSetsSentiment | src/main/java/com/quant/stockpltr/crawler/StockPltrCrawler.java:423-457 | A comment with content gets a score and one of the three labels, and nothing else changes |
| StockPltrCrawling.CreateMockComments | src/main/java/com/quant/stockpltr/crawler/StockPltrCrawler.java:554-585 | The loop builds the five analysed mock comments in order |
| StockPltrCrawling.MockCommentsAt | src/main/java/com/quant/stockpltr/crawler/StockPltrCrawler.java:570-584 | Mock comment i is sample i, analysed |
| StockPltrCrawling.MockCommentsShape | src/main/java/com/quant/stockpltr/crawler/StockPltrCrawler.java:571-581 | Each mock comment belongs to the symbol, carries its sample text and a sentiment; the ids are pairwise distinct |
| StockPltrCrawling.GetStockComments | src/main/java/com/quant/stockpltr/crawler/StockPltrCrawler.java:135-149 | Always five comments for the symbol, with the sample texts in order, each with a sentiment |
| StockPltrService.LatestBySymbolIsLatest | src/main/java/com/quant/stockpltr/repository/StockPltrDataRepository.java:23-24 | The corrected lookup finds the symbol's most recently crawled row; there is none only when the symbol has no row |
| StockPltrService.AsWrittenAgreesOnSingleRow | src/main/java/com/quant/stockpltr/repository/StockPltrDataRepository.java:23-24 | With at most one row, the query as written agrees with the corrected lookup |
| StockPltrService.AsWrittenThrowsAfterRefresh | src/main/java/com/quant/stockpltr/repository/StockPltrDataRepository.java:23-24 | Once a symbol has a row, saving a second one makes the query as written throw |
| StockPltrService.AsWrittenCounterexample | src/main/java/com/quant/stockpltr/repository/StockPltrDataRepository.java:23-24 | Two PLTR rows make the query as written throw while the latest row exists |
| StockPltrService.StoredComments | src/main/java/com/quant/stockpltr/repository/StockCommentRepository.java:33 | The stored comments of the symbol are a permutation of its StockPltr comments, sorted newest comment first |
| StockPltrService.PopularComments | src/main/java/com/quant/stockpltr/repository/StockCommentRepository.java:53-54 | The popular comments are a permutation of the symbol's comments, sorted by likes and then by comment time, both descending |
| StockPltrService.TallyCounts | src/main/java/com/quant/stockpltr/repository/StockCommentRepository.java:64-65 | Each sentiment group counts exactly its comments, and there is no empty group |
| StockPltrService.Limit | src/main/java/com/quant/stockpltr/service/StockPltrDataService.java:302 | `limit(n)` keeps the first min(n, size) elements |
| StockPltrService.Statistics | src/main/java/com/quant/stockpltr/service/StockPltrDataService.java:293-309 | At most five top comments, and the total is the number of the symbol's comments |
| StockPltrService.TopCommentsOfSymbol | src/main/java/com/quant/stockpltr/service/StockPltrDataService.java:296-302 | There are exactly min(5, total) top comments, all the symbol's own, most popular first |
| StockPltrService.TopCommentsOutrankTheRest | src/main/java/com/quant/stockpltr/service/StockPltrDataService.java:296-302 | A comment of the symbol that is not in the top list ranks below every top comment |
| StockPltrService.BatchSavesEveryRecord | src/main/java/com/quant/stockpltr/service/StockPltrDataService.java:180-199 | Every crawled record of the batch is saved, whatever happened to the other symbols |
| StockPltrService.BatchSavesEveryComment | src/main/java/com/quant/stockpltr/service/StockPltrDataService.java:180-199 | Every comment crawled for a symbol whose record step did not throw is saved |
| StockPltrService.RefreshThenCached | src/main/java/com/quant/stockpltr/service/StockPltrDataService.java:71-86 | With the corrected lookup: after a refresh, a later call within five minutes finds a fresh record and does not crawl again (with the query as written that call throws and returns null instead) |
| StockPltrService.StockPltrDataService.SaveStockData | src/main/java/com/quant/stockpltr/service/StockPltrDataService.java:240-250 | The record gets the update time and is appended to the store |
| StockPltrService.StockPltrDataService.SaveStockComments | src/main/java/com/quant/stockpltr/service/StockPltrDataService.java:256-265 | The comments are appended to the store |
| StockPltrService.StockPltrDataService.GetStockData | src/main/java/com/quant/stockpltr/service/StockPltrDataService.java:63-95 | With the corrected lookup: a record crawled less than five minutes ago is returned without crawling. Otherwise a crawled record is saved and returned; an empty crawl returns the old record, however stale, or null; an exception returns null |
| StockPltrService.StockPltrDataService.GetStockDataAsWritten | src/main/java/com/quant/stockpltr/service/StockPltrDataService.java:63-95 | With the query as written: once the symbol has two or more stored rows the call returns null and neither crawls nor saves; with at most one row it behaves as with the corrected lookup |
| StockPltrService.StockPltrDataService.GetStockComments | src/main/java/com/quant/stockpltr/service/StockPltrDataService.java:102-134 | Stored comments whose newest was crawled within ten minutes are returned. Otherwise non-empty crawled comments are saved and returned; an empty crawl returns the stored list; an exception returns the empty list |
| StockPltrService.StockPltrDataService.BatchUpdateStockData | src/main/java/com/quant/stockpltr/service/StockPltrDataService.java:174-205 | Disabled crawling changes nothing. Otherwise every symbol is visited, and a failure on one does not stop the rest |
| StockPltrService.StockPltrDataService.GetCommentStatistics | src/main/java/com/quant/stockpltr/service/StockPltrDataService.java:293-309 | At most five top comments, all stored comments of the symbol |
| Tweets.NewTweet | src/main/java/com/quant/twitter/model/Tweet.java:24-30 | The constructor keeps id, author and content; sets the status URL and the detection time; leaves the counters at zero |
| Tweets.GenerateUrlInjective | src/main/java/com/quant/twitter/model/Tweet.java:35-37 | For authors without "/", the status URL determines the author and the id |
| Tweets.PreviewShape | src/main/java/com/quant/twitter/model/Tweet.java:42-48 | The preview is never empty and never longer than 103 characters. Content up to 100 characters is shown whole; longer content is cut to its first 100 characters plus "..." |
| Tweets.NewTweetValid | src/main/java/com/quant/twitter/model/Tweet.java:53-56 | A tweet is valid exactly when its id and author are both present and non-empty |
| Tweets.Wrap32 | src/main/java/com/quant/twitter/model/Tweet.java:140-142 | Java int arithmetic: the result is in int range and congruent to the exact value modulo 2^32 |
| Tweets.HashCode | src/main/java/com/quant/twitter/model/Tweet.java:140-142 | The hash code is an int |
| Tweets.EqualsContract | src/main/java/com/quant/twitter/model/Tweet.java:132-142 | equals is reflexive, symmetric and transitive, and equal tweets have equal hash codes |
| Tweets.IdentityIgnoresContent | src/main/java/com/quant/twitter/model/Tweet.java:132-142 | Content, URL and counters play no part in equality or hashing |
| Tweets.StringHashIsPolynomial | src/main/java/com/quant/twitter/model/Tweet.java:140-142 | Wrapping at every step of String.hashCode gives the exact polynomial, wrapped once |
| TwitterMonitoring.Deliveries | src/main/java/com/quant/twitter/TwitterMonitor.java:157-163 | One call per listener, in registration order, each with the account and the id, whether or not an earlier listener threw |
| TwitterMonitoring.Observe | src/main/java/com/quant/twitter/TwitterMonitor.java:86-91 | A notice is sent exactly when an id was remembered and a different id was fetched; a fetched id is remembered; a failed fetch changes nothing |
| TwitterMonitoring.NotificationsAreChanges | src/main/java/com/quant/twitter/TwitterMonitor.java:82-96 | Over a run of checks, once an id is remembered, the announced ids are exactly the fetched ids that differ from the id fetched before them |
| TwitterMonitoring.FirstIdIsSilent | src/main/java/com/quant/twitter/TwitterMonitor.java:86-91 | Starting from nothing, the first fetched id is announced to nobody, and every later change is |
| TwitterMonitoring.ChangesDiffer | src/main/java/com/quant/twitter/TwitterMonitor.java:86-91 | No announcement repeats the id before it |
| TwitterMonitoring.TwitterMonitor.constructor | src/main/java/com/quant/twitter/TwitterMonitor.java:28-44 | A new monitor has no listeners, has seen nothing, is not monitoring, and nothing is scheduled |
| TwitterMonitoring.TwitterMonitor.AddListener | src/main/java/com/quant/twitter/TwitterMonitor.java:49-51 | The listener joins the end of the list, and nothing else changes |
| TwitterMonitoring.TwitterMonitor.StartMonitoring | src/main/java/com/quant/twitter/TwitterMonitor.java:56-68 | Starting while monitoring changes nothing. Otherwise the monitor is marked as monitoring and one polling task is scheduled, or the shut-down scheduler rejects it |
| TwitterMonitoring.TwitterMonitor.StopMonitoring | src/main/java/com/quant/twitter/TwitterMonitor.java:73-77 | Not monitoring, with the scheduler shut down |
| TwitterMonitoring.TwitterMonitor.CheckForNewTweets | src/main/java/com/quant/twitter/TwitterMonitor.java:82-96 | The remembered id and the listener calls follow Observe and Deliveries |
| TwitterMonitoring.TwitterMonitor.NotifyNewTweet | src/main/java/com/quant/twitter/TwitterMonitor.java:145-166 | The loop calls every listener in order, and a throwing listener does not stop the rest |
| CrawlerSettings.DefaultHeaders | src/main/java/com/crawler/config/CrawlerConfig.java:23-29 | Exactly five headers, User-Agent among them with the given user agent |
| CrawlerSettings.CrawlerConfig.constructor | src/main/java/com/crawler/config/CrawlerConfig.java:12-21 | The defaults are timeout 10000, 3 retries, delay 1000 and 5 concurrent requests, with the five default headers carrying the user agent |
| CrawlerSettings.CrawlerConfig.InitDefaultHeaders | src/main/java/com/crawler/config/CrawlerConfig.java:23-29 | The five headers are put over the map, so User-Agent agrees with the field |
| CrawlerSettings.CrawlerConfig.SetTimeout | src/main/java/com/crawler/config/CrawlerConfig.java:36-38 | Only the timeout changes |
| CrawlerSettings.CrawlerConfig.SetRetryCount | src/main/java/com/crawler/config/CrawlerConfig.java:44-46 | Only the retry count changes |
| CrawlerSettings.CrawlerConfig.SetDelayBetweenRequests | src/main/java/com/crawler/config/CrawlerConfig.java:52-54 | Only the delay changes |
| CrawlerSettings.CrawlerConfig.SetMaxConcurrentRequests | src/main/java/com/crawler/config/CrawlerConfig.java:60-62 | Only the concurrency limit changes |
| CrawlerSettings.CrawlerConfig.SetUserAgent | src/main/java/com/crawler/config/CrawlerConfig.java:68-71 | The field and the User-Agent header both take the new value; every other header is unchanged |
| CrawlerSettings.CrawlerConfig.GetDefaultHeaders | src/main/java/com/crawler/config/CrawlerConfig.java:73-75 | A copy equal to the headers; as a value, it cannot alias them |
| CrawlerSettings.CrawlerConfig.AddHeader | src/main/java/com/crawler/config/CrawlerConfig.java:77-79 | Exactly one key is inserted or overwritten |
| CrawlerSettings.CrawlerConfig.RemoveHeader | src/main/java/com/crawler/config/CrawlerConfig.java:81-83 | Exactly that key is deleted; removing User-Agent breaks its agreement with the field |
| Decimal.RoundHalfUpError | src/main/java/com/quant/analysis/service/TechnicalAnalysisService.java:55 | HALF_UP rounding leaves at most `scale` fractional digits (the shifted result is a whole number of units), moves a value by at most half a unit of the last kept digit, and ties go away from zero |
| Decimal.RoundHalfUpMonotone | src/main/java/com/quant/analysis/service/TechnicalAnalysisService.java:82 | HALF_UP rounding never reverses the order of two values |
| Decimal.RoundHalfUpBetween | src/main/java/com/quant/analysis/service/TechnicalAnalysisService.java:124-126 | Rounding keeps a value between integer bounds that enclose it |

## Left out

- Web scraping (Jsoup, Selenium, curl), HTTP, the Futu OpenD socket, JPA persistence and the controllers are outside the model. Page contents, crawl results, quotes and stored rows are parameters or sequences that the services own.
- Clocks and random numbers (`LocalDateTime.now()`, `Math.random()`) are parameters. `Math.sqrt` is an abstract function on reals. The EMA multiplier is a parameter, because the source computes `2.0 / (period + 1)` in double arithmetic and only then converts it with `BigDecimal.valueOf`; the rounding of that double is not modelled.
- `BigDecimal` values are exact reals. The rounding steps are modelled, but the scale of unrounded intermediates is not tracked. Double arithmetic in the sentiment score is modelled as exact tenths.
- Each indicator refetches its history in the source; each model indicator takes one series. comprehensiveAnalysis is given the history as a function of the requested row count.
- TechnicalAnalysis.ComprehensiveErrorIff: the one try block covers all ten steps, so a failing indicator also drops every key after it. The source has no per-indicator isolation, and the model does not invent one.
- The "AnalysisTime" entry is the injected `now`, and the "Error" entry carries no message text.
- Asynchrony (`@Async`, `CompletableFuture`, `@Scheduled`, `ScheduledExecutorService`) is modelled as sequential calls. The monitor's scheduler is reduced to a count of accepted tasks and a shut-down flag.
- StockDataService.updateStockDataAsync is modelled inside the scheduled update as the save of the fetched row; the updates run one after another rather than concurrently, so their saves keep dispatch order. cleanupOldData (both services) is not modelled: it is a bulk delete by date.
- StockService.ActiveSymbols: the repository query orders the distinct symbols by name. The model lists them in first-appearance order, because the ordering depends on the database's collation; the set and the absence of duplicates are proved.
- StockPltrDataService.getStockFullInfo, getStockHistory, searchStock and start/stopScheduledCrawl are not modelled. They combine asynchronous futures, date-range queries or a scheduler with the two cached lookups that are modelled.
- StockPltrCrawler.searchStock, getStockDetail, parseStockData, parseComments and createMockStockData parse HTML or build random records. generateCommentId hashes the element's text. parseTime's date arithmetic beyond the three extractors is left out.
- StockPltrCrawling.AnalyzeSentiment: returns the analysed comment instead of updating it in place. Its lower-casing covers ASCII letters only, which suffices for the English and Chinese keyword lists.
- StockPltrCrawling.LabelByCounts: the score is exact tenths in the model. Java sums doubles, and there a difference of one keyword can cross 0.1: three positive and two negative keywords give 0.10000000000000003, which Java labels "positive" where the model says "neutral".
- StockPltrCrawling.GetStockComments: the catch branch that returns an empty list is not reachable in the model, because createMockComments cannot throw once its random draws are given.
- FutuDataService.subscribeRealTimeQuote only logs, and it is not modelled. The `Math.random()` values from which mock quotes and bars are built are handed in as parameters; the double arithmetic on them is exact in the model.
- Entity ids are not modelled: saving always appends a row. A failing save is covered only through the `Outcome` handed to the operation that calls it.
- Text.Upper, Text.Lower and Text.ParseDecimal: case mapping covers the ASCII letters only, and numbers are read from ASCII digits only. Java's `toUpperCase` and `toLowerCase` map all of Unicode and follow the default locale ("straße" becomes "STRASSE"; in a Turkish locale "intc" becomes "İNTC"). `new BigDecimal(String)` also accepts any Unicode decimal digit, so "١٢٣" reads as 123 where the model gives null. The members that rely on these helpers therefore match the source for ASCII text only: StockService.StockDataService.LookupIgnoresCase, FutuService.CompanyNameIgnoresCase, TechnicalAnalysis.HistorySourceFor, StockService.ParseMarketCap and the ParseMarketCap lemmas, and StockService.ExtractSummaryRow.
- Strings are sequences of characters. `String.length`, `substring` and `hashCode` count UTF-16 code units in Java; they agree with the model for text in the Basic Multilingual Plane.
- The Twitter monitor's page fetch, extractLatestTweetId and sendSystemNotification (osascript) are outside the model. The monitor is handed the fetched id. A listener is an index in the listener list, and it does not call back into the monitor.
- TwitterMonitoring.TwitterMonitor.StartMonitoring: after stopMonitoring the scheduler is shut down, so a restart sets the flag but is rejected when it schedules. The model states this behaviour as it is written.
- Plain getters and the remaining bean setters of StockData, Tweet, FutuConfig and CrawlerConfig are not modelled separately, because they only read or write one field.

## Findings

| source | as written | input that shows it | evidently intended | confidence | as-written member | corrected member |
|---|---|---|---|---|---|---|
| src/main/java/com/quant/stockpltr/repository/StockPltrDataRepository.java:23-24 | `findLatestBySymbol` returns `Optional` from an `ORDER BY crawlTime DESC` query with no row limit. With two or more rows for a symbol, the single-result lookup throws, and `getStockData` then returns null without crawling (StockPltrService.StockPltrDataService.GetStockDataAsWritten). | Two PLTR records crawled at 0 and at 600 seconds: the second crawl leaves the symbol permanently unreadable through the cache. | The most recently crawled row of the symbol, as the method's name and ordering say. | not executed | StockPltrService.AsWrittenCounterexample | StockPltrService.LatestBySymbolIsLatest |
