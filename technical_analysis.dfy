/** TechnicalAnalysisService: the indicators SMA, EMA, RSI, a simplified
    MACD and Bollinger Bands over one price series, the trend classifier,
    the trading-signal decision list, the choice of history source and the
    error capture of the comprehensive analysis.

    A series is the list of stored records' current prices in the order the
    history source returns them (None is a null price). Every indicator is a
    specification function returning the Java call's outcome (Thrown where
    the call throws, Done(None) where it returns null), and a method with
    the source's loop that is proved equal to it. */
module TechnicalAnalysis {
  import opened Wrappers
  import opened Decimal
  import opened Text

  type Series = seq<Option<real>>

  // ---------------------------------------------------------------------
  // SMA

  /** The sum of the non-null prices among the first n entries. */
  function PriceSum(s: Series, n: nat): real
    requires n <= |s|
  {
    if n == 0 then 0.0 else PriceSum(s, n - 1) + s[n - 1].GetOr(0.0)
  }

  /** How many times `for (i = 0; i < n; i++)` runs: n, and none at all
      for a negative n. */
  function Iterations(n: int): nat {
    if n > 0 then n else 0
  }

  /** calculateSMA: null when the series is shorter than `period`; the sum
      of the first `period` prices (null prices add nothing but still count
      in the divisor) divided by `period`, HALF_UP to 4 decimals; a zero
      period divides by zero. A negative period sums nothing. */
  function Sma(s: Series, period: int): Outcome<Option<real>>
  {
    if |s| < period then Done(None)
    else if period == 0 then Thrown
    else Done(Some(RoundHalfUp(PriceSum(s, Iterations(period)) / (period as real), 4)))
  }

  method CalculateSma(s: Series, period: int) returns (r: Outcome<Option<real>>)
    ensures r == Sma(s, period)
  {
    if |s| < period {
      return Done(None);
    }
    var sum := 0.0;
    var i := 0;
    while i < period
      invariant 0 <= i <= Iterations(period)
      invariant sum == PriceSum(s, i)
    {
      if s[i].Some? {
        sum := sum + s[i].value;
      }
      i := i + 1;
    }
    if period == 0 {
      return Thrown;
    }
    r := Done(Some(RoundHalfUp(sum / (period as real), 4)));
  }

  /** SMA is null exactly when the series is shorter than the period. */
  lemma SmaNullIff(s: Series, period: int)
    ensures Sma(s, period) == Done(None) <==> |s| < period
    ensures Sma(s, period).Thrown? <==> period == 0
  {
  }

  /** The sum of the first n prices depends on nothing after them. */
  lemma {:induction false} PriceSumPrefix(s: Series, t: Series, n: nat)
    requires n <= |s|
    ensures PriceSum(s + t, n) == PriceSum(s, n)
  {
    if n > 0 {
      PriceSumPrefix(s, t, n - 1);
      assert (s + t)[n - 1] == s[n - 1];
    }
  }

  /** SMA reads only the first `period` entries of the series. */
  lemma SmaWindow(s: Series, t: Series, period: int)
    requires period <= |s|
    ensures Sma(s + t, period) == Sma(s, period)
  {
    PriceSumPrefix(s, t, Iterations(period));
  }

  /** A negative period sums no price and divides zero by itself: the SMA
      is 0 whatever the series. */
  lemma SmaNegativePeriod(s: Series, period: int)
    requires period < 0
    ensures Sma(s, period) == Done(Some(0.0))
  {
    assert 0.0 / (period as real) == 0.0;
    RoundHalfUpInteger(0, 4);
  }

  /** n prices that all lie between lo and hi sum to between n*lo and n*hi. */
  lemma {:induction false} PriceSumBounds(s: Series, n: nat, lo: real, hi: real)
    requires n <= |s|
    requires forall i :: 0 <= i < n ==> s[i].Some? && lo <= s[i].value <= hi
    ensures (n as real) * lo <= PriceSum(s, n) <= (n as real) * hi
  {
    if n > 0 {
      PriceSumBounds(s, n - 1, lo, hi);
      assert ((n - 1) as real) * lo + lo == (n as real) * lo;
      assert ((n - 1) as real) * hi + hi == (n as real) * hi;
    }
  }

  lemma DivideBetween(x: real, p: real, lo: real, hi: real)
    requires p > 0.0 && p * lo <= x <= p * hi
    ensures lo <= x / p <= hi
  {
    assert x / p - lo == (x - p * lo) / p;
    assert hi - x / p == (p * hi - x) / p;
  }

  /** When the window holds only prices between two whole numbers, so does
      the SMA. */
  lemma SmaBounded(s: Series, period: int, lo: int, hi: int)
    requires 0 < period <= |s|
    requires forall i :: 0 <= i < period ==> s[i].Some? && lo as real <= s[i].value <= hi as real
    ensures Sma(s, period).Done? && Sma(s, period).value.Some?
    ensures lo as real <= Sma(s, period).value.value <= hi as real
  {
    PriceSumBounds(s, period, lo as real, hi as real);
    var p := period as real;
    var mean := PriceSum(s, period) / p;
    assert mean * p == PriceSum(s, period);
    DivideBetween(PriceSum(s, period), p, lo as real, hi as real);
    RoundHalfUpBetween(mean, lo, hi, 4);
  }

  // ---------------------------------------------------------------------
  // EMA

  /** One smoothing step: a null price leaves the running value alone. */
  function EmaStep(ema: real, price: Option<real>, k: real): real {
    match price
    case None => ema
    case Some(p) => p * k + ema * (1.0 - k)
  }

  /** The lowest index the EMA loop visits: max(0, size - period). */
  function EmaLow(size: nat, period: int): nat {
    if size >= period then size - period else 0
  }

  /** The running value after the loop has visited indices i, i-1, ...,
      down to `low`, starting from `ema`. */
  function EmaFrom(s: Series, k: real, ema: real, i: int, low: nat): real
    requires i < |s|
    decreases i + 1
  {
    if i < 0 || i < low then ema else EmaFrom(s, k, EmaStep(ema, s[i], k), i - 1, low)
  }

  /** calculateEMA with multiplier k: null for an empty series; otherwise it
      seeds with the last price and folds price*k + ema*(1-k) from index
      size-2 down to max(0, size-period), HALF_UP to 4 decimals. A period
      of -1 makes 2.0 / (period + 1) infinite, which BigDecimal.valueOf
      rejects; a null seed makes the call throw as well. A negative period
      folds no price. */
  function Ema(s: Series, period: int, k: real): Outcome<Option<real>>
  {
    if s == [] then Done(None)
    else if period == -1 || s[|s| - 1].None? then Thrown
    else Done(Some(RoundHalfUp(EmaFrom(s, k, s[|s| - 1].value, |s| - 2, EmaLow(|s|, period)), 4)))
  }

  method CalculateEma(s: Series, period: int, k: real) returns (r: Outcome<Option<real>>)
    ensures r == Ema(s, period, k)
  {
    if s == [] {
      return Done(None);
    }
    if period == -1 {
      return Thrown;
    }
    var seed := s[|s| - 1];
    if seed.None? {
      return Thrown;
    }
    var low := EmaLow(|s|, period);
    var ema := seed.value;
    var i := |s| - 2;
    while i >= 0 && i >= |s| - period
      invariant -1 <= i <= |s| - 2
      invariant EmaFrom(s, k, ema, i, low) == EmaFrom(s, k, seed.value, |s| - 2, low)
      decreases i + 1
    {
      var price := s[i];
      assert EmaFrom(s, k, ema, i, low) == EmaFrom(s, k, EmaStep(ema, price, k), i - 1, low);
      if price.Some? {
        ema := price.value * k + ema * (1.0 - k);
      }
      i := i - 1;
    }
    r := Done(Some(RoundHalfUp(ema, 4)));
  }

  /** EMA is null exactly for an empty series, and throws exactly when the
      period is -1 or the seed price is null. */
  lemma EmaNullIff(s: Series, period: int, k: real)
    ensures Ema(s, period, k) == Done(None) <==> s == []
    ensures Ema(s, period, k).Thrown? <==> s != [] && (period == -1 || s[|s| - 1].None?)
  {
  }

  /** Below -1 a period folds no price: the EMA is the last price, rounded. */
  lemma EmaNegativePeriod(s: Series, period: int, k: real)
    requires period < -1 && s != [] && s[|s| - 1].Some?
    ensures Ema(s, period, k) == Done(Some(RoundHalfUp(s[|s| - 1].value, 4)))
  {
  }

  /** A smoothing step with 0 <= k <= 1 keeps the running value between
      bounds that enclose it and the price. */
  lemma EmaStepBounded(ema: real, price: Option<real>, k: real, lo: real, hi: real)
    requires 0.0 <= k <= 1.0 && lo <= ema <= hi
    requires price.Some? ==> lo <= price.value <= hi
    ensures lo <= EmaStep(ema, price, k) <= hi
  {
    if price.Some? {
      Interpolate(ema, price.value, k, lo, hi);
    }
  }

  /** A weighted mean p * k + ema * (1 - k) lies between any bounds of p and ema. */
  lemma Interpolate(ema: real, p: real, k: real, lo: real, hi: real)
    requires 0.0 <= k <= 1.0 && lo <= ema <= hi && lo <= p <= hi
    ensures lo <= p * k + ema * (1.0 - k) <= hi
  {
    assert p * k + ema * (1.0 - k) == ema + (p - ema) * k;
    Fraction(p - ema, k);
    var u := (p - ema) * k;
    if p >= ema {
      assert 0.0 <= u <= p - ema;
    } else {
      assert p - ema <= u <= 0.0;
    }
  }

  /** d * k lies between 0 and d for 0 <= k <= 1. */
  lemma Fraction(d: real, k: real)
    requires 0.0 <= k <= 1.0
    ensures d >= 0.0 ==> 0.0 <= d * k <= d
    ensures d <= 0.0 ==> d <= d * k <= 0.0
  {
    MulMonotone(k, 1.0, if d >= 0.0 then d else -d);
    if d >= 0.0 { MulMonotone(0.0, k, d); } else { MulMonotone(0.0, k, -d); }
  }

  /** A non-negative factor keeps the order. */
  lemma MulMonotone(a: real, b: real, k: real)
    requires a <= b && k >= 0.0
    ensures a * k <= b * k
  {
    assert (b - a) * k >= 0.0;
    assert (b - a) * k == b * k - a * k;
  }

  lemma {:induction false} EmaFromBounded(s: Series, k: real, ema: real, i: int, low: nat, lo: real, hi: real)
    requires i < |s| && 0.0 <= k <= 1.0 && lo <= ema <= hi
    requires forall j :: 0 <= j < |s| && s[j].Some? ==> lo <= s[j].value <= hi
    ensures lo <= EmaFrom(s, k, ema, i, low) <= hi
    decreases i + 1
  {
    if !(i < 0 || i < low) {
      EmaStepBounded(ema, s[i], k, lo, hi);
      EmaFromBounded(s, k, EmaStep(ema, s[i], k), i - 1, low, lo, hi);
    }
  }

  /** With a multiplier between 0 and 1 the EMA stays between whole-number
      bounds on the series' prices. */
  lemma EmaBounded(s: Series, period: int, k: real, lo: int, hi: int)
    requires 0.0 <= k <= 1.0
    requires forall j :: 0 <= j < |s| && s[j].Some? ==> lo as real <= s[j].value <= hi as real
    requires Ema(s, period, k).Done? && Ema(s, period, k).value.Some?
    ensures lo as real <= Ema(s, period, k).value.value <= hi as real
  {
    var seed := s[|s| - 1].value;
    EmaFromBounded(s, k, seed, |s| - 2, EmaLow(|s|, period), lo as real, hi as real);
    RoundHalfUpBetween(EmaFrom(s, k, seed, |s| - 2, EmaLow(|s|, period)), lo, hi, 4);
  }

  // ---------------------------------------------------------------------
  // RSI

  predicate AllPresent(s: Series, n: nat)
    requires n <= |s|
  {
    forall i :: 0 <= i < n ==> s[i].Some?
  }

  /** The price change from entry i-1 to entry i. */
  function Change(s: Series, i: nat): real
    requires 0 < i < |s| && AllPresent(s, i + 1)
  {
    s[i].value - s[i - 1].value
  }

  /** The sum of the positive changes among the first n. */
  function GainSum(s: Series, n: nat): (g: real)
    requires n < |s| && AllPresent(s, n + 1)
    ensures g >= 0.0
  {
    if n == 0 then 0.0
    else GainSum(s, n - 1) + (if Change(s, n) > 0.0 then Change(s, n) else 0.0)
  }

  /** The sum of the sizes of the other changes (a zero change adds 0). */
  function LossSum(s: Series, n: nat): (l: real)
    requires n < |s| && AllPresent(s, n + 1)
    ensures l >= 0.0
  {
    if n == 0 then 0.0
    else LossSum(s, n - 1) + (if Change(s, n) > 0.0 then 0.0 else -Change(s, n))
  }

  /** The RSI of period-averaged gain and loss (already rounded to 6
      decimals): 100 when the loss is zero, otherwise
      100 - round2(100 / (1 + round6(gain / loss))). */
  function RsiOf(avgGain: real, avgLoss: real): real
    requires avgGain >= 0.0 && avgLoss >= 0.0
  {
    if avgLoss == 0.0 then 100.0
    else
      RoundHalfUpSign(avgGain / avgLoss, 6);
      100.0 - RoundHalfUp(100.0 / (1.0 + RoundHalfUp(avgGain / avgLoss, 6)), 2)
  }

  /** calculateRSI: null when there are fewer than period+1 entries; a null
      price among the first period+1 entries, or a zero period, throws. A
      negative period sums no change, so both averages are zero and the
      zero-loss test answers 100. */
  function Rsi(s: Series, period: int): Outcome<Option<real>>
  {
    if |s| < period + 1 then Done(None)
    else if period < 0 then Done(Some(100.0))
    else if !AllPresent(s, period + 1) || period == 0 then Thrown
    else
      var p := period as real;
      RoundHalfUpSign(GainSum(s, period) / p, 6);
      RoundHalfUpSign(LossSum(s, period) / p, 6);
      Done(Some(RsiOf(RoundHalfUp(GainSum(s, period) / p, 6), RoundHalfUp(LossSum(s, period) / p, 6))))
  }

  /** The loop of calculateRSI over the first period+1 entries: the sums of
      the gains and of the losses, or false at the first null price. */
  method SumChanges(s: Series, period: nat) returns (ok: bool, gain: real, loss: real)
    requires period < |s|
    ensures ok <==> AllPresent(s, period + 1)
    ensures ok ==> gain == GainSum(s, period) && loss == LossSum(s, period)
  {
    gain, loss := 0.0, 0.0;
    var i := 1;
    while i <= period
      invariant 1 <= i <= period + 1
      invariant i == 1 ==> gain == 0.0 && loss == 0.0
      invariant i > 1 ==> AllPresent(s, i) && gain == GainSum(s, i - 1) && loss == LossSum(s, i - 1)
    {
      if s[i].None? || s[i - 1].None? {
        assert !AllPresent(s, period + 1);
        return false, gain, loss;
      }
      var change := s[i].value - s[i - 1].value;
      if change > 0.0 {
        gain := gain + change;
      } else {
        loss := loss + (if change < 0.0 then -change else change);
      }
      i := i + 1;
    }
    if period == 0 {
      assert AllPresent(s, 1) <==> s[0].Some?;
      if s[0].None? {
        return false, gain, loss;
      }
    }
    ok := true;
  }

  method CalculateRsi(s: Series, period: int) returns (r: Outcome<Option<real>>)
    ensures r == Rsi(s, period)
  {
    if |s| < period + 1 {
      return Done(None);
    }
    var ok, gain, loss := true, 0.0, 0.0;
    if period >= 0 {
      ok, gain, loss := SumChanges(s, period);
    }
    if !ok || period == 0 {
      return Thrown;
    }
    if period < 0 {
      // No change is summed: both averages are 0, and so RSI is 100.
      assert gain / (period as real) == 0.0 && loss / (period as real) == 0.0;
      RoundHalfUpInteger(0, 6);
      var zeroGain := RoundHalfUp(gain / (period as real), 6);
      var zeroLoss := RoundHalfUp(loss / (period as real), 6);
      return Done(Some(RsiOf(zeroGain, zeroLoss)));
    }
    RoundHalfUpSign(gain / (period as real), 6);
    RoundHalfUpSign(loss / (period as real), 6);
    var avgGain := RoundHalfUp(gain / (period as real), 6);
    var avgLoss := RoundHalfUp(loss / (period as real), 6);
    r := Done(Some(RsiOf(avgGain, avgLoss)));
  }

  /** RSI is null exactly when there are fewer than period+1 entries, and
      a negative period gives 100. */
  lemma RsiNullIff(s: Series, period: int)
    ensures Rsi(s, period) == Done(None) <==> |s| < period + 1
    ensures period < 0 ==> Rsi(s, period) == Done(Some(100.0))
  {
  }

  /** From non-negative averages RSI lies in [0, 100]. */
  lemma RsiOfRange(avgGain: real, avgLoss: real)
    requires avgGain >= 0.0 && avgLoss >= 0.0
    ensures 0.0 <= RsiOf(avgGain, avgLoss) <= 100.0
  {
    if avgLoss != 0.0 {
      var rs := RoundHalfUp(avgGain / avgLoss, 6);
      RoundHalfUpSign(avgGain / avgLoss, 6);
      var q := 100.0 / (1.0 + rs);
      assert 0.0 < q <= 100.0 by {
        assert q * (1.0 + rs) == 100.0;
      }
      RoundHalfUpBetween(q, 0, 100, 2);
    }
  }

  /** Every RSI the service returns lies in [0, 100]. */
  lemma RsiRange(s: Series, period: int)
    requires Rsi(s, period).Done? && Rsi(s, period).value.Some?
    ensures 0.0 <= Rsi(s, period).value.value <= 100.0
  {
    if period < 0 {
      return;
    }
    var p := period as real;
    RoundHalfUpSign(GainSum(s, period) / p, 6);
    RoundHalfUpSign(LossSum(s, period) / p, 6);
    RsiOfRange(RoundHalfUp(GainSum(s, period) / p, 6), RoundHalfUp(LossSum(s, period) / p, 6));
  }

  lemma {:induction false} LossSumZero(s: Series, n: nat)
    requires n < |s| && AllPresent(s, n + 1)
    requires forall i :: 0 < i <= n ==> s[i - 1].value <= s[i].value
    ensures LossSum(s, n) == 0.0
  {
    if n > 0 {
      LossSumZero(s, n - 1);
      assert s[n - 1].value <= s[n].value;
    }
  }

  /** A window whose prices never fall has RSI exactly 100. */
  lemma RsiNoLosses(s: Series, period: int)
    requires 0 < period < |s| && AllPresent(s, period + 1)
    requires forall i :: 0 < i <= period ==> s[i - 1].value <= s[i].value
    ensures Rsi(s, period) == Done(Some(100.0))
  {
    LossSumZero(s, period);
    RoundHalfUpInteger(0, 6);
    assert 0.0 / (period as real) == 0.0;
  }

  // ---------------------------------------------------------------------
  // MACD

  /** calculateMACD from the two EMA series (fetched for 24 and 52 entries):
      an empty map when either EMA is null; otherwise MACD = EMA12 - EMA26,
      Signal = MACD * 0.8 and Histogram = MACD - Signal. */
  function Macd(s12: Series, s26: Series, k12: real, k26: real): Outcome<map<string, real>>
  {
    match Ema(s12, 12, k12)
    case Thrown => Thrown
    case Done(ema12) =>
      match Ema(s26, 26, k26)
      case Thrown => Thrown
      case Done(ema26) =>
        if ema12.None? || ema26.None? then Done(map[])
        else
          var line := ema12.value - ema26.value;
          var signal := line * 0.8;
          Done(map["MACD" := line, "Signal" := signal, "Histogram" := line - signal])
  }

  method CalculateMacd(s12: Series, s26: Series, k12: real, k26: real) returns (r: Outcome<map<string, real>>)
    ensures r == Macd(s12, s26, k12, k26)
  {
    var ema12 := CalculateEma(s12, 12, k12);
    if ema12.Thrown? {
      return Thrown;
    }
    var ema26 := CalculateEma(s26, 26, k26);
    if ema26.Thrown? {
      return Thrown;
    }
    var result: map<string, real> := map[];
    if ema12.value.None? || ema26.value.None? {
      return Done(result);
    }
    var line := ema12.value.value - ema26.value.value;
    result := result["MACD" := line];
    var signal := line * 0.8;
    result := result["Signal" := signal];
    result := result["Histogram" := line - signal];
    r := Done(result);
  }

  /** MACD is empty exactly when one of its series is empty; otherwise it
      has its three entries, the signal is 0.8 and the histogram 0.2 of
      the MACD line, and the line is the difference of the two EMAs. */
  lemma MacdShape(s12: Series, s26: Series, k12: real, k26: real)
    requires Macd(s12, s26, k12, k26).Done?
    ensures var m := Macd(s12, s26, k12, k26).value;
      (m == map[] <==> s12 == [] || s26 == []) &&
      (m != map[] ==> m.Keys == {"MACD", "Signal", "Histogram"} &&
                      m["Signal"] == 0.8 * m["MACD"] && m["Histogram"] == 0.2 * m["MACD"] &&
                      m["MACD"] == Ema(s12, 12, k12).value.value - Ema(s26, 26, k26).value.value)
  {
    var m := Macd(s12, s26, k12, k26).value;
    if s12 != [] && s26 != [] {
      assert "MACD" in m;
    }
  }

  /** MACD throws exactly when one of the two EMAs throws. */
  lemma MacdThrowsIff(s12: Series, s26: Series, k12: real, k26: real)
    ensures Macd(s12, s26, k12, k26).Thrown? <==> Ema(s12, 12, k12).Thrown? || Ema(s26, 26, k26).Thrown?
  {
  }

  // ---------------------------------------------------------------------
  // Bollinger Bands

  /** The sum of squared distances from `mean` of the non-null prices among
      the first n entries. */
  function SumSquares(s: Series, n: nat, mean: real): (q: real)
    requires n <= |s|
    ensures q >= 0.0
  {
    if n == 0 then 0.0
    else
      var d := if s[n - 1].Some? then (s[n - 1].value - mean) * (s[n - 1].value - mean) else 0.0;
      SumSquares(s, n - 1, mean) + d
  }

  /** calculateBollingerBands with band width sqrt(variance) * stdDev, where
      the variance is rounded HALF_UP to 6 decimals and `sqrt` stands for
      Math.sqrt: an empty map when the series is shorter than `period`. A
      negative period gives a zero middle band and a zero variance. */
  function Bollinger(s: Series, period: int, stdDev: real, sqrt: real -> real): Outcome<map<string, real>>
  {
    if |s| < period then Done(map[])
    else
      var sma := Sma(s, period);
      if sma.Thrown? then Thrown
      else if sma.value.None? then Done(map[])
      else
        var m := sma.value.value;
        var variance := RoundHalfUp(SumSquares(s, Iterations(period), m) / (period as real), 6);
        var band := sqrt(variance) * stdDev;
        Done(map["Middle" := m, "Upper" := m + band, "Lower" := m - band])
  }

  method CalculateBollingerBands(s: Series, period: int, stdDev: real, sqrt: real -> real)
    returns (r: Outcome<map<string, real>>)
    ensures r == Bollinger(s, period, stdDev, sqrt)
  {
    var result: map<string, real> := map[];
    if |s| < period {
      return Done(result);
    }
    var sma := CalculateSma(s, period);
    if sma.Thrown? {
      return Thrown;
    }
    if sma.value.None? {
      return Done(result);
    }
    var middle := sma.value.value;
    result := result["Middle" := middle];
    var sumSquares := SumSquaredDistances(s, period, middle);
    var variance := RoundHalfUp(sumSquares / (period as real), 6);
    var band := sqrt(variance) * stdDev;
    result := result["Upper" := middle + band];
    result := result["Lower" := middle - band];
    assert result == map["Middle" := middle, "Upper" := middle + band, "Lower" := middle - band];
    ghost var b := Bollinger(s, period, stdDev, sqrt).value;
    assert b.Keys == result.Keys;
    assert b["Middle"] == middle && b["Upper"] == middle + band && b["Lower"] == middle - band;
    r := Done(result);
  }

  /** The loop of calculateBollingerBands summing squared distances from
      the middle band over the first `period` entries. */
  method SumSquaredDistances(s: Series, period: int, middle: real) returns (sumSquares: real)
    requires period <= |s|
    ensures sumSquares == SumSquares(s, Iterations(period), middle)
  {
    sumSquares := 0.0;
    var i := 0;
    while i < period
      invariant 0 <= i <= Iterations(period)
      invariant sumSquares == SumSquares(s, i, middle)
    {
      if s[i].Some? {
        var diff := s[i].value - middle;
        sumSquares := sumSquares + diff * diff;
      }
      i := i + 1;
    }
  }

  /** The bands are empty exactly when the series is shorter than the
      period; otherwise the middle band is the SMA and the upper and lower
      bands lie the same distance above and below it. */
  lemma BollingerShape(s: Series, period: int, stdDev: real, sqrt: real -> real)
    requires Bollinger(s, period, stdDev, sqrt).Done?
    ensures var m := Bollinger(s, period, stdDev, sqrt).value;
      (m == map[] <==> |s| < period) &&
      (m != map[] ==> m.Keys == {"Upper", "Middle", "Lower"} &&
                      Sma(s, period) == Done(Some(m["Middle"])) &&
                      m["Upper"] - m["Middle"] == m["Middle"] - m["Lower"])
  {
    var m := Bollinger(s, period, stdDev, sqrt).value;
    if |s| >= period {
      assert "Middle" in m;
    }
  }

  /** With a non-negative square root and multiplier the bands are ordered. */
  lemma BollingerOrdered(s: Series, period: int, stdDev: real, sqrt: real -> real)
    requires forall x :: x >= 0.0 ==> sqrt(x) >= 0.0
    requires stdDev >= 0.0
    requires Bollinger(s, period, stdDev, sqrt).Done? && Bollinger(s, period, stdDev, sqrt).value != map[]
    ensures var m := Bollinger(s, period, stdDev, sqrt).value;
      m["Lower"] <= m["Middle"] <= m["Upper"]
  {
    var mid := Sma(s, period).value.value;
    var sum := SumSquares(s, Iterations(period), mid);
    var variance := RoundHalfUp(sum / (period as real), 6);
    assert sum / (period as real) >= 0.0 by {
      if period < 0 { assert sum == 0.0; }
    }
    RoundHalfUpSign(sum / (period as real), 6);
    assert sqrt(variance) >= 0.0;
    assert sqrt(variance) * stdDev >= 0.0;
  }

  /** A negative period makes the middle band 0 and the variance 0, so with
      Math.sqrt(0) = 0 all three bands are 0. */
  lemma BollingerNegativePeriod(s: Series, period: int, stdDev: real, sqrt: real -> real)
    requires period < 0 && sqrt(0.0) == 0.0
    ensures Bollinger(s, period, stdDev, sqrt) == Done(map["Middle" := 0.0, "Upper" := 0.0, "Lower" := 0.0])
  {
    SmaNegativePeriod(s, period);
    assert SumSquares(s, Iterations(period), 0.0) == 0.0;
    assert 0.0 / (period as real) == 0.0;
    RoundHalfUpInteger(0, 6);
    assert sqrt(RoundHalfUp(0.0, 6)) * stdDev == 0.0;
    var m := Bollinger(s, period, stdDev, sqrt);
    assert m.Done?;
    assert m.value.Keys == {"Middle", "Upper", "Lower"};
    assert m.value["Middle"] == 0.0;
    assert m.value["Upper"] == 0.0;
  }

  /** Bollinger Bands throw exactly for a zero period. */
  lemma BollingerThrowsIff(s: Series, period: int, stdDev: real, sqrt: real -> real)
    ensures Bollinger(s, period, stdDev, sqrt).Thrown? <==> period == 0
  {
  }

  // ---------------------------------------------------------------------
  // Trend and trading signal

  datatype Trend = Uptrend | Downtrend | Sideways | Unknown {
    function Name(): string {
      match this
      case Uptrend => "UPTREND"
      case Downtrend => "DOWNTREND"
      case Sideways => "SIDEWAYS"
      case Unknown => "UNKNOWN"
    }
  }

  /** analyzeTrend from the 20- and 50-period SMAs. */
  function AnalyzeTrend(sma20: Option<real>, sma50: Option<real>): Trend {
    if sma20.None? || sma50.None? then Unknown
    else if sma20.value > sma50.value then Uptrend
    else if sma20.value < sma50.value then Downtrend
    else Sideways
  }

  /** The trend is UNKNOWN exactly when an SMA is missing, and otherwise
      names how the short SMA compares with the long one. */
  lemma AnalyzeTrendIff(sma20: Option<real>, sma50: Option<real>)
    ensures AnalyzeTrend(sma20, sma50) == Unknown <==> sma20.None? || sma50.None?
    ensures AnalyzeTrend(sma20, sma50) == Uptrend <==> sma20.Some? && sma50.Some? && sma20.value > sma50.value
    ensures AnalyzeTrend(sma20, sma50) == Downtrend <==> sma20.Some? && sma50.Some? && sma20.value < sma50.value
    ensures AnalyzeTrend(sma20, sma50) == Sideways <==> sma20.Some? && sma50.Some? && sma20.value == sma50.value
  {
  }

  datatype Signal = Buy | Sell | Hold {
    function Name(): string {
      match this
      case Buy => "BUY"
      case Sell => "SELL"
      case Hold => "HOLD"
    }
  }

  /** generateTradingSignal: HOLD when the RSI or the trend is null, then
      the first of RSI > 70 (SELL), RSI < 30 (BUY), an uptrend with RSI > 50
      (BUY), a downtrend with RSI < 50 (SELL), else HOLD. */
  function TradingSignal(rsi: Option<real>, trend: Option<Trend>): Signal {
    if rsi.None? || trend.None? then Hold
    else if rsi.value > 70.0 then Sell
    else if rsi.value < 30.0 then Buy
    else if trend.value == Uptrend && rsi.value > 50.0 then Buy
    else if trend.value == Downtrend && rsi.value < 50.0 then Sell
    else Hold
  }

  /** The decision list as two independent conditions: BUY when oversold
      or in an uptrend with RSI in (50, 70]; SELL when overbought or in a
      downtrend with RSI in [30, 50). */
  lemma TradingSignalIff(rsi: Option<real>, trend: Option<Trend>)
    ensures TradingSignal(rsi, trend) == Buy <==>
      rsi.Some? && trend.Some? && (rsi.value < 30.0 || (trend.value == Uptrend && 50.0 < rsi.value <= 70.0))
    ensures TradingSignal(rsi, trend) == Sell <==>
      rsi.Some? && trend.Some? && (rsi.value > 70.0 || (trend.value == Downtrend && 30.0 <= rsi.value < 50.0))
  {
  }

  /** An UNKNOWN trend is not null: the RSI extremes still decide. */
  lemma UnknownTrendSignal(rsi: real)
    ensures TradingSignal(Some(rsi), Some(Unknown)) == (if rsi > 70.0 then Sell else if rsi < 30.0 then Buy else Hold)
  {
  }

  // ---------------------------------------------------------------------
  // History source

  /** Where getHistoricalData reads `count` entries from. */
  datatype HistorySource =
    | FutuKLine(code: string, kline: string, count: int)
    | LocalRepository(symbol: string)

  /** getHistoricalData: daily K-lines of "US." + the upper-cased symbol
      from Futu while it is connected, otherwise the local repository. */
  function HistorySourceFor(futuConnected: bool, symbol: string, count: int): (r: HistorySource)
    ensures r.FutuKLine? <==> futuConnected
    ensures r.FutuKLine? ==> StartsWith(r.code, "US.") && r.code[3..] == Upper(symbol) && r.kline == "K_DAY" && r.count == count
    ensures r.LocalRepository? ==> r.symbol == symbol
  {
    if futuConnected then FutuKLine("US." + Upper(symbol), "K_DAY", count)
    else LocalRepository(symbol)
  }

  // ---------------------------------------------------------------------
  // Comprehensive analysis

  /** A value of the analysis map. */
  datatype AnalysisValue =
    | Number(n: Option<real>)
    | Table(t: map<string, real>)
    | Label(text: string)
    | Timestamp(time: int)
    | ErrorMessage

  type Step = (string, Outcome<AnalysisValue>)

  /** The puts of the try block in order: each step's value is stored under
      its key until the first step that throws, which instead adds
      "Error" and ends the analysis. */
  function Collect(m: map<string, AnalysisValue>, steps: seq<Step>): map<string, AnalysisValue>
    decreases |steps|
  {
    if steps == [] then m
    else
      match steps[0].1
      case Thrown => m["Error" := ErrorMessage]
      case Done(v) => Collect(m[steps[0].0 := v], steps[1..])
  }

  function NumberOf(o: Outcome<Option<real>>): Outcome<AnalysisValue> {
    match o
    case Thrown => Thrown
    case Done(v) => Done(Number(v))
  }

  function TableOf(o: Outcome<map<string, real>>): Outcome<AnalysisValue> {
    match o
    case Thrown => Thrown
    case Done(t) => Done(Table(t))
  }

  /** The value an indicator put into the map, null when it threw. */
  function ValueOf(o: Outcome<Option<real>>): Option<real> {
    if o.Done? then o.value else None
  }

  /** The keys comprehensiveAnalysis fills when nothing throws. */
  const AnalysisKeys: set<string> := {"SMA_20", "SMA_50", "EMA_12", "EMA_26", "RSI_14", "MACD",
                                      "BollingerBands", "Trend", "TradingSignal", "AnalysisTime"}

  /** The steps of comprehensiveAnalysis; history(n) is the series
      getHistoricalData returns when asked for n entries. */
  function AnalysisSteps(history: nat -> Series, k12: real, k26: real, sqrt: real -> real, now: int): (steps: seq<Step>)
    ensures |steps| == 10
    ensures forall i :: 0 <= i < |steps| ==> steps[i].0 in AnalysisKeys
  {
    var sma20 := Sma(history(25), 20);
    var sma50 := Sma(history(55), 50);
    var rsi := Rsi(history(24), 14);
    var trend := AnalyzeTrend(ValueOf(sma20), ValueOf(sma50));
    [("SMA_20", NumberOf(sma20)),
     ("SMA_50", NumberOf(sma50)),
     ("EMA_12", NumberOf(Ema(history(24), 12, k12))),
     ("EMA_26", NumberOf(Ema(history(52), 26, k26))),
     ("RSI_14", NumberOf(rsi)),
     ("MACD", TableOf(Macd(history(24), history(52), k12, k26))),
     ("BollingerBands", TableOf(Bollinger(history(25), 20, 2.0, sqrt))),
     ("Trend", Done(Label(trend.Name()))),
     ("TradingSignal", Done(Label(TradingSignal(ValueOf(rsi), Some(trend)).Name()))),
     ("AnalysisTime", Done(Timestamp(now)))]
  }

  /** comprehensiveAnalysis with the EMA multipliers, the square root and
      the clock as parameters. */
  function ComprehensiveAnalysis(history: nat -> Series, k12: real, k26: real, sqrt: real -> real, now: int): map<string, AnalysisValue>
  {
    Collect(map[], AnalysisSteps(history, k12, k26, sqrt, now))
  }

  /** "Error" is added exactly when some step throws. */
  lemma {:induction false} CollectError(m: map<string, AnalysisValue>, steps: seq<Step>)
    requires "Error" !in m
    requires forall i :: 0 <= i < |steps| ==> steps[i].0 != "Error"
    ensures "Error" in Collect(m, steps) <==> exists i :: 0 <= i < |steps| && steps[i].1.Thrown?
    decreases |steps|
  {
    if steps != [] && steps[0].1.Done? {
      CollectError(m[steps[0].0 := steps[0].1.value], steps[1..]);
      assert forall i :: 1 <= i < |steps| ==> steps[i] == steps[1..][i - 1];
    }
  }

  /** When no step throws, the map holds exactly the steps' keys. */
  lemma {:induction false} CollectKeys(m: map<string, AnalysisValue>, steps: seq<Step>)
    requires forall i :: 0 <= i < |steps| ==> steps[i].1.Done?
    ensures Collect(m, steps).Keys == m.Keys + set i | 0 <= i < |steps| :: steps[i].0
    decreases |steps|
  {
    if steps != [] {
      CollectKeys(m[steps[0].0 := steps[0].1.value], steps[1..]);
      var rest := set i | 0 <= i < |steps| - 1 :: steps[1..][i].0;
      var all := set i | 0 <= i < |steps| :: steps[i].0;
      assert all == {steps[0].0} + rest by {
        forall x | x in all ensures x in {steps[0].0} + rest {
          var i :| 0 <= i < |steps| && steps[i].0 == x;
          if i > 0 { assert steps[1..][i - 1].0 == x; }
        }
      }
    }
  }

  /** A key already in the map stays in it. */
  lemma {:induction false} CollectKeeps(m: map<string, AnalysisValue>, steps: seq<Step>, key: string)
    requires key in m
    ensures key in Collect(m, steps)
    decreases |steps|
  {
    if steps != [] && steps[0].1.Done? {
      CollectKeeps(m[steps[0].0 := steps[0].1.value], steps[1..], key);
    }
  }

  /** A key that no step before the first throwing one puts is never added. */
  lemma {:induction false} CollectOmits(m: map<string, AnalysisValue>, steps: seq<Step>, j: nat, key: string)
    requires j < |steps| && steps[j].1.Thrown?
    requires key !in m && key != "Error"
    requires forall i :: 0 <= i < j ==> steps[i].0 != key
    ensures key !in Collect(m, steps)
    decreases |steps|
  {
    if j > 0 && steps[0].1.Done? {
      CollectOmits(m[steps[0].0 := steps[0].1.value], steps[1..], j - 1, key);
    }
  }

  /** comprehensiveAnalysis reports "Error" exactly when the 12- or 26-period
      EMA or the 14-period RSI throws: the SMAs, MACD and Bollinger Bands it
      computes never throw by themselves. */
  lemma ComprehensiveErrorIff(history: nat -> Series, k12: real, k26: real, sqrt: real -> real, now: int)
    ensures "Error" in ComprehensiveAnalysis(history, k12, k26, sqrt, now) <==>
      Ema(history(24), 12, k12).Thrown? || Ema(history(52), 26, k26).Thrown? || Rsi(history(24), 14).Thrown?
  {
    var steps := AnalysisSteps(history, k12, k26, sqrt, now);
    CollectError(map[], steps);
    MacdThrowsIff(history(24), history(52), k12, k26);
    BollingerThrowsIff(history(25), 20, 2.0, sqrt);
    assert steps[0].1.Done? && steps[1].1.Done?;
    if Ema(history(24), 12, k12).Thrown? { assert steps[2].1.Thrown?; }
    if Ema(history(52), 26, k26).Thrown? { assert steps[3].1.Thrown?; }
    if Rsi(history(24), 14).Thrown? { assert steps[4].1.Thrown?; }
  }

  /** Without an error the map holds exactly the ten analysis entries;
      with one, the two SMA entries put before any throw are still there and
      no trading signal is. */
  lemma ComprehensiveKeys(history: nat -> Series, k12: real, k26: real, sqrt: real -> real, now: int)
    ensures var r := ComprehensiveAnalysis(history, k12, k26, sqrt, now);
      ("Error" !in r ==> r.Keys == AnalysisKeys) &&
      ("Error" in r ==> "SMA_20" in r && "SMA_50" in r && "TradingSignal" !in r)
  {
    var steps := AnalysisSteps(history, k12, k26, sqrt, now);
    CollectError(map[], steps);
    if "Error" !in Collect(map[], steps) {
      StepsKeys(steps);
    } else {
      ComprehensiveErrorIff(history, k12, k26, sqrt, now);
      StepsErrorKeys(steps);
    }
  }

  /** Ten steps that all succeed fill exactly the analysis keys. */
  lemma StepsKeys(steps: seq<Step>)
    requires |steps| == 10 && forall i :: 0 <= i < |steps| ==> steps[i].1.Done?
    requires forall i :: 0 <= i < |steps| ==> steps[i].0 in AnalysisKeys
    requires steps[0].0 == "SMA_20" && steps[1].0 == "SMA_50" && steps[2].0 == "EMA_12"
    requires steps[3].0 == "EMA_26" && steps[4].0 == "RSI_14" && steps[5].0 == "MACD"
    requires steps[6].0 == "BollingerBands" && steps[7].0 == "Trend"
    requires steps[8].0 == "TradingSignal" && steps[9].0 == "AnalysisTime"
    ensures Collect(map[], steps).Keys == AnalysisKeys
  {
    StepsKeysWithin(steps);
    StepsKeysCover(steps);
  }

  lemma StepsKeysWithin(steps: seq<Step>)
    requires forall i :: 0 <= i < |steps| ==> steps[i].1.Done?
    requires forall i :: 0 <= i < |steps| ==> steps[i].0 in AnalysisKeys
    ensures Collect(map[], steps).Keys <= AnalysisKeys
  {
    CollectKeys(map[], steps);
  }

  lemma StepsKeysCover(steps: seq<Step>)
    requires |steps| == 10 && forall i :: 0 <= i < |steps| ==> steps[i].1.Done?
    requires forall i :: 0 <= i < |steps| ==> steps[i].0 in AnalysisKeys
    requires steps[0].0 == "SMA_20" && steps[1].0 == "SMA_50" && steps[2].0 == "EMA_12"
    requires steps[3].0 == "EMA_26" && steps[4].0 == "RSI_14" && steps[5].0 == "MACD"
    requires steps[6].0 == "BollingerBands" && steps[7].0 == "Trend"
    requires steps[8].0 == "TradingSignal" && steps[9].0 == "AnalysisTime"
    ensures AnalysisKeys <= Collect(map[], steps).Keys
  {
    CollectKeys(map[], steps);
    var keys := set i | 0 <= i < |steps| :: steps[i].0;
    assert steps[0].0 in keys && steps[1].0 in keys && steps[2].0 in keys && steps[3].0 in keys;
    assert steps[4].0 in keys && steps[5].0 in keys && steps[6].0 in keys && steps[7].0 in keys;
    assert steps[8].0 in keys && steps[9].0 in keys;
  }

  /** Steps that start with the two SMAs, which succeed, and throw at the
      EMA or RSI step keep both SMAs and never reach the trading signal. */
  lemma StepsErrorKeys(steps: seq<Step>)
    requires |steps| == 10 && steps[0].1.Done? && steps[1].1.Done?
    requires steps[0].0 == "SMA_20" && steps[1].0 == "SMA_50" && steps[2].0 == "EMA_12"
    requires steps[3].0 == "EMA_26" && steps[4].0 == "RSI_14"
    requires steps[2].1.Thrown? || steps[3].1.Thrown? || steps[4].1.Thrown?
    ensures var r := Collect(map[], steps);
      "SMA_20" in r && "SMA_50" in r && "TradingSignal" !in r
  {
    var m2 := map["SMA_20" := steps[0].1.value, "SMA_50" := steps[1].1.value];
    assert Collect(map[], steps) == Collect(m2, steps[2..]);
    CollectKeeps(m2, steps[2..], "SMA_20");
    CollectKeeps(m2, steps[2..], "SMA_50");
    var j := if steps[2].1.Thrown? then 0 else if steps[3].1.Thrown? then 1 else 2;
    assert steps[2..][j].1.Thrown?;
    CollectOmits(m2, steps[2..], j, "TradingSignal");
  }

}
