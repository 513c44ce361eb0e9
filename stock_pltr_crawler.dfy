/** The text helpers and the mock comment source of
    stockpltr/crawler/StockPltrCrawler.java: the first number in a text,
    the count before a relative-time unit, keyword sentiment scoring, and
    the five demonstration comments the crawler serves. */
module StockPltrCrawling {
  import opened Wrappers
  import opened Text
  import opened StockPltrModel

  /** Integer.MAX_VALUE: the largest value Integer.parseInt accepts. */
  const IntMax: int := 2147483647

  // ---------------------------------------------------------------------
  // extractNumber: the first match of \d+\.?\d*

  /** The digits at the front of s. */
  function LeadingDigits(s: string): (r: string)
    ensures |r| <= |s| && r == s[..|r|] && AllDigits(r)
    ensures |r| < |s| ==> !IsDigit(s[|r|])
  {
    if s == [] || !IsDigit(s[0]) then [] else [s[0]] + LeadingDigits(s[1..])
  }

  /** The position of the first digit of s, if any. */
  function FirstDigit(s: string): (r: Option<nat>)
    ensures r.Some? ==> r.value < |s| && IsDigit(s[r.value])
    ensures r.Some? ==> forall j :: 0 <= j < r.value ==> !IsDigit(s[j])
    ensures r.None? ==> forall j :: 0 <= j < |s| ==> !IsDigit(s[j])
  {
    if s == [] then None
    else if IsDigit(s[0]) then Some(0)
    else match FirstDigit(s[1..])
      case None => None
      case Some(k) => Some(k + 1)
  }

  /** The greedy match of \d+\.?\d* at the front of s, which starts with a
      digit: all leading digits, then, if a '.' follows, the '.' and the
      digits after it. */
  function NumberAt(s: string): string
    requires s != [] && IsDigit(s[0])
  {
    var whole := LeadingDigits(s);
    var rest := s[|whole|..];
    if rest != [] && rest[0] == '.' then whole + "." + LeadingDigits(rest[1..]) else whole
  }

  /** extractNumber: the first number in the text, or None (null) when the
      text has no digit at all. */
  function ExtractNumber(text: string): (r: Option<string>)
    ensures r.None? <==> forall j :: 0 <= j < |text| ==> !IsDigit(text[j])
  {
    match FirstDigit(text)
    case None => None
    case Some(k) => Some(NumberAt(text[k..]))
  }

  /** The shape of a match: digits, then optionally a '.' and more digits. */
  predicate NumberShape(s: string) {
    exists n :: 0 < n <= |s| && AllDigits(s[..n]) &&
      (n == |s| || (s[n] == '.' && AllDigits(s[n + 1..])))
  }

  /** The extracted number sits right at the first digit of the text, has
      the shape of the pattern, and is the longest such match there: the
      text after it goes on with neither a digit nor, after a plain integer,
      a '.'. */
  lemma ExtractNumberMatch(text: string) returns (k: nat)
    requires ExtractNumber(text).Some?
    ensures k < |text| && IsDigit(text[k]) && forall j :: 0 <= j < k ==> !IsDigit(text[j])
    ensures OccursAt(text, ExtractNumber(text).value, k)
    ensures NumberShape(ExtractNumber(text).value)
    ensures var e := k + |ExtractNumber(text).value|;
      e < |text| ==> !IsDigit(text[e]) && (text[e] == '.' ==> '.' in ExtractNumber(text).value)
  {
    k := FirstDigit(text).value;
    var s := text[k..];
    var whole := LeadingDigits(s);
    var rest := s[|whole|..];
    var r := NumberAt(s);
    assert |whole| > 0 by { assert IsDigit(s[0]); }
    if rest != [] && rest[0] == '.' {
      var frac := LeadingDigits(rest[1..]);
      assert r == whole + "." + frac;
      assert r[..|whole|] == whole && r[|whole|] == '.' && r[|whole| + 1..] == frac;
      assert s[..|r|] == r by {
        assert s[..|whole|] == whole;
        assert s[|whole| + 1..][..|frac|] == frac;
      }
      assert text[k..k + |r|] == s[..|r|];
    } else {
      assert r == whole;
      assert text[k..k + |r|] == s[..|r|];
      assert r[..|whole|] == whole;
    }
  }

  /** Every extracted number is a well-formed decimal literal, so the
      Double.parseDouble the parser applies to it cannot fail. */
  lemma ExtractNumberParses(text: string)
    requires ExtractNumber(text).Some?
    ensures ParseDecimal(ExtractNumber(text).value).Some?
  {
    var k := FirstDigit(text).value;
    var s := text[k..];
    var whole := LeadingDigits(s);
    var rest := s[|whole|..];
    assert |whole| > 0 by { assert IsDigit(s[0]); }
    ScanMantissaDigits(whole, []);
    assert [] + whole == whole;
    if rest != [] && rest[0] == '.' {
      var frac := LeadingDigits(rest[1..]);
      ScanFraction(whole, frac);
      assert ParseLiteral(whole + "." + frac).Some?;
    } else {
      ParseLiteralDigits(whole);
    }
  }

  /** Scanning "digits.digits" yields a literal. */
  lemma ScanFraction(whole: string, frac: string)
    requires whole != [] && AllDigits(whole) && AllDigits(frac)
    ensures ScanMantissa(whole + "." + frac, [], None).Some?
  {
    var tail := "." + frac;
    assert whole + "." + frac == whole + tail;
    ScanWhole(whole + tail, whole, [], tail);
    assert [] + whole == whole;
    ScanPoint(whole, frac);
    ScanFractionDigits(frac, whole, []);
    assert [] + frac == frac;
  }

  /** The '.' opens the fraction. */
  lemma ScanPoint(whole: string, frac: string)
    requires AllDigits(whole)
    ensures ScanMantissa("." + frac, whole, None) == ScanMantissa(frac, whole, Some([]))
  {
    var tail := "." + frac;
    assert tail[0] == '.' && tail[1..] == frac;
  }

  /** The integer digits of a literal pass one by one into its integer part. */
  lemma {:induction false} ScanWhole(s: string, digits: string, acc: string, tail: string)
    requires s == digits + tail && AllDigits(digits) && AllDigits(acc)
    requires tail != [] && tail[0] == '.'
    ensures ScanMantissa(s, acc, None) == ScanMantissa(tail, acc + digits, None)
    decreases |digits|
  {
    if digits != [] {
      assert s[0] == digits[0] && s[1..] == digits[1..] + tail;
      ScanWhole(s[1..], digits[1..], acc + [digits[0]], tail);
      assert acc + [digits[0]] + digits[1..] == acc + digits;
    } else {
      assert s == tail && acc + digits == acc;
    }
  }

  /** The fraction digits after the '.' pass one by one into the fraction. */
  lemma {:induction false} ScanFractionDigits(s: string, intDigits: string, acc: string)
    requires AllDigits(s) && AllDigits(acc) && intDigits != [] && AllDigits(intDigits)
    ensures ScanMantissa(s, intDigits, Some(acc)) == Some(DecimalLiteral(false, intDigits, acc + s, 0))
    decreases |s|
  {
    if s == [] {
      assert acc + s == acc;
    } else {
      ScanFractionDigits(s[1..], intDigits, acc + [s[0]]);
      assert acc + [s[0]] + s[1..] == acc + s;
    }
  }

  /** A text whose first number is a plain integer followed by neither a
      digit nor a '.' gives back exactly that integer's digits. */
  lemma ExtractNumberOfInteger(prefix: string, n: nat, suffix: string)
    requires forall j :: 0 <= j < |prefix| ==> !IsDigit(prefix[j])
    requires suffix != [] ==> !IsDigit(suffix[0]) && suffix[0] != '.'
    ensures ExtractNumber(prefix + NatToString(n) + suffix) == Some(NatToString(n))
  {
    var digits := NatToString(n);
    var text := prefix + digits + suffix;
    assert FirstDigit(text) == Some(|prefix|) by {
      assert IsDigit(text[|prefix|]);
      FirstDigitIs(text, |prefix|);
    }
    var s := text[|prefix|..];
    assert s == digits + suffix;
    LeadingDigitsOf(digits, suffix);
  }

  /** The first digit is where the scan says. */
  lemma FirstDigitIs(s: string, k: nat)
    requires k < |s| && IsDigit(s[k]) && forall j :: 0 <= j < k ==> !IsDigit(s[j])
    ensures FirstDigit(s) == Some(k)
  {
  }

  /** The leading digits of digits + rest, where rest does not start with a
      digit, are exactly those digits. */
  lemma {:induction false} LeadingDigitsOf(digits: string, rest: string)
    requires AllDigits(digits)
    requires rest != [] ==> !IsDigit(rest[0])
    ensures LeadingDigits(digits + rest) == digits
    decreases |digits|
  {
    if digits == [] {
      assert digits + rest == rest;
    } else {
      assert (digits + rest)[1..] == digits[1..] + rest;
      LeadingDigitsOf(digits[1..], rest);
    }
  }

  // ---------------------------------------------------------------------
  // extractMinutes / extractHours / extractDays: (\d+)\s*unit

  const Minutes: string := "分钟"
  const Hours: string := "小时"
  const Days: string := "天"

  /** A unit word can end the pattern only if it starts with a character
      that is neither a digit nor whitespace; all three units do. Under that
      condition a digit run either matches as a whole or not at all. */
  predicate UnitWord(unit: string) {
    unit != [] && !IsDigit(unit[0]) && !IsRegexSpace(unit[0])
  }

  /** s without its leading \s characters. */
  function SkipSpaces(s: string): string {
    if s != [] && IsRegexSpace(s[0]) then SkipSpaces(s[1..]) else s
  }

  /** \s*unit matches at the front of s. */
  predicate UnitFollows(s: string, unit: string) {
    StartsWith(SkipSpaces(s), unit)
  }

  /** The group (\d+) of the first match of (\d+)\s*unit in s: the first
      whole digit run that is followed by optional whitespace and the unit. */
  function FindCount(s: string, unit: string): (r: Option<string>)
    requires UnitWord(unit)
    ensures r.Some? ==> r.value != [] && AllDigits(r.value)
    decreases |s|
  {
    if s == [] then None
    else if IsDigit(s[0]) then
      var run := LeadingDigits(s);
      if UnitFollows(s[|run|..], unit) then Some(run) else FindCount(s[|run|..], unit)
    else FindCount(s[1..], unit)
  }

  /** extractMinutes/Hours/Days: Integer.parseInt of the matched digits, 0
      when nothing matches, and a NumberFormatException (Thrown) when the
      digits exceed Integer.MAX_VALUE. */
  function ExtractCount(text: string, unit: string): (r: Outcome<int>)
    requires UnitWord(unit)
  {
    match FindCount(text, unit)
    case None => Done(0)
    case Some(run) =>
      var v := DigitsValue(run);
      if v > IntMax then Thrown else Done(v)
  }

  function ExtractMinutes(text: string): Outcome<int> { ExtractCount(text, Minutes) }
  function ExtractHours(text: string): Outcome<int> { ExtractCount(text, Hours) }
  function ExtractDays(text: string): Outcome<int> { ExtractCount(text, Days) }

  /** run is a whole digit run of s at position k (no digit right before
      it) followed by optional whitespace and the unit. */
  predicate CountAt(s: string, unit: string, run: string, k: nat) {
    run != [] && AllDigits(run) && OccursAt(s, run, k) &&
    (k == 0 || !IsDigit(s[k - 1])) && UnitFollows(s[k + |run|..], unit)
  }

  /** A match in a suffix of s is a match in s, given that a match at the
      very start of the suffix is not preceded by a digit. */
  lemma CountAtShift(s: string, m: nat, unit: string, run: string, k: nat)
    requires 0 < m <= |s| && CountAt(s[m..], unit, run, k)
    requires k == 0 ==> !IsDigit(s[m - 1])
    ensures CountAt(s, unit, run, k + m)
  {
    var t := s[m..];
    assert s[k + m..k + m + |run|] == t[k..k + |run|];
    assert s[k + m + |run|..] == t[k + |run|..];
    if k > 0 {
      assert s[k + m - 1] == t[k - 1];
    }
  }

  /** A found count is a whole digit run of the text, not preceded by a
      digit, and followed by optional whitespace and the unit. */
  lemma {:induction false} FindCountSound(s: string, unit: string, found: string) returns (k: nat)
    requires UnitWord(unit) && FindCount(s, unit) == Some(found)
    ensures CountAt(s, unit, found, k)
    decreases |s|
  {
    if IsDigit(s[0]) && UnitFollows(s[|LeadingDigits(s)|..], unit) {
      FindCountLeadFollows(s, unit);
      k := 0;
    } else {
      var m := FindCountNext(s, unit);
      var k' := FindCountSound(s[m..], unit, found);
      k := CountAtShiftPast(s, m, unit, found, k');
    }
  }

  /** Every match is found: when the pattern matches somewhere in the text,
      the scan finds a match, and the one it finds starts no later. */
  lemma {:induction false} FindCountComplete(s: string, unit: string, run: string, k: nat)
    returns (j: nat)
    requires UnitWord(unit) && CountAt(s, unit, run, k)
    ensures FindCount(s, unit).Some?
    ensures CountAt(s, unit, FindCount(s, unit).value, j) && j <= k
    decreases |s|
  {
    if k == 0 {
      FindCountAtStart(s, unit, run);
      j := 0;
    } else if IsDigit(s[0]) && UnitFollows(s[|LeadingDigits(s)|..], unit) {
      FindCountLeadFollows(s, unit);
      j := 0;
    } else {
      var m := FindCountSkip(s, unit, run, k);
      CountAtUnshift(s, m, unit, run, k);
      var j' := FindCountComplete(s[m..], unit, run, k - m);
      j := CountAtShiftPast(s, m, unit, FindCount(s, unit).value, j');
    }
  }

  /** A match at the very start is the one the scan returns. */
  lemma FindCountAtStart(s: string, unit: string, run: string)
    requires UnitWord(unit) && CountAt(s, unit, run, 0)
    ensures FindCount(s, unit) == Some(run)
  {
    assert s[..|run|] == run;
    UnitFollowsNotDigit(s[|run|..], unit);
    assert s == run + s[|run|..];
    LeadingDigitsOf(run, s[|run|..]);
  }

  /** When the leading digit run is followed by the unit, the scan returns
      it, and it is a match at position 0. */
  lemma FindCountLeadFollows(s: string, unit: string)
    requires UnitWord(unit) && s != [] && IsDigit(s[0])
    requires UnitFollows(s[|LeadingDigits(s)|..], unit)
    ensures FindCount(s, unit) == Some(LeadingDigits(s))
    ensures CountAt(s, unit, LeadingDigits(s), 0)
  {
    var lead := LeadingDigits(s);
    assert s[0..|lead|] == lead;
  }

  /** When the scan does not stop at the front of s, it goes on from a
      position m that is no later than a match at k, and the character
      before m does not extend a digit run that starts at m. */
  lemma FindCountSkip(s: string, unit: string, run: string, k: nat) returns (m: nat)
    requires UnitWord(unit) && CountAt(s, unit, run, k) && k > 0
    requires !(IsDigit(s[0]) && UnitFollows(s[|LeadingDigits(s)|..], unit))
    ensures 0 < m <= k && FindCount(s, unit) == FindCount(s[m..], unit)
    ensures m < |s| && IsDigit(s[m]) ==> !IsDigit(s[m - 1])
  {
    m := FindCountNext(s, unit);
    if IsDigit(s[0]) {
      LeadingDigitsBefore(s, k - 1);
    }
  }

  /** Where the scan goes on when it does not stop at the front of s: past
      the leading digit run, or past one non-digit. */
  lemma FindCountNext(s: string, unit: string) returns (m: nat)
    requires UnitWord(unit) && s != []
    requires !(IsDigit(s[0]) && UnitFollows(s[|LeadingDigits(s)|..], unit))
    ensures m == if IsDigit(s[0]) then |LeadingDigits(s)| else 1
    ensures 0 < m <= |s| && FindCount(s, unit) == FindCount(s[m..], unit)
    ensures m < |s| && IsDigit(s[m]) ==> !IsDigit(s[m - 1])
  {
    m := if IsDigit(s[0]) then |LeadingDigits(s)| else 1;
  }

  /** CountAtShift for a suffix that starts right after a non-digit or at a
      non-digit. */
  lemma CountAtShiftPast(s: string, m: nat, unit: string, run: string, k: nat) returns (j: nat)
    requires 0 < m <= |s| && CountAt(s[m..], unit, run, k)
    requires m < |s| && IsDigit(s[m]) ==> !IsDigit(s[m - 1])
    ensures j == k + m && CountAt(s, unit, run, j)
  {
    j := k + m;
    if k == 0 {
      assert s[m] == run[0];
    }
    CountAtShift(s, m, unit, run, k);
  }

  /** The leading digits of s end at or before any non-digit of s. */
  lemma LeadingDigitsBefore(s: string, i: nat)
    requires i < |s| && !IsDigit(s[i])
    ensures |LeadingDigits(s)| <= i
  {
    var lead := LeadingDigits(s);
    assert forall j :: 0 <= j < |lead| ==> s[j] == lead[j];
  }

  /** A match in s that starts at or after m is a match in s[m..]. */
  lemma CountAtUnshift(s: string, m: nat, unit: string, run: string, k: nat)
    requires 0 < m <= k && CountAt(s, unit, run, k)
    ensures CountAt(s[m..], unit, run, k - m)
  {
    var t := s[m..];
    assert t[k - m..k - m + |run|] == s[k..k + |run|];
    assert t[k - m + |run|..] == s[k + |run|..];
    if k - m > 0 {
      assert t[k - m - 1] == s[k - 1];
    }
  }

  /** Text that \s*unit matches at the front of starts with a non-digit. */
  lemma UnitFollowsNotDigit(t: string, unit: string)
    requires UnitWord(unit) && UnitFollows(t, unit)
    ensures t != [] && !IsDigit(t[0])
  {
    if t == [] || !IsRegexSpace(t[0]) {
      assert SkipSpaces(t) == t;
      assert t[0] == unit[0];
    }
  }

  /** A text with no digit yields 0. */
  lemma {:induction false} ExtractCountNoDigits(text: string, unit: string)
    requires UnitWord(unit) && forall j :: 0 <= j < |text| ==> !IsDigit(text[j])
    ensures ExtractCount(text, unit) == Done(0)
  {
    NoDigitsNoCount(text, unit);
  }

  lemma {:induction false} NoDigitsNoCount(s: string, unit: string)
    requires UnitWord(unit) && forall j :: 0 <= j < |s| ==> !IsDigit(s[j])
    ensures FindCount(s, unit).None?
    decreases |s|
  {
    if s != [] {
      NoDigitsNoCount(s[1..], unit);
    }
  }

  /** A count written out before whitespace and the unit reads back as
      itself, or throws when it does not fit an int. */
  lemma ExtractCountOfFormatted(n: nat, gap: string, unit: string, tail: string)
    requires UnitWord(unit) && forall j :: 0 <= j < |gap| ==> IsRegexSpace(gap[j])
    ensures ExtractCount(NatToString(n) + gap + unit + tail, unit) ==
      if n <= IntMax then Done(n) else Thrown
  {
    var digits := NatToString(n);
    var after := gap + unit + tail;
    var text := digits + after;
    assert text == NatToString(n) + gap + unit + tail;
    assert after != [] ==> !IsDigit(after[0]) by {
      if gap != [] { assert after[0] == gap[0]; } else { assert after[0] == unit[0]; }
    }
    LeadingDigitsOf(digits, after);
    assert text[|digits|..] == after;
    SkipGap(gap, unit + tail);
    assert gap + (unit + tail) == after;
    assert StartsWith(unit + tail, unit) by { assert (unit + tail)[..|unit|] == unit; }
    assert FindCount(text, unit) == Some(digits);
    DigitsValueOfNatToString(n);
  }

  /** Skipping the whitespace of gap + rest, where rest starts with a
      non-space, leaves rest. */
  lemma {:induction false} SkipGap(gap: string, rest: string)
    requires forall j :: 0 <= j < |gap| ==> IsRegexSpace(gap[j])
    requires rest != [] && !IsRegexSpace(rest[0])
    ensures SkipSpaces(gap + rest) == rest
    decreases |gap|
  {
    if gap == [] {
      assert gap + rest == rest;
    } else {
      assert (gap + rest)[1..] == gap[1..] + rest;
      SkipGap(gap[1..], rest);
    }
  }

  /** The three units are unit words. */
  lemma UnitsAreWords()
    ensures UnitWord(Minutes) && UnitWord(Hours) && UnitWord(Days)
  {
  }

  // ---------------------------------------------------------------------
  // analyzeSentiment

  const PositiveWords: seq<string> := ["涨", "好", "推荐", "买入", "看涨", "bullish", "buy", "good", "up", "rise"]
  const NegativeWords: seq<string> := ["跌", "坏", "卖出", "看跌", "bearish", "sell", "bad", "down", "fall"]

  /** How many of the words occur somewhere in the content. */
  function Hits(content: string, words: seq<string>): nat {
    if words == [] then 0
    else Hits(content, words[..|words| - 1]) + (if Contains(content, words[|words| - 1]) then 1 else 0)
  }

  /** The raw score of lower-cased content: a tenth per positive word
      present, minus a tenth per negative word present. */
  function RawScore(content: string): real {
    (Hits(content, PositiveWords) - Hits(content, NegativeWords)) as real / 10.0
  }

  /** Math.max(-1.0, Math.min(1.0, score)). */
  function ClampScore(score: real): (r: real)
    ensures -1.0 <= r <= 1.0
    ensures -1.0 <= score <= 1.0 ==> r == score
    ensures score > 1.0 ==> r == 1.0
    ensures score < -1.0 ==> r == -1.0
  {
    if score < -1.0 then -1.0 else if score > 1.0 then 1.0 else score
  }

  /** The label of a raw score. */
  function SentimentLabel(score: real): string {
    if score > 0.1 then "positive" else if score < -0.1 then "negative" else "neutral"
  }

  /** The comment analyzeSentiment leaves behind: unchanged without
      content; otherwise the clamped score and the label of the raw score of
      the lower-cased content, and nothing else changed. */
  function Analyzed(c: StockComment): (r: StockComment)
  {
    match c.content
    case None => c
    case Some(text) =>
      var score := RawScore(Lower(text));
      c.(sentimentScore := Some(ClampScore(score)), sentiment := Some(SentimentLabel(score)))
  }

  /** analyzeSentiment: two keyword loops accumulate the score. */
  method AnalyzeSentiment(c: StockComment) returns (r: StockComment)
    ensures r == Analyzed(c)
  {
    if c.content.None? {
      return c;
    }
    var content := Lower(c.content.value);
    var score := 0.0;
    for i := 0 to |PositiveWords|
      invariant score == (Hits(content, PositiveWords[..i]) as real) / 10.0
    {
      assert PositiveWords[..i + 1][..i] == PositiveWords[..i];
      if Contains(content, PositiveWords[i]) {
        score := score + 0.1;
      }
    }
    assert PositiveWords[..|PositiveWords|] == PositiveWords;
    for i := 0 to |NegativeWords|
      invariant score == ((Hits(content, PositiveWords) - Hits(content, NegativeWords[..i])) as real) / 10.0
    {
      assert NegativeWords[..i + 1][..i] == NegativeWords[..i];
      if Contains(content, NegativeWords[i]) {
        score := score - 0.1;
      }
    }
    assert NegativeWords[..|NegativeWords|] == NegativeWords;
    r := c.(sentimentScore := Some(ClampScore(score)), sentiment := Some(SentimentLabel(score)));
  }

  /** The positions of the list whose word occurs in the content. */
  function Present(content: string, words: seq<string>): set<int> {
    set i | 0 <= i < |words| && Contains(content, words[i])
  }

  /** Present grows by the last position exactly when its word occurs. */
  lemma PresentSnoc(content: string, words: seq<string>)
    requires words != []
    ensures var last := |words| - 1;
      Present(content, words) ==
        Present(content, words[..last]) + (if Contains(content, words[last]) then {last} else {})
  {
    var last := |words| - 1;
    var init := words[..last];
    forall x | x in Present(content, words)
      ensures x in Present(content, init) || (x == last && Contains(content, words[last]))
    {
      if x < last {
        assert init[x] == words[x];
      }
    }
    forall x | x in Present(content, init)
      ensures x in Present(content, words)
    {
      assert init[x] == words[x];
    }
  }

  /** Each word counts once at most, however often it occurs: the count is
      the number of distinct positions of the list whose word is present. */
  lemma {:induction false} HitsCountsWordsPresent(content: string, words: seq<string>)
    ensures Hits(content, words) == |Present(content, words)|
    ensures Hits(content, words) <= |words|
  {
    if words != [] {
      var last := |words| - 1;
      HitsCountsWordsPresent(content, words[..last]);
      PresentSnoc(content, words);
      assert last !in Present(content, words[..last]);
    } else {
      assert Present(content, words) == {};
    }
  }

  /** The raw score of any content lies in [-0.9, 1.0], so the clamp to
      [-1.0, 1.0] never changes it. */
  lemma ScoreNeedsNoClamp(content: string)
    ensures -0.9 <= RawScore(content) <= 1.0
    ensures ClampScore(RawScore(content)) == RawScore(content)
  {
    HitsCountsWordsPresent(content, PositiveWords);
    HitsCountsWordsPresent(content, NegativeWords);
  }

  /** In whole counts: the label is positive exactly when at least two more
      positive than negative words are present, negative exactly when at
      least two more negative ones are, and neutral otherwise. */
  lemma LabelByCounts(content: string)
    ensures var p := Hits(content, PositiveWords); var n := Hits(content, NegativeWords);
      (SentimentLabel(RawScore(content)) == "positive" <==> p >= n + 2) &&
      (SentimentLabel(RawScore(content)) == "negative" <==> n >= p + 2) &&
      (SentimentLabel(RawScore(content)) == "neutral" <==> -1 <= p - n <= 1)
  {
  }

  /** Content without any keyword scores 0 and is neutral. */
  lemma {:induction false} NoKeywordNeutral(content: string)
    requires forall i :: 0 <= i < |PositiveWords| ==> !Contains(content, PositiveWords[i])
    requires forall i :: 0 <= i < |NegativeWords| ==> !Contains(content, NegativeWords[i])
    ensures RawScore(content) == 0.0 && SentimentLabel(RawScore(content)) == "neutral"
  {
    HitsCountsWordsPresent(content, PositiveWords);
    HitsCountsWordsPresent(content, NegativeWords);
    assert Present(content, PositiveWords) == {};
    assert Present(content, NegativeWords) == {};
  }

  /** A comment with content always comes out with a score and a label, and
      only those two fields change. */
  lemma AnalyzedSetsSentiment(c: StockComment)
    requires c.content.Some?
    ensures Analyzed(c).sentiment.Some? && Analyzed(c).sentimentScore.Some?
    ensures Analyzed(c).sentiment.value in {"positive", "negative", "neutral"}
    ensures Analyzed(c).(sentiment := c.sentiment, sentimentScore := c.sentimentScore) == c
  {
  }

  // ---------------------------------------------------------------------
  // createMockComments

  const SampleComments: seq<string> := [
    "这只股票看起来很有潜力，值得关注！",
    "最近表现不错，继续持有。",
    "技术面分析显示上涨趋势。",
    "基本面良好，长期看好。",
    "短期可能有波动，但长期趋势向上。",
    "市场情绪比较乐观。",
    "需要关注财报数据。",
    "分析师评级普遍看好。"]

  const UserNames: seq<string> := ["投资者A", "股民小王", "分析师李", "投资达人", "财经观察者", "价值投资者", "技术分析师", "市场研究员"]

  /** How many comments the mock source produces. */
  const MockCount: nat := 5

  const Hour: int := 3600

  /** The i-th mock comment before its sentiment is analysed: id
      "comment_i", the i-th sample user and text, and the random likes,
      replies and hours-ago drawn for it. */
  function MockComment(symbol: string, i: nat, now: int, likes: int, replies: int, hoursAgo: int): StockComment
    requires i < MockCount
  {
    NewStockComment(symbol, "comment_" + NatToString(i), now).(
      userName := Some(UserNames[i]), content := Some(SampleComments[i]),
      likesCount := likes, repliesCount := replies, commentTime := now - hoursAgo * Hour)
  }

  /** The first n analysed mock comments, in order. */
  function MockComments(symbol: string, now: int, likes: nat -> int, replies: nat -> int, hoursAgo: nat -> int, n: nat): (r: seq<StockComment>)
    requires n <= MockCount
    ensures |r| == n
  {
    if n == 0 then []
    else
      MockComments(symbol, now, likes, replies, hoursAgo, n - 1) +
      [Analyzed(MockComment(symbol, n - 1, now, likes(n - 1), replies(n - 1), hoursAgo(n - 1)))]
  }

  /** createMockComments: five analysed comments in order, ids comment_0 to
      comment_4. The random draws (likes below 50, replies below 10, hours
      ago below 24) are parameters. */
  method CreateMockComments(symbol: string, now: int, likes: nat -> int, replies: nat -> int, hoursAgo: nat -> int)
    returns (r: seq<StockComment>)
    ensures r == MockComments(symbol, now, likes, replies, hoursAgo, MockCount)
  {
    r := [];
    for i := 0 to MockCount
      invariant r == MockComments(symbol, now, likes, replies, hoursAgo, i)
    {
      var comment := MockComment(symbol, i, now, likes(i), replies(i), hoursAgo(i));
      comment := AnalyzeSentiment(comment);
      r := r + [comment];
    }
  }

  /** The i-th of the mock comments is the i-th sample analysed. */
  lemma {:induction false} MockCommentsAt(symbol: string, now: int, likes: nat -> int, replies: nat -> int, hoursAgo: nat -> int, n: nat, i: nat)
    requires i < n <= MockCount
    ensures MockComments(symbol, now, likes, replies, hoursAgo, n)[i] ==
      Analyzed(MockComment(symbol, i, now, likes(i), replies(i), hoursAgo(i)))
  {
    if i < n - 1 {
      MockCommentsAt(symbol, now, likes, replies, hoursAgo, n - 1, i);
    }
  }

  /** Every mock comment belongs to the symbol, carries the sample text and
      a sentiment, and the ids comment_0 .. comment_4 are all different. */
  lemma MockCommentsShape(symbol: string, now: int, likes: nat -> int, replies: nat -> int, hoursAgo: nat -> int, i: nat, j: nat)
    requires i < MockCount && j < MockCount
    ensures var c := Analyzed(MockComment(symbol, i, now, likes(i), replies(i), hoursAgo(i)));
      c.stockSymbol == symbol && c.dataSource == StockPltrSource &&
      c.content == Some(SampleComments[i]) && c.sentiment.Some? && c.crawlTime == now
    ensures i != j ==>
      Analyzed(MockComment(symbol, i, now, likes(i), replies(i), hoursAgo(i))).commentId !=
      Analyzed(MockComment(symbol, j, now, likes(j), replies(j), hoursAgo(j))).commentId
  {
    if i != j {
      var a := "comment_" + NatToString(i);
      var b := "comment_" + NatToString(j);
      assert a[8] != b[8];
    }
  }

  /** getStockComments: the comments come from createMockComments, so there
      are always five, one per sample, each with a sentiment. Nothing in that
      path throws once the random draws are given, so the empty list the
      catch returns is never produced here. */
  method GetStockComments(symbol: string, now: int, likes: nat -> int, replies: nat -> int, hoursAgo: nat -> int)
    returns (r: seq<StockComment>)
    ensures |r| == MockCount
    ensures forall i :: 0 <= i < |r| ==>
      r[i].stockSymbol == symbol && r[i].content == Some(SampleComments[i]) && r[i].sentiment.Some?
  {
    r := CreateMockComments(symbol, now, likes, replies, hoursAgo);
    forall i | 0 <= i < |r|
      ensures r[i].stockSymbol == symbol && r[i].content == Some(SampleComments[i]) && r[i].sentiment.Some?
    {
      MockCommentsAt(symbol, now, likes, replies, hoursAgo, MockCount, i);
      MockCommentsShape(symbol, now, likes, replies, hoursAgo, i, i);
    }
  }
}
