/** The java.lang.String and java.math.BigDecimal text operations the
    services rely on, over strings as sequences of UTF-16 chars: trimming,
    ASCII case mapping, substring search, String.split with a literal
    separator, decimal formatting and BigDecimal's string constructor. */
module Text {
  import opened Wrappers
  import opened Decimal

  // ---------------------------------------------------------------------
  // Character classes

  predicate IsDigit(c: char) { '0' <= c <= '9' }

  function DigitValue(c: char): (d: nat)
    requires IsDigit(c)
    ensures d < 10
  {
    (c as int) - ('0' as int)
  }

  function DigitChar(d: nat): (c: char)
    requires d < 10
    ensures IsDigit(c) && DigitValue(c) == d
  {
    (('0' as int) + d) as char
  }

  /** The characters String.trim() strips: every char up to U+0020. */
  predicate IsTrimmed(c: char) { c <= ' ' }

  /** The characters of the regular-expression class \s. */
  predicate IsRegexSpace(c: char) {
    c == ' ' || c == '\t' || c == '\n' || c == '\U{000B}' || c == '\U{000C}' || c == '\r'
  }

  predicate AllDigits(s: string) {
    forall i :: 0 <= i < |s| ==> IsDigit(s[i])
  }

  // ---------------------------------------------------------------------
  // Case mapping (ASCII letters; other characters are unchanged)

  function UpperChar(c: char): char {
    if 'a' <= c <= 'z' then ((c as int) - 32) as char else c
  }

  function LowerChar(c: char): char {
    if 'A' <= c <= 'Z' then ((c as int) + 32) as char else c
  }

  /** String.toUpperCase() on ASCII letters. */
  function Upper(s: string): (r: string)
    ensures |r| == |s|
    ensures forall i :: 0 <= i < |s| ==> r[i] == UpperChar(s[i])
  {
    if s == [] then [] else [UpperChar(s[0])] + Upper(s[1..])
  }

  /** String.toLowerCase() on ASCII letters. */
  function Lower(s: string): (r: string)
    ensures |r| == |s|
    ensures forall i :: 0 <= i < |s| ==> r[i] == LowerChar(s[i])
  {
    if s == [] then [] else [LowerChar(s[0])] + Lower(s[1..])
  }

  /** Upper-casing twice is upper-casing once. */
  lemma UpperIdempotent(s: string)
    ensures Upper(Upper(s)) == Upper(s)
  {
  }

  /** Upper-casing leaves a string with no lower-case letters alone. */
  lemma UpperOfUpperCase(s: string)
    requires forall i :: 0 <= i < |s| ==> !('a' <= s[i] <= 'z')
    ensures Upper(s) == s
  {
  }

  /** Two strings with the same upper-case form differ only in letter case. */
  lemma UpperConcat(a: string, b: string)
    ensures Upper(a + b) == Upper(a) + Upper(b)
  {
  }

  // ---------------------------------------------------------------------
  // Trimming

  /** The string without its leading chars <= U+0020. */
  function TrimStart(s: string): (r: string)
    ensures |r| <= |s| && r == s[|s| - |r|..]
    ensures r != [] ==> !IsTrimmed(r[0])
    ensures forall i :: 0 <= i < |s| - |r| ==> IsTrimmed(s[i])
  {
    if s != [] && IsTrimmed(s[0]) then
      var r := TrimStart(s[1..]);
      assert s[1..][|s| - 1 - |r|..] == s[|s| - |r|..];
      assert forall i :: 1 <= i < |s| ==> s[1..][i - 1] == s[i];
      r
    else s
  }

  /** The string without its trailing chars <= U+0020. */
  function TrimEnd(s: string): (r: string)
    ensures |r| <= |s| && r == s[..|r|]
    ensures r != [] ==> !IsTrimmed(r[|r| - 1])
    ensures forall i :: |r| <= i < |s| ==> IsTrimmed(s[i])
  {
    if s != [] && IsTrimmed(s[|s| - 1]) then
      var r := TrimEnd(s[..|s| - 1]);
      assert s[..|s| - 1][..|r|] == s[..|r|];
      r
    else s
  }

  /** String.trim(): strip leading and trailing chars <= U+0020. */
  function Trim(s: string): (r: string)
    ensures |r| <= |s|
    ensures r != [] ==> !IsTrimmed(r[0]) && !IsTrimmed(r[|r| - 1])
    ensures r == [] <==> forall i :: 0 <= i < |s| ==> IsTrimmed(s[i])
  {
    var t := TrimStart(s);
    var r := TrimEnd(t);
    assert r != [] ==> r[0] == t[0];
    r
  }

  /** A string that starts and ends with visible characters is its own trim. */
  lemma TrimVisible(s: string)
    requires s != [] && !IsTrimmed(s[0]) && !IsTrimmed(s[|s| - 1])
    ensures Trim(s) == s
  {
  }

  // ---------------------------------------------------------------------
  // Prefixes, suffixes and substring search

  predicate StartsWith(s: string, prefix: string) {
    |prefix| <= |s| && s[..|prefix|] == prefix
  }

  predicate EndsWith(s: string, suffix: string) {
    |suffix| <= |s| && s[|s| - |suffix|..] == suffix
  }

  /** `w` occurs in `s` at position i. */
  predicate OccursAt(s: string, w: string, i: nat) {
    i + |w| <= |s| && s[i..i + |w|] == w
  }

  /** The first position at or after `from` where `w` occurs in `s`. */
  function IndexOfFrom(s: string, w: string, from: nat): (r: Option<nat>)
    decreases |s| - from
    ensures r.Some? ==> from <= r.value && OccursAt(s, w, r.value)
    ensures r.Some? ==> forall j :: from <= j < r.value ==> !OccursAt(s, w, j)
    ensures r.None? ==> forall j :: from <= j ==> !OccursAt(s, w, j)
  {
    if from + |w| > |s| then None
    else if s[from..from + |w|] == w then Some(from)
    else IndexOfFrom(s, w, from + 1)
  }

  /** String.indexOf(w): the first occurrence of `w` in `s`, if any. */
  function IndexOf(s: string, w: string): (r: Option<nat>)
    ensures r.Some? ==> OccursAt(s, w, r.value) && forall j :: 0 <= j < r.value ==> !OccursAt(s, w, j)
    ensures r.None? ==> forall j :: 0 <= j ==> !OccursAt(s, w, j)
  {
    IndexOfFrom(s, w, 0)
  }

  /** String.contains(w). */
  predicate Contains(s: string, w: string) {
    IndexOf(s, w).Some?
  }

  // ---------------------------------------------------------------------
  // String.split with a literal, non-empty separator

  /** The pieces between the non-overlapping, leftmost occurrences of `sep`. */
  function SplitAll(s: string, sep: string): (parts: seq<string>)
    requires sep != []
    ensures |parts| >= 1
    decreases |s|
  {
    match IndexOf(s, sep)
    case None => [s]
    case Some(i) => [s[..i]] + SplitAll(s[i + |sep|..], sep)
  }

  /** The pieces joined back together with `sep` between them. */
  function Join(parts: seq<string>, sep: string): string {
    if parts == [] then []
    else if |parts| == 1 then parts[0]
    else parts[0] + sep + Join(parts[1..], sep)
  }

  lemma JoinCons(head: string, tail: seq<string>, sep: string)
    requires tail != []
    ensures Join([head] + tail, sep) == head + sep + Join(tail, sep)
  {
    assert ([head] + tail)[1..] == tail;
  }

  /** String.replace(c, "") for a one-character target: every c removed. */
  function RemoveChar(s: string, c: char): (r: string)
    ensures |r| <= |s|
    ensures forall i :: 0 <= i < |r| ==> r[i] != c
  {
    if s == [] then []
    else (if s[0] == c then [] else [s[0]]) + RemoveChar(s[1..], c)
  }

  /** Removal drops every c and keeps every other character as often as
      the string had it. */
  lemma {:induction false} RemoveCharCounts(s: string, c: char)
    ensures multiset(RemoveChar(s, c))[c] == 0
    ensures forall d :: d != c ==> multiset(RemoveChar(s, c))[d] == multiset(s)[d]
  {
    if s != [] {
      RemoveCharCounts(s[1..], c);
      assert s == [s[0]] + s[1..];
    }
  }

  /** Removing a character the string lacks changes nothing. */
  lemma {:induction false} RemoveAbsentChar(s: string, c: char)
    requires forall i :: 0 <= i < |s| ==> s[i] != c
    ensures RemoveChar(s, c) == s
  {
    if s != [] {
      RemoveAbsentChar(s[1..], c);
    }
  }

  /** Removal works piece by piece over a concatenation. */
  lemma {:induction false} RemoveCharConcat(a: string, b: string, c: char)
    ensures RemoveChar(a + b, c) == RemoveChar(a, c) + RemoveChar(b, c)
  {
    if a != [] {
      assert (a + b)[1..] == a[1..] + b;
      RemoveCharConcat(a[1..], b, c);
    } else {
      assert a + b == b;
    }
  }

  /** A string is the text before an occurrence, the occurrence and the text after it. */
  lemma OccursDecompose(s: string, w: string, i: nat)
    requires OccursAt(s, w, i)
    ensures s == s[..i] + w + s[i + |w|..]
  {
    assert s == s[..i] + s[i..i + |w|] + s[i + |w|..];
  }

  /** One step of SplitAll at the first occurrence of the separator. */
  lemma SplitAllFound(s: string, sep: string, i: nat)
    requires sep != [] && IndexOf(s, sep) == Some(i)
    ensures i + |sep| <= |s|
    ensures SplitAll(s, sep) == [s[..i]] + SplitAll(s[i + |sep|..], sep)
  {
  }

  /** Splitting and joining again gives back the original string. */
  lemma {:induction false} JoinSplitAll(s: string, sep: string)
    requires sep != []
    ensures Join(SplitAll(s, sep), sep) == s
    decreases |s|
  {
    var found := IndexOf(s, sep);
    if found.Some? {
      var i := found.value;
      SplitAllFound(s, sep, i);
      OccursDecompose(s, sep, i);
      var rest := s[i + |sep|..];
      JoinSplitAll(rest, sep);
      JoinCons(s[..i], SplitAll(rest, sep), sep);
    }
  }

  /** A string that lacks the first character of `w` does not contain `w`. */
  lemma NotContains(s: string, w: string)
    requires w != [] && forall i :: 0 <= i < |s| ==> s[i] != w[0]
    ensures IndexOf(s, w).None?
  {
    forall j: nat | j + |w| <= |s|
      ensures !OccursAt(s, w, j)
    {
      assert s[j..j + |w|][0] == s[j];
    }
  }

  /** In a + w + b, where a lacks the first character of w, the first
      occurrence of w is right after a. */
  lemma IndexOfAfter(a: string, w: string, b: string)
    requires w != [] && forall i :: 0 <= i < |a| ==> a[i] != w[0]
    ensures IndexOf(a + w + b, w) == Some(|a|)
  {
    var s := a + w + b;
    assert s[|a|..|a| + |w|] == w;
    assert OccursAt(s, w, |a|);
    forall j: nat | j < |a|
      ensures !OccursAt(s, w, j)
    {
      assert s[j] == a[j];
      if j + |w| <= |s| {
        assert s[j..j + |w|][0] == s[j];
      }
    }
  }

  /** Splitting a + sep + b, where neither part has the separator's first
      character and b is not empty, gives back the two parts. */
  lemma SplitTwo(a: string, sep: string, b: string)
    requires sep != [] && b != []
    requires forall i :: 0 <= i < |a| ==> a[i] != sep[0]
    requires forall i :: 0 <= i < |b| ==> b[i] != sep[0]
    ensures Split(a + sep + b, sep) == [a, b]
  {
    var s := a + sep + b;
    IndexOfAfter(a, sep, b);
    NotContains(b, sep);
    assert s[..|a|] == a && s[|a| + |sep|..] == b;
    assert SplitAll(s, sep) == [a] + SplitAll(b, sep);
  }

  /** Splitting a string without the separator's first character gives the
      string alone. */
  lemma SplitNone(s: string, sep: string)
    requires sep != [] && forall i :: 0 <= i < |s| ==> s[i] != sep[0]
    ensures Split(s, sep) == [s]
  {
    NotContains(s, sep);
  }

  /** The list without its trailing empty strings. */
  function DropTrailingEmpty(parts: seq<string>): (r: seq<string>)
    ensures |r| <= |parts| && r == parts[..|r|]
    ensures r != [] ==> r[|r| - 1] != []
    ensures forall j :: |r| <= j < |parts| ==> parts[j] == []
  {
    if parts == [] then []
    else if parts[|parts| - 1] == [] then DropTrailingEmpty(parts[..|parts| - 1])
    else parts
  }

  /** s.split(sep) for a separator with no regular-expression meta
      characters: the input itself when `sep` does not occur, otherwise the
      pieces between occurrences with trailing empty pieces removed. */
  function Split(s: string, sep: string): (parts: seq<string>)
    requires sep != []
    ensures !Contains(s, sep) ==> parts == [s]
  {
    if !Contains(s, sep) then [s] else DropTrailingEmpty(SplitAll(s, sep))
  }

  // ---------------------------------------------------------------------
  // Decimal formatting and parsing

  /** The decimal digits of n, without leading zeros. */
  function NatToString(n: nat): (s: string)
    ensures s != [] && AllDigits(s)
    ensures |s| > 1 ==> s[0] != '0'
  {
    if n < 10 then [DigitChar(n)] else NatToString(n / 10) + [DigitChar(n % 10)]
  }

  /** String.valueOf(int) / %d: a minus sign before the digits of a negative value. */
  function IntToString(i: int): (s: string)
    ensures s != []
  {
    if i < 0 then "-" + NatToString(-i) else NatToString(i)
  }

  /** The value of a string of decimal digits, most significant first. */
  function DigitsValue(s: string): nat
    requires AllDigits(s)
  {
    if s == [] then 0 else 10 * DigitsValue(s[..|s| - 1]) + DigitValue(s[|s| - 1])
  }

  /** Reading the formatted digits of n gives n back. */
  lemma {:induction false} DigitsValueOfNatToString(n: nat)
    ensures DigitsValue(NatToString(n)) == n
  {
    if n >= 10 {
      DigitsValueOfNatToString(n / 10);
      var s := NatToString(n);
      assert s[..|s| - 1] == NatToString(n / 10);
    }
  }

  /** Prepending a zero digit does not change a digit string's value. */
  lemma {:induction false} DigitsValueLeadingZero(s: string)
    requires AllDigits(s)
    ensures AllDigits("0" + s) && DigitsValue("0" + s) == DigitsValue(s)
    decreases |s|
  {
    if s != [] {
      var t := "0" + s;
      assert t[..|t| - 1] == "0" + s[..|s| - 1];
      DigitsValueLeadingZero(s[..|s| - 1]);
    }
  }

  /** The parts of a BigDecimal literal: sign, integer digits, fraction
      digits and a signed decimal exponent. */
  datatype DecimalLiteral = DecimalLiteral(negative: bool, intDigits: string, fracDigits: string, exponent: int)

  /** The value a literal denotes. */
  function LiteralValue(d: DecimalLiteral): real
    requires AllDigits(d.intDigits) && AllDigits(d.fracDigits)
  {
    var scaled := WithExponent(Magnitude(d.intDigits, d.fracDigits), d.exponent);
    if d.negative then -scaled else scaled
  }

  /** The value of `intDigits.fracDigits`: the fraction digits moved
      |fracDigits| places to the right. */
  function Magnitude(intDigits: string, fracDigits: string): (r: real)
    requires AllDigits(intDigits) && AllDigits(fracDigits)
    ensures fracDigits == [] ==> r == DigitsValue(intDigits) as real
  {
    DigitsValue(intDigits) as real + Unshift(DigitsValue(fracDigits) as real, |fracDigits|)
  }

  /** m times ten to the power e. */
  function WithExponent(m: real, e: int): (r: real)
    ensures e == 0 ==> r == m
  {
    if e >= 0 then Shift(m, e) else Unshift(m, -e)
  }

  /** The optional exponent part `(e|E)[+-]?digits` that ends a literal. */
  function ParseExponent(s: string): (r: Option<int>)
  {
    if s == [] then Some(0)
    else if s[0] != 'e' && s[0] != 'E' then None
    else
      var t := s[1..];
      var neg := t != [] && t[0] == '-';
      var digits := if t != [] && (t[0] == '-' || t[0] == '+') then t[1..] else t;
      if digits == [] || !AllDigits(digits) then None
      else
        var v: int := DigitsValue(digits);
        Some(if neg then -v else v)
  }

  /** The unsigned part of a BigDecimal literal, read one character at a
      time: digits go to the integer part until a decimal point, then to the
      fraction; whatever follows must be an exponent (or nothing). At least
      one digit is needed in all. */
  function ScanMantissa(s: string, intDigits: string, fracDigits: Option<string>): (r: Option<DecimalLiteral>)
    requires AllDigits(intDigits) && (fracDigits.Some? ==> AllDigits(fracDigits.value))
    ensures r.Some? ==> AllDigits(r.value.intDigits) && AllDigits(r.value.fracDigits)
    ensures r.Some? ==> |r.value.intDigits| + |r.value.fracDigits| > 0
    decreases |s|
  {
    if s != [] && IsDigit(s[0]) then
      if fracDigits.None? then ScanMantissa(s[1..], intDigits + [s[0]], None)
      else ScanMantissa(s[1..], intDigits, Some(fracDigits.value + [s[0]]))
    else if s != [] && s[0] == '.' && fracDigits.None? then ScanMantissa(s[1..], intDigits, Some([]))
    else
      var frac := fracDigits.GetOr([]);
      if |intDigits| + |frac| == 0 then None
      else
        match ParseExponent(s)
        case None => None
        case Some(e) => Some(DecimalLiteral(false, intDigits, frac, e))
  }

  /** new BigDecimal(s): an optional sign, digits with an optional decimal
      point (at least one digit in all), and an optional exponent; None
      where the constructor throws NumberFormatException. */
  function ParseLiteral(s: string): (r: Option<DecimalLiteral>)
    ensures r.Some? ==> AllDigits(r.value.intDigits) && AllDigits(r.value.fracDigits)
    ensures r.Some? ==> |r.value.intDigits| + |r.value.fracDigits| > 0
  {
    var negative := s != [] && s[0] == '-';
    var body := if s != [] && (s[0] == '-' || s[0] == '+') then s[1..] else s;
    match ScanMantissa(body, [], None)
    case None => None
    case Some(d) => Some(d.(negative := negative))
  }

  /** The value of new BigDecimal(s), or None where it throws. */
  function ParseDecimal(s: string): (r: Option<real>)
    ensures r.Some? <==> ParseLiteral(s).Some?
  {
    match ParseLiteral(s)
    case None => None
    case Some(d) => Some(LiteralValue(d))
  }

  /** Scanning more digits before any decimal point only extends the
      integer part. */
  lemma {:induction false} ScanMantissaDigits(s: string, intDigits: string)
    requires AllDigits(s) && AllDigits(intDigits) && |intDigits| + |s| > 0
    ensures ScanMantissa(s, intDigits, None) == Some(DecimalLiteral(false, intDigits + s, [], 0))
    decreases |s|
  {
    if s == [] {
      assert intDigits + s == intDigits;
    } else {
      ScanMantissaDigits(s[1..], intDigits + [s[0]]);
      assert intDigits + [s[0]] + s[1..] == intDigits + s;
    }
  }

  /** A plain digit string is a literal with no sign, fraction or exponent. */
  lemma ParseLiteralDigits(s: string)
    requires s != [] && AllDigits(s)
    ensures ParseLiteral(s) == Some(DecimalLiteral(false, s, [], 0))
  {
    ScanMantissaDigits(s, []);
    assert [] + s == s;
  }

  /** A plain digit string parses to its value. */
  lemma ParseDecimalDigits(s: string)
    requires s != [] && AllDigits(s)
    ensures ParseDecimal(s) == Some(DigitsValue(s) as real)
  {
    ParseLiteralDigits(s);
  }


  /** Formatting a natural number and reading it back as a BigDecimal gives it back. */
  lemma ParseDecimalNatToString(n: nat)
    ensures ParseDecimal(NatToString(n)) == Some(n as real)
  {
    ParseDecimalDigits(NatToString(n));
    DigitsValueOfNatToString(n);
  }
}
