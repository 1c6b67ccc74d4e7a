/**
 * Display formatters: shortened hashes, block numbers with thousands
 * separators, a time difference split into h/m/s/ms, the block-time label,
 * the early answers of the ETH formatter and the flashblock view record.
 */
module Formatters {
  import opened Common
  import opened Numerals

  // ---------------------------------------------------------------- hashes

  /**
   * `formatHashTruncated`: `N/A` for an empty hash, otherwise its first six
   * characters, `...`, and its last four (`substring` clamps both ends, so a
   * short hash appears whole on both sides).
   */
  function FormatHashTruncated(hash: string): (r: string)
    ensures hash == "" ==> r == "N/A"
    ensures hash != "" ==>
      && |r| == Min(|hash|, 6) + 3 + Min(|hash|, 4)
      && r[..Min(|hash|, 6)] == hash[..Min(|hash|, 6)]
      && r[Min(|hash|, 6)..Min(|hash|, 6) + 3] == "..."
      && r[|r| - Min(|hash|, 4)..] == hash[|hash| - Min(|hash|, 4)..]
  {
    if hash == "" then "N/A"
    else
      var head := Take(hash, 6);
      var tail := TakeLast(hash, 4);
      assert head == hash[..Min(|hash|, 6)];
      assert tail == hash[|hash| - Min(|hash|, 4)..];
      var r := head + "..." + tail;
      assert r[..|head|] == head && r[|head|..|head| + 3] == "..." && r[|r| - |tail|..] == tail;
      r
  }

  /** A hash of ten or more characters shows as exactly thirteen. */
  lemma TruncatedLength(hash: string)
    requires |hash| >= 10
    ensures |FormatHashTruncated(hash)| == 13
  {
  }

  // ---------------------------------------------------------- block numbers

  /** `\w` of a JavaScript regular expression. */
  predicate IsWordChar(c: char) {
    IsDigit(c) || 'a' <= c <= 'z' || 'A' <= c <= 'Z' || c == '_'
  }

  /** The length of the run of decimal digits that starts at position `p`. */
  function DigitRun(s: string, p: nat): (k: nat)
    requires p <= |s|
    ensures p + k <= |s|
    ensures forall i :: p <= i < p + k ==> IsDigit(s[i])
    ensures p + k < |s| ==> !IsDigit(s[p + k])
    decreases |s| - p
  {
    if p < |s| && IsDigit(s[p]) then 1 + DigitRun(s, p + 1) else 0
  }

  /**
   * Whether `\B(?=(\d{3})+(?!\d))` matches at position `p`: no word boundary
   * there, and the digits that follow come in whole groups of three.
   */
  predicate CommaAt(s: string, p: nat)
    requires p <= |s|
  {
    var boundary := (p > 0 && IsWordChar(s[p - 1])) != (p < |s| && IsWordChar(s[p]));
    !boundary && DigitRun(s, p) > 0 && DigitRun(s, p) % 3 == 0
  }

  /** Character `k` of the output, with the comma the global replace puts before it. */
  function Piece(s: string, k: nat): string
    requires k < |s|
  {
    (if CommaAt(s, k) then "," else "") + [s[k]]
  }

  /** The output for positions `0..j` of `s`. */
  function GroupedUpTo(s: string, j: nat): string
    requires j <= |s|
    decreases j
  {
    if j == 0 then "" else GroupedUpTo(s, j - 1) + Piece(s, j - 1)
  }

  /** `s.replace(/\B(?=(\d{3})+(?!\d))/g, ',')`. The end of `s` never matches: it is followed by no digit. */
  function Grouped(s: string): string {
    GroupedUpTo(s, |s|)
  }

  /**
   * The reference grouping of a digit string: groups of three from the
   * right, the leftmost group holding one to three digits.
   */
  function Group3(s: string): (r: string)
    decreases |s|
  {
    if |s| <= 3 then s else Group3(s[..|s| - 3]) + "," + s[|s| - 3..]
  }

  /** `s` with every comma removed. */
  function Uncomma(s: string): string
    decreases |s|
  {
    if s == [] then "" else Uncomma(s[..|s| - 1]) + (if s[|s| - 1] == ',' then "" else [s[|s| - 1]])
  }

  /** In a digit string the digits after position `p` run to the end. */
  lemma {:induction false} DigitRunToEnd(s: string, p: nat)
    requires AllDigits(s) && p <= |s|
    ensures DigitRun(s, p) == |s| - p
    decreases |s| - p
  {
    if p < |s| {
      assert InBase(s[p], 10);
      DigitRunToEnd(s, p + 1);
    }
  }

  /** In a digit string a comma goes before position `p` exactly when `p > 0` and a multiple of three digits follow. */
  lemma CommaAtDigits(s: string, p: nat)
    requires AllDigits(s) && p < |s|
    ensures CommaAt(s, p) <==> 0 < p && (|s| - p) % 3 == 0
  {
    DigitRunToEnd(s, p);
    assert InBase(s[p], 10);
    if p > 0 {
      assert InBase(s[p - 1], 10);
    }
  }

  /** Two strings whose first `m` pieces agree give the same output up to `m`. */
  lemma {:induction false} GroupedUpToAgree(s: string, t: string, m: nat)
    requires m <= |s| && m <= |t|
    requires forall k :: 0 <= k < m ==> Piece(s, k) == Piece(t, k)
    ensures GroupedUpTo(s, m) == GroupedUpTo(t, m)
    decreases m
  {
    if m > 0 {
      GroupedUpToAgree(s, t, m - 1);
    }
  }

  /** For a digit string the three last pieces are `,` and the last three digits when more digits precede them. */
  lemma LastGroup(s: string)
    requires AllDigits(s) && |s| > 3
    ensures GroupedUpTo(s, |s|) == GroupedUpTo(s, |s| - 3) + "," + s[|s| - 3..]
  {
    var n := |s|;
    LastThreePieces(s, n);
    LastPieces(s);
    JoinGroup(GroupedUpTo(s, n - 3), Piece(s, n - 3), Piece(s, n - 2), Piece(s, n - 1), s[n - 3..]);
  }

  lemma LastPieces(s: string)
    requires AllDigits(s) && |s| > 3
    ensures Piece(s, |s| - 3) + Piece(s, |s| - 2) + Piece(s, |s| - 1) == "," + s[|s| - 3..]
  {
    var n := |s|;
    DigitPiece(s, n - 3);
    DigitPiece(s, n - 2);
    DigitPiece(s, n - 1);
    assert s[n - 3..] == [s[n - 3], s[n - 2], s[n - 1]];
  }

  lemma JoinGroup(g: string, a: string, b: string, c: string, t: string)
    requires a + b + c == "," + t
    ensures g + a + b + c == g + "," + t
  {
    calc {
      g + a + b + c;
      g + (a + b + c);
      g + ("," + t);
      g + "," + t;
    }
  }

  lemma LastThreePieces(s: string, n: nat)
    requires 3 <= n <= |s|
    ensures GroupedUpTo(s, n) == GroupedUpTo(s, n - 3) + Piece(s, n - 3) + Piece(s, n - 2) + Piece(s, n - 1)
  {
    assert GroupedUpTo(s, n - 1) == GroupedUpTo(s, n - 2) + Piece(s, n - 2);
    assert GroupedUpTo(s, n - 2) == GroupedUpTo(s, n - 3) + Piece(s, n - 3);
  }

  /** Dropping the last group of three digits does not move the commas before it. */
  lemma PrefixPiece(s: string, k: nat)
    requires AllDigits(s) && k + 3 < |s|
    ensures AllDigits(s[..|s| - 3]) && Piece(s, k) == Piece(s[..|s| - 3], k)
  {
    var t := s[..|s| - 3];
    DigitPiece(s, k);
    DigitPiece(t, k);
  }

  /** The piece of a digit string at `k`: its digit, after a comma when `k > 0` and a multiple of three digits follow. */
  lemma DigitPiece(s: string, k: nat)
    requires AllDigits(s) && k < |s|
    ensures Piece(s, k) == if 0 < k && (|s| - k) % 3 == 0 then [',', s[k]] else [s[k]]
  {
    CommaAtDigits(s, k);
  }

  /** A short digit string gets no comma. */
  lemma {:induction false} ShortUngrouped(s: string, j: nat)
    requires AllDigits(s) && j <= |s| <= 3
    ensures GroupedUpTo(s, j) == s[..j]
    decreases j
  {
    if j > 0 {
      ShortUngrouped(s, j - 1);
      CommaAtDigits(s, j - 1);
      assert s[..j] == s[..j - 1] + [s[j - 1]];
    }
  }

  /** The regular-expression replace groups a digit string exactly as the reference does. */
  lemma {:induction false} GroupedIsGroup3(s: string)
    requires AllDigits(s)
    ensures Grouped(s) == Group3(s)
    decreases |s|
  {
    if |s| <= 3 {
      ShortUngrouped(s, |s|);
    } else {
      var n := |s|;
      var t := s[..n - 3];
      LastGroup(s);
      forall k | 0 <= k < n - 3 ensures Piece(s, k) == Piece(t, k) {
        PrefixPiece(s, k);
      }
      GroupedUpToAgree(s, t, n - 3);
      GroupedIsGroup3(t);
    }
  }

  lemma {:induction false} UncommaAppend(a: string, b: string)
    ensures Uncomma(a + b) == Uncomma(a) + Uncomma(b)
    decreases |b|
  {
    if b != [] {
      var b' := b[..|b| - 1];
      assert (a + b)[..|a + b| - 1] == a + b';
      UncommaAppend(a, b');
      assert Uncomma(b) == Uncomma(b') + (if b[|b| - 1] == ',' then "" else [b[|b| - 1]]);
    } else {
      assert a + b == a;
    }
  }

  lemma {:induction false} UncommaOfDigits(s: string)
    requires AllDigits(s)
    ensures Uncomma(s) == s
    decreases |s|
  {
    if s != [] {
      assert InBase(s[|s| - 1], 10);
      UncommaOfDigits(s[..|s| - 1]);
      assert s == s[..|s| - 1] + [s[|s| - 1]];
    }
  }

  /** The grouping of a digit string reads back as the digits once the commas are dropped. */
  lemma {:induction false} Group3Uncomma(s: string)
    requires AllDigits(s)
    ensures Uncomma(Group3(s)) == s
    decreases |s|
  {
    if |s| <= 3 {
      UncommaOfDigits(s);
    } else {
      var t, u := s[..|s| - 3], s[|s| - 3..];
      Group3Uncomma(t);
      assert AllDigits(u) by {
        forall i | 0 <= i < 3 ensures InBase(u[i], 10) {
          assert u[i] == s[|s| - 3 + i];
        }
      }
      UncommaOfDigits(u);
      var g := Group3(t);
      UncommaAppend(g + ",", u);
      UncommaAppend(g, ",");
      assert Uncomma(",") == "";
      assert t + u == s;
    }
  }

  /** Grouping keeps the digits and adds commas alone: the first character is the first digit. */
  lemma {:induction false} Group3Head(s: string)
    requires s != []
    ensures |Group3(s)| >= |s| && Group3(s)[0] == s[0]
    decreases |s|
  {
    if |s| > 3 {
      Group3Head(s[..|s| - 3]);
    }
  }

  /**
   * In the grouping of a digit string every comma is followed by a whole
   * number of comma-and-three-digit groups, less the comma: `4k + 3` characters.
   */
  lemma {:induction false} Group3Commas(s: string)
    requires AllDigits(s)
    ensures forall i :: 0 <= i < |Group3(s)| && Group3(s)[i] == ',' ==> (|Group3(s)| - 1 - i) % 4 == 3
    decreases |s|
  {
    var r := Group3(s);
    if |s| <= 3 {
      forall i | 0 <= i < |s| ensures s[i] != ',' {
        assert InBase(s[i], 10);
      }
    } else {
      var t, u := s[..|s| - 3], s[|s| - 3..];
      Group3Commas(t);
      var g := Group3(t);
      assert r == g + "," + u;
      forall i | |g| < i < |r| ensures r[i] != ',' {
        assert r[i] == u[i - |g| - 1] == s[|s| - 3 + (i - |g| - 1)];
        assert InBase(s[|s| - 3 + (i - |g| - 1)], 10);
      }
      forall i | 0 <= i < |r| && r[i] == ',' ensures (|r| - 1 - i) % 4 == 3 {
        if i < |g| {
          assert r[i] == g[i];
          assert |r| - 1 - i == (|g| - 1 - i) + 4;
        }
      }
    }
  }

  /** A block number as the formatter receives it: a string, or a `bigint`/integral `number`. */
  datatype BlockNumberInput = TextBlockNumber(text: string) | IntegerBlockNumber(value: int)

  /** `formatBlockNumber`; `None` when `BigInt` throws on a malformed `0x` string. */
  function FormatBlockNumber(b: BlockNumberInput): (r: Option<string>)
    ensures b.IntegerBlockNumber? ==> r == Some(Grouped(IntToString(b.value)))
    ensures b.TextBlockNumber? && !HexPrefixed(b.text) ==> r == Some(Grouped(b.text))
    ensures b.TextBlockNumber? && HexPrefixed(b.text) ==> (r.None? <==> BigIntOfString(b.text).None?)
  {
    var str := BlockNumberString(b);
    if HexPrefixed(str) then
      var v := BigIntOfString(str);
      if v.None? then None else Some(Grouped(IntToString(v.value)))
    else Some(Grouped(str))
  }

  /** `String(blockNumber)` for the non-string inputs. */
  function BlockNumberString(b: BlockNumberInput): string {
    if b.TextBlockNumber? then b.text else IntToString(b.value)
  }

  /** `s.startsWith('0x')` */
  predicate HexPrefixed(s: string) {
    |s| >= 2 && s[0] == '0' && s[1] == 'x'
  }

  /** The decimal text of a negative number never starts with `0x`. */
  lemma NumeralNotHexPrefixed(n: int)
    ensures !HexPrefixed(IntToString(n))
  {
    if n >= 0 {
      assert IntToString(n) == ToDecimal(n);
    }
  }

  /**
   * A `0x` block number is shown in decimal, grouped by threes: the commas
   * dropped, it reads back as the value of the hex digits.
   */
  lemma FormatHexBlockNumber(h: string)
    requires h != [] && AllHex(h)
    ensures FormatBlockNumber(TextBlockNumber("0x" + h)) == Some(Group3(ToDecimal(HexValue(h))))
    ensures Uncomma(Group3(ToDecimal(HexValue(h)))) == ToDecimal(HexValue(h))
  {
    var s := "0x" + h;
    assert HexPrefixed(s);
    BigIntOfHexLiteral(h);
    assert IntToString(HexValue(h)) == ToDecimal(HexValue(h));
    GroupedIsGroup3(ToDecimal(HexValue(h)));
    Group3Uncomma(ToDecimal(HexValue(h)));
  }

  /** An integer block number is shown as its decimal digits grouped by threes. */
  lemma FormatIntegerBlockNumber(n: nat)
    ensures FormatBlockNumber(IntegerBlockNumber(n)) == Some(Group3(ToDecimal(n)))
    ensures Uncomma(Group3(ToDecimal(n))) == ToDecimal(n)
  {
    NumeralNotHexPrefixed(n);
    assert IntToString(n) == ToDecimal(n);
    GroupedIsGroup3(ToDecimal(n));
    Group3Uncomma(ToDecimal(n));
  }

  // ------------------------------------------------------------ time spans

  /** JavaScript's `a % b` for a positive `b`: the remainder takes the sign of `a`. */
  function JsRem(a: int, b: int): (r: int)
    requires b > 0
    ensures a >= 0 ==> r == a % b
    ensures a < 0 ==> -b < r <= 0 && r == -((-a) % b)
  {
    if a >= 0 then a % b else -((-a) % b)
  }

  datatype TimeParts = TimeParts(hours: int, minutes: int, seconds: int, millis: int)

  /** The four parts `formatDetailedTimeDiff` computes, from the difference passed in. */
  function PartsOf(diff: int): (p: TimeParts)
    ensures diff >= 0 ==>
      && p.hours * 3600000 + p.minutes * 60000 + p.seconds * 1000 + p.millis == diff
      && 0 <= p.hours && 0 <= p.minutes < 60 && 0 <= p.seconds < 60 && 0 <= p.millis < 1000
    ensures diff < 0 ==> p.hours < 0 && p.minutes <= 0 && p.seconds <= 0 && -1000 < p.millis <= 0
  {
    var hours := diff / 3600000;
    var minutes := JsRem(diff, 3600000) / 60000;
    var seconds := JsRem(diff, 60000) / 1000;
    var millis := JsRem(diff, 1000);
    TimePartsFacts(diff);
    TimeParts(hours, minutes, seconds, millis)
  }

  lemma TimePartsFacts(diff: int)
    ensures diff >= 0 ==>
      (diff / 3600000) * 3600000 + (JsRem(diff, 3600000) / 60000) * 60000
        + (JsRem(diff, 60000) / 1000) * 1000 + JsRem(diff, 1000) == diff
    ensures diff >= 0 ==> 0 <= JsRem(diff, 3600000) / 60000 < 60 && 0 <= JsRem(diff, 60000) / 1000 < 60
    ensures diff < 0 ==> diff / 3600000 < 0 && JsRem(diff, 3600000) / 60000 <= 0 && JsRem(diff, 60000) / 1000 <= 0
  {
    if diff >= 0 {
      NonNegativeParts(diff);
    }
  }

  /** The nested remainders of a non-negative difference agree with the plain ones. */
  lemma NonNegativeParts(diff: int)
    requires diff >= 0
    ensures (diff / 3600000) * 3600000 + ((diff % 3600000) / 60000) * 60000
        + ((diff % 60000) / 1000) * 1000 + diff % 1000 == diff
    ensures 0 <= (diff % 3600000) / 60000 < 60 && 0 <= (diff % 60000) / 1000 < 60
  {
    var h := diff / 3600000;
    var r := diff % 3600000;
    var m := r / 60000;
    var r2 := r % 60000;
    var sec := r2 / 1000;
    var ms := r2 % 1000;
    ModUnique(diff, 60000, h * 60 + m, r2);
    ModUnique(diff, 1000, (h * 60 + m) * 60 + sec, ms);
  }

  /** Division with a remainder in range determines quotient and remainder. */
  lemma ModUnique(x: int, d: int, q: int, r: int)
    requires d > 0 && 0 <= r < d && x == d * q + r
    ensures x % d == r && x / d == q
  {
    var k := q - x / d;
    assert d * k == x % d - r;
    if k >= 1 {
      MulAtLeast(d, k);
    } else if k <= -1 {
      MulAtLeast(d, -k);
    }
  }

  /** `${n}<unit> ` when `n > 0`, else nothing. */
  function PartText(n: int, unit: string): string {
    if n > 0 then IntToString(n) + unit + " " else ""
  }

  /** `formatDetailedTimeDiff` with the difference `now - timestamp` as parameter, before `trim()`. */
  function UntrimmedTimeDiff(diff: int): string {
    var p := PartsOf(diff);
    PartText(p.hours, "h") + PartText(p.minutes, "m") + PartText(p.seconds, "s") + IntToString(p.millis) + "ms"
  }

  function FormatDetailedTimeDiff(diff: int): string {
    TrimEnd(TrimStart(UntrimmedTimeDiff(diff)))
  }

  /**
   * The final `trim()` removes nothing: zero (or negative) hour, minute and
   * second parts are left out, and the millisecond part always closes the text.
   */
  lemma TimeDiffShape(diff: int)
    ensures var p := PartsOf(diff);
      FormatDetailedTimeDiff(diff)
        == PartText(p.hours, "h") + PartText(p.minutes, "m") + PartText(p.seconds, "s") + IntToString(p.millis) + "ms"
    ensures diff < 0 ==> FormatDetailedTimeDiff(diff) == IntToString(JsRem(diff, 1000)) + "ms"
  {
    TimeTextTight(diff);
    TrimOfTight(UntrimmedTimeDiff(diff));
    if diff < 0 {
      NegativeDiffText(diff);
    }
  }

  /** A negative difference has no positive hour, minute or second part. */
  lemma NegativeDiffText(diff: int)
    requires diff < 0
    ensures UntrimmedTimeDiff(diff) == IntToString(JsRem(diff, 1000)) + "ms"
  {
    var p := PartsOf(diff);
    assert PartText(p.hours, "h") == "" && PartText(p.minutes, "m") == "" && PartText(p.seconds, "s") == "";
  }

  /** A numeral starts with a digit or a minus sign, never with white space. */
  lemma NumeralStart(n: int)
    ensures !IsJsWhitespace(IntToString(n)[0])
  {
    var t := IntToString(n);
    assert t[0] == '-' || InBase(t[0], 10);
  }

  /** The untrimmed text starts with a numeral and ends with `ms`. */
  lemma TimeTextTight(diff: int)
    ensures var s := UntrimmedTimeDiff(diff);
      s != [] && !IsJsWhitespace(s[0]) && s[|s| - 1] == 's'
  {
    var p := PartsOf(diff);
    var a, b, c := PartText(p.hours, "h"), PartText(p.minutes, "m"), PartText(p.seconds, "s");
    var tail := IntToString(p.millis) + "ms";
    var s := UntrimmedTimeDiff(diff);
    assert s == a + b + c + tail;
    if a != "" {
      NumeralStart(p.hours);
      assert s[0] == a[0];
    } else if b != "" {
      NumeralStart(p.minutes);
      assert s[0] == b[0];
    } else if c != "" {
      NumeralStart(p.seconds);
      assert s[0] == c[0];
    } else {
      NumeralStart(p.millis);
      assert s[0] == tail[0];
    }
  }

  /** For a non-negative difference the parts add back up to it. */
  lemma TimeDiffDecomposes(diff: int)
    requires diff >= 0
    ensures var p := PartsOf(diff);
      && p.hours * 3600000 + p.minutes * 60000 + p.seconds * 1000 + p.millis == diff
      && p.minutes < 60 && p.seconds < 60 && 0 <= p.millis < 1000
  {
  }

  // ------------------------------------------------------------ block time

  /** `formatBlockTime`: the waiting text for `null`, otherwise the labelled millisecond count. */
  function FormatBlockTime(ms: Option<int>): (r: string)
    ensures ms.None? ==> r == "Waiting for blocks..."
    ensures ms.Some? ==> |r| > 20 && r[..18] == "Flash Block time: " && r[|r| - 2..] == "ms"
    ensures ms.Some? && ms.value >= 0 ==> AllDigits(r[18..|r| - 2]) && DecimalValue(r[18..|r| - 2]) == ms.value
  {
    match ms
    case None => "Waiting for blocks..."
    case Some(n) =>
      var r := "Flash Block time: " + IntToString(n) + "ms";
      assert r[18..|r| - 2] == IntToString(n);
      r
  }

  // ------------------------------------------------------------- ETH values

  /**
   * The answers `formatEthValue` gives without floating point: `0 ETH` for an
   * empty string, for `0x0`, and for a string `BigInt` rejects. `None` marks
   * the remaining case, the division by 1e18 and `toFixed(6)`.
   */
  function EthValueShortcut(value: string): (r: Option<string>)
    ensures value == "" || value == "0x0" ==> r == Some("0 ETH")
    ensures BigIntOfString(value).None? ==> r == Some("0 ETH")
    ensures r.None? <==> value != "" && value != "0x0" && BigIntOfString(value).Some?
  {
    if value == "" || value == "0x0" then Some("0 ETH")
    else if BigIntOfString(value).None? then Some("0 ETH")
    else None
  }

  // ------------------------------------------------------- flashblock view

  /**
   * `formatGasUsed` up to locale formatting: `N/A` for an empty string,
   * otherwise the `BigInt` of the text. A malformed `0x` string makes `BigInt`
   * throw outside any `try` (`Err`); any other malformed string gives `N/A`.
   */
  datatype GasText = NotAvailable | Localized(amount: int)

  function GasUsedText(gas: string): (r: Result<GasText, string>)
    ensures gas == "" ==> r == Ok(NotAvailable)
    ensures r.Err? <==> gas != "" && |gas| >= 2 && gas[..2] == "0x" && BigIntOfString(gas).None?
    ensures r.Ok? && r.value.Localized? ==> BigIntOfString(gas) == Some(r.value.amount)
    ensures gas != "" && BigIntOfString(gas).Some? ==> r.Ok? && r.value.Localized?
    ensures r == Ok(NotAvailable) <==> gas == "" || (BigIntOfString(gas).None? && !(|gas| >= 2 && gas[..2] == "0x"))
  {
    if gas == "" then Ok(NotAvailable)
    else
      match BigIntOfString(gas)
      case Some(v) => Ok(Localized(v))
      case None => if |gas| >= 2 && gas[..2] == "0x" then Err("SyntaxError") else Ok(NotAvailable)
  }

  datatype FlashblockView = FlashblockView(
    payloadId: string,
    index: int,
    blockNumber: string,
    blockHash: string,
    gasUsed: GasText,
    timestamp: Option<string>,
    transactionCount: int)

  /**
   * `processFlashblocksData`. The timestamp is kept raw when truthy (its
   * locale formatting is not modelled) and `null` otherwise. `None` when a
   * formatter throws.
   */
  function ProcessFlashblocksData(
    payloadId: string, index: int, blockNumber: BlockNumberInput, blockHash: string,
    gasUsed: string, timestamp: Option<string>, transactionCount: Option<int>): (r: Option<FlashblockView>)
    ensures r.None? <==> FormatBlockNumber(blockNumber).None? || GasUsedText(gasUsed).Err?
    ensures r.Some? ==>
      && r.value.payloadId == payloadId
      && r.value.index == index
      && Some(r.value.blockNumber) == FormatBlockNumber(blockNumber)
      && r.value.blockHash == FormatHashTruncated(blockHash)
      && (r.value.transactionCount == if NonZero(transactionCount) then transactionCount.value else 0)
      && (r.value.timestamp.Some? <==> Present(timestamp))
      && (Present(timestamp) ==> r.value.timestamp == timestamp)
      && Ok(r.value.gasUsed) == GasUsedText(gasUsed)
  {
    match (FormatBlockNumber(blockNumber), GasUsedText(gasUsed))
    case (Some(number), Ok(gas)) =>
      Some(FlashblockView(
        payloadId, index, number, FormatHashTruncated(blockHash), gas,
        if Present(timestamp) then timestamp else None,
        if NonZero(transactionCount) then transactionCount.value else 0))
    case _ => None
  }
}
