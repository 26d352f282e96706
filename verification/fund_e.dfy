/**
 * The parser for the fund e-account screen: find each "holding / net value / assets"
 * label triple followed by three numbers, then walk upwards from it to rebuild the
 * fund's name and code from the lines above.
 */
module FundE {
  import opened Strings
  import opened Numbers
  import opened Models

  const HoldingLabel: string := "持有份额"
  const NavLabel: string := "参考净值"
  const AssetLabel: string := "资产情况"
  const FilterMark: string := "筛选"
  const DateMark: string := "数据日期"

  /** One of the three column labels. */
  predicate IsLabel(t: string) {
    t == HoldingLabel || t == NavLabel || t == AssetLabel
  }

  predicate IsNumericChar(c: char) {
    IsDigit(c) || c == ',' || c == '.'
  }

  /** `re.match(r'^[\d,\.]+$', t)`: one or more digits, commas and points, nothing else. */
  predicate IsNumeric(t: string) {
    t != [] && forall k | 0 <= k < |t| :: IsNumericChar(t[k])
  }

  /** A numeric token has no whitespace at either end. */
  lemma NumericStripped(t: string)
    requires IsNumeric(t)
    ensures IsStripped(t) && Strip(t) == t
  {
    StripStripped(t);
  }

  /** Every line stripped: the parser tests and reads each line only through its
      `strip()`, so the scan is stated over this view. */
  function StrippedLines(lines: seq<string>): (t: seq<string>)
    ensures |t| == |lines|
  {
    if lines == [] then [] else [Strip(lines[0])] + StrippedLines(lines[1..])
  }

  lemma {:induction false} StrippedAt(lines: seq<string>, k: nat)
    requires k < |lines|
    ensures StrippedLines(lines)[k] == Strip(lines[k])
  {
    if k > 0 {
      StrippedAt(lines[1..], k - 1);
    }
  }

  // ---------------------------------------------------------------------------
  // Where the scan starts

  /** Right after the first line containing 筛选, or 0 when no line does. */
  function StartIndex(lines: seq<string>): (r: nat)
    ensures r <= |lines|
    ensures r > 0 ==> Contains(lines[r - 1], FilterMark) &&
                      forall k | 0 <= k < r - 1 :: !Contains(lines[k], FilterMark)
    ensures r == 0 ==> forall k | 0 <= k < |lines| :: !Contains(lines[k], FilterMark)
  {
    match FirstContaining(lines, FilterMark)
    case None => 0
    case Some(idx) => idx + 1
  }

  method FindStart(lines: seq<string>) returns (start: nat)
    ensures start == StartIndex(lines)
  {
    start := 0;
    for idx := 0 to |lines|
      invariant forall k | 0 <= k < idx :: !Contains(lines[k], FilterMark)
    {
      if Contains(lines[idx], FilterMark) {
        start := idx + 1;
        return;
      }
    }
  }

  // ---------------------------------------------------------------------------
  // The anchor and its three numbers

  /** Stripped lines `i..i+2` are exactly the three labels in order. */
  predicate AnchorAt(t: seq<string>, i: nat) {
    i + 2 < |t| && t[i] == HoldingLabel && t[i + 1] == NavLabel && t[i + 2] == AssetLabel
  }

  /** Stripped lines `i+3..i+5` exist and are numeric. */
  predicate NumbersFollow(t: seq<string>, i: nat) {
    i + 5 < |t| && IsNumeric(t[i + 3]) && IsNumeric(t[i + 4]) && IsNumeric(t[i + 5])
  }

  /** `float(token.replace(',', ''))` of a stripped line; `None` where `float` raises
      `ValueError`. */
  function Amount(token: string): Option<Decimal> {
    ParseFloat(RemoveChar(token, ','))
  }

  /** On a numeric token, the conversion succeeds exactly when the token without its commas
      is an unsigned literal (digits with at most one point), and its value is never
      negative: a token such as "1.2.3" passes the numeric test and still fails here. */
  lemma NumericAmount(t: string)
    requires IsNumeric(t)
    ensures Amount(t).Some? <==> IsUnsignedLiteral(RemoveChar(t, ','))
    ensures Amount(t).Some? ==> Amount(t).value.mantissa >= 0
  {
    NumericStripped(t);
    var u := RemoveChar(t, ',');
    RemoveCharMembers(t, ',');
    assert forall x | x in u :: IsNumericChar(x) && x != ',';
    if u != [] {
      assert u[0] in u;
      assert u[|u| - 1] in u;
    }
    StripStripped(u);
    ParseFloatSyntax(u);
  }

  /** Thousands separators are dropped before the conversion: "1,234.5" reads as 1234.5. */
  lemma AmountWithCommas()
    ensures Amount("1,234.5") == Some(Decimal(12345, 1))
  {
    DropThousandsSeparator();
    ReadTwelveThreeFortyFive();
  }

  lemma DropThousandsSeparator()
    ensures RemoveChar("1,234.5", ',') == "1234.5"
  {
    var a, b := "1", "234.5";
    assert ',' !in a && ',' !in b;
    assert a + [','] + b == "1,234.5";
    RemoveOneSeparator(a, b, ',');
    assert a + b == "1234.5";
  }

  /** Removing the one separator between two separator-free parts joins them. */
  lemma {:induction false} RemoveOneSeparator(a: string, b: string, c: char)
    requires c !in a && c !in b
    ensures RemoveChar(a + [c] + b, c) == a + b
  {
    if a == [] {
      assert ([c] + b)[1..] == b;
      RemoveAbsentChar(b, c);
    } else {
      assert (a + [c] + b)[1..] == a[1..] + [c] + b;
      RemoveOneSeparator(a[1..], b, c);
    }
  }

  lemma ReadTwelveThreeFortyFive()
    ensures ParseFloat("1234.5") == Some(Decimal(12345, 1))
  {
    TwelveThreeFortyFiveDigits();
    ParseFloatPoint("1234.5", "1234", "5");
  }

  lemma TwelveThreeFortyFiveDigits()
    ensures AllDigits("1234") && AllDigits("5") && AllDigits("12345")
    ensures "1234" + "5" == "12345" && DigitsValue("12345") == 12345
  {
    AllDigitsAt("1234");
    AllDigitsAt("5");
    AllDigitsAt("12345");
    assert "12345"[..4] == "1234" && "1234"[..3] == "123" && "123"[..2] == "12" && "12"[..1] == "1";
  }

  /** "1.2.3" is not a literal `float` accepts: no single point splits it into digits. */
  lemma TwoPointsNotLiteral()
    ensures !IsUnsignedLiteral("1.2.3")
  {
    var s := "1.2.3";
    assert !IsDigits(s) by {
      AllDigitsAt(s);
      assert !IsDigit(s[1]);
    }
    forall p | 0 <= p < |s| && s[p] == '.'
      ensures !(AllDigits(s[..p]) && AllDigits(s[p + 1..]))
    {
      if p == 1 {
        AllDigitsAt(s[p + 1..]);
        assert s[p + 1..][1] == '.';
      } else {
        assert p == 3;
        AllDigitsAt(s[..p]);
        assert s[..p][1] == '.';
      }
    }
  }

  /** "1.2.3" passes the numeric test but `float` rejects it, so the anchor above it
      yields no record and the scan moves on by one line. */
  lemma NumericButUnreadable()
    ensures IsNumeric("1.2.3") && Amount("1.2.3").None?
  {
    NumericAmount("1.2.3");
    RemoveAbsentChar("1.2.3", ',');
    TwoPointsNotLiteral();
  }

  /** A numeric-looking line that `float` rejects stops the record at that anchor. */
  lemma UnreadableNumberSkips(t: seq<string>, i: nat)
    requires AnchorAt(t, i) && NumbersFollow(t, i)
    requires Amount(t[i + 3]).None? || Amount(t[i + 4]).None? || Amount(t[i + 5]).None?
    ensures FundAt(t, i).None?
  {
  }

  // ---------------------------------------------------------------------------
  // Walking upwards from the anchor

  /** Moves `j` up past blank lines. */
  function SkipBlank(t: seq<string>, j: int): (r: int)
    requires -1 <= j < |t|
    ensures -1 <= r <= j
    ensures forall m | r < m <= j :: t[m] == []
    ensures r >= 0 ==> t[r] != []
    decreases j + 1
  {
    if j >= 0 && t[j] == [] then SkipBlank(t, j - 1) else j
  }

  /** `for k in range(k, stop, -1)`: the first line, going up from `k` and staying above
      `stop`, whose stripped text is 资产情况. */
  function MarkerFrom(t: seq<string>, k: int, stop: int): (r: Option<nat>)
    requires k < |t| && stop >= 0
    ensures r.Some? ==> stop < r.value <= k && t[r.value] == AssetLabel
    ensures r.Some? ==> forall m | r.value < m <= k :: t[m] != AssetLabel
    ensures r.None? ==> forall m | stop < m <= k :: t[m] != AssetLabel
    decreases k - stop
  {
    if k <= stop then None
    else if t[k] == AssetLabel then Some(k)
    else MarkerFrom(t, k - 1, stop)
  }

  /** The line the name collection starts from, for an anchor at `i`: past the blank lines
      above the anchor and, when the line reached is the previous fund's last number,
      past that fund's 资产情况 label (looked for on at most four lines) or else three
      lines further up. */
  function NameEnd(t: seq<string>, i: nat): (r: int)
    requires i <= |t|
    ensures r < i
  {
    var j := SkipBlank(t, i - 1);
    if j >= 0 && IsNumeric(t[j]) then
      match MarkerFrom(t, j - 1, if j - 5 > 0 then j - 5 else 0)
      case Some(k) => k - 1
      case None => j - 3
    else j
  }

  /** The backward scan: blank lines are skipped; a non-numeric line is where the name
      ends; after a numeric line the start moves at most five lines up, to just above the
      nearest 资产情况 among the four lines above it, or exactly three lines up. */
  lemma NameEndBounds(t: seq<string>, i: nat)
    requires i <= |t|
    ensures var j, r := SkipBlank(t, i - 1), NameEnd(t, i);
      && (forall m | j < m < i :: t[m] == [])
      && (j >= 0 && IsNumeric(t[j]) ==>
            && j - 5 <= r <= j - 2
            && ((0 <= r + 1 && t[r + 1] == AssetLabel &&
                 forall m | r + 1 < m < j :: t[m] != AssetLabel) ||
                (r == j - 3 && forall m | 0 < m < j && j - 5 < m :: t[m] != AssetLabel)))
      && (!(j >= 0 && IsNumeric(t[j])) ==> r == j)
  {
  }

  method SkipBlanks(lines: seq<string>, j0: int) returns (j: int)
    requires -1 <= j0 < |lines|
    ensures j == SkipBlank(StrippedLines(lines), j0)
  {
    ghost var t := StrippedLines(lines);
    j := j0;
    while j >= 0 && Strip(lines[j]) == []
      invariant -1 <= j <= j0
      invariant SkipBlank(t, j) == SkipBlank(t, j0)
      decreases j + 1
    {
      StrippedAt(lines, j);
      j := j - 1;
    }
    if j >= 0 {
      StrippedAt(lines, j);
    }
  }

  method FindNameEnd(lines: seq<string>, i: nat) returns (j: int)
    requires i <= |lines|
    ensures j == NameEnd(StrippedLines(lines), i)
  {
    ghost var t := StrippedLines(lines);
    j := SkipBlanks(lines, i - 1);
    if j >= 0 {
      StrippedAt(lines, j);
    }
    if j >= 0 && IsNumeric(Strip(lines[j])) {
      var top := j;
      var marker := FindMarker(lines, top - 1, if top - 5 > 0 then top - 5 else 0);
      assert marker == MarkerFrom(t, top - 1, if top - 5 > 0 then top - 5 else 0);
      if marker.Some? {
        j := marker.value - 1;
      } else {
        j := j - 3;
      }
    } else {
      assert !(j >= 0 && IsNumeric(t[j]));
    }
  }

  /** The `for` loop looking for 资产情况 from line `from` up to just above `stop`. */
  method FindMarker(lines: seq<string>, from: int, stop: nat) returns (marker: Option<nat>)
    requires from < |lines|
    ensures marker == MarkerFrom(StrippedLines(lines), from, stop)
  {
    ghost var t := StrippedLines(lines);
    var k := from;
    while k > stop
      invariant k <= from
      invariant MarkerFrom(t, k, stop) == MarkerFrom(t, from, stop)
      decreases k
    {
      StrippedAt(lines, k);
      if Strip(lines[k]) == AssetLabel {
        return Some(k);
      }
      k := k - 1;
    }
    marker := None;
  }

  /** What the upward walk has gathered: the name fragments, top line first, and the
      code ("" until one is found). */
  datatype NameScan = NameScan(parts: seq<string>, code: string)

  /** The name collection stops at a numeric line or a label. */
  predicate EndsName(line: string) {
    IsNumeric(line) || IsLabel(line)
  }

  /** One stripped line taken into the name: the first line with a code gives the code
      and, when not blank, the text before it; every other non-blank line is a fragment. */
  function Absorb(line: string, acc: NameScan): NameScan {
    var m := FindCode(line);
    if m.Some? && acc.code == [] then
      var prefix := Strip(line[..m.value]);
      NameScan((if prefix != [] then [prefix] else []) + acc.parts, line[m.value + 1..m.value + 7])
    else if line != [] then NameScan([line] + acc.parts, acc.code)
    else acc
  }

  /** The name collection from line `j` upwards, continuing from `acc`. */
  function Gather(t: seq<string>, j: int, acc: NameScan): NameScan
    requires j < |t|
    decreases j + 1
  {
    if j < 0 || EndsName(t[j]) then acc
    else Gather(t, j - 1, Absorb(t[j], acc))
  }

  /** Fragments gathered so far stay at the end, after everything found higher up, and the
      code found does not depend on them: the fragments come out top line first. */
  lemma {:induction false} GatherKeepsOrder(t: seq<string>, j: int, parts: seq<string>, code: string)
    requires j < |t|
    ensures var g := Gather(t, j, NameScan([], code));
      Gather(t, j, NameScan(parts, code)) == NameScan(g.parts + parts, g.code)
    decreases j + 1
  {
    if j >= 0 && !EndsName(t[j]) {
      var line := t[j];
      var a := Absorb(line, NameScan(parts, code));
      var b := Absorb(line, NameScan([], code));
      assert a == NameScan(b.parts + parts, b.code);
      GatherKeepsOrder(t, j - 1, a.parts, a.code);
      GatherKeepsOrder(t, j - 1, b.parts, b.code);
    }
  }

  /** Once a code is held it is kept; without one, the result is "" or six digits (which
      line they come from is GatherCodeFirst). No fragment is empty. */
  lemma {:induction false} GatherCode(t: seq<string>, j: int, acc: NameScan)
    requires j < |t|
    requires forall k | 0 <= k < |acc.parts| :: acc.parts[k] != []
    ensures var g := Gather(t, j, acc);
      && (acc.code != [] ==> g.code == acc.code)
      && (acc.code == [] ==> g.code == [] || (|g.code| == 6 && IsDigits(g.code)))
      && forall k | 0 <= k < |g.parts| :: g.parts[k] != []
    decreases j + 1
  {
    if j >= 0 && !EndsName(t[j]) {
      GatherCode(t, j - 1, Absorb(t[j], acc));
    }
  }

  /** Where the upward walk from `j` stops: the nearest line at or above `j` that ends the
      name, or a negative index when none does. The walk reads lines `e+1..j`. */
  function ScanStop(t: seq<string>, j: int): (e: int)
    requires j < |t|
    ensures e <= j && (j < 0 ==> e == j) && (j >= 0 ==> e >= -1)
    ensures e >= 0 ==> EndsName(t[e])
    ensures forall k | e < k <= j :: !EndsName(t[k])
    decreases j + 1
  {
    if j < 0 || EndsName(t[j]) then j else ScanStop(t, j - 1)
  }

  /** A code once held is never replaced. */
  lemma {:induction false} GatherHoldsCode(t: seq<string>, j: int, acc: NameScan)
    requires j < |t| && acc.code != []
    ensures Gather(t, j, acc).code == acc.code
    decreases j + 1
  {
    if j >= 0 && !EndsName(t[j]) {
      GatherHoldsCode(t, j - 1, Absorb(t[j], acc));
    }
  }

  /** Without a code held, one line taken in gives the six digits of its first code, if any. */
  lemma AbsorbCode(line: string, acc: NameScan)
    requires acc.code == []
    ensures FindCode(line).None? ==> Absorb(line, acc).code == []
    ensures FindCode(line).Some? ==>
      var m := FindCode(line).value;
      Absorb(line, acc).code == line[m + 1..m + 7] && |Absorb(line, acc).code| == 6
  {
  }

  /** The code the upward walk from line `j` picks up when it starts without one. */
  function CodeScan(t: seq<string>, j: int): string
    requires j < |t|
    decreases j + 1
  {
    if j < 0 || EndsName(t[j]) then []
    else if FindCode(t[j]).Some? then t[j][FindCode(t[j]).value + 1..FindCode(t[j]).value + 7]
    else CodeScan(t, j - 1)
  }

  /** Without a code held, the walk's code is the one `CodeScan` picks up. */
  lemma {:induction false} GatherCodeScan(t: seq<string>, j: int, acc: NameScan)
    requires j < |t| && acc.code == []
    ensures Gather(t, j, acc).code == CodeScan(t, j)
    decreases j + 1
  {
    if j >= 0 && !EndsName(t[j]) {
      var next := Absorb(t[j], acc);
      AbsorbCode(t[j], acc);
      if FindCode(t[j]).Some? {
        GatherHoldsCode(t, j - 1, next);
      } else {
        GatherCodeScan(t, j - 1, next);
      }
    }
  }

  /** The scan finds nothing exactly when no line it reads carries a code. */
  lemma {:induction false} CodeScanAbsent(t: seq<string>, j: int)
    requires j < |t|
    ensures CodeScan(t, j) == [] <==> forall k | ScanStop(t, j) < k <= j :: FindCode(t[k]).None?
    decreases j + 1
  {
    if j >= 0 && !EndsName(t[j]) {
      assert ScanStop(t, j) == ScanStop(t, j - 1) < j;
      if FindCode(t[j]).None? {
        CodeScanAbsent(t, j - 1);
      } else {
        assert |CodeScan(t, j)| == 6;
      }
    }
  }

  /** A code the scan finds is the six digits of the lowest line it reads that has one. */
  lemma {:induction false} CodeScanLowest(t: seq<string>, j: int)
    requires j < |t| && CodeScan(t, j) != []
    ensures exists k | ScanStop(t, j) < k <= j ::
      && FindCode(t[k]).Some?
      && (forall k' | k < k' <= j :: FindCode(t[k']).None?)
      && CodeScan(t, j) == t[k][FindCode(t[k]).value + 1..FindCode(t[k]).value + 7]
    decreases j + 1
  {
    assert j >= 0 && !EndsName(t[j]);
    assert ScanStop(t, j) == ScanStop(t, j - 1) < j;
    if FindCode(t[j]).None? {
      CodeScanLowest(t, j - 1);
      var k :| ScanStop(t, j - 1) < k <= j - 1
        && FindCode(t[k]).Some?
        && (forall k' | k < k' <= j - 1 :: FindCode(t[k']).None?)
        && CodeScan(t, j - 1) == t[k][FindCode(t[k]).value + 1..FindCode(t[k]).value + 7];
      assert forall k' | k < k' <= j :: FindCode(t[k']).None?;
    }
  }

  /** Starting without a code, the walk ends with "" exactly when no line it reads carries
      a parenthesised six-digit code; otherwise its code is the six digits of the first
      such line met going up, the lowest one. */
  lemma GatherCodeFirst(t: seq<string>, j: int, acc: NameScan)
    requires j < |t| && acc.code == []
    ensures var g, e := Gather(t, j, acc), ScanStop(t, j);
      && (g.code == [] <==> forall k | e < k <= j :: FindCode(t[k]).None?)
      && (g.code != [] ==> exists k | e < k <= j ::
            && FindCode(t[k]).Some?
            && (forall k' | k < k' <= j :: FindCode(t[k']).None?)
            && g.code == t[k][FindCode(t[k]).value + 1..FindCode(t[k]).value + 7])
  {
    GatherCodeScan(t, j, acc);
    CodeScanAbsent(t, j);
    if CodeScan(t, j) != [] {
      CodeScanLowest(t, j);
    }
  }

  method CollectName(lines: seq<string>, j0: int) returns (scan: NameScan)
    requires j0 < |lines|
    ensures scan == Gather(StrippedLines(lines), j0, NameScan([], []))
  {
    ghost var t := StrippedLines(lines);
    var j := j0;
    var parts: seq<string> := [];
    var code: string := [];
    while j >= 0
      invariant j <= j0
      invariant Gather(t, j, NameScan(parts, code)) == Gather(t, j0, NameScan([], []))
      decreases j + 1
    {
      StrippedAt(lines, j);
      var line := Strip(lines[j]);
      if IsNumeric(line) || IsLabel(line) {
        break;
      }
      ghost var next := Absorb(line, NameScan(parts, code));
      var m := FindCode(line);
      if m.Some? && code == [] {
        code := line[m.value + 1..m.value + 7];
        var prefix := Strip(line[..m.value]);
        if prefix != [] {
          parts := [prefix] + parts;
        }
      } else if line != [] {
        parts := [line] + parts;
      }
      assert NameScan(parts, code) == next;
      j := j - 1;
    }
    scan := NameScan(parts, code);
  }

  // ---------------------------------------------------------------------------
  // Cleaning the name

  /** The last index from `i` down at which `sub` occurs. */
  function LastOccurrence(s: string, sub: string, i: int): (r: Option<nat>)
    ensures r.Some? ==> r.value <= i && OccursAt(s, sub, r.value)
    decreases i + 1
  {
    if i < 0 then None
    else if OccursAt(s, sub, i) then Some(i)
    else LastOccurrence(s, sub, i - 1)
  }

  lemma {:induction false} LastOccurrenceIsLast(s: string, sub: string, i: int)
    ensures var r := LastOccurrence(s, sub, i);
      && (r.Some? ==> forall k | r.value < k <= i :: !OccursAt(s, sub, k))
      && (r.None? ==> forall k | 0 <= k <= i :: !OccursAt(s, sub, k))
    decreases i + 1
  {
    if i >= 0 && !OccursAt(s, sub, i) {
      LastOccurrenceIsLast(s, sub, i - 1);
    }
  }

  /** `re.sub(r'.*筛选\s*', '', s)`: everything up to the last 筛选, and the whitespace
      after it, is removed. */
  function DropFilterHeader(s: string): (r: string)
    ensures |r| <= |s| && r == s[|s| - |r|..]
  {
    match LastOccurrence(s, FilterMark, |s| - |FilterMark|)
    case None => s
    case Some(p) => TrimStart(s[p + 2..])
  }

  /** After the filter header is dropped no 筛选 is left, and text without one is kept whole. */
  lemma DropFilterHeaderClears(s: string)
    ensures !Contains(DropFilterHeader(s), FilterMark)
    ensures !Contains(s, FilterMark) ==> DropFilterHeader(s) == s
  {
    var r := DropFilterHeader(s);
    var off := |s| - |r|;
    LastOccurrenceIsLast(s, FilterMark, |s| - |FilterMark|);
    match LastOccurrence(s, FilterMark, |s| - |FilterMark|)
    case None =>
    case Some(p) =>
      assert p + |FilterMark| <= off;
      NotContainsSuffix(s, FilterMark, off);
  }

  /** 数据日期 followed by a full-width or half-width colon starts at `p`. */
  predicate DateAt(s: string, p: int) {
    OccursAt(s, DateMark, p) && p + 4 < |s| && (s[p + 4] == '：' || s[p + 4] == ':')
  }

  function LastDate(s: string, i: int): (r: Option<nat>)
    ensures r.Some? ==> r.value <= i && DateAt(s, r.value)
    decreases i + 1
  {
    if i < 0 then None
    else if DateAt(s, i) then Some(i)
    else LastDate(s, i - 1)
  }

  lemma {:induction false} LastDateIsLast(s: string, i: int)
    ensures var r := LastDate(s, i);
      && (r.Some? ==> forall k | r.value < k <= i :: !DateAt(s, k))
      && (r.None? ==> forall k | 0 <= k <= i :: !DateAt(s, k))
    decreases i + 1
  {
    if i >= 0 && !DateAt(s, i) {
      LastDateIsLast(s, i - 1);
    }
  }

  predicate IsClauseEnd(c: char) {
    c == '，' || c == '。'
  }

  /** The first index from `k` holding '，' or '。', or the length. */
  function ClauseEnd(s: string, k: nat): (q: nat)
    requires k <= |s|
    ensures k <= q <= |s|
    decreases |s| - k
  {
    if k == |s| || IsClauseEnd(s[k]) then k else ClauseEnd(s, k + 1)
  }

  lemma {:induction false} ClauseEndStops(s: string, k: nat)
    requires k <= |s|
    ensures var q := ClauseEnd(s, k);
      (forall m | k <= m < q :: !IsClauseEnd(s[m])) && (q < |s| ==> IsClauseEnd(s[q]))
    decreases |s| - k
  {
    if k < |s| && !IsClauseEnd(s[k]) {
      ClauseEndStops(s, k + 1);
    }
  }

  /** `re.sub(r'.*数据日期[：:][^，。]*', '', s)`: everything up to the end of the clause
      holding the last date label is removed. */
  function DropDateHeader(s: string): (r: string)
    ensures |r| <= |s| && r == s[|s| - |r|..]
  {
    match LastDate(s, |s| - 1)
    case None => s
    case Some(p) => s[ClauseEnd(s, p + 5)..]
  }

  /** After the date header is dropped no date label is left, what is left starts at a
      clause end, and text without a date label is kept whole. */
  lemma DropDateHeaderClears(s: string)
    ensures var r := DropDateHeader(s);
      && (forall q | 0 <= q < |r| :: !DateAt(r, q))
      && ((exists q | 0 <= q < |s| :: DateAt(s, q)) ==> r == [] || IsClauseEnd(r[0]))
      && ((forall q | 0 <= q < |s| :: !DateAt(s, q)) ==> r == s)
  {
    var r := DropDateHeader(s);
    var off := |s| - |r|;
    LastDateIsLast(s, |s| - 1);
    match LastDate(s, |s| - 1)
    case None =>
    case Some(p) =>
      ClauseEndStops(s, p + 5);
      assert |DateMark| == 4 && p < off;
      forall q | 0 <= q < |r| ensures !DateAt(r, q) {
        assert !DateAt(s, off + q);
        if q + 4 < |r| {
          assert r[q..q + 4] == s[off + q..off + q + 4];
        }
      }
  }

  /** `re.sub(r'\s+', '', s)`. */
  function RemoveSpaces(s: string): (r: string)
    ensures forall x :: x in r <==> x in s && !IsSpace(x)
  {
    if s == [] then []
    else (if IsSpace(s[0]) then [] else [s[0]]) + RemoveSpaces(s[1..])
  }

  /** `re.sub(a + r'\s+' + b, a + b, s)` for a non-space `b`: whitespace between `a` and
      `b` is dropped. */
  function CloseGap(s: string, a: char, b: char): string
    decreases |s|
  {
    if s == [] then []
    else
      var rest := TrimStart(s[1..]);
      if s[0] == a && |rest| < |s| - 1 && rest != [] && rest[0] == b then
        [a, b] + CloseGap(rest[1..], a, b)
      else [s[0]] + CloseGap(s[1..], a, b)
  }

  /** Closing a gap in text without whitespace changes nothing. */
  lemma {:induction false} CloseGapNoSpace(s: string, a: char, b: char)
    requires forall k | 0 <= k < |s| :: !IsSpace(s[k])
    ensures CloseGap(s, a, b) == s
    decreases |s|
  {
    if s != [] {
      assert TrimStart(s[1..]) == s[1..] by {
        if s[1..] != [] {
          assert !IsSpace(s[1..][0]);
        }
      }
      CloseGapNoSpace(s[1..], a, b);
    }
  }

  /** Removing whitespace and then widening '(' leaves neither. */
  lemma {:induction false} WidenedNoSpace(s: string)
    ensures var t := ReplaceChar(RemoveSpaces(s), '(', '（');
      forall k | 0 <= k < |t| :: !IsSpace(t[k]) && t[k] != '('
  {
    var u := RemoveSpaces(s);
    var t := ReplaceChar(u, '(', '（');
    forall k | 0 <= k < |t| ensures !IsSpace(t[k]) && t[k] != '(' {
      if t[k] != '（' {
        assert t[k] == u[k] && u[k] in u;
      }
    }
  }

  /** The last cleaning steps: whitespace removed, half-width '(' made full-width, then
      the 联接 and 投资 repairs. The result has no whitespace and no half-width '('. */
  function Tidy(s: string): (r: string)
    ensures forall k | 0 <= k < |r| :: !IsSpace(r[k]) && r[k] != '('
  {
    var t := ReplaceChar(RemoveSpaces(s), '(', '（');
    WidenedNoSpace(s);
    CloseGapNoSpace(t, '联', '接');
    CloseGapNoSpace(t, '投', '资');
    CloseGap(CloseGap(t, '联', '接'), '投', '资')
  }

  /** The 联接 and 投资 repairs run after all whitespace is gone, so they never change
      the name. */
  lemma RepairsChangeNothing(s: string)
    ensures Tidy(s) == ReplaceChar(RemoveSpaces(s), '(', '（')
  {
    var t := ReplaceChar(RemoveSpaces(s), '(', '（');
    WidenedNoSpace(s);
    CloseGapNoSpace(t, '联', '接');
    CloseGapNoSpace(t, '投', '资');
  }

  /** The name from its fragments: joined with spaces and stripped, page headers removed,
      then tidied. */
  function CleanName(parts: seq<string>): string {
    Tidy(DropDateHeader(DropFilterHeader(Strip(Join(parts, " ")))))
  }

  // ---------------------------------------------------------------------------
  // Records

  /** The attributes the parser sets; the others stay `None`. */
  function FundEntry(name: string, code: string, holding: Decimal, nav: Decimal, asset: Decimal): Record {
    Empty().(name := Some(Text(name)), code := Some(Text(code)), quantity := Some(Num(holding)),
             currentPrice := Some(Num(nav)), marketValue := Some(Num(asset)))
  }

  const FundKeys: set<string> := {"name", "code", "quantity", "current_price", "market_value"}

  /** A fund record's dictionary has exactly the five keys the parser sets. */
  lemma FundEntryKeys(name: string, code: string, holding: Decimal, nav: Decimal, asset: Decimal)
    ensures FundEntry(name, code, holding, nav, asset).ToDict().Keys == FundKeys
  {
    var d := FundEntry(name, code, holding, nav, asset).ToDict();
    assert forall k :: k in d <==> k in FundKeys;
  }

  /** `InvestmentInfo()` and then the five attribute assignments. */
  method BuildRecord(name: string, code: string, holding: Decimal, nav: Decimal, asset: Decimal)
    returns (d: Dict)
    ensures d == FundEntry(name, code, holding, nav, asset).ToDict()
  {
    var investment := new InvestmentInfo();
    investment.name := Some(Text(name));
    investment.code := Some(Text(code));
    investment.quantity := Some(Num(holding));
    investment.currentPrice := Some(Num(nav));
    investment.marketValue := Some(Num(asset));
    d := investment.ToDict();
  }

  /** The name fragments and code for an anchor at `i`. */
  function NameAt(t: seq<string>, i: nat): NameScan
    requires i <= |t|
  {
    Gather(t, NameEnd(t, i), NameScan([], []))
  }

  /** The record for an anchor at `i`, or `None` when there is no anchor, a number line
      is not numeric, or a conversion fails. */
  function FundAt(t: seq<string>, i: nat): Option<Record> {
    if AnchorAt(t, i) && NumbersFollow(t, i) then
      var holding, nav, asset := Amount(t[i + 3]), Amount(t[i + 4]), Amount(t[i + 5]);
      if holding.Some? && nav.Some? && asset.Some? then
        Some(FundEntry(CleanName(NameAt(t, i).parts), NameAt(t, i).code,
                       holding.value, nav.value, asset.value))
      else None
    else None
  }

  /** A record stands on an anchor with three numeric lines after it, and its quantity,
      current price and market value are those lines read with their commas removed. */
  lemma FundAtAmounts(t: seq<string>, i: nat)
    requires FundAt(t, i).Some?
    ensures AnchorAt(t, i) && NumbersFollow(t, i)
    ensures var r := FundAt(t, i).value;
      && r.quantity == Some(Num(ParseFloat(RemoveChar(t[i + 3], ',')).value))
      && r.currentPrice == Some(Num(ParseFloat(RemoveChar(t[i + 4], ',')).value))
      && r.marketValue == Some(Num(ParseFloat(RemoveChar(t[i + 5], ',')).value))
      && r.code == Some(Text(NameAt(t, i).code))
  {
  }

  /** The verdict of the scan body at every index from `from` on. */
  function Verdicts(t: seq<string>, from: nat): (v: seq<Option<Record>>)
    requires from <= |t|
    ensures |v| == |t| - from
    decreases |t| - from
  {
    if from == |t| then [] else [FundAt(t, from)] + Verdicts(t, from + 1)
  }

  /** Entry `k - from` of the verdicts from `from` is the verdict at `k`. */
  lemma {:induction false} VerdictAt(t: seq<string>, from: nat, k: nat)
    requires from <= k < |t|
    ensures Verdicts(t, from)[k - from] == FundAt(t, k)
    decreases k - from
  {
    if k > from {
      VerdictAt(t, from + 1, k);
      assert Verdicts(t, from)[k - from] == Verdicts(t, from + 1)[k - from - 1];
    }
  }

  /** The scan from `i` over the verdicts: after a record it moves on six lines,
      otherwise one. */
  function Walk(v: seq<Option<Record>>, i: nat): seq<Dict>
    decreases |v| - i
  {
    if i >= |v| then []
    else match v[i]
      case Some(e) => [e.ToDict()] + Walk(v, i + 6)
      case None => Walk(v, i + 1)
  }

  /** What `parse_fund_data` returns. */
  function FundRecords(lines: seq<string>): seq<Dict> {
    Walk(Verdicts(StrippedLines(lines), 0), StartIndex(lines))
  }

  /** `lines[i].strip()` for the three anchor lines. */
  method IsAnchor(lines: seq<string>, i: nat) returns (b: bool)
    ensures b == AnchorAt(StrippedLines(lines), i)
  {
    b := i + 2 < |lines| && Strip(lines[i]) == HoldingLabel && Strip(lines[i + 1]) == NavLabel &&
         Strip(lines[i + 2]) == AssetLabel;
    if i + 2 < |lines| {
      StrippedAt(lines, i);
      StrippedAt(lines, i + 1);
      StrippedAt(lines, i + 2);
    }
  }

  /** The numeric test on the three lines after the anchor. */
  method AreNumbers(lines: seq<string>, i: nat) returns (b: bool)
    ensures b == NumbersFollow(StrippedLines(lines), i)
  {
    b := i + 5 < |lines| && IsNumeric(Strip(lines[i + 3])) && IsNumeric(Strip(lines[i + 4])) &&
         IsNumeric(Strip(lines[i + 5]));
    if i + 5 < |lines| {
      StrippedAt(lines, i + 3);
      StrippedAt(lines, i + 4);
      StrippedAt(lines, i + 5);
    }
  }

  /** The body of the scan at `i`: the anchor and number tests, the three conversions,
      the upward walk and the record; `None` where the scan moves on by one line. */
  method ReadFund(lines: seq<string>, i: nat) returns (d: Option<Dict>)
    requires i < |lines|
    ensures var e := Verdicts(StrippedLines(lines), 0)[i];
      (d.Some? <==> e.Some?) && (d.Some? ==> d.value == e.value.ToDict())
  {
    ghost var t := StrippedLines(lines);
    VerdictAt(t, 0, i);
    var anchor := IsAnchor(lines, i);
    var numbers := AreNumbers(lines, i);
    if !(anchor && numbers) {
      return None;
    }
    StrippedAt(lines, i + 3);
    StrippedAt(lines, i + 4);
    StrippedAt(lines, i + 5);
    var holding := Amount(Strip(lines[i + 3]));
    var nav := Amount(Strip(lines[i + 4]));
    var asset := Amount(Strip(lines[i + 5]));
    if !(holding.Some? && nav.Some? && asset.Some?) {
      return None;
    }
    var j := FindNameEnd(lines, i);
    var scan := CollectName(lines, j);
    var name := CleanName(scan.parts);
    var record := BuildRecord(name, scan.code, holding.value, nav.value, asset.value);
    assert scan == NameAt(t, i);
    d := Some(record);
  }

  method ParseFundData(lines: seq<string>) returns (results: seq<Dict>)
    ensures results == FundRecords(lines)
  {
    ghost var v := Verdicts(StrippedLines(lines), 0);
    results := [];
    var i := FindStart(lines);
    while i < |lines|
      invariant results + Walk(v, i) == FundRecords(lines)
      decreases |lines| - i
    {
      var d := ReadFund(lines, i);
      if d.Some? {
        assert Walk(v, i) == [d.value] + Walk(v, i + 6);
        assert (results + [d.value]) + Walk(v, i + 6) == results + Walk(v, i);
        results := results + [d.value];
        i := i + 6;
        continue;
      }
      i := i + 1;
    }
  }

  // ---------------------------------------------------------------------------
  // Properties of the scan

  /** A record needs its six lines: a verdict with a record leaves room for them. */
  lemma VerdictsRoom(t: seq<string>, v: seq<Option<Record>>)
    requires v == Verdicts(t, 0)
    ensures forall k | 0 <= k < |v| && v[k].Some? :: k + 6 <= |v|
  {
    forall k | 0 <= k < |v| && v[k].Some? ensures k + 6 <= |v| {
      VerdictAt(t, 0, k);
    }
  }

  /** Where every record takes six lines, there are at most a sixth as many records as
      lines walked. */
  lemma {:induction false} WalkCount(v: seq<Option<Record>>, i: nat)
    requires i <= |v|
    requires forall k | 0 <= k < |v| && v[k].Some? :: k + 6 <= |v|
    ensures |Walk(v, i)| <= (|v| - i) / 6
    decreases |v| - i
  {
    if i < |v| {
      match v[i]
      case Some(e) =>
        assert v[i].Some?;
        WalkCount(v, i + 6);
        assert (|v| - i - 6) / 6 + 1 == (|v| - i) / 6;
      case None =>
        WalkCount(v, i + 1);
        assert (|v| - i - 1) / 6 <= (|v| - i) / 6;
    }
  }

  /** Every record the walk emits is the dictionary of a verdict at or after `i`. */
  lemma {:induction false} WalkEmits(v: seq<Option<Record>>, i: nat)
    ensures forall d | d in Walk(v, i) ::
      exists k | i <= k < |v| :: v[k].Some? && d == v[k].value.ToDict()
    decreases |v| - i
  {
    if i < |v| {
      match v[i]
      case Some(e) => WalkEmits(v, i + 6);
      case None => WalkEmits(v, i + 1);
    }
  }

  /** At most one record per six lines scanned from the start index. */
  lemma RecordCount(lines: seq<string>)
    ensures |FundRecords(lines)| <= (|lines| - StartIndex(lines)) / 6
  {
    var t := StrippedLines(lines);
    var v := Verdicts(t, 0);
    VerdictsRoom(t, v);
    WalkCount(v, StartIndex(lines));
  }

  /** Every record has exactly the five keys; its name is text with no whitespace and no
      half-width '('; its code is "" or six digits; and its three amounts are
      non-negative. */
  lemma RecordsShaped(lines: seq<string>)
    ensures forall d | d in FundRecords(lines) :: FundShaped(d)
  {
    var t := StrippedLines(lines);
    var v := Verdicts(t, 0);
    WalkEmits(v, StartIndex(lines));
    forall k | 0 <= k < |v| && v[k].Some? ensures FundShaped(v[k].value.ToDict()) {
      VerdictAt(t, 0, k);
      FundAtShaped(t, k);
    }
  }

  predicate FundShaped(d: Dict) {
    && d.Keys == FundKeys
    && d["name"].Text?
    && (forall k | 0 <= k < |d["name"].text| :: !IsSpace(d["name"].text[k]) && d["name"].text[k] != '(')
    && d["code"].Text? && (d["code"].text == [] || (|d["code"].text| == 6 && IsDigits(d["code"].text)))
    && d["quantity"].Num? && d["quantity"].number.mantissa >= 0
    && d["current_price"].Num? && d["current_price"].number.mantissa >= 0
    && d["market_value"].Num? && d["market_value"].number.mantissa >= 0
  }

  lemma FundEntryShaped(name: string, code: string, holding: Decimal, nav: Decimal, asset: Decimal)
    requires forall k | 0 <= k < |name| :: !IsSpace(name[k]) && name[k] != '('
    requires code == [] || (|code| == 6 && IsDigits(code))
    requires holding.mantissa >= 0 && nav.mantissa >= 0 && asset.mantissa >= 0
    ensures FundShaped(FundEntry(name, code, holding, nav, asset).ToDict())
  {
    FundEntryKeys(name, code, holding, nav, asset);
  }

  lemma FundAtShaped(t: seq<string>, i: nat)
    requires FundAt(t, i).Some?
    ensures FundShaped(FundAt(t, i).value.ToDict())
  {
    NumericAmount(t[i + 3]);
    NumericAmount(t[i + 4]);
    NumericAmount(t[i + 5]);
    var g := NameAt(t, i);
    GatherCode(t, NameEnd(t, i), NameScan([], []));
    FundEntryShaped(CleanName(g.parts), g.code, Amount(t[i + 3]).value,
                    Amount(t[i + 4]).value, Amount(t[i + 5]).value);
  }
}
