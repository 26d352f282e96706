/**
 * The parser for the huabao holdings screen: drop labels, find where the data
 * starts, cut the rest into ten-line blocks and read each block by position.
 */
module Huabao {
  import opened Strings
  import opened Numbers
  import opened Models
  import opened Sequences

  /** The screen labels that are not data. */
  const Stopwords: seq<string> :=
    ["买入", "卖出", "撤单", "持仓", "查询", "证券/市值", "成本/现价", "持仓/可用", "累计盈亏", "仓位"]

  predicate IsStopword(line: string) {
    line in Stopwords
  }

  /** The stripped lines, in order, without the labels. */
  function Filtered(lines: seq<string>): (r: seq<string>)
    ensures |r| <= |lines|
  {
    if lines == [] then []
    else
      var t := Strip(lines[0]);
      (if IsStopword(t) then [] else [t]) + Filtered(lines[1..])
  }

  /** Every kept line is stripped and is not a label. */
  lemma {:induction false} FilteredClean(lines: seq<string>)
    ensures forall i | 0 <= i < |Filtered(lines)| ::
      !IsStopword(Filtered(lines)[i]) && IsStripped(Filtered(lines)[i])
  {
    if lines != [] {
      FilteredClean(lines[1..]);
    }
  }

  /** Filtering works line by line: the lines of a concatenation are filtered in order. */
  lemma {:induction false} FilteredAppend(a: seq<string>, b: seq<string>)
    ensures Filtered(a + b) == Filtered(a) + Filtered(b)
  {
    if a == [] {
      assert a + b == b;
    } else {
      assert (a + b)[0] == a[0] && (a + b)[1..] == a[1..] + b;
      FilteredAppend(a[1..], b);
    }
  }

  /** A text is kept exactly when it is the stripped form of some line and not a label. */
  lemma {:induction false} FilteredMembers(lines: seq<string>)
    ensures forall x :: x in Filtered(lines) <==>
      !IsStopword(x) && exists i | 0 <= i < |lines| :: x == Strip(lines[i])
  {
    if lines != [] {
      FilteredMembers(lines[1..]);
      forall x | !IsStopword(x) && (exists i | 0 <= i < |lines| :: x == Strip(lines[i]))
        ensures x in Filtered(lines)
      {
        var i :| 0 <= i < |lines| && x == Strip(lines[i]);
        if i > 0 {
          assert x == Strip(lines[1..][i - 1]);
        }
      }
      forall x | x in Filtered(lines[1..])
        ensures exists i | 0 <= i < |lines| :: x == Strip(lines[i])
      {
        var i :| 0 <= i < |lines[1..]| && x == Strip(lines[1..][i]);
        assert x == Strip(lines[i + 1]);
      }
    }
  }

  /** The number of lines whose stripped text is a label, counted from the last line. */
  function LabelCount(lines: seq<string>): (n: nat)
    ensures n <= |lines|
  {
    if lines == [] then 0
    else LabelCount(lines[..|lines| - 1]) + (if IsStopword(Strip(lines[|lines| - 1])) then 1 else 0)
  }

  /** Exactly the label lines are dropped. */
  lemma {:induction false} FilteredLength(lines: seq<string>)
    ensures |Filtered(lines)| == |lines| - LabelCount(lines)
  {
    if lines != [] {
      var init, last := lines[..|lines| - 1], lines[|lines| - 1];
      assert lines == init + [last];
      FilteredAppend(init, [last]);
      assert [last][1..] == [];
      FilteredLength(init);
    }
  }

  /** A line naming a Shanghai or Shenzhen security. */
  predicate IsSecurityLine(line: string) {
    Contains(line, ".SH") || Contains(line, ".SZ")
  }

  /** The index of the first security line, if any. */
  function FirstSecurityLine(lines: seq<string>): (r: Option<nat>)
    ensures r.Some? ==> r.value < |lines| && IsSecurityLine(lines[r.value])
    ensures r.Some? ==> forall k | 0 <= k < r.value :: !IsSecurityLine(lines[k])
    ensures r.None? ==> forall k | 0 <= k < |lines| :: !IsSecurityLine(lines[k])
  {
    if lines == [] then None
    else if IsSecurityLine(lines[0]) then Some(0)
    else match FirstSecurityLine(lines[1..])
      case None => None
      case Some(k) => Some(k + 1)
  }

  /** Four lines before the first security line (0 when there is none), not clamped. */
  function DataStart(filtered: seq<string>): int {
    (match FirstSecurityLine(filtered) case None => 0 case Some(i) => i) - 4
  }

  /** Python's `s[start:]`: a negative start counts from the end. */
  function SliceFrom(s: seq<string>, start: int): (r: seq<string>)
    ensures 0 <= start <= |s| ==> r == s[start..]
    ensures start < 0 ==> r == s[if |s| + start < 0 then 0 else |s| + start..]
    ensures start > |s| ==> r == []
  {
    if start >= 0 then (if start <= |s| then s[start..] else [])
    else if |s| + start < 0 then s
    else s[|s| + start..]
  }

  /** The complete ten-line runs of `s`, in order; a shorter tail is left over. */
  function Blocks(s: seq<string>): (r: seq<seq<string>>)
    ensures |r| == |s| / 10
  {
    if |s| < 10 then [] else [s[..10]] + Blocks(s[10..])
  }

  /** Every block has exactly ten lines. */
  lemma {:induction false} BlocksLength(s: seq<string>)
    ensures forall k | 0 <= k < |Blocks(s)| :: |Blocks(s)[k]| == 10
  {
    if |s| >= 10 {
      BlocksLength(s[10..]);
    }
  }

  /** Block `k` is lines `10k` to `10k + 9`: the blocks are consecutive and do not overlap. */
  lemma {:induction false} BlocksAt(s: seq<string>, k: nat)
    requires k < |s| / 10
    ensures Blocks(s)[k] == s[10 * k..10 * k + 10]
  {
    if k > 0 {
      BlocksAt(s[10..], k - 1);
      assert s[10..][10 * (k - 1)..10 * (k - 1) + 10] == s[10 * k..10 * k + 10];
    }
  }

  /** Reads one block: name and code verbatim, numbers by fixed position, line 7 unused;
      any conversion that fails drops the whole block. */
  function DecodeBlock(block: seq<string>): (r: Option<Record>)
    requires |block| == 10
  {
    var cost, quantity, profit := ParseFloat(block[1]), ParseInt(block[2]), ParseFloat(block[3]);
    var position, current := ParseFloat(StripChar(block[5], '%')), ParseFloat(block[6]);
    var ratio, market := ParseFloat(StripChar(block[8], '%')), ParseFloat(block[9]);
    if cost.None? || quantity.None? || profit.None? || position.None? || current.None?
       || ratio.None? || market.None?
    then None
    else Some(Record(
      name := Some(Text(block[0])),
      code := Some(Text(block[4])),
      quantity := Some(Int(quantity.value)),
      marketValue := Some(Num(market.value)),
      costPrice := Some(Num(cost.value)),
      currentPrice := Some(Num(current.value)),
      positionRatio := Some(Num(Round4(Hundredth(position.value)))),
      profitRatio := Some(Num(Round4(Hundredth(ratio.value)))),
      profitAmount := Some(Num(profit.value))))
  }

  /** A block decodes exactly when all seven conversions succeed, and then its name and
      code are lines 0 and 4 verbatim and its quantity and market value are lines 2 and 9. */
  lemma DecodedFields(block: seq<string>)
    requires |block| == 10
    ensures DecodeBlock(block).Some? <==>
      && ParseFloat(block[1]).Some? && ParseInt(block[2]).Some? && ParseFloat(block[3]).Some?
      && ParseFloat(StripChar(block[5], '%')).Some? && ParseFloat(block[6]).Some?
      && ParseFloat(StripChar(block[8], '%')).Some? && ParseFloat(block[9]).Some?
    ensures DecodeBlock(block).Some? ==>
      var r := DecodeBlock(block).value;
      && r.name == Some(Text(block[0])) && r.code == Some(Text(block[4]))
      && r.quantity == Some(Int(ParseInt(block[2]).value))
      && r.marketValue == Some(Num(ParseFloat(block[9]).value))
  {
  }

  /** The dictionary a block contributes: one when it decodes, none otherwise. */
  function BlockDicts(block: seq<string>): (r: seq<Dict>)
    ensures |r| <= 1
  {
    if |block| != 10 then []
    else match DecodeBlock(block)
      case None => []
      case Some(record) => [record.ToDict()]
  }

  /** What `parse_huabao_stock_data` returns for `lines`. */
  function HuabaoRecords(lines: seq<string>): seq<Dict> {
    var filtered := Filtered(lines);
    FlatMap(Blocks(SliceFrom(filtered, DataStart(filtered))), BlockDicts)
  }

  /** One iteration of the decoding loop: the conversions run in the source's order and
      the first that fails abandons the block; a record is built only when all succeed. */
  method ReadBlock(block: seq<string>) returns (d: Option<Dict>)
    requires |block| == 10
    ensures d.None? <==> DecodeBlock(block).None?
    ensures d.Some? ==> d.value == DecodeBlock(block).value.ToDict()
  {
    var cost := ParseFloat(block[1]);
    if cost.None? { return None; }
    var quantity := ParseInt(block[2]);
    if quantity.None? { return None; }
    var profit := ParseFloat(block[3]);
    if profit.None? { return None; }
    var position := ParseFloat(StripChar(block[5], '%'));
    if position.None? { return None; }
    var price := ParseFloat(block[6]);
    if price.None? { return None; }
    var ratio := ParseFloat(StripChar(block[8], '%'));
    if ratio.None? { return None; }
    var market := ParseFloat(block[9]);
    if market.None? { return None; }
    var info := new InvestmentInfo(
      name := Some(Text(block[0])), code := Some(Text(block[4])),
      quantity := Some(Int(quantity.value)), marketValue := Some(Num(market.value)),
      costPrice := Some(Num(cost.value)), currentPrice := Some(Num(price.value)),
      positionRatio := Some(Num(Round4(Hundredth(position.value)))),
      profitRatio := Some(Num(Round4(Hundredth(ratio.value)))),
      profitAmount := Some(Num(profit.value)));
    assert DecodeBlock(block) == Some(info.Attributes());
    d := Some(info.ToDict());
  }

  /** The blocks from line `10n` on are the block starting there, then the rest. */
  lemma BlocksStep(s: seq<string>, start: nat)
    requires start + 10 <= |s|
    ensures Blocks(s[start..]) == [s[start..start + 10]] + Blocks(s[start + 10..])
  {
    var tail := s[start..];
    assert tail[..10] == s[start..start + 10] && tail[10..] == s[start + 10..];
  }

  /** The blocking loop: lines are appended to the current block, which is moved to
      the list of blocks when it reaches ten lines. */
  method CutBlocks(rest: seq<string>) returns (blocks: seq<seq<string>>)
    ensures blocks == Blocks(rest)
  {
    blocks := [];
    var current: seq<string> := [];
    ghost var start := 0;
    for i := 0 to |rest|
      invariant start == 10 * |blocks| && i == start + |current| && |current| < 10
      invariant current == rest[start..i]
      invariant Blocks(rest) == blocks + Blocks(rest[start..])
    {
      current := current + [rest[i]];
      assert current == rest[start..i + 1];
      if |current| == 10 {
        BlocksStep(rest, start);
        assert Blocks(rest) == (blocks + [current]) + Blocks(rest[start + 10..]);
        blocks := blocks + [current];
        current := [];
        start := start + 10;
      }
    }
    assert |rest[start..]| < 10;
  }

  /** The decoding loop: each block that decodes appends its dictionary. */
  method DecodeBlocks(blocks: seq<seq<string>>) returns (results: seq<Dict>)
    requires forall k | 0 <= k < |blocks| :: |blocks[k]| == 10
    ensures results == FlatMap(blocks, BlockDicts)
  {
    results := [];
    for b := 0 to |blocks|
      invariant results == FlatMap(blocks[..b], BlockDicts)
    {
      assert blocks[..b + 1][..b] == blocks[..b];
      var d := ReadBlock(blocks[b]);
      assert BlockDicts(blocks[b]) == if d.Some? then [d.value] else [];
      if d.Some? {
        results := results + [d.value];
      }
    }
    assert blocks[..|blocks|] == blocks;
  }

  /** `parse_huabao_stock_data`: filter, find the start, cut the blocks, decode them. */
  method ParseHuabaoStockData(lines: seq<string>) returns (results: seq<Dict>)
    ensures results == HuabaoRecords(lines)
  {
    var filtered := Filtered(lines);
    var dataStart := DataStart(filtered);
    var blocks := CutBlocks(SliceFrom(filtered, dataStart));
    BlocksLength(SliceFrom(filtered, dataStart));
    results := DecodeBlocks(blocks);
  }

  /** The output has at most one record per block, and records keep block order. */
  lemma RecordsPerBlock(lines: seq<string>)
    ensures var filtered := Filtered(lines);
      var blocks := Blocks(SliceFrom(filtered, DataStart(filtered)));
      && |HuabaoRecords(lines)| <= |blocks|
      && forall k | 0 <= k <= |blocks| ::
           HuabaoRecords(lines) == FlatMap(blocks[..k], BlockDicts) + FlatMap(blocks[k..], BlockDicts)
  {
    var filtered := Filtered(lines);
    var blocks := Blocks(SliceFrom(filtered, DataStart(filtered)));
    FlatMapAtMostOne(blocks, BlockDicts);
    forall k | 0 <= k <= |blocks|
      ensures HuabaoRecords(lines) == FlatMap(blocks[..k], BlockDicts) + FlatMap(blocks[k..], BlockDicts)
    {
      assert blocks == blocks[..k] + blocks[k..];
      FlatMapAppend(blocks[..k], blocks[k..], BlockDicts);
    }
  }

  /** With fewer than four lines before the first security line, or none at all, the
      negative start keeps at most four lines and nothing is parsed. */
  lemma NegativeStartParsesNothing(lines: seq<string>)
    requires DataStart(Filtered(lines)) < 0
    ensures HuabaoRecords(lines) == []
  {
    var filtered := Filtered(lines);
    var rest := SliceFrom(filtered, DataStart(filtered));
    assert |rest| <= 4;
  }

  /** The eighth line of a block is never read. */
  lemma EighthLineIgnored(block: seq<string>, line: string)
    requires |block| == 10
    ensures DecodeBlock(block[7 := line]) == DecodeBlock(block)
  {
    var other := block[7 := line];
    assert forall k | 0 <= k < 10 && k != 7 :: other[k] == block[k];
  }

  /** "12.34%" in a ratio line is read as 12.34 ... */
  lemma PercentExample()
    ensures ParseFloat(StripChar("12.34%", '%')) == Some(Decimal(1234, 2))
  {
    StripPercentSign();
    ReadTwelveThirtyFour();
  }

  /** ... and stored as the ratio 0.1234. */
  lemma RatioExample()
    ensures Round4(Hundredth(Decimal(1234, 2))) == Decimal(1234, 4)
    ensures Decimal(1234, 4).Real() == 0.1234
  {
  }

  lemma StripPercentSign()
    ensures StripChar("12.34%", '%') == "12.34"
  {
    assert TrimCharStart("12.34%", '%') == "12.34%";
    assert "12.34%"[..5] == "12.34";
  }

  lemma ReadTwelveThirtyFour()
    ensures ParseFloat("12.34") == Some(Decimal(1234, 2))
  {
    TwelveThirtyFourDigits();
    ParseFloatPoint("12.34", "12", "34");
  }

  lemma TwelveThirtyFourDigits()
    ensures AllDigits("12") && AllDigits("34") && AllDigits("1234")
    ensures "12" + "34" == "1234" && DigitsValue("1234") == 1234
  {
    AllDigitsAt("12");
    AllDigitsAt("34");
    AllDigitsAt("1234");
    assert "1234"[..3] == "123" && "123"[..2] == "12" && "12"[..1] == "1";
  }
}
