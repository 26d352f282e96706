/**
 * Channel detection over the recognised text lines of a screenshot, and the
 * per-source summary of a batch of parsed records.
 */
module Ocr {
  import opened Strings
  import opened Models

  /** The three layouts the parsers understand. */
  datatype Channel = Huabao | Haitong | FundE
  {
    /** The text stored as `source_type` for records of this channel. */
    function Name(): string {
      match this
      case Huabao => "huabao"
      case Haitong => "haitong"
      case FundE => "fund_e"
    }
  }

  /** Python `sum` over a list of booleans. */
  function Count(features: seq<bool>): (n: nat)
    ensures n <= |features|
    ensures n == 0 <==> forall i | 0 <= i < |features| :: !features[i]
  {
    if features == [] then 0
    else (if features[|features| - 1] then 1 else 0) + Count(features[..|features| - 1])
  }

  /** Some line of `lines` has a fund code `（dddddd）` in it. */
  predicate AnyCode(lines: seq<string>) {
    exists i | 0 <= i < |lines| :: FindCode(lines[i]).Some?
  }

  /** Some line holds 持有份额 and the line right after it holds 参考净值. */
  predicate HoldingAboveNav(lines: seq<string>) {
    exists i | 0 <= i < |lines| :: Contains(lines[i], "持有份额") && i + 1 < |lines| && Contains(lines[i + 1], "参考净值")
  }

  function HuabaoFeatures(lines: seq<string>): seq<bool> {
    [ exists i | 0 <= i < |lines| :: Contains(lines[i], ".SH") || Contains(lines[i], ".SZ"),
      AnyContains(lines, "成本/现价"),
      AnyContains(lines, "证券/市值"),
      AnyContains(lines, "持仓/可用"),
      AnyContains(lines, "华宝") ]
  }

  function HaitongFeatures(lines: seq<string>): seq<bool> {
    [ AnyContains(lines, "当前持仓"),
      AnyContains(lines, "以上是全部"),
      AnyContains(lines, "股票/市值") || AnyContains(lines, "持仓/可用"),
      AnyContains(lines, "盈亏/盈亏比"),
      AnyContains(lines, "海通") ]
  }

  function FundEFeatures(lines: seq<string>): seq<bool> {
    [ HoldingAboveNav(lines),
      AnyContains(lines, "筛选"),
      AnyCode(lines),
      AnyContains(lines, "基金e账户") ]
  }

  function HuabaoScore(lines: seq<string>): (n: nat)
    ensures n <= 5
  {
    Count(HuabaoFeatures(lines))
  }

  function HaitongScore(lines: seq<string>): (n: nat)
    ensures n <= 5
    ensures n == 0 ==> !AnyContains(lines, "以上是全部")
  {
    var features := HaitongFeatures(lines);
    assert features[1] == AnyContains(lines, "以上是全部");
    Count(features)
  }

  function FundEScore(lines: seq<string>): (n: nat)
    ensures n <= 4
  {
    Count(FundEFeatures(lines))
  }

  /** The checks made when no score is positive, in the order they are made. */
  function FallbackChannel(lines: seq<string>): Option<Channel> {
    if AnyContains(lines, "持仓") && AnyContains(lines, "盈亏") then
      if AnyContains(lines, "以上是全部") then Some(Haitong) else Some(Huabao)
    else if AnyContains(lines, "资产情况") then Some(FundE)
    else None
  }

  /**
   * `detect_channel`: the channel with the highest score, ties going to huabao,
   * then haitong, then fund_e; with every score zero, the fallback checks decide.
   */
  function DetectChannel(lines: seq<string>): (r: Option<Channel>)
    ensures var h, t, f := HuabaoScore(lines), HaitongScore(lines), FundEScore(lines);
      && (r == Some(Huabao) <==>
            (h > 0 && h >= t && h >= f) ||
            (h == t == f == 0 && AnyContains(lines, "持仓") && AnyContains(lines, "盈亏")))
      && (r == Some(Haitong) <==> t > 0 && t > h && t >= f)
      && (r == Some(FundE) <==>
            (f > 0 && f > h && f > t) ||
            (h == t == f == 0 && !(AnyContains(lines, "持仓") && AnyContains(lines, "盈亏"))
                              && AnyContains(lines, "资产情况")))
  {
    var h, t, f := HuabaoScore(lines), HaitongScore(lines), FundEScore(lines);
    var best := if h >= t && h >= f then h else if t >= f then t else f;
    if best == h && h > 0 then Some(Huabao)
    else if best == t && t > 0 then Some(Haitong)
    else if best == f && f > 0 then Some(FundE)
    else FallbackChannel(lines)
  }

  /** Nothing is detected from no lines at all. */
  lemma NoLinesNoChannel()
    ensures DetectChannel([]) == None
  {
    assert !AnyContains([], "持仓") && !AnyContains([], "资产情况");
    assert HuabaoScore([]) == 0 && HaitongScore([]) == 0 && FundEScore([]) == 0;
  }

  /** A 持有份额 line counts for the adjacency feature only with a 参考净值 line below it,
      so one on the last line never does. */
  lemma HoldingOnLastLineAlone(lines: seq<string>)
    requires forall i | 0 <= i < |lines| - 1 :: !Contains(lines[i], "持有份额")
    ensures !HoldingAboveNav(lines)
  {
  }

  /** The fallback's haitong answer cannot be reached: the fallback runs only when the
      haitong score is 0, and then no line holds 以上是全部. */
  lemma FallbackNeverHaitong(lines: seq<string>)
    requires HaitongScore(lines) == 0
    ensures FallbackChannel(lines) != Some(Haitong)
  {
  }

  // ----- The summary of a batch -----

  /** The `source_type` recorded in a parsed item. */
  predicate HasSource(item: Dict) {
    "source_type" in item && item["source_type"].Text?
  }

  function SourceOf(item: Dict): string
    requires HasSource(item)
  {
    item["source_type"].text
  }

  /** The number of items whose source is `s`. */
  function Occurrences(items: seq<Dict>, s: string): (n: nat)
    requires forall i | 0 <= i < |items| :: HasSource(items[i])
    ensures n <= |items|
  {
    if items == [] then 0
    else (if SourceOf(items[0]) == s then 1 else 0) + Occurrences(items[1..], s)
  }

  /** The `source_counts` dictionary after the loop has seen `items`. */
  function Tally(items: seq<Dict>): map<string, nat>
    requires forall i | 0 <= i < |items| :: HasSource(items[i])
  {
    if items == [] then map[]
    else
      var counts := Tally(items[..|items| - 1]);
      var s := SourceOf(items[|items| - 1]);
      counts[s := (if s in counts then counts[s] else 0) + 1]
  }

  /** `Occurrences` counted from the end agrees with the definition from the front. */
  lemma {:induction false} OccurrencesLast(items: seq<Dict>, s: string)
    requires forall i | 0 <= i < |items| :: HasSource(items[i])
    requires items != []
    ensures Occurrences(items, s) ==
      Occurrences(items[..|items| - 1], s) + (if SourceOf(items[|items| - 1]) == s then 1 else 0)
  {
    if |items| > 1 {
      assert items[1..][..|items| - 2] == items[..|items| - 1][1..];
      OccurrencesLast(items[1..], s);
    }
  }

  /** The tally has a key for every source that occurs and for no other, holding the
      number of items with that source. */
  lemma {:induction false} TallyCounts(items: seq<Dict>)
    requires forall i | 0 <= i < |items| :: HasSource(items[i])
    ensures forall s :: s in Tally(items) <==> Occurrences(items, s) > 0
    ensures forall s | s in Tally(items) :: Tally(items)[s] == Occurrences(items, s)
  {
    if items != [] {
      var init := items[..|items| - 1];
      TallyCounts(init);
      forall s ensures Occurrences(items, s) ==
        Occurrences(init, s) + (if SourceOf(items[|items| - 1]) == s then 1 else 0) {
        OccurrencesLast(items, s);
      }
    }
  }

  /** Counting over every source separately accounts for each item exactly once. */
  lemma {:induction false} OccurrencesSum(items: seq<Dict>, keys: seq<string>)
    requires forall i | 0 <= i < |items| :: HasSource(items[i])
    requires forall i | 0 <= i < |items| :: SourceOf(items[i]) in keys
    requires forall i, j | 0 <= i < j < |keys| :: keys[i] != keys[j]
    ensures SumOccurrences(items, keys) == |items|
  {
    if items != [] {
      assert forall i | 0 <= i < |items| - 1 :: items[1..][i] == items[i + 1];
      OccurrencesSum(items[1..], keys);
      SumOccurrencesStep(items, keys);
    } else {
      SumOccurrencesNoItems(keys);
    }
  }

  lemma {:induction false} SumOccurrencesNoItems(keys: seq<string>)
    ensures SumOccurrences([], keys) == 0
  {
    if keys != [] {
      SumOccurrencesNoItems(keys[1..]);
    }
  }

  /** The sum of the counts of `keys`. */
  function SumOccurrences(items: seq<Dict>, keys: seq<string>): nat
    requires forall i | 0 <= i < |items| :: HasSource(items[i])
  {
    if keys == [] then 0 else Occurrences(items, keys[0]) + SumOccurrences(items, keys[1..])
  }

  /** Dropping the first item lowers the sum by one when its source is among `keys` once. */
  lemma {:induction false} SumOccurrencesStep(items: seq<Dict>, keys: seq<string>)
    requires forall i | 0 <= i < |items| :: HasSource(items[i])
    requires items != [] && SourceOf(items[0]) in keys
    requires forall i, j | 0 <= i < j < |keys| :: keys[i] != keys[j]
    ensures SumOccurrences(items, keys) == SumOccurrences(items[1..], keys) + 1
  {
    if keys[0] != SourceOf(items[0]) {
      assert SourceOf(items[0]) in keys[1..];
      SumOccurrencesStep(items, keys[1..]);
    } else {
      SumOccurrencesAbsent(items, keys[1..]);
    }
  }

  /** Keys that are not the first item's source count the same with or without it. */
  lemma {:induction false} SumOccurrencesAbsent(items: seq<Dict>, keys: seq<string>)
    requires forall i | 0 <= i < |items| :: HasSource(items[i])
    requires items != [] && SourceOf(items[0]) !in keys
    ensures SumOccurrences(items, keys) == SumOccurrences(items[1..], keys)
  {
    if keys != [] {
      SumOccurrencesAbsent(items, keys[1..]);
    }
  }

  /** The key `<source>_count`. */
  function CountKey(s: string): string {
    s + "_count"
  }

  lemma CountKeyInjective()
    ensures forall s, t | CountKey(s) == CountKey(t) :: s == t
  {
    forall s, t | CountKey(s) == CountKey(t) ensures s == t {
      assert s == CountKey(s)[..|s|];
      assert t == CountKey(t)[..|t|];
    }
  }

  /** `{'total_count': n}` updated with one `<source>_count` entry per tallied source. */
  function SummaryOf(total: nat, counts: map<string, nat>): map<string, int> {
    CountKeyInjective();
    map["total_count" := total] + map s | s in counts :: CountKey(s) := counts[s] as int
  }

  /** Every tallied source `s` has its count under `s_count`; `total_count` is the
      number of items unless a source called "total" has overwritten it; and there
      are no other keys. */
  lemma SummaryEntries(total: nat, counts: map<string, nat>)
    ensures var summary := SummaryOf(total, counts);
      && (forall s | s in counts :: CountKey(s) in summary && summary[CountKey(s)] == counts[s])
      && ("total" !in counts ==> summary["total_count"] == total)
      && (forall k | k in summary :: k == "total_count" || exists s | s in counts :: k == CountKey(s))
  {
    CountKeyInjective();
    assert CountKey("total") == "total_count";
  }

  /** For a batch: each source's entry is the number of its items, and with no source
      called "total", `total_count` is the batch size. */
  lemma BatchSummary(items: seq<Dict>)
    requires forall i | 0 <= i < |items| :: HasSource(items[i])
    ensures var summary := SummaryOf(|items|, Tally(items));
      && (forall s | Occurrences(items, s) > 0 ::
            CountKey(s) in summary && summary[CountKey(s)] == Occurrences(items, s))
      && (Occurrences(items, "total") == 0 ==> summary["total_count"] == |items|)
  {
    TallyCounts(items);
    SummaryEntries(|items|, Tally(items));
  }

  /** The result of a batch: the parsed items, a timestamp, the image files that
      contributed, and the summary counts. */
  class BatchResult {
    var data: seq<Dict>
    var timestamp: string
    var sources: seq<string>
    var summary: map<string, int>

    constructor(timestamp: string)
      ensures data == [] && sources == [] && this.timestamp == timestamp
      ensures summary == map["total_count" := 0]
    {
      data := [];
      this.timestamp := timestamp;
      sources := [];
      summary := map["total_count" := 0];
    }

    /** `generate_summary`: tallies the items by source and replaces the summary;
        nothing else changes. */
    method GenerateSummary()
      requires forall i | 0 <= i < |data| :: HasSource(data[i])
      modifies this
      ensures data == old(data) && sources == old(sources) && timestamp == old(timestamp)
      ensures summary == SummaryOf(|data|, Tally(data))
    {
      var counts: map<string, nat> := map[];
      var i := 0;
      while i < |data|
        invariant 0 <= i <= |data|
        invariant counts == Tally(data[..i])
      {
        assert data[..i + 1][..i] == data[..i];
        var s := SourceOf(data[i]);
        counts := counts[s := (if s in counts then counts[s] else 0) + 1];
        i := i + 1;
      }
      assert data[..i] == data;
      summary := SummaryOf(|data|, counts);
    }
  }
}
