/**
 * Building the sunburst chart's holdings: every portfolio item with a positive
 * market value becomes one holding, classified into three levels; the rest are
 * skipped, and a portfolio with no holding left is an error.
 */
module Sunburst {
  import opened Strings
  import opened Numbers
  import opened Models
  import opened Sequences
  import opened Classify

  /** One portfolio item as loaded from JSON: `None` is JSON `null`. */
  type Item = map<string, Option<Value>>

  /** Classification needs the name as a string: a present name is non-null text (the
      first rule's substring test raises `TypeError` on anything else). */
  predicate NameIsText(item: Item) {
    "name" in item ==> item["name"].Some? && item["name"].value.Text?
  }

  /** `item.get(key, default)`. */
  function GetOr(item: Item, key: string, default: Value): Option<Value> {
    if key in item then item[key] else Some(default)
  }

  function NameOf(item: Item): string {
    if "name" in item && item["name"].Some? && item["name"].value.Text? then item["name"].value.text else ""
  }

  /** `float(value)`: a number as it is, a string as `float` reads it. */
  function MarketValue(v: Value): Option<Decimal> {
    match v
    case Text(s) => ParseFloat(s)
    case Int(n) => Some(FromInt(n))
    case Num(d) => Some(d)
  }

  /** One row of the chart's table. */
  datatype Holding = Holding(name: string, code: Option<Value>, value: Decimal,
                             category: Category, source: Option<Value>)

  /** What the loop does with one item: skip it, keep a holding, or stop on a market value
      `float` cannot read or on a name classification cannot search. */
  datatype Verdict = Skip | Keep(holding: Holding) | Unreadable | Unsearchable
  {
    predicate Stops() {
      Unreadable? || Unsearchable?
    }
  }

  /** An item is skipped when its market value is missing, null or not positive. */
  function Judge(item: Item, verbose: bool): Verdict {
    if "market_value" !in item || item["market_value"].None? then Skip
    else match MarketValue(item["market_value"].value)
      case None => Unreadable
      case Some(v) =>
        if v.mantissa <= 0 then Skip
        else if !NameIsText(item) then Unsearchable
        else Keep(Held(item, v, verbose))
  }

  /** The holding kept for `item`: code and source type default to `""` and `"未知"`. */
  function Held(item: Item, value: Decimal, verbose: bool): Holding {
    var name, code := NameOf(item), GetOr(item, "code", Text(""));
    Holding(name, code, value, ClassifyHolding(name, CodeText(code), None, verbose),
            GetOr(item, "source_type", Text("未知")))
  }

  /** The code as classification receives it: text, or nothing. */
  function CodeText(code: Option<Value>): Option<string> {
    if code.Some? && code.value.Text? then Some(code.value.text) else None
  }

  /** Why no chart data was produced: the item at `index` has a market value `float`
      cannot read (`ValueError`) or a name that is not a string (`TypeError`), or no
      item has a positive market value (`ValueError`). */
  datatype Failure = NotANumber(index: nat) | NotAName(index: nat) | NoHoldings

  datatype Outcome = Built(holdings: seq<Holding>) | Failed(failure: Failure)

  /** One turn of the loop: item `index` with verdict `v`, after `so` far. */
  function Extend(so: Outcome, v: Verdict, index: nat): Outcome {
    match so
    case Failed(f) => Failed(f)
    case Built(hs) =>
      match v
      case Skip => Built(hs)
      case Keep(h) => Built(hs + [h])
      case Unreadable => Failed(NotANumber(index))
      case Unsearchable => Failed(NotAName(index))
  }

  /** The loop over `items`: the holdings kept so far, or the first failure. */
  function Collect(items: seq<Item>, verbose: bool): Outcome {
    if items == [] then Built([])
    else Extend(Collect(items[..|items| - 1], verbose), Judge(items[|items| - 1], verbose), |items| - 1)
  }

  /** What `create_sunburst_data` produces for the item list under `data` (`None` when
      the portfolio has no such key). */
  function SunburstData(data: Option<seq<Item>>, verbose: bool): Outcome {
    var items := if data.Some? then data.value else [];
    match Collect(items, verbose)
    case Failed(f) => Failed(f)
    case Built(hs) => if hs == [] then Failed(NoHoldings) else Built(hs)
  }

  /** `create_sunburst_data`: the loop, then the empty check. */
  method CreateSunburstData(data: Option<seq<Item>>, verbose: bool) returns (r: Outcome)
    ensures r == SunburstData(data, verbose)
  {
    var items := if data.Some? then data.value else [];
    r := CollectHoldings(items, verbose);
    if r.Built? && r.holdings == [] {
      r := Failed(NoHoldings);
    }
  }

  /** The loop over the items; an exception ends it. */
  method CollectHoldings(items: seq<Item>, verbose: bool) returns (r: Outcome)
    ensures r == Collect(items, verbose)
  {
    var holdings: seq<Holding> := [];
    for i := 0 to |items|
      invariant Collect(items[..i], verbose) == Built(holdings)
    {
      var v := Examine(items[i], verbose);
      CollectStep(items, i, verbose);
      match v {
        case Skip =>
        case Keep(h) =>
          holdings := holdings + [h];
        case Unreadable =>
          FailureStays(items, i + 1, verbose);
          return Failed(NotANumber(i));
        case Unsearchable =>
          FailureStays(items, i + 1, verbose);
          return Failed(NotAName(i));
      }
    }
    assert items[..|items|] == items;
    r := Built(holdings);
  }

  /** The loop body for one item, with its `continue`s and the statements that raise. */
  method Examine(item: Item, verbose: bool) returns (v: Verdict)
    ensures v == Judge(item, verbose)
  {
    var name := NameOf(item);
    var code := GetOr(item, "code", Text(""));
    var sourceType := GetOr(item, "source_type", Text("未知"));
    if "market_value" !in item || item["market_value"].None? {
      return Skip;
    }
    var value := MarketValue(item["market_value"].value);
    if value.None? {
      return Unreadable;
    }
    if value.value.mantissa <= 0 {
      return Skip;
    }
    if !NameIsText(item) {
      return Unsearchable;
    }
    var category := ClassifyHolding(name, CodeText(code), None, verbose);
    v := Keep(Holding(name, code, value.value, category, sourceType));
  }

  /** Item `i` extends the loop's outcome over the items before it. */
  lemma CollectStep(items: seq<Item>, i: nat, verbose: bool)
    requires i < |items|
    ensures Collect(items[..i + 1], verbose) == Extend(Collect(items[..i], verbose), Judge(items[i], verbose), i)
  {
    assert items[..i + 1][..i] == items[..i];
  }

  /** The holding an item contributes, if any. */
  function Kept(item: Item, verbose: bool): seq<Holding> {
    if Judge(item, verbose).Keep? then [Judge(item, verbose).holding] else []
  }

  /** The loop runs to the end exactly when no item stops it. */
  lemma {:induction false} CollectBuilt(items: seq<Item>, verbose: bool)
    ensures Collect(items, verbose).Built? <==> forall k | 0 <= k < |items| :: !Judge(items[k], verbose).Stops()
  {
    if items != [] {
      var init := items[..|items| - 1];
      assert forall k | 0 <= k < |init| :: init[k] == items[k];
      CollectBuilt(init, verbose);
    }
  }

  /** When no item stops the loop, the holdings are the kept items' holdings, in item
      order. */
  lemma {:induction false} CollectKept(items: seq<Item>, verbose: bool)
    requires forall k | 0 <= k < |items| :: !Judge(items[k], verbose).Stops()
    ensures Collect(items, verbose) == Built(FlatMap(items, item => Kept(item, verbose)))
  {
    if items != [] {
      var init := items[..|items| - 1];
      assert forall k | 0 <= k < |init| :: init[k] == items[k];
      CollectKept(init, verbose);
    }
  }

  /** A failure of the loop names the first item that stops it, and why. */
  lemma {:induction false} CollectFailure(items: seq<Item>, verbose: bool)
    requires Collect(items, verbose).Failed?
    ensures !Collect(items, verbose).failure.NoHoldings?
    ensures var f := Collect(items, verbose).failure;
      && f.index < |items|
      && (f.NotANumber? ==> Judge(items[f.index], verbose).Unreadable?)
      && (f.NotAName? ==> Judge(items[f.index], verbose).Unsearchable?)
      && forall j | 0 <= j < f.index :: !Judge(items[j], verbose).Stops()
  {
    var init := items[..|items| - 1];
    assert forall k | 0 <= k < |init| :: init[k] == items[k];
    if Collect(init, verbose).Failed? {
      CollectFailure(init, verbose);
    } else {
      CollectBuilt(init, verbose);
    }
  }

  /** Once the loop has failed, later items change nothing. */
  lemma {:induction false} FailureStays(items: seq<Item>, n: nat, verbose: bool)
    requires n <= |items| && Collect(items[..n], verbose).Failed?
    ensures Collect(items, verbose) == Collect(items[..n], verbose)
  {
    if n < |items| {
      assert items[..|items|][..|items| - 1] == items[..|items| - 1];
      assert items[..|items| - 1][..n] == items[..n];
      FailureStays(items[..|items| - 1], n, verbose);
    } else {
      assert items[..n] == items;
    }
  }

  /** A holding as the loop builds it: a positive value, and the category classification
      gives its name and code under the default rules. */
  predicate WellBuilt(h: Holding, verbose: bool) {
    && h.value.Real() > 0.0
    && h.category == ClassifyHolding(h.name, CodeText(h.code), None, verbose)
  }

  /** An item is kept exactly when its market value is present, readable and positive
      and its name searchable. */
  lemma KeptWhen(item: Item, verbose: bool)
    ensures |Kept(item, verbose)| <= 1
    ensures Kept(item, verbose) != [] <==>
      && "market_value" in item && item["market_value"].Some?
      && MarketValue(item["market_value"].value).Some?
      && MarketValue(item["market_value"].value).value.mantissa > 0
      && NameIsText(item)
  {
  }

  /** What an item keeps is well built and carries the item's name. */
  lemma KeptWellBuilt(item: Item, verbose: bool)
    ensures forall h | h in Kept(item, verbose) :: WellBuilt(h, verbose) && h.name == NameOf(item)
  {
    var v := Judge(item, verbose);
    if v.Keep? {
      var d := MarketValue(item["market_value"].value).value;
      assert v.holding == Held(item, d, verbose);
      PositiveReal(d);
      assert Kept(item, verbose) == [v.holding];
    }
  }

  /** A kept item without a name, code or source type gets `""`, `""` and `"未知"`;
      present ones are carried over as they are. */
  lemma KeptDefaults(item: Item, verbose: bool)
    ensures forall h | h in Kept(item, verbose) ::
      && (h.name == "" <== "name" !in item)
      && (h.code == if "code" in item then item["code"] else Some(Text("")))
      && (h.source == if "source_type" in item then item["source_type"] else Some(Text("未知")))
  {
    var v := Judge(item, verbose);
    if v.Keep? {
      var d := MarketValue(item["market_value"].value).value;
      assert v.holding == Held(item, d, verbose);
      assert Kept(item, verbose) == [v.holding];
    }
  }

  /** Chart data, when produced, is one well-built holding per kept item, in item order:
      never empty, and never more holdings than items. */
  lemma SunburstBuilt(data: Option<seq<Item>>, verbose: bool)
    requires SunburstData(data, verbose).Built?
    ensures data.Some?
    ensures var hs := SunburstData(data, verbose).holdings;
      && hs == FlatMap(data.value, item => Kept(item, verbose))
      && 0 < |hs| <= |data.value|
      && forall h | h in hs :: WellBuilt(h, verbose)
  {
    var items := data.value;
    CollectBuilt(items, verbose);
    CollectKept(items, verbose);
    forall item | item in items
      ensures |Kept(item, verbose)| <= 1
      ensures forall h | h in Kept(item, verbose) :: WellBuilt(h, verbose)
    {
      KeptWhen(item, verbose);
      KeptWellBuilt(item, verbose);
    }
    FlatMapAtMostOne(items, item => Kept(item, verbose));
    FlatMapAll(items, item => Kept(item, verbose), h => WellBuilt(h, verbose));
  }

  /** Without a `data` key, or when every item is skipped, there are no holdings to
      chart; otherwise the failure is the loop's own. */
  lemma SunburstNoHoldings(data: Option<seq<Item>>, verbose: bool)
    ensures data.None? ==> SunburstData(data, verbose) == Failed(NoHoldings)
    ensures data.Some? ==>
      (SunburstData(data, verbose) == Failed(NoHoldings) <==>
        forall k | 0 <= k < |data.value| :: Judge(data.value[k], verbose).Skip?)
  {
    if data.Some? {
      NothingKept(data.value, verbose);
      if Collect(data.value, verbose).Failed? {
        CollectFailure(data.value, verbose);
      }
    }
  }

  /** The loop keeps nothing exactly when every item is skipped. */
  lemma {:induction false} NothingKept(items: seq<Item>, verbose: bool)
    ensures Collect(items, verbose) == Built([]) <==>
      forall k | 0 <= k < |items| :: Judge(items[k], verbose).Skip?
  {
    if items != [] {
      var init := items[..|items| - 1];
      assert forall k | 0 <= k < |init| :: init[k] == items[k];
      NothingKept(init, verbose);
    }
  }
}
