/**
 * The Haitong Securities parser: OCR tokens, each a polygon with its text, are
 * cut down to the holdings table, ordered top to bottom, grouped into rows by
 * their vertical position, assigned to one of four columns by their horizontal
 * position, paired up (a row with a name absorbs the row below it when that one
 * has none), and turned into holding records. Coordinates are exact reals.
 */
module Haitong {
  import opened Strings
  import opened Numbers
  import opened Models
  import opened Sequences

  /** A corner of a text box. */
  datatype Point = Point(x: real, y: real)

  /** One OCR result: the box's corners, the text read in it, and the engine's confidence. */
  datatype Token = Token(box: seq<Point>, text: string, confidence: real)

  /** Every box has at least one corner; `min`, `max` and the centre's division need it. */
  predicate WellFormed(tokens: seq<Token>) {
    forall t | t in tokens :: t.box != []
  }

  // ---------------------------------------------------------------- geometry

  function Sum(s: seq<real>): real {
    if s == [] then 0.0 else s[0] + Sum(s[1..])
  }

  function MinOf(s: seq<real>): real
    requires s != []
  {
    if |s| == 1 then s[0] else Min(s[0], MinOf(s[1..]))
  }

  function MaxOf(s: seq<real>): real
    requires s != []
  {
    if |s| == 1 then s[0] else Max(s[0], MaxOf(s[1..]))
  }

  /** `MinOf` is a lower bound that is attained. */
  lemma {:induction false} MinOfIsLeast(s: seq<real>)
    requires s != []
    ensures forall k | 0 <= k < |s| :: MinOf(s) <= s[k]
    ensures exists k | 0 <= k < |s| :: MinOf(s) == s[k]
  {
    if |s| == 1 {
      assert MinOf(s) == s[0];
    } else {
      MinOfIsLeast(s[1..]);
      var k :| 0 <= k < |s[1..]| && MinOf(s[1..]) == s[1..][k];
      if MinOf(s) != s[0] {
        assert MinOf(s) == s[k + 1];
      }
    }
  }

  /** `MaxOf` is an upper bound that is attained. */
  lemma {:induction false} MaxOfIsGreatest(s: seq<real>)
    requires s != []
    ensures forall k | 0 <= k < |s| :: s[k] <= MaxOf(s)
    ensures exists k | 0 <= k < |s| :: MaxOf(s) == s[k]
  {
    if |s| == 1 {
      assert MaxOf(s) == s[0];
    } else {
      MaxOfIsGreatest(s[1..]);
      var k :| 0 <= k < |s[1..]| && MaxOf(s[1..]) == s[1..][k];
      if MaxOf(s) != s[0] {
        assert MaxOf(s) == s[k + 1];
      }
    }
  }

  function Xs(box: seq<Point>): (r: seq<real>)
    ensures |r| == |box|
  {
    seq(|box|, k requires 0 <= k < |box| => box[k].x)
  }

  function Ys(box: seq<Point>): (r: seq<real>)
    ensures |r| == |box|
  {
    seq(|box|, k requires 0 <= k < |box| => box[k].y)
  }

  function MinY(box: seq<Point>): real
    requires box != []
  {
    MinOf(Ys(box))
  }

  function MaxY(box: seq<Point>): real
    requires box != []
  {
    MaxOf(Ys(box))
  }

  /** The mean of the corners' x coordinates. */
  function CenterX(box: seq<Point>): real
    requires box != []
  {
    Sum(Xs(box)) / |box| as real
  }

  /** The mean of the corners' y coordinates: the key tokens are filtered and sorted by. */
  function CenterY(box: seq<Point>): real
    requires box != []
  {
    Sum(Ys(box)) / |box| as real
  }

  /** The extent of every corner of every token. */
  datatype Bounds = Bounds(minX: real, maxX: real, minY: real, maxY: real)

  /** Each token's smallest and largest x and y, token by token. */
  function LeftEdges(tokens: seq<Token>): (r: seq<real>)
    requires WellFormed(tokens)
    ensures |r| == |tokens|
  {
    seq(|tokens|, k requires 0 <= k < |tokens| => assert tokens[k] in tokens; MinOf(Xs(tokens[k].box)))
  }

  function RightEdges(tokens: seq<Token>): (r: seq<real>)
    requires WellFormed(tokens)
    ensures |r| == |tokens|
  {
    seq(|tokens|, k requires 0 <= k < |tokens| => assert tokens[k] in tokens; MaxOf(Xs(tokens[k].box)))
  }

  function TopEdges(tokens: seq<Token>): (r: seq<real>)
    requires WellFormed(tokens)
    ensures |r| == |tokens|
  {
    seq(|tokens|, k requires 0 <= k < |tokens| => assert tokens[k] in tokens; MinY(tokens[k].box))
  }

  function BottomEdges(tokens: seq<Token>): (r: seq<real>)
    requires WellFormed(tokens)
    ensures |r| == |tokens|
  {
    seq(|tokens|, k requires 0 <= k < |tokens| => assert tokens[k] in tokens; MaxY(tokens[k].box))
  }

  /** The smallest and largest coordinates over all corners of all tokens. */
  function ImageBounds(tokens: seq<Token>): (b: Bounds)
    requires tokens != [] && WellFormed(tokens)
  {
    Bounds(MinOf(LeftEdges(tokens)), MaxOf(RightEdges(tokens)),
           MinOf(TopEdges(tokens)), MaxOf(BottomEdges(tokens)))
  }

  /** Every corner of every token lies inside the image bounds. */
  lemma ImageBoundsContain(tokens: seq<Token>, k: nat, c: nat)
    requires tokens != [] && WellFormed(tokens)
    requires k < |tokens| && c < |tokens[k].box|
    ensures var b, p := ImageBounds(tokens), tokens[k].box[c];
      b.minX <= p.x <= b.maxX && b.minY <= p.y <= b.maxY
  {
    var box := tokens[k].box;
    assert tokens[k] in tokens;
    MinOfIsLeast(Xs(box));
    MaxOfIsGreatest(Xs(box));
    MinOfIsLeast(Ys(box));
    MaxOfIsGreatest(Ys(box));
    assert Xs(box)[c] == box[c].x && Ys(box)[c] == box[c].y;
    MinOfIsLeast(LeftEdges(tokens));
    MaxOfIsGreatest(RightEdges(tokens));
    MinOfIsLeast(TopEdges(tokens));
    MaxOfIsGreatest(BottomEdges(tokens));
    assert LeftEdges(tokens)[k] == MinOf(Xs(box)) && RightEdges(tokens)[k] == MaxOf(Xs(box));
    assert TopEdges(tokens)[k] == MinOf(Ys(box)) && BottomEdges(tokens)[k] == MaxOf(Ys(box));
  }

  // ----------------------------------------------------------- table region

  /** A token that marks the table's header: the holdings tab or the column caption. */
  predicate IsTopMarker(text: string) {
    Contains(text, "当前持仓") || Contains(text, "股票/市值")
  }

  /** The footer under the last holding. */
  const EndMarker := "以上是全部"

  /** The region scan's state: the table's top and bottom and whether a header was seen. */
  datatype Region = Region(top: real, bottom: real, detected: bool)

  /** The region scan from `r` over `tokens`: a header lowers the top to its lowest corner,
      and the first footer after a header sets the bottom to its highest corner and ends
      the scan. A token that is both a header and a footer counts as a header. */
  function ScanRegion(tokens: seq<Token>, r: Region): Region
    requires WellFormed(tokens)
  {
    if tokens == [] then r
    else if IsTopMarker(tokens[0].text) then
      ScanRegion(tokens[1..], Region(Max(r.top, MaxY(tokens[0].box)), r.bottom, true))
    else if Contains(tokens[0].text, EndMarker) && r.detected then
      Region(r.top, MinY(tokens[0].box), true)
    else ScanRegion(tokens[1..], r)
  }

  /** A header is detected exactly when some token is a header. */
  lemma {:induction false} RegionDetected(tokens: seq<Token>, r: Region)
    requires WellFormed(tokens)
    ensures ScanRegion(tokens, r).detected <==>
      r.detected || exists k | 0 <= k < |tokens| :: IsTopMarker(tokens[k].text)
  {
    if tokens != [] {
      if IsTopMarker(tokens[0].text) {
        RegionDetected(tokens[1..], Region(Max(r.top, MaxY(tokens[0].box)), r.bottom, true));
      } else if !(Contains(tokens[0].text, EndMarker) && r.detected) {
        RegionDetected(tokens[1..], r);
        assert forall k | 1 <= k < |tokens| :: tokens[k] == tokens[1..][k - 1];
      }
    }
  }

  /** The top only moves down, and only to the lowest corner of some header. */
  lemma {:induction false} RegionTop(tokens: seq<Token>, r: Region)
    requires WellFormed(tokens)
    ensures var s := ScanRegion(tokens, r);
      && s.top >= r.top
      && (s.top == r.top || exists k | 0 <= k < |tokens| ::
            IsTopMarker(tokens[k].text) && s.top == MaxY(tokens[k].box))
  {
    if tokens != [] {
      var t, rest := tokens[0], tokens[1..];
      if IsTopMarker(t.text) {
        var r' := Region(Max(r.top, MaxY(t.box)), r.bottom, true);
        RegionTop(rest, r');
        var s := ScanRegion(rest, r');
        if s.top != r'.top {
          var k :| 0 <= k < |rest| && IsTopMarker(rest[k].text) && s.top == MaxY(rest[k].box);
          assert tokens[k + 1] == rest[k];
        }
      } else if !(Contains(t.text, EndMarker) && r.detected) {
        RegionTop(rest, r);
        var s := ScanRegion(rest, r);
        if s.top != r.top {
          var k :| 0 <= k < |rest| && IsTopMarker(rest[k].text) && s.top == MaxY(rest[k].box);
          assert tokens[k + 1] == rest[k];
        }
      }
    }
  }

  /** The bottom is kept, or is the highest corner of a footer that comes after a header
      and is not itself a header. */
  lemma {:induction false} RegionBottom(tokens: seq<Token>, r: Region)
    requires WellFormed(tokens)
    ensures var s := ScanRegion(tokens, r);
      s.bottom == r.bottom || exists k | 0 <= k < |tokens| ::
        Contains(tokens[k].text, EndMarker) && !IsTopMarker(tokens[k].text) &&
        s.bottom == MinY(tokens[k].box) &&
        (r.detected || exists j | 0 <= j < k :: IsTopMarker(tokens[j].text))
  {
    if tokens != [] {
      var t, rest := tokens[0], tokens[1..];
      var r' := if IsTopMarker(t.text) then Region(Max(r.top, MaxY(t.box)), r.bottom, true) else r;
      if IsTopMarker(t.text) || !(Contains(t.text, EndMarker) && r.detected) {
        RegionBottom(rest, r');
        var s := ScanRegion(rest, r');
        if s.bottom != r.bottom {
          var k :| 0 <= k < |rest| && Contains(rest[k].text, EndMarker) && !IsTopMarker(rest[k].text) &&
            s.bottom == MinY(rest[k].box) &&
            (r'.detected || exists j | 0 <= j < k :: IsTopMarker(rest[j].text));
          assert tokens[k + 1] == rest[k];
          if !r.detected && !IsTopMarker(t.text) {
            var j :| 0 <= j < k && IsTopMarker(rest[j].text);
            assert tokens[j + 1] == rest[j];
          }
        }
      }
    }
  }

  /** Token `f` ends the scan from `r`: a footer that is not a header, met once a header
      was seen, before it or in `r`. */
  predicate StopsAt(tokens: seq<Token>, r: Region, f: int)
    requires 0 <= f < |tokens|
  {
    && Contains(tokens[f].text, EndMarker) && !IsTopMarker(tokens[f].text)
    && (r.detected || exists j | 0 <= j < f :: IsTopMarker(tokens[j].text))
  }

  /** Stepping past the first token shifts where the scan stops by one. */
  lemma StopsShift(tokens: seq<Token>, r: Region, r': Region, k: int)
    requires 0 <= k < |tokens| - 1
    requires r'.detected == (r.detected || IsTopMarker(tokens[0].text))
    ensures StopsAt(tokens[1..], r', k) <==> StopsAt(tokens, r, k + 1)
  {
    var rest := tokens[1..];
    assert rest[k] == tokens[k + 1];
    if exists j | 0 <= j < k + 1 :: IsTopMarker(tokens[j].text) {
      var j :| 0 <= j < k + 1 && IsTopMarker(tokens[j].text);
      if j > 0 {
        assert rest[j - 1] == tokens[j];
      }
    }
    if exists j | 0 <= j < k :: IsTopMarker(rest[j].text) {
      var j :| 0 <= j < k && IsTopMarker(rest[j].text);
      assert rest[j] == tokens[j + 1];
    }
  }

  /** At the first token where the scan stops, the bottom becomes that footer's highest
      corner, and the top is the lowest corner of the lowest header before it, or the
      start value when that is lower still. */
  lemma {:induction false} RegionFirstFooter(tokens: seq<Token>, r: Region, f: int)
    requires WellFormed(tokens) && 0 <= f < |tokens| && StopsAt(tokens, r, f)
    requires forall k | 0 <= k < f :: !StopsAt(tokens, r, k)
    ensures var s := ScanRegion(tokens, r);
      && s.bottom == MinY(tokens[f].box) && s.detected
      && s.top >= r.top
      && (forall k | 0 <= k < f && IsTopMarker(tokens[k].text) :: MaxY(tokens[k].box) <= s.top)
      && (s.top == r.top || exists k | 0 <= k < f ::
            IsTopMarker(tokens[k].text) && s.top == MaxY(tokens[k].box))
  {
    if f > 0 {
      var t, rest := tokens[0], tokens[1..];
      assert !StopsAt(tokens, r, 0);
      var r' := if IsTopMarker(t.text) then Region(Max(r.top, MaxY(t.box)), r.bottom, true) else r;
      assert ScanRegion(tokens, r) == ScanRegion(rest, r');
      StopsShift(tokens, r, r', f - 1);
      forall k | 0 <= k < f - 1 ensures !StopsAt(rest, r', k) {
        StopsShift(tokens, r, r', k);
      }
      RegionFirstFooter(rest, r', f - 1);
      var s := ScanRegion(rest, r');
      assert forall k | 1 <= k < f :: tokens[k] == rest[k - 1];
      if s.top != r'.top {
        var k :| 0 <= k < f - 1 && IsTopMarker(rest[k].text) && s.top == MaxY(rest[k].box);
        assert tokens[k + 1] == rest[k];
      } else if s.top != r.top {
        assert IsTopMarker(tokens[0].text) && s.top == MaxY(tokens[0].box);
      }
    }
  }

  /** Without any footer the bottom is kept and the top lies below every header. */
  lemma {:induction false} RegionWithoutFooter(tokens: seq<Token>, r: Region)
    requires WellFormed(tokens)
    requires forall k | 0 <= k < |tokens| :: !Contains(tokens[k].text, EndMarker)
    ensures var s := ScanRegion(tokens, r);
      && s.bottom == r.bottom
      && forall k | 0 <= k < |tokens| && IsTopMarker(tokens[k].text) :: MaxY(tokens[k].box) <= s.top
  {
    if tokens != [] {
      var t, rest := tokens[0], tokens[1..];
      assert forall k | 1 <= k < |tokens| :: tokens[k] == rest[k - 1];
      var r' := if IsTopMarker(t.text) then Region(Max(r.top, MaxY(t.box)), r.bottom, true) else r;
      RegionWithoutFooter(rest, r');
      RegionTop(rest, r');
    }
  }

  /** The region the source reads holdings from: the detected header and footer, or,
      with no header at all, the band from 30% to 90% of the image height. */
  function StockArea(tokens: seq<Token>): (area: (real, real))
    requires tokens != [] && WellFormed(tokens)
  {
    var b := ImageBounds(tokens);
    var r := ScanRegion(tokens, Region(0.0, b.maxY, false));
    if r.detected then (r.top, r.bottom)
    else (b.minY + (b.maxY - b.minY) * 0.3, b.minY + (b.maxY - b.minY) * 0.9)
  }

  /** The region scanning loop, which stops at the first footer after a header. */
  method FindRegion(tokens: seq<Token>, maxY: real) returns (top: real, bottom: real, detected: bool)
    requires WellFormed(tokens)
    ensures Region(top, bottom, detected) == ScanRegion(tokens, Region(0.0, maxY, false))
  {
    top, bottom, detected := 0.0, maxY, false;
    var i := 0;
    while i < |tokens|
      invariant 0 <= i <= |tokens|
      invariant ScanRegion(tokens[i..], Region(top, bottom, detected)) ==
                ScanRegion(tokens, Region(0.0, maxY, false))
    {
      var t := tokens[i];
      assert t in tokens && tokens[i..][1..] == tokens[i + 1..];
      if IsTopMarker(t.text) {
        top := Max(top, MaxY(t.box));
        detected := true;
      } else if Contains(t.text, EndMarker) && detected {
        bottom := MinY(t.box);
        break;
      }
      i := i + 1;
    }
  }

  // -------------------------------------------------------------- filtering

  /** Captions, navigation and summary texts that are never part of a holding. */
  const SkipKeywords: seq<string> :=
    ["总资产", "股票/市值", "持仓/可用", "下滑查看", "当前持仓",
     "查看盈亏", "以上是全部", "当日预估", "浮动盈亏", "股票", "理财"]

  predicate IsSkipped(text: string) {
    exists k | 0 <= k < |SkipKeywords| :: Contains(text, SkipKeywords[k])
  }

  /** A token kept for the table: no skip keyword, and its centre within the region. */
  predicate InArea(t: Token, top: real, bottom: real)
    requires t.box != []
  {
    !IsSkipped(t.text) && top <= CenterY(t.box) <= bottom
  }

  /** The tokens kept for the table, in input order. */
  function Kept(tokens: seq<Token>, top: real, bottom: real): (r: seq<Token>)
    requires WellFormed(tokens)
    ensures |r| <= |tokens| && WellFormed(r)
  {
    if tokens == [] then []
    else
      var last := tokens[|tokens| - 1];
      assert last in tokens;
      Kept(tokens[..|tokens| - 1], top, bottom) + (if InArea(last, top, bottom) then [last] else [])
  }

  /** A token is kept exactly when it is an input token inside the area. */
  lemma {:induction false} KeptExactly(tokens: seq<Token>, top: real, bottom: real)
    requires WellFormed(tokens)
    ensures forall t :: t in Kept(tokens, top, bottom) <==>
      t in tokens && t.box != [] && InArea(t, top, bottom)
  {
    if tokens != [] {
      var init, last := tokens[..|tokens| - 1], tokens[|tokens| - 1];
      KeptExactly(init, top, bottom);
      assert tokens == init + [last];
    }
  }

  /** The filtering loop. */
  method FilterTokens(tokens: seq<Token>, top: real, bottom: real) returns (kept: seq<Token>)
    requires WellFormed(tokens)
    ensures kept == Kept(tokens, top, bottom)
  {
    kept := [];
    for i := 0 to |tokens|
      invariant kept == Kept(tokens[..i], top, bottom)
    {
      var t := tokens[i];
      assert t in tokens && tokens[..i + 1][..i] == tokens[..i];
      if InArea(t, top, bottom) {
        kept := kept + [t];
      }
    }
    assert tokens[..|tokens|] == tokens;
  }

  // ---------------------------------------------------------------- sorting

  /** The sort key: the centre's y coordinate. */
  function Key(t: Token): real
    requires t.box != []
  {
    CenterY(t.box)
  }

  /** Inserts `t` before the first token whose key is not smaller. */
  function Insert(t: Token, sorted: seq<Token>): (r: seq<Token>)
    requires t.box != [] && WellFormed(sorted)
    ensures WellFormed(r)
    ensures multiset(r) == multiset(sorted) + multiset{t}
  {
    if sorted == [] || Key(t) <= Key(sorted[0]) then [t] + sorted
    else
      assert sorted[0] in sorted && sorted == [sorted[0]] + sorted[1..];
      [sorted[0]] + Insert(t, sorted[1..])
  }

  /** The tokens ordered by key, as a stable sort orders them. */
  function SortByCenter(tokens: seq<Token>): (r: seq<Token>)
    requires WellFormed(tokens)
    ensures WellFormed(r)
    ensures multiset(r) == multiset(tokens)
  {
    if tokens == [] then []
    else
      assert tokens == [tokens[0]] + tokens[1..] && tokens[0] in tokens;
      Insert(tokens[0], SortByCenter(tokens[1..]))
  }

  predicate SortedByCenter(tokens: seq<Token>)
    requires WellFormed(tokens)
  {
    forall i, j | 0 <= i < j < |tokens| :: Key(tokens[i]) <= Key(tokens[j])
  }

  /** A lower bound of `t` and of every token of `sorted` bounds the insertion too. */
  lemma {:induction false} InsertAbove(t: Token, sorted: seq<Token>, c: real)
    requires t.box != [] && WellFormed(sorted)
    requires c <= Key(t) && forall k | 0 <= k < |sorted| :: c <= Key(sorted[k])
    ensures forall k | 0 <= k < |Insert(t, sorted)| :: c <= Key(Insert(t, sorted)[k])
  {
    if sorted != [] && Key(t) > Key(sorted[0]) {
      InsertAbove(t, sorted[1..], c);
    }
  }

  lemma {:induction false} InsertSorted(t: Token, sorted: seq<Token>)
    requires t.box != [] && WellFormed(sorted) && SortedByCenter(sorted)
    ensures SortedByCenter(Insert(t, sorted))
  {
    if sorted != [] && Key(t) > Key(sorted[0]) {
      var rest := sorted[1..];
      InsertSorted(t, rest);
      InsertAbove(t, rest, Key(sorted[0]));
      var r := Insert(t, sorted);
      assert r == [sorted[0]] + Insert(t, rest);
    }
  }

  /** The sorted tokens are ordered by centre y (and, by `SortByCenter`'s contract, a
      permutation of the input). */
  lemma {:induction false} SortByCenterSorted(tokens: seq<Token>)
    requires WellFormed(tokens)
    ensures SortedByCenter(SortByCenter(tokens))
  {
    if tokens != [] {
      assert tokens == [tokens[0]] + tokens[1..] && tokens[0] in tokens;
      SortByCenterSorted(tokens[1..]);
      InsertSorted(tokens[0], SortByCenter(tokens[1..]));
    }
  }

  // ------------------------------------------------------- rows and columns

  /** Each kept token's height. */
  function Heights(tokens: seq<Token>): (r: seq<real>)
    requires WellFormed(tokens)
    ensures |r| == |tokens|
  {
    seq(|tokens|, k requires 0 <= k < |tokens| =>
      assert tokens[k] in tokens; MaxY(tokens[k].box) - MinY(tokens[k].box))
  }

  /** The vertical gap that starts a new row: one and a half mean token heights, or 50
      when no token was kept. */
  function Threshold(tokens: seq<Token>): real
    requires WellFormed(tokens)
  {
    if tokens == [] then 50.0 else Sum(Heights(tokens)) / |tokens| as real * 1.5
  }

  /** The x positions that divide the image into the four columns. */
  datatype Sections = Sections(quarter: real, half: real, threeQuarters: real)

  function ColumnSections(b: Bounds): Sections {
    var w := b.maxX - b.minX;
    Sections(b.minX + w * 0.25, b.minX + w * 0.5, b.minX + w * 0.75)
  }

  /** The fields of one row, by name, holding the token text that filled them. */
  type Row = map<string, string>

  /** The names `Place` can fill in. */
  const ColumnKeys: set<string> :=
    {"name", "market_value", "shares", "price", "cost_price", "profit_amount", "profit_rate"}

  /** A character of the CJK Unified Ideographs block. */
  predicate IsCjk(c: char) {
    '\U{4E00}' <= c <= '\U{9FFF}'
  }

  predicate HasCjk(text: string) {
    exists k | 0 <= k < |text| :: IsCjk(text[k])
  }

  /** The field one token fills, by its column and its text: in the left column a name
      (any CJK character) or a market value (digits with a point and maybe a minus); in
      the second a share count (digits and commas); in the third the first price is the
      current price and any later one the cost price; in the right column a profit
      amount (digits with a point and maybe a sign, no percent) or a profit rate (with a
      percent sign). `None` when the token fills nothing. */
  function PlaceKey(row: Row, text: string, cx: real, s: Sections): (k: Option<string>)
    ensures k.Some? ==> k.value in ColumnKeys
    ensures k == Some("price") ==> "price" !in row && '.' in text
    ensures k == Some("cost_price") ==> "price" in row && '.' in text
    ensures k == Some("shares") ==> IsDigits(RemoveChar(text, ','))
    ensures k == Some("profit_rate") ==> '%' in text
  {
    if cx < s.quarter then
      if HasCjk(text) then Some("name")
      else if '.' in text && IsDigits(RemoveChar(RemoveChar(text, '.'), '-')) then Some("market_value")
      else None
    else if s.quarter <= cx < s.half && IsDigits(RemoveChar(text, ',')) then Some("shares")
    else if s.half <= cx < s.threeQuarters && '.' in text then
      if "price" !in row then Some("price") else Some("cost_price")
    else if cx >= s.threeQuarters then
      if '.' in text && '%' !in text then
        if IsDigits(RemoveChar(RemoveChar(RemoveChar(text, '.'), '-'), '+')) then Some("profit_amount")
        else None
      else if '%' in text then Some("profit_rate")
      else None
    else None
  }

  /** Files one token into the row: the field it fills gets the token's text. */
  function Place(row: Row, text: string, cx: real, s: Sections): Row {
    match PlaceKey(row, text, cx, s)
    case Some(k) => row[k := text]
    case None => row
  }

  /** `Place` fills at most one field, with the token's own text, and only a column field;
      a price already in the row is never replaced. */
  lemma PlaceChanges(row: Row, text: string, cx: real, s: Sections)
    ensures var r := Place(row, text, cx, s);
      && r.Keys - row.Keys <= ColumnKeys
      && row.Keys <= r.Keys
      && |r.Keys - row.Keys| <= 1
      && (forall k | k in r && (k !in row || r[k] != row[k]) :: r[k] == text)
      && ("price" in row ==> r["price"] == row["price"])
      && (RowShaped(row) ==> RowShaped(r))
  {
    var r := Place(row, text, cx, s);
    match PlaceKey(row, text, cx, s)
    case Some(k) =>
      assert r.Keys - row.Keys <= {k};
    case None =>
  }

  /** The segmentation state: the rows closed so far, the row being filled, and the
      centre y of the token that opened it (0 before the first token). */
  datatype Segments = Segments(rows: seq<Row>, current: Row, anchor: real)

  /** One token: when its centre is more than `threshold` from the anchor it opens a new
      row (closing the current one if it has any field), then it is filed into the row. */
  function Step(st: Segments, t: Token, threshold: real, s: Sections): Segments
    requires t.box != []
  {
    var cy := CenterY(t.box);
    var st1 :=
      if Abs(cy - st.anchor) > threshold then
        Segments(if st.current != map[] then st.rows + [st.current] else st.rows, map[], cy)
      else st;
    st1.(current := Place(st1.current, t.text, CenterX(t.box), s))
  }

  function Abs(x: real): real {
    if x < 0.0 then -x else x
  }

  /** The state after the tokens, one `Step` each from no rows and anchor 0. */
  function Fold(tokens: seq<Token>, threshold: real, s: Sections): Segments
    requires WellFormed(tokens)
  {
    if tokens == [] then Segments([], map[], 0.0)
    else
      assert tokens[|tokens| - 1] in tokens;
      Step(Fold(tokens[..|tokens| - 1], threshold, s), tokens[|tokens| - 1], threshold, s)
  }

  /** The rows `tokens` fall into: the closed rows and the last one, if it has any field. */
  function Segment(tokens: seq<Token>, threshold: real, s: Sections): seq<Row>
    requires WellFormed(tokens)
  {
    var st := Fold(tokens, threshold, s);
    if st.current != map[] then st.rows + [st.current] else st.rows
  }

  /** A row as `Place` fills it: column fields only, a share count that is digits once
      its commas are gone, and a profit rate with a percent sign. */
  predicate RowShaped(row: Row) {
    && row.Keys <= ColumnKeys
    && ("shares" in row ==> IsDigits(RemoveChar(row["shares"], ',')))
    && ("profit_rate" in row ==> '%' in row["profit_rate"])
  }

  /** Every closed row is non-empty and shaped, and so is the row being filled. */
  predicate SegmentsShaped(st: Segments) {
    && (forall k | 0 <= k < |st.rows| :: st.rows[k] != map[] && RowShaped(st.rows[k]))
    && RowShaped(st.current)
  }

  /** The rows of a state, counting an unfinished non-empty one. */
  function RowCount(st: Segments): nat {
    |st.rows| + (if st.current != map[] then 1 else 0)
  }

  /** One token keeps the state shaped and adds at most one row. */
  lemma StepShape(st: Segments, t: Token, threshold: real, s: Sections)
    requires t.box != [] && SegmentsShaped(st)
    ensures SegmentsShaped(Step(st, t, threshold, s))
    ensures RowCount(Step(st, t, threshold, s)) <= RowCount(st) + 1
  {
    var cy := CenterY(t.box);
    var st1 :=
      if Abs(cy - st.anchor) > threshold then
        Segments(if st.current != map[] then st.rows + [st.current] else st.rows, map[], cy)
      else st;
    assert SegmentsShaped(st1) && RowCount(st1) <= RowCount(st) && (st1.current == map[] || st1.current == st.current);
    PlaceShape(st1, t.text, CenterX(t.box), s);
  }

  /** Filing a token into the current row keeps the state shaped, and adds a row only
      when the current row was empty. */
  lemma PlaceShape(st: Segments, text: string, cx: real, s: Sections)
    requires SegmentsShaped(st)
    ensures SegmentsShaped(st.(current := Place(st.current, text, cx, s)))
    ensures RowCount(st.(current := Place(st.current, text, cx, s))) <=
      RowCount(st) + (if st.current == map[] then 1 else 0)
  {
    PlaceChanges(st.current, text, cx, s);
    var r := Place(st.current, text, cx, s);
    assert st.current != map[] ==> r != map[] by {
      if st.current != map[] {
        var k :| k in st.current;
        assert k in r;
      }
    }
  }

  /** Every closed row is non-empty and holds column fields only; there are no more rows,
      counting an unfinished non-empty one, than tokens. */
  lemma {:induction false} FoldShape(tokens: seq<Token>, threshold: real, s: Sections)
    requires WellFormed(tokens)
    ensures SegmentsShaped(Fold(tokens, threshold, s))
    ensures RowCount(Fold(tokens, threshold, s)) <= |tokens|
  {
    if tokens != [] {
      var init, t := tokens[..|tokens| - 1], tokens[|tokens| - 1];
      assert t in tokens;
      FoldShape(init, threshold, s);
      StepShape(Fold(init, threshold, s), t, threshold, s);
    }
  }

  /** The rows are non-empty, hold column fields only, and are no more than the tokens. */
  lemma SegmentShape(tokens: seq<Token>, threshold: real, s: Sections)
    requires WellFormed(tokens)
    ensures var rows := Segment(tokens, threshold, s);
      && |rows| <= |tokens|
      && forall k | 0 <= k < |rows| :: rows[k] != map[] && RowShaped(rows[k])
  {
    FoldShape(tokens, threshold, s);
  }

  /** The segmentation loop over the sorted tokens. */
  method SegmentRows(tokens: seq<Token>, threshold: real, s: Sections) returns (rows: seq<Row>)
    requires WellFormed(tokens)
    ensures rows == Segment(tokens, threshold, s)
  {
    rows := [];
    var current: Row := map[];
    var anchor := 0.0;
    for i := 0 to |tokens|
      invariant Segments(rows, current, anchor) == Fold(tokens[..i], threshold, s)
    {
      var t := tokens[i];
      assert t in tokens && tokens[..i + 1][..i] == tokens[..i];
      var cx, cy := CenterX(t.box), CenterY(t.box);
      if Abs(cy - anchor) > threshold {
        if current != map[] {
          rows := rows + [current];
          current := map[];
        }
        anchor := cy;
      }
      current := Place(current, t.text, cx, s);
    }
    assert tokens[..|tokens|] == tokens;
    if current != map[] {
      rows := rows + [current];
    }
  }

  // ---------------------------------------------------------------- merging

  /** A row with a name followed by a row without one are one holding: the pair becomes
      one row where the first row's fields win, and both are consumed. */
  function Merge(rows: seq<Row>): seq<Row> {
    if rows == [] then []
    else if |rows| >= 2 && "name" in rows[0] && "name" !in rows[1] then
      [rows[1] + rows[0]] + Merge(rows[2..])
    else [rows[0]] + Merge(rows[1..])
  }

  /** Merging at most halves the rows. */
  lemma {:induction false} MergeLength(rows: seq<Row>)
    ensures |Merge(rows)| <= |rows| <= 2 * |Merge(rows)|
  {
    if rows != [] {
      if |rows| >= 2 && "name" in rows[0] && "name" !in rows[1] {
        MergeLength(rows[2..]);
      } else {
        MergeLength(rows[1..]);
      }
    }
  }

  /** `o` is input row `i` as it is, or rows `i` and `i + 1` merged with row `i` winning. */
  predicate MergedFrom(o: Row, rows: seq<Row>, i: int) {
    0 <= i < |rows| &&
    (o == rows[i] ||
     (i + 1 < |rows| && "name" in rows[i] && "name" !in rows[i + 1] &&
      o.Keys == rows[i].Keys + rows[i + 1].Keys &&
      (forall k | k in rows[i] :: o[k] == rows[i][k]) &&
      (forall k | k in o && k !in rows[i] :: o[k] == rows[i + 1][k])))
  }

  /** How many input rows the first merged row consumes. */
  function Consumed(rows: seq<Row>): nat
    requires rows != []
  {
    if |rows| >= 2 && "name" in rows[0] && "name" !in rows[1] then 2 else 1
  }

  function Shift(s: seq<int>, d: int): (r: seq<int>)
    ensures |r| == |s| && forall k | 0 <= k < |s| :: r[k] == s[k] + d
  {
    seq(|s|, k requires 0 <= k < |s| => s[k] + d)
  }

  /** The index of the input row each merged row begins with. */
  function Origins(rows: seq<Row>): (r: seq<int>)
    ensures |r| == |Merge(rows)|
  {
    if rows == [] then []
    else [0] + Shift(Origins(rows[Consumed(rows)..]), Consumed(rows))
  }

  /** Every merged row is the input row it begins with, or that row (which has a name)
      merged with the next one (which has none), the first row's fields winning. */
  lemma {:induction false} MergeOrigins(rows: seq<Row>)
    ensures forall j | 0 <= j < |Merge(rows)| :: MergedFrom(Merge(rows)[j], rows, Origins(rows)[j])
  {
    if rows != [] {
      var m, o, skip := Merge(rows), Origins(rows), Consumed(rows);
      var rest := rows[skip..];
      MergeOrigins(rest);
      assert m == [m[0]] + Merge(rest);
      if skip == 2 {
        assert m[0] == rows[1] + rows[0];
      }
      assert MergedFrom(m[0], rows, 0);
      forall j | 1 <= j < |m| ensures MergedFrom(m[j], rows, o[j]) {
        assert m[j] == Merge(rest)[j - 1] && o[j] == Origins(rest)[j - 1] + skip;
        MergedFromSuffix(m[j], rows, skip, Origins(rest)[j - 1]);
      }
    }
  }

  lemma MergedFromSuffix(o: Row, rows: seq<Row>, skip: nat, i: int)
    requires skip <= |rows| && MergedFrom(o, rows[skip..], i)
    ensures MergedFrom(o, rows, i + skip)
  {
    assert rows[i + skip] == rows[skip..][i];
    assert i + 1 < |rows[skip..]| ==> rows[i + skip + 1] == rows[skip..][i + 1];
  }

  /** Merged rows keep the input order: their origins strictly increase and lie in range. */
  lemma {:induction false} OriginsIncrease(rows: seq<Row>)
    ensures forall j | 0 <= j < |Origins(rows)| :: 0 <= Origins(rows)[j] < |rows|
    ensures forall j | 0 < j < |Origins(rows)| :: Origins(rows)[j - 1] < Origins(rows)[j]
  {
    if rows != [] {
      var skip := Consumed(rows);
      OriginsIncrease(rows[skip..]);
      var o, t := Origins(rows), Origins(rows[skip..]);
      assert o == [0] + Shift(t, skip);
      assert |t| == |o| - 1 && |rows[skip..]| == |rows| - skip;
      forall j | 0 <= j < |o| ensures 0 <= o[j] < |rows| {
        if j > 0 {
          assert o[j] == t[j - 1] + skip;
        }
      }
      forall j | 0 < j < |o| ensures o[j - 1] < o[j] {
        assert o[j] == t[j - 1] + skip;
        if j > 1 {
          assert o[j - 1] == t[j - 2] + skip;
        }
      }
    }
  }

  /** The merging loop, stepping one row or two. */
  method MergeRows(rows: seq<Row>) returns (organized: seq<Row>)
    ensures organized == Merge(rows)
  {
    organized := [];
    var i := 0;
    while i < |rows|
      invariant 0 <= i <= |rows|
      invariant organized + Merge(rows[i..]) == Merge(rows)
    {
      MergeAt(rows, i);
      var current := rows[i];
      if i + 1 < |rows| {
        var next := rows[i + 1];
        if "name" in current && "name" !in next {
          var merged := current;
          merged := next + merged;
          assert [merged] + Merge(rows[i + 2..]) == Merge(rows[i..]);
          organized := organized + [merged];
          i := i + 2;
          continue;
        }
      }
      organized := organized + [current];
      i := i + 1;
    }
  }

  /** Merging from row `i` looks at rows `i` and `i + 1` only. */
  lemma MergeAt(rows: seq<Row>, i: nat)
    requires i < |rows|
    ensures i + 1 < |rows| && "name" in rows[i] && "name" !in rows[i + 1] ==>
      Merge(rows[i..]) == [rows[i + 1] + rows[i]] + Merge(rows[i + 2..])
    ensures !(i + 1 < |rows| && "name" in rows[i] && "name" !in rows[i + 1]) ==>
      Merge(rows[i..]) == [rows[i]] + Merge(rows[i + 1..])
  {
    assert rows[i..][1..] == rows[i + 1..];
    if i + 1 < |rows| {
      assert rows[i..][2..] == rows[i + 2..];
    }
  }

  /** A named row and an unnamed one merge into a row of the same shape. */
  lemma MergeShaped(rows: seq<Row>)
    requires forall k | 0 <= k < |rows| :: RowShaped(rows[k])
    ensures forall j | 0 <= j < |Merge(rows)| :: RowShaped(Merge(rows)[j])
  {
    MergeOrigins(rows);
    forall j | 0 <= j < |Merge(rows)| ensures RowShaped(Merge(rows)[j]) {
      var i := Origins(rows)[j];
      assert MergedFrom(Merge(rows)[j], rows, i);
    }
  }

  // --------------------------------------------------------------- emission

  /** One optional field of a record: not in the row, converted, or failed to convert. */
  datatype Field = Absent | Read(value: Value) | Failed
  {
    function Attribute(): Option<Value> {
      if Read? then Some(value) else None
    }
  }

  /** `float(row[key])` when the row has `key`. */
  function FloatField(stock: Row, key: string): Field {
    if key !in stock then Absent
    else match ParseFloat(stock[key])
      case Some(d) => Read(Num(d))
      case None => Failed
  }

  /** `int` of the share count with its thousands separators removed. */
  function SharesField(stock: Row): Field {
    if "shares" !in stock then Absent
    else match ParseInt(RemoveChar(stock["shares"], ','))
      case Some(n) => Read(Int(n))
      case None => Failed
  }

  /** The profit rate without its percent signs, read as a float and divided by 100; only
      a rate that contains a percent sign is read. */
  function RateField(stock: Row): Field {
    if "profit_rate" in stock && '%' in stock["profit_rate"] then
      match ParseFloat(RemoveChar(stock["profit_rate"], '%'))
      case Some(d) => Read(Num(Hundredth(d)))
      case None => Failed
    else Absent
  }

  /** A row worth a record: a name, and a share count or a market value. */
  predicate Complete(stock: Row) {
    "name" in stock && ("shares" in stock || "market_value" in stock)
  }

  /** The record of a complete row, or `None` when any of its conversions fails. */
  function Convert(stock: Row): Option<Record>
    requires "name" in stock
  {
    var quantity, price, cost := SharesField(stock), FloatField(stock, "price"), FloatField(stock, "cost_price");
    var market, profit, rate := FloatField(stock, "market_value"), FloatField(stock, "profit_amount"), RateField(stock);
    if quantity.Failed? || price.Failed? || cost.Failed? || market.Failed? || profit.Failed? || rate.Failed?
    then None
    else Some(Empty().(
      name := Some(Text(stock["name"])),
      quantity := quantity.Attribute(), currentPrice := price.Attribute(),
      costPrice := cost.Attribute(), marketValue := market.Attribute(),
      profitAmount := profit.Attribute(), profitRatio := rate.Attribute()))
  }

  /** The output for one merged row: nothing for an incomplete row or a failed conversion. */
  function StockDicts(stock: Row): seq<Dict> {
    if !Complete(stock) then []
    else match Convert(stock)
      case Some(r) => [r.ToDict()]
      case None => []
  }

  function Emit(stocks: seq<Row>): seq<Dict> {
    FlatMap(stocks, StockDicts)
  }

  /** The keys a Haitong record can have. */
  const RecordKeys: set<string> :=
    {"name", "quantity", "current_price", "cost_price", "market_value", "profit_amount", "profit_ratio"}

  /** A record from a row has the row's name as text, and exactly the attributes whose
      source fields the row has: the ratio only for a rate with a percent sign. It never
      has a code or a position ratio. */
  lemma ConvertFields(stock: Row)
    requires Complete(stock) && Convert(stock).Some?
    ensures var r := Convert(stock).value;
      && r.name == Some(Text(stock["name"]))
      && r.code.None? && r.positionRatio.None?
      && (r.quantity.Some? <==> "shares" in stock)
      && (r.currentPrice.Some? <==> "price" in stock)
      && (r.costPrice.Some? <==> "cost_price" in stock)
      && (r.marketValue.Some? <==> "market_value" in stock)
      && (r.profitAmount.Some? <==> "profit_amount" in stock)
      && (r.profitRatio.Some? <==> "profit_rate" in stock && '%' in stock["profit_rate"])
  {
  }

  /** A share count `Place` accepted is always read by `int`. */
  lemma SharesAlwaysRead(stock: Row)
    requires RowShaped(stock)
    ensures !SharesField(stock).Failed?
  {
    if "shares" in stock {
      ParseIntDigits(RemoveChar(stock["shares"], ','));
    }
  }

  /** A row whose conversion fails is dropped on its own: the rows around it give the
      same records as without it. */
  lemma FailedRowDropped(before: seq<Row>, stock: Row, after: seq<Row>)
    requires Complete(stock) ==> Convert(stock).None?
    ensures Emit(before + [stock] + after) == Emit(before) + Emit(after)
  {
    assert StockDicts(stock) == [];
    FlatMapAppend(before + [stock], after, StockDicts);
    FlatMapAppend(before, [stock], StockDicts);
    assert FlatMap([stock], StockDicts) == FlatMap([], StockDicts) + StockDicts(stock);
  }

  /** Each row gives at most one record. */
  lemma EmitCount(stocks: seq<Row>)
    ensures |Emit(stocks)| <= |stocks|
  {
    FlatMapAtMostOne(stocks, StockDicts);
  }

  /** One iteration of the emission loop on a complete row: the conversions run in the
      source's order, the first failure abandons the row. */
  method ReadStock(stock: Row) returns (d: Option<Dict>)
    requires Complete(stock)
    ensures d.Some? <==> Convert(stock).Some?
    ensures d.Some? ==> d.value == Convert(stock).value.ToDict()
  {
    var quantity, price, cost, market, profit, rate := None, None, None, None, None, None;
    if "shares" in stock {
      var n := ParseInt(RemoveChar(stock["shares"], ','));
      if n.None? { return None; }
      quantity := Some(Int(n.value));
    }
    assert quantity == SharesField(stock).Attribute() && !SharesField(stock).Failed?;
    if "price" in stock {
      var x := ParseFloat(stock["price"]);
      if x.None? { return None; }
      price := Some(Num(x.value));
    }
    assert price == FloatField(stock, "price").Attribute() && !FloatField(stock, "price").Failed?;
    if "cost_price" in stock {
      var x := ParseFloat(stock["cost_price"]);
      if x.None? { return None; }
      cost := Some(Num(x.value));
    }
    assert cost == FloatField(stock, "cost_price").Attribute() && !FloatField(stock, "cost_price").Failed?;
    if "market_value" in stock {
      var x := ParseFloat(stock["market_value"]);
      if x.None? { return None; }
      market := Some(Num(x.value));
    }
    assert market == FloatField(stock, "market_value").Attribute() && !FloatField(stock, "market_value").Failed?;
    if "profit_amount" in stock {
      var x := ParseFloat(stock["profit_amount"]);
      if x.None? { return None; }
      profit := Some(Num(x.value));
    }
    assert profit == FloatField(stock, "profit_amount").Attribute() && !FloatField(stock, "profit_amount").Failed?;
    if "profit_rate" in stock && '%' in stock["profit_rate"] {
      var x := ParseFloat(RemoveChar(stock["profit_rate"], '%'));
      if x.None? { return None; }
      rate := Some(Num(Hundredth(x.value)));
    }
    assert rate == RateField(stock).Attribute() && !RateField(stock).Failed?;
    var dict := BuildStock(stock["name"], quantity, price, cost, market, profit, rate);
    d := Some(dict);
  }

  /** A fresh `InvestmentInfo` whose attributes are assigned one by one, then its dictionary. */
  method BuildStock(name: string, quantity: Option<Value>, price: Option<Value>, cost: Option<Value>,
                    market: Option<Value>, profit: Option<Value>, rate: Option<Value>) returns (d: Dict)
    ensures d == Record(Some(Text(name)), None, quantity, market, cost, price, None, rate, profit).ToDict()
  {
    var info := new InvestmentInfo();
    info.name := Some(Text(name));
    if quantity.Some? { info.quantity := quantity; }
    if price.Some? { info.currentPrice := price; }
    if cost.Some? { info.costPrice := cost; }
    if market.Some? { info.marketValue := market; }
    if profit.Some? { info.profitAmount := profit; }
    if rate.Some? { info.profitRatio := rate; }
    assert info.Attributes() == Record(Some(Text(name)), None, quantity, market, cost, price, None, rate, profit);
    d := info.ToDict();
  }

  /** The emission loop: incomplete rows are skipped, and so are rows that fail to convert. */
  method EmitRecords(stocks: seq<Row>) returns (results: seq<Dict>)
    ensures results == Emit(stocks)
  {
    results := [];
    for i := 0 to |stocks|
      invariant results == Emit(stocks[..i])
    {
      var stock := stocks[i];
      assert stocks[..i + 1][..i] == stocks[..i];
      if !Complete(stock) {
        continue;
      }
      var d := ReadStock(stock);
      if d.Some? {
        results := results + [d.value];
      }
    }
    assert stocks[..|stocks|] == stocks;
  }

  // ----------------------------------------------------------------- parser

  /** The merged rows of `parse_haitong_stock_data`, before emission. */
  function Organized(tokens: seq<Token>): seq<Row>
    requires tokens != [] && WellFormed(tokens)
  {
    var area := StockArea(tokens);
    var sorted := SortByCenter(Kept(tokens, area.0, area.1));
    Merge(Segment(sorted, Threshold(sorted), ColumnSections(ImageBounds(tokens))))
  }

  /** What `parse_haitong_stock_data` returns for `tokens`. */
  function HaitongRecords(tokens: seq<Token>): seq<Dict>
    requires WellFormed(tokens)
  {
    if tokens == [] then [] else Emit(Organized(tokens))
  }

  /** `parse_haitong_stock_data`: bounds, region, filter, sort, rows, merge, records. */
  method ParseHaitongStockData(tokens: seq<Token>) returns (results: seq<Dict>)
    requires WellFormed(tokens)
    ensures results == HaitongRecords(tokens)
    ensures tokens == [] ==> results == []
  {
    if |tokens| == 0 {
      return [];
    }
    var b := ImageBounds(tokens);
    var top, bottom := FindArea(tokens, b);
    var kept := FilterTokens(tokens, top, bottom);
    var sorted := SortByCenter(kept);
    var rows := SegmentRows(sorted, Threshold(sorted), ColumnSections(b));
    var organized := MergeRows(rows);
    assert organized == Organized(tokens);
    results := EmitRecords(organized);
  }

  /** The detected region, or the 30%-90% band of the image when no header was seen. */
  method FindArea(tokens: seq<Token>, b: Bounds) returns (top: real, bottom: real)
    requires tokens != [] && WellFormed(tokens) && b == ImageBounds(tokens)
    ensures (top, bottom) == StockArea(tokens)
  {
    var detected;
    top, bottom, detected := FindRegion(tokens, b.maxY);
    if !detected {
      top := b.minY + (b.maxY - b.minY) * 0.3;
      bottom := b.minY + (b.maxY - b.minY) * 0.9;
    }
  }

  /** Every merged row has the shape `Place` gives it, so no share count fails `int`. */
  lemma OrganizedShaped(tokens: seq<Token>)
    requires tokens != [] && WellFormed(tokens)
    ensures forall j | 0 <= j < |Organized(tokens)| ::
      RowShaped(Organized(tokens)[j]) && !SharesField(Organized(tokens)[j]).Failed?
  {
    var area := StockArea(tokens);
    var sorted := SortByCenter(Kept(tokens, area.0, area.1));
    var rows := Segment(sorted, Threshold(sorted), ColumnSections(ImageBounds(tokens)));
    SegmentShape(sorted, Threshold(sorted), ColumnSections(ImageBounds(tokens)));
    MergeShaped(rows);
    forall j | 0 <= j < |Organized(tokens)| ensures !SharesField(Organized(tokens)[j]).Failed? {
      SharesAlwaysRead(Organized(tokens)[j]);
    }
  }

  /** There are no more records than tokens, and each has a name and a quantity or a
      market value. */
  lemma RecordsShaped(tokens: seq<Token>)
    requires WellFormed(tokens)
    ensures |HaitongRecords(tokens)| <= |tokens|
    ensures forall d | d in HaitongRecords(tokens) :: RecordShaped(d)
  {
    if tokens != [] {
      var area := StockArea(tokens);
      var kept := Kept(tokens, area.0, area.1);
      var sorted := SortByCenter(kept);
      var rows := Segment(sorted, Threshold(sorted), ColumnSections(ImageBounds(tokens)));
      SegmentShape(sorted, Threshold(sorted), ColumnSections(ImageBounds(tokens)));
      assert |sorted| == |kept| by {
        assert |multiset(sorted)| == |multiset(kept)|;
      }
      MergeLength(rows);
      EmitCount(Organized(tokens));
      EmitRecordsShaped(Organized(tokens));
    }
  }

  predicate RecordShaped(d: Dict) {
    "name" in d && ("quantity" in d || "market_value" in d) && d.Keys <= RecordKeys
  }

  lemma StockDictsShaped(stock: Row)
    ensures forall d | d in StockDicts(stock) :: RecordShaped(d)
  {
    if Complete(stock) && Convert(stock).Some? {
      ConvertFields(stock);
      var r := Convert(stock).value;
      var d := r.ToDict();
      assert StockDicts(stock) == [d];
      assert "code" !in d && "position_ratio" !in d;
      assert forall k | k in d :: k in FieldNames;
    }
  }

  lemma {:induction false} EmitRecordsShaped(stocks: seq<Row>)
    ensures forall d | d in Emit(stocks) :: RecordShaped(d)
  {
    if stocks != [] {
      var init, last := stocks[..|stocks| - 1], stocks[|stocks| - 1];
      EmitRecordsShaped(init);
      StockDictsShaped(last);
      assert Emit(stocks) == Emit(init) + StockDicts(last);
    }
  }
}
