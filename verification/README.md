# TradeTally holdings pipeline, modelled in Dafny

TradeTally reads holdings screenshots from three sources after they have been through
OCR: the huabao broker app, the haitong broker app and the fund_e fund account. It
decides which layout a screenshot has. It parses each layout into a unified
`InvestmentInfo` record, and tallies a batch of records by source. For the sunburst
chart, it also classifies every holding into a three-level category with a
first-match rule table.

The model has one Dafny module per source file, plus four shared modules:

| module | models |
|---|---|
| `Models` | `InvestmentInfo` as a class with nine optional attributes, and the value `Record` of those attributes. `to_dict` is written on both. |
| `Classify` | The rule datatype and the 27-rule default table, each rule a named constant. `classify_holding` is the loop over the rules. |
| `Ocr` | `detect_channel` as a pure decision function over the recognised lines. `generate_summary` as a method on a `BatchResult` object. |
| `Huabao` | `parse_huabao_stock_data`. |
| `FundE` | `parse_fund_data`. |
| `Haitong` | `parse_haitong_stock_data`. |
| `Sunburst` | `create_sunburst_data`. |
| `Strings`, `Numbers`, `Sequences` | Python string methods, `float()`/`int()`/`round()` on decimal text, and an order-preserving filter-map. |

Each parser is imperative: a method whose loops follow the source's loops. It is proved
equal to a specification function (`HuabaoRecords`, `FundRecords`, `HaitongRecords`,
`SunburstData`). Lemmas state what the source promises about that function.

A Python `float` is modelled as the exact decimal it was read from: `Decimal(mantissa,
scale)`. `x / 100` is `Hundredth`, and `round(x, 4)` is `Round4`, which rounds half to
even on the decimal digits. A value that `float()` or `int()` rejects is `None`. The
parser then takes the same exception path as the source.

The huabao start offset is the first `.SH`/`.SZ` line's index minus 4. The code does
not clamp it at zero (parsers/huabao.py:11), so Python's negative slice applies.

## Model

| member | source | states |
|---|---|---|
| Models.Record.ToDict | models.py:17-18 | The dictionary has a key exactly for each attribute that is not `None`, maps it to that attribute's value, and uses only the nine field names. |
| Models.FromToDict | models.py:17-18 | The record can be read back from its dictionary: `to_dict` loses no attribute that is set. |
| Models.EmptyDict | models.py:3-18 | The dictionary is empty exactly when every attribute is `None`. |
| Models.ToDictInjective | models.py:17-18 | Two records with the same dictionary are equal. |
| Models.InvestmentInfo.constructor | models.py:3-15 | Each keyword argument is stored unchanged in the attribute of the same name. |
| Models.InvestmentInfo.ToDict | models.py:17-18 | On the object: keys are field names mapped to the current attribute values, `name` and `market_value` are present exactly when set, and the attributes come back from the dictionary. |
| Models.NoArguments | models.py:3-18 | `InvestmentInfo()` with no arguments gives the empty dictionary. |
| Classify.ClassifyWith | sunburst/classify.py:92-173 | With no matching rule the result is ("其他","其他","其他"). Otherwise it is the category of some rule that matches the name. |
| Classify.FirstMatchDecides | sunburst/classify.py:92-168 | The earliest matching rule's category is the result. |
| Classify.FirstMatchWins | sunburst/classify.py:92-168 | A matching rule after non-matching ones decides the result whatever rules follow it. |
| Classify.ClassifyHolding | sunburst/classify.py:73-92 | An empty rule list gives ("其他","其他","其他"). |
| Classify.DefaultTableDecides | sunburst/classify.py:4-87 | Under the default table every name gets one of the table's categories. The last rule is the catch-all. |
| Classify.ResultIgnoresCodeAndVerbose | sunburst/classify.py:73-173 | The result depends on the name and the rules only, not on `code` or `verbose`. |
| Classify.LaterTestsStillApply | sunburst/classify.py:94-168 | When a rule's exact and keyword tests fail, the same rule still matches through its pattern, and failing that through its `default` flag. |
| Classify.AndKeywordsShadowExclude | sunburst/classify.py:119-150 | A rule with `and_keywords` matches the same with or without its `exclude` list. |
| Classify.HangSengHealthcareSkipsSectorRules | sunburst/classify.py:7-14 | "恒生医疗ETF" matches neither the first rule nor the 医药 rule, which excludes 恒生, nor the 环保 rule. |
| Classify.HangSengHealthcareSkipsConsumerRules | sunburst/classify.py:15-20 | "恒生医疗ETF" matches none of the 养老, 消费, 信息 and 农业 rules. |
| Classify.HangSengHealthcareSkipsEnergyRules | sunburst/classify.py:23-31 | "恒生医疗ETF" matches neither energy rule nor the first 红利 rule. |
| Classify.HangSengHealthcareSkipsStrategyRules | sunburst/classify.py:32-39 | "恒生医疗ETF" matches neither the second 红利 rule, nor the 500低波动 rule, nor the 恒生科技 rule. |
| Classify.HangSengHealthcareSkipsEarlierRules | sunburst/classify.py:7-39 | No rule before the 恒生医疗 rule matches "恒生医疗ETF". |
| Classify.HangSengHealthcare | sunburst/classify.py:10-40 | "恒生医疗ETF" is classified ("海外新兴","海外医疗","恒生医疗") for any code and verbosity. |
| Ocr.Count | ocr.py:45-47 | A boolean sum is at most the number of features, and is 0 exactly when no feature holds. |
| Ocr.HuabaoScore | ocr.py:19-45 | The huabao score is at most 5. |
| Ocr.HaitongScore | ocr.py:28-46 | The haitong score is at most 5. When it is 0, no line contains 以上是全部. |
| Ocr.FundEScore | ocr.py:37-47 | The fund_e score is at most 4. |
| Ocr.DetectChannel | ocr.py:16-69 | Each channel is returned exactly under its condition. huabao: its score is positive and no lower than the others, or all scores are 0 and lines contain 持仓 and 盈亏. haitong: its score is positive, above huabao's and no lower than fund_e's. fund_e: its score is the strict maximum, or all scores are 0, the 持仓/盈亏 test fails and a line contains 资产情况. Otherwise `None`. |
| Ocr.NoLinesNoChannel | ocr.py:66-69 | No lines give `None`. |
| Ocr.HoldingOnLastLineAlone | ocr.py:38 | A 持有份额 line only counts when a following line exists. |
| Ocr.FallbackNeverHaitong | ocr.py:60-65 | The fallback's haitong answer cannot be reached, since the fallback runs only with a haitong score of 0. |
| Ocr.TallyCounts | ocr.py:217-220 | The tally has a key exactly for each source that occurs, holding the number of items with that source. |
| Ocr.OccurrencesSum | ocr.py:214-223 | The per-source counts over distinct sources add up to the number of items. |
| Ocr.SummaryEntries | ocr.py:214-223 | The summary has `<source>_count` for each tallied source and `total_count`, and no other key. `total_count` is the size unless a source named "total" overwrote it. |
| Ocr.BatchSummary | ocr.py:211-226 | For a batch, each occurring source's entry is its item count. `total_count` is the batch size unless a source is named "total". |
| Ocr.BatchResult.GenerateSummary | ocr.py:211-226 | Replaces the summary with the tally of the data and changes nothing else. |
| Huabao.Filtered | parsers/huabao.py:7-8 | Filtering never adds lines. |
| Huabao.FilteredClean | parsers/huabao.py:7-8 | Every kept line is stripped and is not one of the ten labels. |
| Huabao.FilteredAppend | parsers/huabao.py:7-8 | Filtering keeps the lines' order: filtering two pieces and joining them gives the filtered whole. |
| Huabao.FilteredMembers | parsers/huabao.py:7-8 | A text is in the filtered list exactly when it is some line's stripped text and is not a label. |
| Huabao.FilteredLength | parsers/huabao.py:7-8 | The filtered list is as long as the input less the number of lines whose stripped text is a label. |
| Huabao.FirstSecurityLine | parsers/huabao.py:11 | The index found is the first line containing .SH or .SZ. `None` means no line does. |
| Huabao.SliceFrom | parsers/huabao.py:16 | Python's `s[start:]`, with negative starts counting from the end. |
| Huabao.Blocks | parsers/huabao.py:14-20 | There are ⌊n/10⌋ blocks. |
| Huabao.BlocksLength | parsers/huabao.py:18-20 | Every block has exactly ten lines. |
| Huabao.BlocksAt | parsers/huabao.py:14-20 | Block k is lines 10k to 10k+9: consecutive and non-overlapping. |
| Huabao.CutBlocks | parsers/huabao.py:14-20 | The blocking loop produces exactly `Blocks` of the slice. |
| Huabao.DecodedFields | parsers/huabao.py:25-35 | A block decodes exactly when all seven conversions succeed. Then name and code are lines 0 and 4 verbatim, quantity is `int` of line 2 and market value is `float` of line 9. |
| Huabao.BlockDicts | parsers/huabao.py:24-38 | A block gives at most one dictionary. |
| Huabao.ReadBlock | parsers/huabao.py:25-38 | Runs the conversions in source order. It fails exactly when the decode fails, and otherwise returns the decoded record's dictionary. |
| Huabao.DecodeBlocks | parsers/huabao.py:23-38 | The decoding loop equals the filter-map of the blocks. |
| Huabao.ParseHuabaoStockData | parsers/huabao.py:4-40 | The parser's result is `HuabaoRecords(lines)`. |
| Huabao.RecordsPerBlock | parsers/huabao.py:23-40 | There are no more records than blocks, and records keep block order. |
| Huabao.NegativeStartParsesNothing | parsers/huabao.py:11-20 | A negative start keeps at most four lines, so nothing is parsed. |
| Huabao.EighthLineIgnored | parsers/huabao.py:27-35 | Line 7 of a block is never read. |
| Huabao.PercentExample | parsers/huabao.py:32-34 | "12.34%" reads as 12.34 once '%' is stripped. |
| Huabao.RatioExample | parsers/huabao.py:32-34 | 12.34 / 100 rounded to four places is 0.1234. |
| Numbers.ParseFloatSyntax | parsers/huabao.py:28 | `float()` succeeds exactly on an optionally signed decimal literal after stripping. |
| Numbers.ParseInt | parsers/huabao.py:29 | `int()` succeeds exactly on optionally signed digits after stripping. |
| Numbers.ParseIntDigits | parsers/huabao.py:29 | On digits, `int()` gives their value. |
| Numbers.HundredthReal | parsers/huabao.py:32 | `Hundredth` divides by 100. |
| Numbers.Round4 | parsers/huabao.py:32 | The result has at most four decimals, is the input when that already has at most four, and keeps the sign. |
| Numbers.Round4Nearest | parsers/huabao.py:32 | The result is within half a unit in the fourth place, and ties go to an even last digit. |
| Strings.StripChar | parsers/huabao.py:32 | `strip("%")` leaves no '%' at either end. |
| Strings.StripSpan | parsers/huabao.py:7 | `strip()` is a contiguous slice with only whitespace removed around it. |
| FundE.StartIndex | parsers/fund_e.py:11-15 | The start is just after the first line containing 筛选, or 0 when no line does. |
| FundE.FindStart | parsers/fund_e.py:11-15 | The loop finds `StartIndex`. |
| FundE.NumericStripped | parsers/fund_e.py:28 | A numeric line is already stripped. |
| FundE.NumericAmount | parsers/fund_e.py:28-33 | On a numeric line, conversion succeeds exactly when the text without commas is a decimal literal, and the value is non-negative. |
| FundE.AmountWithCommas | parsers/fund_e.py:31 | "1,234.5" reads as 1234.5. |
| FundE.NumericButUnreadable | parsers/fund_e.py:28-33 | "1.2.3" passes the numeric test but `float` rejects it. |
| FundE.UnreadableNumberSkips | parsers/fund_e.py:28-33 | At an anchor whose three lines pass the numeric test but one fails `float`, no record is produced. |
| FundE.IsAnchor | parsers/fund_e.py:22-25 | Tests the three stripped label lines. |
| FundE.AreNumbers | parsers/fund_e.py:28 | Tests the three numeric lines. |
| FundE.SkipBlank | parsers/fund_e.py:41-42 | Moves up past blank lines only, and stops at a non-blank line or -1. |
| FundE.SkipBlanks | parsers/fund_e.py:41-42 | The loop equals `SkipBlank`. |
| FundE.MarkerFrom | parsers/fund_e.py:48-52 | Finds the nearest 资产情况 line going up and staying above `stop`, or none in that range. |
| FundE.FindMarker | parsers/fund_e.py:48-52 | The `for` loop equals `MarkerFrom`. |
| FundE.NameEndBounds | parsers/fund_e.py:40-55 | Blank lines are skipped. A non-numeric line ends the name. After a numeric line the start is between 2 and 5 lines up: just above the nearest 资产情况 among the four lines above it, or exactly 3 up. |
| FundE.FindNameEnd | parsers/fund_e.py:36-55 | The backward scan equals `NameEnd`. |
| FundE.GatherKeepsOrder | parsers/fund_e.py:58-78 | Fragments found higher up come before those found lower down, as `insert(0, …)` makes them. |
| FundE.GatherCode | parsers/fund_e.py:67-76 | A code once found is kept. Otherwise the code is "" or six digits, and no fragment is empty. |
| FundE.ScanStop | parsers/fund_e.py:58-66 | The upward scan stops at the nearest line at or above the start that ends a name, or above the first line; no line between ends a name. |
| FundE.GatherCodeFirst | parsers/fund_e.py:58-76 | Starting without a code, the code is "" exactly when no scanned line has a parenthesised six-digit code; otherwise it is the six digits of the lowest such line, the first one met going up. |
| FundE.CollectName | parsers/fund_e.py:58-78 | The collection loop equals `Gather`. |
| FundE.DropFilterHeaderClears | parsers/fund_e.py:84 | After the cleanup no 筛选 is left, and a name without one is unchanged. |
| FundE.DropDateHeaderClears | parsers/fund_e.py:85 | After the cleanup no 数据日期 label is left. What remains starts at a clause end, and a name without a label is unchanged. |
| FundE.WidenedNoSpace | parsers/fund_e.py:86 | After whitespace removal and widening, there is no whitespace and no '('. |
| FundE.RepairsChangeNothing | parsers/fund_e.py:86-90 | The 联接 and 投资 repairs change nothing, because whitespace is already gone. |
| FundE.FundEntryKeys | parsers/fund_e.py:93-99 | A fund record's dictionary has exactly the five keys the parser sets. |
| FundE.BuildRecord | parsers/fund_e.py:93-99 | The five assignments give `FundEntry`'s dictionary. |
| FundE.FundAtAmounts | parsers/fund_e.py:22-98 | A record needs the anchor and three numeric lines. Its quantity, current price and market value are lines i+3, i+4 and i+5 read with commas removed, and its code is the one the upward scan found. |
| FundE.ReadFund | parsers/fund_e.py:22-99 | One scan step gives a record exactly when the verdict at `i` has one, and it is that record's dictionary. |
| FundE.ParseFundData | parsers/fund_e.py:6-109 | The parser's result is `FundRecords(lines)`, the records of the scan that moves 6 lines on after a record and 1 otherwise. |
| FundE.RecordCount | parsers/fund_e.py:20-107 | At most one record per six lines scanned from the start. |
| FundE.RecordsShaped | parsers/fund_e.py:31-99 | Every record has exactly the five keys. Its name has no whitespace and no '(', its code is "" or six digits, and its amounts are non-negative. |
| FundE.FundAtShaped | parsers/fund_e.py:22-99 | The record at one anchor has that shape. |
| Haitong.MinOfIsLeast | parsers/haitong.py:19-22 | The minimum is a lower bound that is attained. |
| Haitong.MaxOfIsGreatest | parsers/haitong.py:19-22 | The maximum is an upper bound that is attained. |
| Haitong.ImageBoundsContain | parsers/haitong.py:19-22 | Every polygon point lies inside the image bounds. |
| Haitong.RegionDetected | parsers/haitong.py:34-38 | The region is detected exactly when some token contains 当前持仓 or 股票/市值. |
| Haitong.RegionTop | parsers/haitong.py:34-38 | The top only grows, and is the start value or some header token's maximum y. |
| Haitong.RegionBottom | parsers/haitong.py:39-41 | The bottom is the start value, or the minimum y of a 以上是全部 token that is not a header and comes after a header. |
| Haitong.RegionWithoutFooter | parsers/haitong.py:34-41 | Without a footer the bottom stays, and the top is at least every header's maximum y. |
| Haitong.RegionFirstFooter | parsers/haitong.py:34-41 | At the first footer that is not a header and follows a header, the bottom is that footer's minimum y; the top is at least the start value and every earlier header's maximum y, and equals one of them. |
| Haitong.FindRegion | parsers/haitong.py:28-41 | The loop with its `break` equals `ScanRegion`. |
| Haitong.FindArea | parsers/haitong.py:28-46 | Gives the detected region, or 30%–90% of the image height. |
| Haitong.Kept | parsers/haitong.py:49-62 | Filtering keeps at most the input, with non-empty boxes. |
| Haitong.KeptExactly | parsers/haitong.py:49-62 | A token is kept exactly when it has no skip keyword and its centre y is in [top, bottom]. |
| Haitong.FilterTokens | parsers/haitong.py:49-62 | The filter loop equals `Kept`. |
| Haitong.Insert | parsers/haitong.py:65 | Insertion adds exactly the token. |
| Haitong.SortByCenter | parsers/haitong.py:65 | The sort is a permutation. |
| Haitong.InsertSorted | parsers/haitong.py:65 | Insertion keeps the order. |
| Haitong.SortByCenterSorted | parsers/haitong.py:65 | Sorted tokens have non-decreasing centre y. |
| Haitong.Heights | parsers/haitong.py:72-73 | One height per token. |
| Haitong.PlaceKey | parsers/haitong.py:98-128 | A token fills only a column field. It goes to `price` only when it has '.' and `price` is still absent, and to `cost_price` only when it has '.' and `price` is already there. It goes to `shares` only when it is digits once commas are removed, and to `profit_rate` only when it contains '%'. |
| Haitong.PlaceChanges | parsers/haitong.py:98-128 | Filing a token sets at most one field, to the token's text, never replaces `price`, and keeps rows well shaped. |
| Haitong.StepShape | parsers/haitong.py:85-128 | One token keeps rows non-empty and well shaped, and adds at most one row. |
| Haitong.PlaceShape | parsers/haitong.py:98-128 | Filing keeps the state well shaped, and adds a row only when the current row was empty. |
| Haitong.FoldShape | parsers/haitong.py:85-128 | After all tokens, closed rows are non-empty and well shaped, and there are no more rows than tokens. |
| Haitong.SegmentShape | parsers/haitong.py:83-132 | Rows are non-empty and well shaped, and no more than the tokens. |
| Haitong.SegmentRows | parsers/haitong.py:68-132 | The segmentation loop equals `Segment`. |
| Haitong.MergeLength | parsers/haitong.py:135-157 | Merging never lengthens, and at most halves. |
| Haitong.MergeOrigins | parsers/haitong.py:135-157 | Each output row is an input row, or a named row merged with the unnamed row after it, the first row's fields winning. |
| Haitong.OriginsIncrease | parsers/haitong.py:135-157 | Merged rows come from strictly increasing input positions, so order is kept. |
| Haitong.MergeAt | parsers/haitong.py:137-157 | One merge step looks at rows i and i+1 only. |
| Haitong.MergeRows | parsers/haitong.py:135-157 | The merge loop with `continue` equals `Merge`. |
| Haitong.MergeShaped | parsers/haitong.py:135-157 | Merging keeps rows well shaped. |
| Haitong.ConvertFields | parsers/haitong.py:166-186 | A converted row has its name as text, no code and no position ratio. Each numeric attribute is present exactly when its field is; `profit_ratio` also needs '%' in the rate. |
| Haitong.SharesAlwaysRead | parsers/haitong.py:171-172 | A share count accepted by the column test always converts. |
| Haitong.FailedRowDropped | parsers/haitong.py:166-188 | A row whose conversion fails is dropped alone, and the other rows give the same records. |
| Haitong.EmitCount | parsers/haitong.py:160-188 | At most one record per row. |
| Haitong.ReadStock | parsers/haitong.py:166-186 | Runs the conversions in source order. It fails exactly when `Convert` fails, and otherwise returns that record's dictionary. |
| Haitong.BuildStock | parsers/haitong.py:167-186 | The conditional assignments give the record's dictionary. |
| Haitong.EmitRecords | parsers/haitong.py:160-190 | The emission loop equals `Emit`. |
| Haitong.ParseHaitongStockData | parsers/haitong.py:4-190 | The parser's result is `HaitongRecords(tokens)`, and empty input gives []. |
| Haitong.OrganizedShaped | parsers/haitong.py:68-157 | Organized rows are well shaped, and their share counts always convert. |
| Haitong.StockDictsShaped | parsers/haitong.py:161-186 | A record has a name, shares or market value, and only the seven Haitong keys. |
| Haitong.RecordsShaped | parsers/haitong.py:4-190 | No more records than tokens, each with a name, shares or market value, and only the seven keys. |
| Sunburst.Examine | sunburst/sunburst.py:15-31 | One loop body: skip, keep, or the exception it raises, as `Judge` decides. |
| Sunburst.CollectStep | sunburst/sunburst.py:14-44 | Item i extends the loop's outcome over the items before it. |
| Sunburst.CollectHoldings | sunburst/sunburst.py:14-44 | The loop equals `Collect`. |
| Sunburst.CreateSunburstData | sunburst/sunburst.py:10-49 | The function's result is `SunburstData`. |
| Sunburst.CollectBuilt | sunburst/sunburst.py:14-44 | The loop finishes exactly when no item's value is unreadable and no name is unsearchable. |
| Sunburst.CollectKept | sunburst/sunburst.py:14-44 | When it finishes, the holdings are the kept items' holdings in item order. |
| Sunburst.CollectFailure | sunburst/sunburst.py:14-31 | A failure names the first stopping item and why it stopped. |
| Sunburst.FailureStays | sunburst/sunburst.py:21-31 | After an exception, later items change nothing. |
| Sunburst.KeptWhen | sunburst/sunburst.py:20-29 | An item is kept exactly when its market value is present, not null, readable and positive, and its name is text. |
| Sunburst.KeptWellBuilt | sunburst/sunburst.py:27-44 | A kept holding has a positive value and carries the item's name. Its levels are `classify_holding(name, code)`. |
| Sunburst.KeptDefaults | sunburst/sunburst.py:15-44 | A missing name, code or source becomes "", "" or "未知". Present ones are carried over. |
| Sunburst.SunburstBuilt | sunburst/sunburst.py:14-49 | Chart data is the kept items' holdings in order: non-empty, no more than the items, each well built. |
| Sunburst.NothingKept | sunburst/sunburst.py:14-44 | Nothing is kept exactly when every item is skipped. |
| Sunburst.SunburstNoHoldings | sunburst/sunburst.py:14-47 | A missing `data` key, or every item skipped, raises the "no holdings" error. Otherwise that error is never raised. |

## Left out

- Floating point: values are exact decimals, not IEEE doubles. `float("1e5")`, `inf` and `nan`, underscores in literals, and binary rounding are not modelled. `round` is half-to-even on the decimal digits, so Python's `round(0.12345, 4)` on the double can differ.
- `str.isdigit`, `\d` and `str.strip()` are modelled with ASCII digits and the ASCII, full-width and common Unicode spaces the `Strings` module lists. Other Unicode digits are not.
- The `.` in the fund_e cleanup patterns also matches a newline in the model. A name with an embedded newline can differ.
- FundE.ReadFund: the three conversions are evaluated before the record is built, as in the source, but the exception is a `None` result rather than control flow.
- Haitong.SortByCenter: the stable `list.sort` is modelled as a stable insertion sort on values, not in place. Stability itself is not stated.
- Haitong.ParseHaitongStockData: requires every token's polygon to be non-empty. The source raises on an empty polygon, and that crash is not modelled.
- Haitong.ReadStock: the `'%' in stock['profit_rate']` test (parsers/haitong.py:181) is always true for rows the segmentation produces, since only a text containing `%` is stored as a profit rate (Haitong.OrganizedShaped); the model keeps the test.
- Dictionary insertion order is not modelled: a `Dict` is a Dafny `map`.
- Printing, `verbose` output and exception messages are left out. `create_sunburst_data` returns the holdings as a sequence, not a pandas `DataFrame`.
- Sunburst.CreateSunburstData: a name that is not a string raises `TypeError` inside `classify_holding`; this is the `NotAName` failure. A `float()` failure is `NotANumber`. A JSON `null` code reaches classification as `None`, since the code is only printed.
- Huabao.ReadBlock: builds the record with the keyword constructor instead of nine assignments after `InvestmentInfo()`. The resulting dictionary is the same, because no assignment is conditional.
- The `if k >= 0` test in the fund_e marker loop is always true; the model drops it.
- OCR, image loading, file listing, timestamps and `main` in ocr.py, `plot_sunburst`, `print_portfolio_summary`, sunburst_chart.js and portfolio_analyzer.py are not part of this model.
