/**
 * The first-match rule engine that puts a holding into a three-level category,
 * and the default rule table it consults.
 */
module Classify {
  import opened Strings

  datatype Category = Category(level1: string, level2: string, level3: string)

  /** What is returned when no rule matches. */
  const Fallback: Category := Category("其他", "其他", "其他")

  /**
   * One rule of the table. Each optional part is a key the rule may carry:
   * `exact_match`, `keywords` with the `match_any` flag, `and_keywords`,
   * `exclude`, `regex` and `default`. The only patterns the table uses are
   * alternations of literal text, so `regex` holds the alternatives.
   */
  datatype Rule = Rule(
    exactMatch: Option<seq<string>>,
    keywords: Option<seq<string>>,
    matchAny: bool,
    andKeywords: Option<seq<string>>,
    exclude: Option<seq<string>>,
    regex: Option<seq<string>>,
    isDefault: bool,
    category: Category)

  /** A rule with only a category; the table's entries add their keys to it. */
  function Base(level1: string, level2: string, level3: string): Rule {
    Rule(None, None, false, None, None, None, false, Category(level1, level2, level3))
  }

  /** `any(kw in name for kw in words)`. */
  predicate AnyIn(words: seq<string>, name: string) {
    exists i | 0 <= i < |words| :: Contains(name, words[i])
  }

  /** `all(kw in name for kw in words)`. */
  predicate AllIn(words: seq<string>, name: string) {
    forall i | 0 <= i < |words| :: Contains(name, words[i])
  }

  /** The keyword stage of a rule: the keyword test, then `and_keywords` if the rule
      has them, otherwise `exclude` if it has that. */
  predicate KeywordStage(rule: Rule, name: string) {
    rule.keywords.Some? &&
    var keywordsMatch := if rule.matchAny then AnyIn(rule.keywords.value, name)
                         else AllIn(rule.keywords.value, name);
    if rule.andKeywords.Some? then keywordsMatch && AnyIn(rule.andKeywords.value, name)
    else if rule.exclude.Some? then keywordsMatch && !AnyIn(rule.exclude.value, name)
    else keywordsMatch
  }

  /** A rule returns its category when, in this order, its exact list holds the name,
      its keyword stage succeeds, one of its pattern's alternatives occurs in the name,
      or it is a default rule. */
  predicate Matches(rule: Rule, name: string) {
    || (rule.exactMatch.Some? && name in rule.exactMatch.value)
    || KeywordStage(rule, name)
    || (rule.regex.Some? && AnyIn(rule.regex.value, name))
    || rule.isDefault
  }

  /** No rule of `rules` matches `name`. */
  predicate NoneMatch(rules: seq<Rule>, name: string) {
    forall j | 0 <= j < |rules| :: !Matches(rules[j], name)
  }

  /** The loop over the rules: the category of the earliest matching rule, else the fallback. */
  function ClassifyWith(rules: seq<Rule>, name: string): (r: Category)
    ensures NoneMatch(rules, name) ==> r == Fallback
    ensures !NoneMatch(rules, name) ==>
      exists i | 0 <= i < |rules| :: Matches(rules[i], name) && r == rules[i].category
  {
    if rules == [] then Fallback
    else if Matches(rules[0], name) then rules[0].category
    else
      var r := ClassifyWith(rules[1..], name);
      assert forall i | 1 <= i < |rules| :: rules[1..][i - 1] == rules[i];
      r
  }

  /** The earliest matching rule decides the result; no later rule affects it. */
  lemma {:induction false} FirstMatchDecides(rules: seq<Rule>, name: string, i: nat)
    requires i < |rules| && Matches(rules[i], name) && NoneMatch(rules[..i], name)
    ensures ClassifyWith(rules, name) == rules[i].category
  {
    if i > 0 {
      assert !Matches(rules[..i][0], name);
      assert rules[1..][..i - 1] == rules[1..i];
      FirstMatchDecides(rules[1..], name, i - 1);
    }
  }

  /** The default rule table, in the order the rules are tried. */
  const DefaultRules: seq<Rule> := [
    ActiveMixedRule, HealthcareRule, EnvironmentRule, PensionRule, ConsumerRule,
    InformationRule, AgricultureRule, EnergyExactRule, EnergyRule, HongKongDividendRule,
    DividendRule, LowVolatilityRule, HangSengTechRule, HangSengHealthcareRule,
    HangSengConsumerRule, HangSengRule, GlobalHealthcareRule, InternetRule,
    HongKongBrokerRule, BrokerRule, Csi500Rule, Csi300Rule, ChiNextRule,
    PolicyBankBondRule, BondRule, MoneyMarketRule, DefaultRule
  ]

  // The rules of the default table, each named after the category it assigns.

  const ActiveMixedRule: Rule :=
    Base("A股", "主动基金", "混合").(keywords := Some(["兴全合润", "交银施罗德定期支付双息平衡"]), matchAny := true)

  const HealthcareRule: Rule :=
    Base("A股", "行业", "医药").(
      keywords := Some(["医疗", "中证医疗", "医药", "医药卫生", "大摩健康产业混合", "中证生物科技", "融通健康"]),
      matchAny := true, exclude := Some(["恒生", "海外", "全球"]))

  const EnvironmentRule: Rule :=
    Base("A股", "行业", "环保").(keywords := Some(["环保"]))

  const PensionRule: Rule :=
    Base("A股", "行业", "养老").(keywords := Some(["养老"]))

  const ConsumerRule: Rule :=
    Base("A股", "行业", "消费").(
      keywords := Some(["消费", "食品饮料", "文体娱乐"]),
      exclude := Some(["恒生", "海外", "全球"]), matchAny := true)

  const InformationRule: Rule :=
    Base("A股", "行业", "信息").(keywords := Some(["信息", "信息技术"]), matchAny := true)

  const AgricultureRule: Rule :=
    Base("A股", "行业", "农业").(keywords := Some(["农业"]))

  const EnergyExactRule: Rule :=
    Base("A股", "行业", "能源").(exactMatch := Some(["国投电力", "盐湖股份", "淮北矿业"]))

  const EnergyRule: Rule :=
    Base("A股", "行业", "能源").(
      keywords := Some(["能源", "电力"]), matchAny := true, exclude := Some(["恒生", "海外", "全球"]))

  const HongKongDividendRule: Rule :=
    Base("海外新兴", "策略", "红利").(keywords := Some(["红利"]), andKeywords := Some(["恒生", "港股", "央企"]))

  const DividendRule: Rule :=
    Base("A股", "策略", "红利").(keywords := Some(["红利"]), exclude := Some(["恒生", "港股", "央企"]))

  const LowVolatilityRule: Rule :=
    Base("A股", "策略", "500低波动").(keywords := Some(["500行业中性低波动指"]))

  const HangSengTechRule: Rule :=
    Base("海外新兴", "海外科技", "恒生科技").(keywords := Some(["恒生科技"]))

  const HangSengHealthcareRule: Rule :=
    Base("海外新兴", "海外医疗", "恒生医疗").(keywords := Some(["恒生医疗", "博时恒生医疗"]), matchAny := true)

  const HangSengConsumerRule: Rule :=
    Base("海外新兴", "香港", "恒生消费").(keywords := Some(["恒生消费"]))

  const HangSengRule: Rule :=
    Base("海外新兴", "香港", "恒生").(keywords := Some(["恒生"]), exclude := Some(["科技", "医疗", "消费", "红利"]))

  const GlobalHealthcareRule: Rule :=
    Base("海外成熟", "全球", "全球医疗").(keywords := Some(["全球医疗"]), matchAny := true)

  const InternetRule: Rule :=
    Base("海外新兴", "海外科技", "海外互联").(keywords := Some(["互联网", "中概"]), matchAny := true)

  const HongKongBrokerRule: Rule :=
    Base("海外新兴", "行业", "非银").(keywords := Some(["证券", "非银"]), matchAny := true, andKeywords := Some(["港股"]))

  const BrokerRule: Rule :=
    Base("A股", "行业", "证券").(keywords := Some(["证券", "非银"]), matchAny := true)

  const Csi500Rule: Rule :=
    Base("A股", "中小盘", "500").(keywords := Some(["500", "中证500"]), matchAny := true)

  const Csi300Rule: Rule :=
    Base("A股", "大盘", "300").(keywords := Some(["300", "沪深300"]), matchAny := true)

  const ChiNextRule: Rule :=
    Base("A股", "中小盘", "创业板").(keywords := Some(["创业板"]))

  const PolicyBankBondRule: Rule :=
    Base("债券", "国内债券", "纯债").(keywords := Some(["债"]), andKeywords := Some(["国开债"]))

  const BondRule: Rule :=
    Base("债券", "美债", "超长期债券").(keywords := Some(["债"]))

  const MoneyMarketRule: Rule :=
    Base("货币", "货币", "货币").(regex := Some(["货币", "添益", "宝货币", "现金", "天添宝", "添利宝"]))

  const DefaultRule: Rule :=
    Base("其他", "其他", "其他").(isDefault := true)

  /** `classify_holding(name, code, rules, verbose)`: `None` for `rules` selects the
      default table; `code` and `verbose` only feed diagnostic output. */
  function ClassifyHolding(name: string, code: Option<string>, rules: Option<seq<Rule>>, verbose: bool): (r: Category)
    ensures rules == Some([]) ==> r == Fallback
  {
    ClassifyWith(if rules.None? then DefaultRules else rules.value, name)
  }

  /** Under the default table every name gets the category of one of its rules: the
      last rule is the catch-all, so the fallback is never reached. */
  lemma DefaultTableDecides(name: string, code: Option<string>, verbose: bool)
    ensures exists i | 0 <= i < |DefaultRules| ::
      ClassifyHolding(name, code, None, verbose) == DefaultRules[i].category
  {
    assert Matches(DefaultRules[|DefaultRules| - 1], name);
  }

  /** The result depends on the name and the rules alone. */
  lemma ResultIgnoresCodeAndVerbose(name: string, rules: Option<seq<Rule>>,
                                    code1: Option<string>, verbose1: bool,
                                    code2: Option<string>, verbose2: bool)
    ensures ClassifyHolding(name, code1, rules, verbose1) == ClassifyHolding(name, code2, rules, verbose2)
  {
  }

  /** A matching rule decides the result whatever follows it. */
  lemma FirstMatchWins(before: seq<Rule>, rule: Rule, after: seq<Rule>, name: string)
    requires NoneMatch(before, name) && Matches(rule, name)
    ensures ClassifyWith(before + [rule] + after, name) == rule.category
  {
    var rules := before + [rule] + after;
    assert rules[..|before|] == before;
    assert rules[|before|] == rule;
    FirstMatchDecides(rules, name, |before|);
  }

  /** A rule whose exact and keyword tests fail still matches through its pattern,
      and failing that through its `default` flag. */
  lemma LaterTestsStillApply(rule: Rule, name: string)
    requires !(rule.exactMatch.Some? && name in rule.exactMatch.value) && !KeywordStage(rule, name)
    ensures Matches(rule, name) <==> (rule.regex.Some? && AnyIn(rule.regex.value, name)) || rule.isDefault
  {
  }

  /** With `and_keywords` present the `exclude` list is never consulted. */
  lemma AndKeywordsShadowExclude(rule: Rule, name: string)
    requires rule.andKeywords.Some?
    ensures Matches(rule, name) == Matches(rule.(exclude := None), name)
  {
  }

  /** One keyword that does not occur defeats an all-keywords test. */
  lemma NotAllIn(words: seq<string>, name: string, i: nat)
    requires i < |words| && !Contains(name, words[i])
    ensures !AllIn(words, name)
  {
  }

  /** One keyword that occurs satisfies an any-keyword test. */
  lemma AnyInAt(words: seq<string>, name: string, i: nat)
    requires i < |words| && Contains(name, words[i])
    ensures AnyIn(words, name)
  {
  }

  /** "恒生医疗ETF" contains 医疗, but the 医药 rule excludes 恒生; it has no keyword of the first and third rules. */
  lemma HangSengHealthcareSkipsSectorRules()
    ensures forall r | r in {ActiveMixedRule, HealthcareRule, EnvironmentRule} :: !Matches(r, "恒生医疗ETF")
  {
    var name := "恒生医疗ETF";
    assert !Matches(ActiveMixedRule, name) by {
      NotContainsByChar(name, "兴全合润", '兴');
      NotContainsByChar(name, "交银施罗德定期支付双息平衡", '交');
    }
    assert !Matches(HealthcareRule, name) by {
      ContainsWitness(name, "恒生", 0);
      AnyInAt(HealthcareRule.exclude.value, name, 0);
    }
    assert !Matches(EnvironmentRule, name) by {
      NotContainsByChar(name, "环保", '环');
      NotAllIn(EnvironmentRule.keywords.value, name, 0);
    }
  }

  /** "恒生医疗ETF" has no keyword of the 养老, 消费, 信息 and 农业 rules. */
  lemma HangSengHealthcareSkipsConsumerRules()
    ensures forall r | r in {PensionRule, ConsumerRule, InformationRule, AgricultureRule} :: !Matches(r, "恒生医疗ETF")
  {
    var name := "恒生医疗ETF";
    assert !Matches(PensionRule, name) by {
      NotContainsByChar(name, "养老", '养');
      NotAllIn(PensionRule.keywords.value, name, 0);
    }
    assert !Matches(ConsumerRule, name) by {
      NotContainsByChar(name, "消费", '消');
      NotContainsByChar(name, "食品饮料", '食');
      NotContainsByChar(name, "文体娱乐", '文');
    }
    assert !Matches(InformationRule, name) by {
      NotContainsByChar(name, "信息", '信');
      NotContainsByChar(name, "信息技术", '信');
    }
    assert !Matches(AgricultureRule, name) by {
      NotContainsByChar(name, "农业", '农');
      NotAllIn(AgricultureRule.keywords.value, name, 0);
    }
  }

  /** "恒生医疗ETF" is not matched by the two 能源 rules or the 红利 rule that requires 恒生, 港股 or 央企. */
  lemma HangSengHealthcareSkipsEnergyRules()
    ensures forall r | r in {EnergyExactRule, EnergyRule, HongKongDividendRule} :: !Matches(r, "恒生医疗ETF")
  {
    var name := "恒生医疗ETF";
    assert !Matches(EnergyExactRule, name);
    assert !Matches(EnergyRule, name) by {
      NotContainsByChar(name, "能源", '能');
      NotContainsByChar(name, "电力", '电');
    }
    assert !Matches(HongKongDividendRule, name) by {
      NotContainsByChar(name, "红利", '红');
      NotAllIn(HongKongDividendRule.keywords.value, name, 0);
    }
  }

  /** "恒生医疗ETF" is not matched by the other 红利 rule, the 500低波动 rule or the 恒生科技 rule. */
  lemma HangSengHealthcareSkipsStrategyRules()
    ensures forall r | r in {DividendRule, LowVolatilityRule, HangSengTechRule} :: !Matches(r, "恒生医疗ETF")
  {
    var name := "恒生医疗ETF";
    assert !Matches(DividendRule, name) by {
      NotContainsByChar(name, "红利", '红');
      NotAllIn(DividendRule.keywords.value, name, 0);
    }
    assert !Matches(LowVolatilityRule, name) by {
      NotContainsByChar(name, "500行业中性低波动指", '5');
      NotAllIn(LowVolatilityRule.keywords.value, name, 0);
    }
    assert !Matches(HangSengTechRule, name) by {
      NotContainsByChar(name, "恒生科技", '科');
      NotAllIn(HangSengTechRule.keywords.value, name, 0);
    }
  }

  /** "恒生医疗ETF" passes none of the thirteen rules before the 恒生医疗 rule. */
  lemma HangSengHealthcareSkipsEarlierRules()
    ensures NoneMatch(DefaultRules[..13], "恒生医疗ETF")
  {
    HangSengHealthcareSkipsSectorRules();
    HangSengHealthcareSkipsConsumerRules();
    HangSengHealthcareSkipsEnergyRules();
    HangSengHealthcareSkipsStrategyRules();
    assert DefaultRules[..13] == [
      ActiveMixedRule, HealthcareRule, EnvironmentRule, PensionRule, ConsumerRule,
      InformationRule, AgricultureRule, EnergyExactRule, EnergyRule, HongKongDividendRule,
      DividendRule, LowVolatilityRule, HangSengTechRule];
  }

  /** "恒生医疗ETF" contains 医疗 but also 恒生, so the 医药 rule excludes it and the
      恒生医疗 rule is the first one to match. */
  lemma HangSengHealthcare(code: Option<string>, verbose: bool)
    ensures ClassifyHolding("恒生医疗ETF", code, None, verbose) == Category("海外新兴", "海外医疗", "恒生医疗")
  {
    var name := "恒生医疗ETF";
    assert Matches(HangSengHealthcareRule, name) by {
      ContainsWitness(name, "恒生医疗", 0);
      AnyInAt(HangSengHealthcareRule.keywords.value, name, 0);
    }
    HangSengHealthcareSkipsEarlierRules();
    FirstMatchDecides(DefaultRules, name, 13);
  }
}
