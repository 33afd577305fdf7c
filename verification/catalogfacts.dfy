/**
 * Facts about the shipped tables: the recipient and template of each code,
 * the tokens of each template against the keys of its data strategy, and the
 * absence of braces from every fixed text.
 */
module CatalogFacts {
  import opened Text
  import opened Calendar
  import opened Numbers
  import opened Placeholders
  import opened MailModels
  import opened Renderer
  import opened Catalog
  import opened DataProvider
  import opened Codes
  import opened Wording

  /** Recipients are keyed by the five codes the strategies know, each entry carrying its own code. */
  lemma ShippedRecipientKeys()
    ensures InitializeRecipients().Keys == CodeTexts
    ensures forall code :: code in InitializeRecipients() ==> InitializeRecipients()[code].code == code
  {
  }

  /** So are the templates. */
  lemma ShippedTemplateKeys()
    ensures InitializeTemplates().Keys == CodeTexts
    ensures forall code :: code in InitializeTemplates() ==> InitializeTemplates()[code].code == code
  {
  }

  /** The recipient registered under a code, whose printed fields are brace free. */
  lemma ShippedRecipient(c: Code)
    ensures CodeText(c) in InitializeRecipients() && InitializeRecipients()[CodeText(c)] == ContactFor(c)
    ensures RecipientBraceFree(ContactFor(c))
  {
  }

  /** The template registered under a code spells the code's pattern. */
  lemma ShippedTemplate(c: Code)
    ensures CodeText(c) in InitializeTemplates() && InitializeTemplates()[CodeText(c)] == Spell(CodeText(c), PatternFor(c))
  {
  }

  /** The production employee's subject for 5 March 2024, whatever the data. */
  lemma ProductionSubjectExample(data: DataSet)
    ensures Expand(PatternFor(PE).subject, data, Date(2024, 3, 5), ContactFor(PE)) == "Production Report - " + "05 March 2024"
  {
    FormatDateExample();
    assert PeSubjectLead == "Production Report - ";
  }

  /** The production employee's body reports the units produced right after their label. */
  lemma ProductionBodyReportsUnits(date: Date, rolls: seq<int>)
    requires ValidDate(date) && Fits(rolls, ProductionEmployeeDraws)
    ensures Contains(Expand(ProductionEmployeePattern.body, ProductionEmployeeData(date, rolls), date, ProductionEmployeeContact),
                     PeUnitsProducedLead + IntToString(rolls[0]))
  {
    var data := ProductionEmployeeData(date, rolls);
    ExpandShowsPair(ProductionEmployeePattern.body, 4, data, date, ProductionEmployeeContact);
    ResolveDataKey(UnitsProducedKey, data, date, ProductionEmployeeContact);
  }

  /** The production employee's body carries the performance message that the units produced decide. */
  lemma ProductionBodyReportsMessage(date: Date, rolls: seq<int>)
    requires ValidDate(date) && Fits(rolls, ProductionEmployeeDraws)
    ensures Contains(Expand(ProductionEmployeePattern.body, ProductionEmployeeData(date, rolls), date, ProductionEmployeeContact),
                     PePerformanceMessageLead + (if rolls[0] >= Target then TargetAchieved else TargetMissed))
  {
    var data := ProductionEmployeeData(date, rolls);
    ExpandShowsPair(ProductionEmployeePattern.body, 14, data, date, ProductionEmployeeContact);
    ResolveDataKey(PerformanceMessageKey, data, date, ProductionEmployeeContact);
  }

  /** Every token of a pattern is reserved or a key, and every key occurs as a token. */
  predicate TokensMatchKeys(p: Pattern, keys: seq<string>) {
    && (forall i :: 0 <= i < |p.subject| && p.subject[i].Hole? ==> IsReserved(p.subject[i].name) || p.subject[i].name in keys)
    && (forall i :: 0 <= i < |p.body| && p.body[i].Hole? ==> IsReserved(p.body[i].name) || p.body[i].name in keys)
    && (forall j :: 0 <= j < |keys| ==> !IsReserved(keys[j]) && Hole(keys[j]) in p.subject + p.body)
  }

  /** A pattern whose tokens match a dataset's keys has every token supplied by it. */
  lemma TokensSupplied(p: Pattern, data: DataSet)
    requires TokensMatchKeys(p, Keys(data))
    ensures AllTokensSupplied(p.subject, data) && AllTokensSupplied(p.body, data)
  {
  }

  lemma ProductionEmployeeWellFormed()
    ensures WellFormed(ProductionEmployeePattern.subject) && WellFormed(ProductionEmployeePattern.body)
  {
    ReservedBraceFree("RecipientName");
    ReservedBraceFree("Date");
    var names: seq<Plain> := ["RecipientName", "Date"] + ProductionEmployeeKeys;
    WellFormedByParts(ProductionEmployeePattern.subject, names);
    WellFormedByParts(ProductionEmployeePattern.body, names);
  }

  lemma ProductionEmployeeTokens()
    ensures TokensMatchKeys(ProductionEmployeePattern, ProductionEmployeeKeys)
  {
  }

  lemma ProductionManagerWellFormed()
    ensures WellFormed(ProductionManagerPattern.subject) && WellFormed(ProductionManagerPattern.body)
  {
    ReservedBraceFree("RecipientName");
    ReservedBraceFree("Date");
    var names: seq<Plain> := ["RecipientName", "Date"] + ProductionManagerKeys;
    WellFormedByParts(ProductionManagerPattern.subject, names);
    WellFormedByParts(ProductionManagerPattern.body, names);
  }

  lemma ProductionManagerTokens()
    ensures TokensMatchKeys(ProductionManagerPattern, ProductionManagerKeys)
  {
  }

  lemma HumanResourceWellFormed()
    ensures WellFormed(HumanResourcePattern.subject) && WellFormed(HumanResourcePattern.body)
  {
    ReservedBraceFree("RecipientName");
    ReservedBraceFree("Date");
    var names: seq<Plain> := ["RecipientName", "Date"] + HumanResourceKeys;
    WellFormedByParts(HumanResourcePattern.subject, names);
    WellFormedByParts(HumanResourcePattern.body, names);
  }

  lemma HumanResourceTokens()
    ensures TokensMatchKeys(HumanResourcePattern, HumanResourceKeys)
  {
  }

  lemma FinanceWellFormed()
    ensures WellFormed(FinancePattern.subject) && WellFormed(FinancePattern.body)
  {
    ReservedBraceFree("RecipientName");
    ReservedBraceFree("Date");
    var names: seq<Plain> := ["RecipientName", "Date"] + FinanceKeys;
    WellFormedByParts(FinancePattern.subject, names);
    WellFormedByParts(FinancePattern.body, names);
  }

  lemma FinanceTokens()
    ensures TokensMatchKeys(FinancePattern, FinanceKeys)
  {
  }

  lemma InformationTechnologyWellFormed()
    ensures WellFormed(InformationTechnologyPattern.subject) && WellFormed(InformationTechnologyPattern.body)
  {
    ReservedBraceFree("RecipientName");
    ReservedBraceFree("Date");
    var names: seq<Plain> := ["RecipientName", "Date"] + InformationTechnologyKeys;
    WellFormedByParts(InformationTechnologyPattern.subject, names);
    WellFormedByParts(InformationTechnologyPattern.body, names);
  }

  lemma InformationTechnologyTokens()
    ensures TokensMatchKeys(InformationTechnologyPattern, InformationTechnologyKeys)
  {
  }

  /**
   * Each template's non-reserved tokens are exactly the keys its data strategy
   * returns, and the patterns are well formed.
   */
  lemma PatternsMatchStrategies(c: Code)
    ensures WellFormed(PatternFor(c).subject) && WellFormed(PatternFor(c).body)
    ensures TokensMatchKeys(PatternFor(c), KeysOf(c))
  {
    match c
    case PE => ProductionEmployeeWellFormed(); ProductionEmployeeTokens();
    case PM => ProductionManagerWellFormed(); ProductionManagerTokens();
    case HR => HumanResourceWellFormed(); HumanResourceTokens();
    case FN => FinanceWellFormed(); FinanceTokens();
    case IT => InformationTechnologyWellFormed(); InformationTechnologyTokens();
  }

  /** Keys listed in a brace-free list, and printed values that are brace free, make brace-free data. */
  lemma DataBraceFreeByParts(data: DataSet, keys: seq<Plain>)
    requires Keys(data) == keys
    requires forall i :: 0 <= i < |data| ==> BraceFree(ValueText(data[i].value))
    ensures DataBraceFree(data)
  {
    forall i | 0 <= i < |data|
      ensures BraceFree(data[i].key)
    {
      assert Keys(data)[i] == data[i].key;
    }
  }

  lemma ProductionEmployeeDataBraceFree(date: Date, rolls: seq<int>)
    requires Fits(rolls, ProductionEmployeeDraws)
    ensures DataBraceFree(ProductionEmployeeData(date, rolls))
  {
    var data := ProductionEmployeeData(date, rolls);
    assert forall i :: 0 <= i < |data| ==> BraceFree(ValueText(data[i].value));
    DataBraceFreeByParts(data, ProductionEmployeeKeys);
  }

  lemma ProductionManagerDataBraceFree(date: Date, rolls: seq<int>)
    requires Fits(rolls, ProductionManagerDraws)
    ensures DataBraceFree(ProductionManagerData(date, rolls))
  {
    var data := ProductionManagerData(date, rolls);
    assert forall i :: 0 <= i < |data| ==> BraceFree(ValueText(data[i].value));
    DataBraceFreeByParts(data, ProductionManagerKeys);
  }

  lemma HumanResourceDataBraceFree(date: Date, rolls: seq<int>)
    requires Fits(rolls, HumanResourceDraws)
    ensures DataBraceFree(HumanResourceData(date, rolls))
  {
    var data := HumanResourceData(date, rolls);
    assert forall i :: 0 <= i < |data| ==> BraceFree(ValueText(data[i].value));
    DataBraceFreeByParts(data, HumanResourceKeys);
  }

  lemma FinanceDataBraceFree(date: Date, rolls: seq<int>)
    requires Fits(rolls, FinanceDraws)
    ensures DataBraceFree(FinanceData(date, rolls))
  {
    var data := FinanceData(date, rolls);
    assert forall i :: 0 <= i < |data| ==> BraceFree(ValueText(data[i].value));
    DataBraceFreeByParts(data, FinanceKeys);
  }

  lemma InformationTechnologyDataBraceFree(date: Date, rolls: seq<int>)
    requires Fits(rolls, InformationTechnologyDraws)
    ensures DataBraceFree(InformationTechnologyData(date, rolls))
  {
    var data := InformationTechnologyData(date, rolls);
    assert forall i :: 0 <= i < |data| ==> BraceFree(ValueText(data[i].value));
    DataBraceFreeByParts(data, InformationTechnologyKeys);
  }

  /** The printed data of every strategy is free of braces. */
  lemma StrategyDataBraceFree(c: Code, date: Date, rolls: seq<int>)
    requires Fits(rolls, DrawsOf(c))
    ensures DataBraceFree(DataOf(c, date, rolls))
  {
    match c
    case PE => ProductionEmployeeDataBraceFree(date, rolls);
    case PM => ProductionManagerDataBraceFree(date, rolls);
    case HR => HumanResourceDataBraceFree(date, rolls);
    case FN => FinanceDataBraceFree(date, rolls);
    case IT => InformationTechnologyDataBraceFree(date, rolls);
  }
}
