/**
 * The generation workflow: the run-mode prompt, the per-section company
 * collection, the per-company brand collection and the order in which a run
 * generates, saves and flattens. The generation service is a pair of functions
 * from a prompt to the records it returns; files on disk are their loaded
 * contents or flags saying whether they exist.
 */
module Generate {
  import opened Wrappers
  import opened Text
  import opened JsonData
  import opened Sorting
  import Decimal
  import PromptBuilder
  import Flatten
  import Config

  // ---------------------------------------------------------------- run mode

  datatype Mode = Both | BrandsOnly | CsvOnly | Dry

  /** One answer to the run-mode prompt: the stripped answer selects a mode, or the
      prompt is repeated (`None`) when the answer is unknown or the files the mode
      needs are missing. */
  function ChooseMode(answer: string, companiesExists: bool, brandsExists: bool): (r: Option<Mode>)
    ensures r == Some(Both) <==> Strip(answer) == "1"
    ensures r == Some(BrandsOnly) <==> Strip(answer) == "2" && companiesExists
    ensures r == Some(CsvOnly) <==> Strip(answer) == "3" && companiesExists && brandsExists
    ensures r == Some(Dry) <==> Strip(answer) == "4"
  {
    var choice := Strip(answer);
    if choice == "1" then Some(Both)
    else if choice == "2" then (if companiesExists then Some(BrandsOnly) else None)
    else if choice == "3" then (if companiesExists && brandsExists then Some(CsvOnly) else None)
    else if choice == "4" then Some(Dry)
    else None
  }

  /** A mode that reads saved artifacts is only chosen when they exist, and an
      unknown answer never selects a mode. */
  lemma ChooseModeNeedsFiles(answer: string, companiesExists: bool, brandsExists: bool)
    ensures ChooseMode(answer, companiesExists, brandsExists).Some? ==> Strip(answer) in {"1", "2", "3", "4"}
    ensures ChooseMode(answer, companiesExists, brandsExists) == Some(BrandsOnly) ==> companiesExists
    ensures ChooseMode(answer, companiesExists, brandsExists) == Some(CsvOnly) ==> companiesExists && brandsExists
  {
  }

  /** `ask_run_mode`: the answers are read one after the other until one selects a
      mode; `used` is how many were read. Running out of answers (end of input)
      gives `None`. */
  method AskRunMode(answers: seq<string>, companiesExists: bool, brandsExists: bool) returns (mode: Option<Mode>, used: nat)
    ensures used <= |answers|
    ensures forall j :: 0 <= j < used - 1 ==> ChooseMode(answers[j], companiesExists, brandsExists).None?
    ensures mode.Some? ==> used >= 1 && mode == ChooseMode(answers[used - 1], companiesExists, brandsExists)
    ensures mode.None? ==> used == |answers| &&
                           forall j :: 0 <= j < |answers| ==> ChooseMode(answers[j], companiesExists, brandsExists).None?
  {
    mode, used := None, 0;
    while used < |answers|
      invariant used <= |answers|
      invariant forall j :: 0 <= j < used ==> ChooseMode(answers[j], companiesExists, brandsExists).None?
    {
      var choice := ChooseMode(answers[used], companiesExists, brandsExists);
      used := used + 1;
      if choice.Some? {
        mode := choice;
        return;
      }
    }
  }

  // ---------------------------------------------------------------- truncation

  function Min(a: int, b: int): int {
    if a < b then a else b
  }

  /** A returned list is cut to the limit when the limit is positive; a limit of zero
      or less keeps it whole. */
  function Truncate<T>(items: seq<T>, limit: int): (r: seq<T>)
    ensures limit > 0 ==> r == items[..Min(|items|, limit)]
    ensures limit <= 0 ==> r == items
  {
    if limit > 0 && |items| > limit then items[..limit] else items
  }

  /** A truncated list is the start of its input, and a list that fits the limit is
      kept whole. */
  lemma TruncateKeepsStart<T>(items: seq<T>, limit: int)
    ensures var r := Truncate(items, limit);
            && (limit > 0 ==> |r| <= limit)
            && |r| <= |items| && r == items[..|r|]
            && (|items| <= limit ==> r == items)
  {
  }

  /** The truncation step both loops share: the list is cut only when the limit is
      positive and smaller than its length. */
  method TruncateList<T>(items: seq<T>, limit: int) returns (r: seq<T>)
    ensures r == Truncate(items, limit)
  {
    r := items;
    if limit > 0 && |r| > limit {
      r := r[..limit];
    }
  }

  // ---------------------------------------------------------------- dry-run records

  /** How many mock records a dry run makes: `base` when the limit is 0, otherwise
      `min(base, limit)`, which is none at all for a negative limit. */
  function MockCount(base: nat, limit: int): (r: nat)
    ensures limit == 0 ==> r == base
    ensures limit != 0 ==> r == if limit < 0 then 0 else Min(base, limit)
  {
    var n := if limit == 0 then base else Min(base, limit);
    if n < 0 then 0 else n
  }

  function MockCompanyName(n: nat, position: nat): string {
    "company" + Decimal.NatToString(n) + "_section" + Decimal.NatToString(position)
  }

  /** The `n`-th mock company of the section at 1-based `position` in the run. */
  function MockCompany(n: nat, position: nat, sectionLabel: string, country: string): map<string, string> {
    map["company_name" := MockCompanyName(n, position),
        "headquarters_country" := (if country == "" then "Unknown" else country),
        "main_industry_activities" := "Activities for section " + sectionLabel]
  }

  function MockCompanies(position: nat, sectionLabel: string, country: string, limit: int): seq<Entry> {
    seq(MockCount(3, limit), k requires 0 <= k < MockCount(3, limit) => Obj(MockCompany(k + 1, position, sectionLabel, country)))
  }

  function MockBrandName(b: nat, company: string): string {
    "brand" + Decimal.NatToString(b) + "_" + company
  }

  /** The `b`-th mock brand of a company. */
  function MockBrand(b: nat, company: string): map<string, string> {
    map["name" := MockBrandName(b, company), "type" := "mock",
        "invoice_example" := "Invoice line for " + MockBrandName(b, company),
        "gpc_segment" := "00", "gpc_family" := "000", "gpc_class" := "0000", "gpc_brick" := "000000"]
  }

  function MockBrands(company: string, limit: int): seq<Entry> {
    seq(MockCount(2, limit), k requires 0 <= k < MockCount(2, limit) => Obj(MockBrand(k + 1, company)))
  }

  /** The digit of a counter below ten. */
  lemma SmallNatToString(n: nat)
    requires n < 10
    ensures Decimal.NatToString(n) == [Decimal.DigitChar(n)]
  {
  }

  /** Mock company names are distinct across counters and across sections: the name
      determines both the counter and the section's position. */
  lemma MockCompanyNameInjective(n1: nat, p1: nat, n2: nat, p2: nat)
    requires 1 <= n1 <= 3 && 1 <= n2 <= 3
    requires MockCompanyName(n1, p1) == MockCompanyName(n2, p2)
    ensures n1 == n2 && p1 == p2
  {
    SmallNatToString(n1);
    SmallNatToString(n2);
    var a := MockCompanyName(n1, p1);
    var b := MockCompanyName(n2, p2);
    assert a[7] == Decimal.DigitChar(n1) && b[7] == Decimal.DigitChar(n2);
    assert Decimal.DigitValue(Decimal.DigitChar(n1)) == n1;
    assert Decimal.DigitValue(Decimal.DigitChar(n2)) == n2;
    assert a[16..] == Decimal.NatToString(p1) && b[16..] == Decimal.NatToString(p2);
    Decimal.NatToStringInjective(p1, p2);
  }

  /** The mock companies of a section: how many there are, and each one's name,
      country (`Unknown` when none is configured) and activities. */
  lemma MockCompaniesShape(position: nat, sectionLabel: string, country: string, limit: int)
    ensures |MockCompanies(position, sectionLabel, country, limit)| == MockCount(3, limit)
    ensures forall k :: 0 <= k < |MockCompanies(position, sectionLabel, country, limit)| ==>
              var e := MockCompanies(position, sectionLabel, country, limit)[k];
              && e.Obj?
              && Field(e.fields, "company_name") == MockCompanyName(k + 1, position)
              && Field(e.fields, "headquarters_country") == (if country == "" then "Unknown" else country)
              && Field(e.fields, "main_industry_activities") == "Activities for section " + sectionLabel
  {
  }

  /** The mock brands of a company: how many there are, each one's name and invoice
      line, and the fixed type and classification codes. */
  lemma MockBrandsShape(company: string, limit: int)
    ensures |MockBrands(company, limit)| == MockCount(2, limit)
    ensures forall k :: 0 <= k < |MockBrands(company, limit)| ==>
              var e := MockBrands(company, limit)[k];
              && e.Obj?
              && Field(e.fields, "name") == MockBrandName(k + 1, company)
              && Field(e.fields, "type") == "mock"
              && Field(e.fields, "invoice_example") == "Invoice line for " + MockBrandName(k + 1, company)
              && Field(e.fields, "gpc_segment") == "00" && Field(e.fields, "gpc_family") == "000"
              && Field(e.fields, "gpc_class") == "0000" && Field(e.fields, "gpc_brick") == "000000"
  {
  }

  // ---------------------------------------------------------------- companies phase

  /** The question sent for a section: the companies prompt with `.strip()` applied,
      which leaves it unchanged since both templates start and end with text. */
  function CompaniesQuestion(sectionLabel: string, country: string, useCountry: bool): (q: string)
    ensures q == PromptBuilder.BuildCompaniesPrompt(sectionLabel, country, useCountry)
  {
    PromptBuilder.CompaniesPromptStripped(sectionLabel, country, useCountry);
    Strip(PromptBuilder.BuildCompaniesPrompt(sectionLabel, country, useCountry))
  }

  /** The companies stored for the section at 1-based `position` with the given label:
      the mock records in a dry run, otherwise the service's answer to the wrapped,
      stripped companies prompt; then truncated to the limit. */
  function SectionCompanies(position: nat, sectionLabel: string, limit: int, country: string, useCountry: bool,
                            dryRun: bool, askCompanies: string -> seq<Entry>): seq<Entry>
  {
    var companies :=
      if dryRun then MockCompanies(position, sectionLabel, country, limit)
      else askCompanies(PromptBuilder.BuildPrompt(CompaniesQuestion(sectionLabel, country, useCountry)));
    Truncate(companies, limit)
  }

  /** `sorted(sections)`: the section indices in ascending order. */
  function Order(sections: map<int, string>): (order: seq<int>)
    ensures |order| == |sections.Keys| && Increasing(order)
    ensures forall i :: 0 <= i < |order| ==> order[i] in sections
    ensures forall x :: x in sections ==> x in order
  {
    SortInts(sections.Keys)
  }

  /** The assignments the companies loop makes, one per section index of `order`. */
  function SectionSteps(sections: map<int, string>, order: seq<int>, limit: int, country: string, useCountry: bool,
                        dryRun: bool, askCompanies: string -> seq<Entry>): (steps: seq<Pair<seq<Entry>>>)
    requires forall i :: 0 <= i < |order| ==> order[i] in sections
    ensures |steps| == |order|
  {
    seq(|order|, i requires 0 <= i < |order| => SectionStep(sections, order, limit, country, useCountry, dryRun, askCompanies, i))
  }

  /** The `i`-th assignment of the companies loop. */
  function SectionStep(sections: map<int, string>, order: seq<int>, limit: int, country: string, useCountry: bool,
                       dryRun: bool, askCompanies: string -> seq<Entry>, i: nat): Pair<seq<Entry>>
    requires i < |order| && order[i] in sections
  {
    Pair(sections[order[i]], SectionCompanies(i + 1, sections[order[i]], limit, country, useCountry, dryRun, askCompanies))
  }

  /** The `i`-th assignment stores, under the label of the `i`-th section of
      `order`, the companies for that label at 1-based position `i + 1`. */
  lemma SectionStepAt(sections: map<int, string>, order: seq<int>, limit: int, country: string, useCountry: bool,
                      dryRun: bool, askCompanies: string -> seq<Entry>, i: nat)
    requires forall i :: 0 <= i < |order| ==> order[i] in sections
    requires i < |order|
    ensures SectionSteps(sections, order, limit, country, useCountry, dryRun, askCompanies)[i] ==
            Pair(sections[order[i]], SectionCompanies(i + 1, sections[order[i]], limit, country, useCountry, dryRun, askCompanies))
  {
  }

  /** Storing the `idx`-th section's companies extends the responses by the
      `idx`-th assignment. */
  lemma SectionStepPut(sections: map<int, string>, order: seq<int>, limit: int, country: string, useCountry: bool,
                       dryRun: bool, askCompanies: string -> seq<Entry>, idx: nat,
                       responses: Dict<seq<Entry>>, companies: seq<Entry>)
    requires forall i :: 0 <= i < |order| ==> order[i] in sections
    requires idx < |order|
    requires responses == FromPairs(SectionSteps(sections, order, limit, country, useCountry, dryRun, askCompanies)[..idx])
    requires companies == SectionCompanies(idx + 1, sections[order[idx]], limit, country, useCountry, dryRun, askCompanies)
    ensures Put(responses, sections[order[idx]], companies) ==
            FromPairs(SectionSteps(sections, order, limit, country, useCountry, dryRun, askCompanies)[..idx + 1])
  {
    var steps := SectionSteps(sections, order, limit, country, useCountry, dryRun, askCompanies);
    SectionStepAt(sections, order, limit, country, useCountry, dryRun, askCompanies, idx);
    FromPairsPrefix(steps, idx);
  }

  /** The body of the companies loop for one section: mock records or the service's
      answer, then the truncation. */
  method FetchSectionCompanies(position: nat, sectionLabel: string, limit: int, country: string, useCountry: bool,
                               dryRun: bool, askCompanies: string -> seq<Entry>)
    returns (companies: seq<Entry>)
    ensures companies == SectionCompanies(position, sectionLabel, limit, country, useCountry, dryRun, askCompanies)
  {
    if dryRun {
      companies := MockCompanies(position, sectionLabel, country, limit);
    } else {
      var question := CompaniesQuestion(sectionLabel, country, useCountry);
      companies := askCompanies(PromptBuilder.BuildPrompt(question));
    }
    companies := TruncateList(companies, limit);
  }

  /** `_collect_section_responses`: for each section index in ascending order, the
      companies for its label are stored under that label. */
  method CollectSectionResponses(sections: map<int, string>, limit: int, country: string, useCountry: bool,
                                 dryRun: bool, askCompanies: string -> seq<Entry>)
    returns (responses: Dict<seq<Entry>>)
    ensures responses == FromPairs(SectionSteps(sections, Order(sections), limit, country, useCountry, dryRun, askCompanies))
  {
    var order := Order(sections);
    responses := CollectInOrder(sections, order, limit, country, useCountry, dryRun, askCompanies);
  }

  /** The loop of `_collect_section_responses` over the sorted section indices; the
      1-based position of each section names its mock companies. */
  method CollectInOrder(sections: map<int, string>, order: seq<int>, limit: int, country: string, useCountry: bool,
                        dryRun: bool, askCompanies: string -> seq<Entry>)
    returns (responses: Dict<seq<Entry>>)
    requires forall i :: 0 <= i < |order| ==> order[i] in sections
    ensures responses == FromPairs(SectionSteps(sections, order, limit, country, useCountry, dryRun, askCompanies))
  {
    ghost var steps := SectionSteps(sections, order, limit, country, useCountry, dryRun, askCompanies);
    responses := [];
    for idx := 0 to |order|
      invariant responses == FromPairs(steps[..idx])
    {
      var sectionLabel := sections[order[idx]];
      var companies := FetchSectionCompanies(idx + 1, sectionLabel, limit, country, useCountry, dryRun, askCompanies);
      SectionStepPut(sections, order, limit, country, useCountry, dryRun, askCompanies, idx, responses, companies);
      responses := Put(responses, sectionLabel, companies);
    }
    assert steps[..|order|] == steps;
  }

  /** The keys of the steps are the labels of the sections in `order`. */
  lemma StepLabels(sections: map<int, string>, order: seq<int>, limit: int, country: string, useCountry: bool,
                   dryRun: bool, askCompanies: string -> seq<Entry>)
    requires forall i :: 0 <= i < |order| ==> order[i] in sections
    ensures var keys := Keys(SectionSteps(sections, order, limit, country, useCountry, dryRun, askCompanies));
            |keys| == |order| && forall i :: 0 <= i < |order| ==> keys[i] == sections[order[i]]
  {
  }

  /** Labels read off an order that visits every section are exactly the labels in
      use. */
  lemma LabelsCoverValues(sections: map<int, string>, order: seq<int>, labels: seq<string>)
    requires |labels| == |order|
    requires forall i :: 0 <= i < |order| ==> order[i] in sections && labels[i] == sections[order[i]]
    requires forall x :: x in sections ==> x in order
    ensures forall k :: k in labels <==> exists x :: x in sections && sections[x] == k
  {
    forall k ensures k in labels <==> exists x :: x in sections && sections[x] == k {
      if exists x :: x in sections && sections[x] == k {
        var x :| x in sections && sections[x] == k;
        var i :| 0 <= i < |order| && order[i] == x;
        assert labels[i] == k;
      }
    }
  }

  /** The result's keys are exactly the section labels, each once, and each holds the
      companies of the last section (in index order) that carries it. */
  lemma SectionResponsesKeys(sections: map<int, string>, limit: int, country: string, useCountry: bool,
                             dryRun: bool, askCompanies: string -> seq<Entry>)
    ensures var r := FromPairs(SectionSteps(sections, Order(sections), limit, country, useCountry, dryRun, askCompanies));
            && UniqueKeys(r)
            && forall k :: k in Keys(r) <==> exists x :: x in sections && sections[x] == k
    ensures var order := Order(sections);
            var r := FromPairs(SectionSteps(sections, order, limit, country, useCountry, dryRun, askCompanies));
            forall i :: 0 <= i < |order| && (forall j :: i < j < |order| ==> sections[order[j]] != sections[order[i]]) ==>
              Get(r, sections[order[i]]) ==
              Some(SectionCompanies(i + 1, sections[order[i]], limit, country, useCountry, dryRun, askCompanies))
  {
    var order := Order(sections);
    var steps := SectionSteps(sections, order, limit, country, useCountry, dryRun, askCompanies);
    StepLabels(sections, order, limit, country, useCountry, dryRun, askCompanies);
    LabelsCoverValues(sections, order, Keys(steps));
    FromPairsProperties(steps);
    LastSectionWins(sections, order, limit, country, useCountry, dryRun, askCompanies);
  }

  /** A label holds the companies of the last section of `order` that carries it. */
  lemma LastSectionWins(sections: map<int, string>, order: seq<int>, limit: int, country: string, useCountry: bool,
                        dryRun: bool, askCompanies: string -> seq<Entry>)
    requires forall i :: 0 <= i < |order| ==> order[i] in sections
    ensures var r := FromPairs(SectionSteps(sections, order, limit, country, useCountry, dryRun, askCompanies));
            forall i :: 0 <= i < |order| && (forall j :: i < j < |order| ==> sections[order[j]] != sections[order[i]]) ==>
              Get(r, sections[order[i]]) ==
              Some(SectionCompanies(i + 1, sections[order[i]], limit, country, useCountry, dryRun, askCompanies))
  {
    var steps := SectionSteps(sections, order, limit, country, useCountry, dryRun, askCompanies);
    StepLabels(sections, order, limit, country, useCountry, dryRun, askCompanies);
    forall i | 0 <= i < |order| && (forall j :: i < j < |order| ==> sections[order[j]] != sections[order[i]])
      ensures Get(FromPairs(steps), sections[order[i]]) ==
              Some(SectionCompanies(i + 1, sections[order[i]], limit, country, useCountry, dryRun, askCompanies))
    {
      SectionStepAt(sections, order, limit, country, useCountry, dryRun, askCompanies, i);
      LastPairWins(steps, Keys(steps), i);
    }
  }

  /** The pair at `i` decides the key's value when no later pair has its key. */
  lemma LastPairWins<V>(pairs: seq<Pair<V>>, keys: seq<string>, i: nat)
    requires keys == Keys(pairs) && i < |pairs|
    requires forall j :: i < j < |pairs| ==> keys[j] != keys[i]
    ensures Get(FromPairs(pairs), pairs[i].key) == Some(pairs[i].value)
  {
    forall j | i < j < |pairs| ensures pairs[j].key != pairs[i].key {
      assert keys[j] == pairs[j].key && keys[i] == pairs[i].key;
    }
    FromPairsProperties(pairs);
  }

  /** When no two sections share a label, the result lists the sections in ascending
      index order, each under its own label. */
  lemma SectionResponsesInOrder(sections: map<int, string>, limit: int, country: string, useCountry: bool,
                                dryRun: bool, askCompanies: string -> seq<Entry>)
    requires forall a, b :: a in sections && b in sections && a != b ==> sections[a] != sections[b]
    ensures FromPairs(SectionSteps(sections, Order(sections), limit, country, useCountry, dryRun, askCompanies)) ==
            SectionSteps(sections, Order(sections), limit, country, useCountry, dryRun, askCompanies)
  {
    var order := Order(sections);
    var steps := SectionSteps(sections, order, limit, country, useCountry, dryRun, askCompanies);
    var keys := Keys(steps);
    StepLabels(sections, order, limit, country, useCountry, dryRun, askCompanies);
    assert Distinct(keys) by {
      forall i, j | 0 <= i < j < |keys| ensures keys[i] != keys[j] {
        assert keys[i] == sections[order[i]] && keys[j] == sections[order[j]];
        assert order[i] < order[j];
      }
    }
    FromDistinctPairs(steps);
  }

  /** What a section stores: in a dry run all of its mock companies, which already
      fit the limit, so the truncation never cuts them; otherwise the start of the
      service's answer; in both cases no more companies than a positive limit. */
  lemma SectionCompaniesBound(position: nat, sectionLabel: string, limit: int, country: string, useCountry: bool,
                              dryRun: bool, askCompanies: string -> seq<Entry>)
    ensures var companies := SectionCompanies(position, sectionLabel, limit, country, useCountry, dryRun, askCompanies);
            var answer := askCompanies(PromptBuilder.BuildPrompt(CompaniesQuestion(sectionLabel, country, useCountry)));
            && (limit > 0 ==> |companies| <= limit)
            && (dryRun ==> companies == MockCompanies(position, sectionLabel, country, limit))
            && (!dryRun ==> |companies| <= |answer| && companies == answer[..|companies|])
  {
    var raw := if dryRun then MockCompanies(position, sectionLabel, country, limit)
               else askCompanies(PromptBuilder.BuildPrompt(CompaniesQuestion(sectionLabel, country, useCountry)));
    TruncateKeepsStart(raw, limit);
  }

  // ---------------------------------------------------------------- brands phase

  /** The brands stored for one company: mock records in a dry run, otherwise the
      service's answer to the wrapped brands prompt; then truncated to the limit. */
  function CompanyBrands(company: string, limit: int, country: string, useCountry: bool, dryRun: bool,
                         askBrands: string -> seq<Entry>): seq<Entry>
  {
    var items :=
      if dryRun then MockBrands(company, limit)
      else askBrands(PromptBuilder.BuildPrompt(PromptBuilder.BuildBrandsPrompt(company, country, useCountry)));
    Truncate(items, limit)
  }

  /** The assignments the brands loop makes, one per company name in list order. */
  function BrandSteps(companies: seq<string>, limit: int, country: string, useCountry: bool, dryRun: bool,
                      askBrands: string -> seq<Entry>): (steps: seq<Pair<seq<Entry>>>)
    ensures |steps| == |companies|
    ensures Keys(steps) == companies
  {
    seq(|companies|, i requires 0 <= i < |companies| =>
      Pair(companies[i], CompanyBrands(companies[i], limit, country, useCountry, dryRun, askBrands)))
  }

  /** What a company stores: in a dry run all of its mock brands, which already fit
      the limit, so the truncation never cuts them; otherwise the start of the
      service's answer; in both cases no more brands than a positive limit. */
  lemma CompanyBrandsBound(company: string, limit: int, country: string, useCountry: bool, dryRun: bool,
                           askBrands: string -> seq<Entry>)
    ensures var items := CompanyBrands(company, limit, country, useCountry, dryRun, askBrands);
            var answer := askBrands(PromptBuilder.BuildPrompt(PromptBuilder.BuildBrandsPrompt(company, country, useCountry)));
            && (limit > 0 ==> |items| <= limit)
            && (dryRun ==> items == MockBrands(company, limit))
            && (!dryRun ==> |items| <= |answer| && items == answer[..|items|])
  {
    var raw := if dryRun then MockBrands(company, limit)
               else askBrands(PromptBuilder.BuildPrompt(PromptBuilder.BuildBrandsPrompt(company, country, useCountry)));
    TruncateKeepsStart(raw, limit);
  }

  /** The `i`-th assignment stores the brands of the `i`-th company under its name. */
  lemma BrandStepAt(companies: seq<string>, limit: int, country: string, useCountry: bool, dryRun: bool,
                    askBrands: string -> seq<Entry>, i: nat)
    requires i < |companies|
    ensures BrandSteps(companies, limit, country, useCountry, dryRun, askBrands)[i] ==
            Pair(companies[i], CompanyBrands(companies[i], limit, country, useCountry, dryRun, askBrands))
  {
  }

  /** The body of the brands loop for one company: mock records or the service's
      answer, then the truncation. */
  method FetchCompanyBrands(name: string, limit: int, country: string, useCountry: bool, dryRun: bool,
                            askBrands: string -> seq<Entry>)
    returns (items: seq<Entry>)
    ensures items == CompanyBrands(name, limit, country, useCountry, dryRun, askBrands)
  {
    if dryRun {
      items := MockBrands(name, limit);
    } else {
      items := askBrands(PromptBuilder.BuildPrompt(PromptBuilder.BuildBrandsPrompt(name, country, useCountry)));
    }
    items := TruncateList(items, limit);
  }

  /** `_collect_brand_responses`: each company's brands are stored under its name. */
  method CollectBrandResponses(companies: seq<string>, limit: int, country: string, useCountry: bool, dryRun: bool,
                               askBrands: string -> seq<Entry>)
    returns (results: Dict<seq<Entry>>)
    ensures results == FromPairs(BrandSteps(companies, limit, country, useCountry, dryRun, askBrands))
  {
    ghost var steps := BrandSteps(companies, limit, country, useCountry, dryRun, askBrands);
    results := [];
    for i := 0 to |companies|
      invariant results == FromPairs(steps[..i])
    {
      var name := companies[i];
      var items := FetchCompanyBrands(name, limit, country, useCountry, dryRun, askBrands);
      BrandStepAt(companies, limit, country, useCountry, dryRun, askBrands, i);
      FromPairsPrefix(steps, i);
      results := Put(results, name, items);
    }
    assert steps[..|companies|] == steps;
  }

  /** With distinct company names (as the sorted name set gives), the result has
      exactly one key per name, in the given order, each with that company's brands. */
  lemma BrandResponsesKeys(companies: seq<string>, limit: int, country: string, useCountry: bool, dryRun: bool,
                           askBrands: string -> seq<Entry>)
    requires Distinct(companies)
    ensures var r := FromPairs(BrandSteps(companies, limit, country, useCountry, dryRun, askBrands));
            && Keys(r) == companies
            && forall i :: 0 <= i < |companies| ==>
                 r[i].value == CompanyBrands(companies[i], limit, country, useCountry, dryRun, askBrands)
  {
    FromDistinctPairs(BrandSteps(companies, limit, country, useCountry, dryRun, askBrands));
  }

  // ---------------------------------------------------------------- company names

  /** The non-empty `company_name` values of the object entries across all sections. */
  function CompanyNames(responses: Dict<seq<Entry>>): set<string> {
    set p, e | p in responses && e in p.value && e.Obj? && Field(e.fields, "company_name") != "" ::
      Field(e.fields, "company_name")
  }

  /** The brand phase's input: the company names, sorted. */
  function BrandInput(responses: Dict<seq<Entry>>): seq<string> {
    SortStrings(CompanyNames(responses))
  }

  /** The brand phase's input lists, in ascending order and once each, exactly the
      non-empty company names found in some section's list; it never holds "". */
  lemma BrandInputProperties(responses: Dict<seq<Entry>>)
    ensures Distinct(BrandInput(responses)) && StrictlySorted(BrandInput(responses))
    ensures "" !in BrandInput(responses)
    ensures forall n :: n in BrandInput(responses) <==>
              exists p, e :: p in responses && e in p.value && e.Obj? && n != "" && Field(e.fields, "company_name") == n
  {
    var names := BrandInput(responses);
    StrictlySortedDistinct(names);
  }

  // ---------------------------------------------------------------- the run

  /** What a run leaves behind, in order. */
  datatype Effect =
    | GenerateCompanies
    | SaveCompanies(companies: Dict<seq<Entry>>)
    | GenerateBrands(names: seq<string>)
    | SaveBrands(brands: Dict<seq<Entry>>)
    | WriteDataset(table: seq<seq<string>>)

  /** The saved artifacts a run can read. */
  datatype Saved = Saved(companies: Dict<seq<Entry>>, brands: Dict<seq<Entry>>)

  function CollectCompanies(cfg: Config.Settings, sections: map<int, string>, dryRun: bool,
                            askCompanies: string -> seq<Entry>): Dict<seq<Entry>>
  {
    FromPairs(SectionSteps(sections, Order(sections), cfg.maxCompaniesPerIndustry, cfg.country, cfg.countrySpecific, dryRun, askCompanies))
  }

  function CollectBrands(cfg: Config.Settings, names: seq<string>, dryRun: bool,
                         askBrands: string -> seq<Entry>): Dict<seq<Entry>>
  {
    FromPairs(BrandSteps(names, cfg.maxBrandsPerCompany, cfg.country, cfg.countrySpecific, dryRun, askBrands))
  }

  function Dataset(companies: Dict<seq<Entry>>, brands: Dict<seq<Entry>>): seq<seq<string>> {
    Flatten.Table(Flatten.Rows(companies, brands))
  }

  predicate Saves(e: Effect) {
    e.SaveCompanies? || e.SaveBrands?
  }

  predicate Generates(e: Effect) {
    e.GenerateCompanies? || e.GenerateBrands?
  }

  /** The phases of a dry run, given its mock companies and brands: nothing is saved,
      and the last step flattens exactly these companies and brands. */
  function DryRun(companies: Dict<seq<Entry>>, brands: Dict<seq<Entry>>): (effects: seq<Effect>)
    ensures effects != [] && effects[|effects| - 1] == WriteDataset(Dataset(companies, brands))
    ensures forall k :: 0 <= k < |effects| ==> !Saves(effects[k])
  {
    [GenerateCompanies, GenerateBrands(BrandInput(companies)), WriteDataset(Dataset(companies, brands))]
  }

  /** The phases of a full run: the companies are saved before brands are generated
      for exactly the saved companies; the brands are saved just before the last
      step flattens these companies and brands. */
  function FullRun(companies: Dict<seq<Entry>>, brands: Dict<seq<Entry>>): (effects: seq<Effect>)
    ensures |effects| >= 2 && effects[|effects| - 1] == WriteDataset(Dataset(companies, brands))
    ensures effects[|effects| - 2] == SaveBrands(brands)
    ensures exists i, j :: 0 <= i < j < |effects| && effects[i].SaveCompanies? && effects[j].GenerateBrands? &&
                           effects[j].names == BrandInput(effects[i].companies)
  {
    var effects := [GenerateCompanies, SaveCompanies(companies), GenerateBrands(BrandInput(companies)),
                    SaveBrands(brands), WriteDataset(Dataset(companies, brands))];
    assert effects[1].SaveCompanies? && effects[2].GenerateBrands?;
    effects
  }

  /** The phases of a brands-only run over the saved companies: companies are neither
      generated nor saved; the brands are saved just before the last step flattens
      the saved companies and the new brands. */
  function BrandsOnlyRun(companies: Dict<seq<Entry>>, brands: Dict<seq<Entry>>): (effects: seq<Effect>)
    ensures |effects| >= 2 && effects[|effects| - 1] == WriteDataset(Dataset(companies, brands))
    ensures effects[|effects| - 2] == SaveBrands(brands)
    ensures forall k :: 0 <= k < |effects| ==> !effects[k].GenerateCompanies? && !effects[k].SaveCompanies?
    ensures exists j :: 0 <= j < |effects| && effects[j] == GenerateBrands(BrandInput(companies))
  {
    var effects := [GenerateBrands(BrandInput(companies)), SaveBrands(brands), WriteDataset(Dataset(companies, brands))];
    assert effects[0] == GenerateBrands(BrandInput(companies));
    effects
  }

  /** `main` after the mode is chosen: the phases each mode runs, in order. Every mode
      ends by flattening the companies and brands it collected or loaded; a dry run
      saves nothing; the CSV mode generates nothing; the full run saves the companies
      before it generates brands for them; the two generating modes that save save
      the brands just before the flatten; the brands-only mode generates brands for
      the saved companies and never generates or saves companies. */
  function Run(mode: Mode, cfg: Config.Settings, sections: map<int, string>, saved: Saved,
               askCompanies: string -> seq<Entry>, askBrands: string -> seq<Entry>): (effects: seq<Effect>)
    ensures effects != [] && effects[|effects| - 1].WriteDataset?
    ensures mode == Dry ==> forall k :: 0 <= k < |effects| ==> !Saves(effects[k])
    ensures mode == Dry ==>
              var c := CollectCompanies(cfg, sections, true, askCompanies);
              effects[|effects| - 1] == WriteDataset(Dataset(c, CollectBrands(cfg, BrandInput(c), true, askBrands)))
    ensures mode == CsvOnly ==> effects == [WriteDataset(Dataset(saved.companies, saved.brands))]
    ensures mode == Both ==>
              exists i, j :: 0 <= i < j < |effects| && effects[i].SaveCompanies? && effects[j].GenerateBrands? &&
                             effects[j].names == BrandInput(effects[i].companies)
    ensures mode == Both ==>
              var c := CollectCompanies(cfg, sections, false, askCompanies);
              var b := CollectBrands(cfg, BrandInput(c), false, askBrands);
              && |effects| >= 2 && effects[|effects| - 1] == WriteDataset(Dataset(c, b))
              && effects[|effects| - 2] == SaveBrands(b)
              && SaveCompanies(c) in effects
    ensures mode == BrandsOnly ==>
              && (forall k :: 0 <= k < |effects| ==> !effects[k].GenerateCompanies? && !effects[k].SaveCompanies?)
              && (exists j :: 0 <= j < |effects| && effects[j] == GenerateBrands(BrandInput(saved.companies)))
    ensures mode == BrandsOnly ==>
              var b := CollectBrands(cfg, BrandInput(saved.companies), false, askBrands);
              && |effects| >= 2 && effects[|effects| - 1] == WriteDataset(Dataset(saved.companies, b))
              && effects[|effects| - 2] == SaveBrands(b)
  {
    match mode
    case Dry =>
      var companies := CollectCompanies(cfg, sections, true, askCompanies);
      DryRun(companies, CollectBrands(cfg, BrandInput(companies), true, askBrands))
    case CsvOnly =>
      [WriteDataset(Dataset(saved.companies, saved.brands))]
    case Both =>
      var companies := CollectCompanies(cfg, sections, false, askCompanies);
      FullRun(companies, CollectBrands(cfg, BrandInput(companies), false, askBrands))
    case BrandsOnly =>
      BrandsOnlyRun(saved.companies, CollectBrands(cfg, BrandInput(saved.companies), false, askBrands))
  }

  /** The dry-run companies never consult the service. */
  lemma DryCompaniesIndependent(cfg: Config.Settings, sections: map<int, string>,
                                askCompanies1: string -> seq<Entry>, askCompanies2: string -> seq<Entry>)
    ensures CollectCompanies(cfg, sections, true, askCompanies1) == CollectCompanies(cfg, sections, true, askCompanies2)
  {
    var s1 := SectionSteps(sections, Order(sections), cfg.maxCompaniesPerIndustry, cfg.country, cfg.countrySpecific, true, askCompanies1);
    var s2 := SectionSteps(sections, Order(sections), cfg.maxCompaniesPerIndustry, cfg.country, cfg.countrySpecific, true, askCompanies2);
    var order := Order(sections);
    forall i | 0 <= i < |order| ensures s1[i] == s2[i] {
      SectionStepAt(sections, order, cfg.maxCompaniesPerIndustry, cfg.country, cfg.countrySpecific, true, askCompanies1, i);
      SectionStepAt(sections, order, cfg.maxCompaniesPerIndustry, cfg.country, cfg.countrySpecific, true, askCompanies2, i);
    }
    assert s1 == s2;
  }

  /** The dry-run brands never consult the service. */
  lemma DryBrandsIndependent(cfg: Config.Settings, names: seq<string>,
                             askBrands1: string -> seq<Entry>, askBrands2: string -> seq<Entry>)
    ensures CollectBrands(cfg, names, true, askBrands1) == CollectBrands(cfg, names, true, askBrands2)
  {
    var b1 := BrandSteps(names, cfg.maxBrandsPerCompany, cfg.country, cfg.countrySpecific, true, askBrands1);
    var b2 := BrandSteps(names, cfg.maxBrandsPerCompany, cfg.country, cfg.countrySpecific, true, askBrands2);
    assert b1 == b2;
  }

  /** A dry run depends on neither the generation service nor the saved artifacts. */
  lemma DryRunIndependent(cfg: Config.Settings, sections: map<int, string>, saved1: Saved, saved2: Saved,
                          askCompanies1: string -> seq<Entry>, askBrands1: string -> seq<Entry>,
                          askCompanies2: string -> seq<Entry>, askBrands2: string -> seq<Entry>)
    ensures Run(Dry, cfg, sections, saved1, askCompanies1, askBrands1) ==
            Run(Dry, cfg, sections, saved2, askCompanies2, askBrands2)
  {
    DryCompaniesIndependent(cfg, sections, askCompanies1, askCompanies2);
    var names := BrandInput(CollectCompanies(cfg, sections, true, askCompanies1));
    DryBrandsIndependent(cfg, names, askBrands1, askBrands2);
  }
}
