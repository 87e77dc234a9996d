/**
 * Prompt assembly: the base instructions wrapped around a question, and the
 * templates with their slots replaced by the run's parameters. Every slot is
 * replaced with Python's `str.replace` (`Text.ReplaceAll`), one slot after the
 * other, so a value put in an earlier slot is itself searched by the later
 * replacements, while the JSON example braces are never touched.
 */
module PromptBuilder {
  import opened Text
  import opened Prompt
  import opened JsonData

  /** `r` is `base`, a blank line, and then `question` with its surrounding
      whitespace removed: a slice of `question` that neither starts nor ends with
      whitespace and has only whitespace around it. */
  predicate Wraps(base: string, question: string, r: string) {
    && |r| >= |base| + 2 && r[..|base|] == base && r[|base|..|base| + 2] == "\n\n"
    && var q := r[|base| + 2..];
       && (q == [] || (!IsSpace(q[0]) && !IsSpace(q[|q| - 1])))
       && exists i :: 0 <= i <= |question| - |q| && q == question[i..i + |q|]
                      && AllSpace(question[..i]) && AllSpace(question[i + |q|..])
  }

  /** `build_prompt`: the base instructions, a blank line, and the question with its
      surrounding whitespace removed. */
  function BuildPrompt(question: string): (r: string)
    ensures Wraps(Base, question, r)
  {
    WrapShape(Base, question);
    Base + "\n\n" + Strip(question)
  }

  lemma WrapShape(base: string, question: string)
    ensures Wraps(base, question, base + "\n\n" + Strip(question))
  {
    var r := base + "\n\n" + Strip(question);
    StripSlice(question);
    assert r[|base| + 2..] == Strip(question);
  }

  /** Whitespace around the question does not change the prompt. */
  lemma BuildPromptIgnoresPadding(pre: string, question: string, post: string)
    requires AllSpace(pre) && AllSpace(post)
    ensures BuildPrompt(pre + question + post) == BuildPrompt(question)
  {
    StripPadding(pre, question, post);
  }

  /** The country template is used exactly when it is asked for and a country is given. */
  predicate UsesCountry(country: string, useCountry: bool) {
    useCountry && country != ""
  }

  /** `build_companies_prompt`: on the global template `{section}` becomes the label
      and nothing else changes; on the country template `{section}` is replaced
      first and `{country}` second, so the second replacement also reaches into the
      label. */
  function BuildCompaniesPrompt(sectionLabel: string, country: string, useCountry: bool): (r: string)
    ensures UsesCountry(country, useCountry) ==>
              r == CompaniesCountryText(ReplaceAll(sectionLabel, CountrySlot, country), country, country)
    ensures !UsesCountry(country, useCountry) ==> r == CompaniesText(sectionLabel)
  {
    if useCountry && country != "" then
      CompaniesCountryFilled(sectionLabel, country);
      ReplaceAll(ReplaceAll(CompaniesCountryTemplate, SectionSlot, sectionLabel), CountrySlot, country)
    else
      CompaniesFilled(sectionLabel);
      ReplaceAll(CompaniesTemplate, SectionSlot, sectionLabel)
  }

  /** Filling the global companies template. */
  lemma CompaniesFilled(sectionLabel: string)
    ensures ReplaceAll(CompaniesTemplate, SectionSlot, sectionLabel) == CompaniesText(sectionLabel)
  {
    SlotNames();
    CompaniesReplace(SectionSlot, "section", sectionLabel);
    SlotSelf("section", sectionLabel);
  }

  /** Filling the country companies template: `{section}` first, then `{country}`. */
  lemma CompaniesCountryFilled(sectionLabel: string, country: string)
    ensures ReplaceAll(ReplaceAll(CompaniesCountryTemplate, SectionSlot, sectionLabel), CountrySlot, country) ==
            CompaniesCountryText(ReplaceAll(sectionLabel, CountrySlot, country), country, country)
  {
    SlotNames();
    var t := ReplaceAll(CompaniesCountryTemplate, SectionSlot, sectionLabel);
    assert t == CompaniesCountryText(sectionLabel, CountrySlot, CountrySlot) by {
      CompaniesCountryReplace(SectionSlot, CountrySlot, CountrySlot, "section", sectionLabel);
      SlotSelf("section", sectionLabel);
      SlotOther("country", "section", sectionLabel);
    }
    CompaniesCountryReplace(sectionLabel, CountrySlot, CountrySlot, "country", country);
    SlotSelf("country", country);
  }

  /** `build_brands_prompt`: the same selection rule, with `{company}` in place of
      `{section}`. */
  function BuildBrandsPrompt(company: string, country: string, useCountry: bool): (r: string)
    ensures UsesCountry(country, useCountry) ==>
              r == BrandsCountryText(ReplaceAll(company, CountrySlot, country), country)
    ensures !UsesCountry(country, useCountry) ==> r == BrandsText(company)
  {
    if useCountry && country != "" then
      BrandsCountryFilled(company, country);
      ReplaceAll(ReplaceAll(BrandsCountryTemplate, CompanySlot, company), CountrySlot, country)
    else
      BrandsFilled(company);
      ReplaceAll(BrandsTemplate, CompanySlot, company)
  }

  /** Filling the global brands template. */
  lemma BrandsFilled(company: string)
    ensures ReplaceAll(BrandsTemplate, CompanySlot, company) == BrandsText(company)
  {
    SlotNames();
    BrandsReplace(CompanySlot, "company", company);
    SlotSelf("company", company);
  }

  /** Filling the country brands template: `{company}` first, then `{country}`. */
  lemma BrandsCountryFilled(company: string, country: string)
    ensures ReplaceAll(ReplaceAll(BrandsCountryTemplate, CompanySlot, company), CountrySlot, country) ==
            BrandsCountryText(ReplaceAll(company, CountrySlot, country), country)
  {
    SlotNames();
    var t := ReplaceAll(BrandsCountryTemplate, CompanySlot, company);
    assert t == BrandsCountryText(company, CountrySlot) by {
      BrandsCountryReplace(CompanySlot, CountrySlot, "company", company);
      SlotSelf("company", company);
      SlotOther("country", "company", company);
    }
    BrandsCountryReplace(company, CountrySlot, "country", country);
    SlotSelf("country", country);
  }

  /** On the country branch a label in which `{country}` occurs nowhere is kept
      verbatim; other braces do no harm. */
  lemma CompaniesPromptLabelVerbatim(sectionLabel: string, country: string)
    requires country != "" && forall i: nat :: !OccursAt(sectionLabel, CountrySlot, i)
    ensures BuildCompaniesPrompt(sectionLabel, country, true) == CompaniesCountryText(sectionLabel, country, country)
  {
    ReplaceNoOccurrence(sectionLabel, CountrySlot, country);
  }

  /** A label that itself reads `{country}` is rewritten by the second replacement:
      the prompt names the country where the label should stand. */
  lemma CompaniesPromptRewritesLabel()
    ensures BuildCompaniesPrompt(CountrySlot, "Egypt", true) == CompaniesCountryText("Egypt", "Egypt", "Egypt")
    ensures BuildCompaniesPrompt(CountrySlot, "Egypt", true) != CompaniesCountryText(CountrySlot, "Egypt", "Egypt")
  {
    SlotSelf("country", "Egypt");
  }

  /** The first character of `a + b` comes from `a` when `a` is not empty. */
  lemma FirstOfConcat(a: string, b: string)
    requires |a| > 0
    ensures (a + b)[0] == a[0]
  {
  }

  /** The last character of `a + b` comes from `b` when `b` is not empty. */
  lemma LastOfConcat(a: string, b: string)
    requires |b| > 0
    ensures (a + b)[|a + b| - 1] == b[|b| - 1]
  {
  }

  /** Both companies templates open with a letter and close with a full stop, so
      the `.strip()` applied to the built prompt never removes anything. */
  lemma CompaniesPromptStripped(sectionLabel: string, country: string, useCountry: bool)
    ensures Strip(BuildCompaniesPrompt(sectionLabel, country, useCountry)) ==
            BuildCompaniesPrompt(sectionLabel, country, useCountry)
  {
    if UsesCountry(country, useCountry) {
      CompaniesCountryTextStripped(ReplaceAll(sectionLabel, CountrySlot, country), country, country);
    } else {
      CompaniesTextStripped(sectionLabel);
    }
  }

  /** The companies templates open with `Y` and their common tail ends with `.`. */
  lemma CompaniesEnds()
    ensures CompaniesLead != [] && CompaniesLead[0] == 'Y'
    ensures FieldsTail != [] && FieldsTail[|FieldsTail| - 1] == '.'
  {
    assert Closing[|Closing| - 1] == '.';
    LastOfConcat(CompanyJson, Closing);
    LastOfConcat(FieldsLine, CompanyJson + Closing);
  }

  lemma CompaniesTextStripped(section: string)
    ensures Strip(CompaniesText(section)) == CompaniesText(section)
  {
    CompaniesEnds();
    LastOfConcat(CompaniesScope, FieldsTail);
    LastOfConcat(section, CompaniesScope + FieldsTail);
    StripKeepsEnds(CompaniesText(section), CompaniesLead, section + (CompaniesScope + FieldsTail));
  }

  lemma CompaniesCountryTextStripped(section: string, c1: string, c2: string)
    ensures Strip(CompaniesCountryText(section, c1, c2)) == CompaniesCountryText(section, c1, c2)
  {
    CompaniesEnds();
    var t := CountryClose + FieldsTail;
    LastOfConcat(CountryClose, FieldsTail);
    LastOfConcat(c2, t);
    LastOfConcat(CountryMid, c2 + t);
    LastOfConcat(c1, CountryMid + (c2 + t));
    LastOfConcat(CountryScope, c1 + (CountryMid + (c2 + t)));
    LastOfConcat(section, CountryScope + (c1 + (CountryMid + (c2 + t))));
    var rest := section + (CountryScope + (c1 + (CountryMid + (c2 + t))));
    StripKeepsEnds(CompaniesCountryText(section, c1, c2), CompaniesLead, rest);
  }

  /** A text that opens with a letter and closes with a full stop loses nothing to
      `.strip()`. */
  lemma StripKeepsEnds(r: string, lead: string, rest: string)
    requires r == lead + rest && lead != [] && lead[0] == 'Y' && rest != [] && rest[|rest| - 1] == '.'
    ensures Strip(r) == r
  {
    FirstOfConcat(lead, rest);
    LastOfConcat(lead, rest);
    StripNoop(r);
  }

  /** On the country branch of the brands prompt, a company name in which
      `{country}` occurs nowhere is kept verbatim. */
  lemma BrandsPromptCompanyVerbatim(company: string, country: string)
    requires country != "" && forall i: nat :: !OccursAt(company, CountrySlot, i)
    ensures BuildBrandsPrompt(company, country, true) == BrandsCountryText(company, country)
  {
    ReplaceNoOccurrence(company, CountrySlot, country);
  }

  /** The five group fields, each `""` when the record lacks it. */
  datatype GroupFields = GroupFields(section: string, division: string, group: string,
                                     includes: string, excludes: string)

  function ReadGroup(g: map<string, string>): GroupFields {
    GroupFields(Field(g, "section_name"), Field(g, "division_name"), Field(g, "group_name"),
                Field(g, "includes"), Field(g, "excludes"))
  }

  /** What the replacements after the `k`-th group slot (0 = `{section_name}` ...
      4 = `{excludes}`) do to the value substituted at that slot. */
  function ReplaceLater(x: string, k: nat, f: GroupFields): string {
    var x1 := if k < 1 then ReplaceAll(x, DivisionNameSlot, f.division) else x;
    var x2 := if k < 2 then ReplaceAll(x1, GroupNameSlot, f.group) else x1;
    var x3 := if k < 3 then ReplaceAll(x2, IncludesSlot, f.includes) else x2;
    if k < 4 then ReplaceAll(x3, ExcludesSlot, f.excludes) else x3
  }

  /** The replacements after each group slot, one by one. */
  lemma ReplaceLaterSteps(f: GroupFields)
    ensures var s2 := ReplaceAll(f.section, DivisionNameSlot, f.division);
            var s3 := ReplaceAll(s2, GroupNameSlot, f.group);
            ReplaceLater(f.section, 0, f) == ReplaceAll(ReplaceAll(s3, IncludesSlot, f.includes), ExcludesSlot, f.excludes)
    ensures var d3 := ReplaceAll(f.division, GroupNameSlot, f.group);
            ReplaceLater(f.division, 1, f) == ReplaceAll(ReplaceAll(d3, IncludesSlot, f.includes), ExcludesSlot, f.excludes)
    ensures ReplaceLater(f.group, 2, f) ==
            ReplaceAll(ReplaceAll(f.group, IncludesSlot, f.includes), ExcludesSlot, f.excludes)
    ensures ReplaceLater(f.includes, 3, f) == ReplaceAll(f.includes, ExcludesSlot, f.excludes)
  {
  }

  /** The five group replacements, in the builder's order. */
  function ReplaceGroupSlots(template: string, f: GroupFields): string {
    ReplaceAll(ReplaceAll(ReplaceAll(ReplaceAll(ReplaceAll(template,
      SectionNameSlot, f.section), DivisionNameSlot, f.division), GroupNameSlot, f.group),
      IncludesSlot, f.includes), ExcludesSlot, f.excludes)
  }

  /** `build_companies_groups_prompt`: the five group slots are replaced in a fixed
      order with the record's fields (`""` when missing), then `{country}` only when
      the country template was chosen. */
  function BuildGroupsPrompt(g: map<string, string>, country: string, useCountry: bool): (r: string)
    ensures var f := ReadGroup(g);
            !UsesCountry(country, useCountry) ==>
              r == GroupsText(ReplaceLater(f.section, 0, f), ReplaceLater(f.division, 1, f),
                              ReplaceLater(f.group, 2, f), ReplaceLater(f.includes, 3, f), f.excludes)
    ensures var f := ReadGroup(g);
            UsesCountry(country, useCountry) ==>
              r == GroupsCountryText(ReplaceAll(ReplaceLater(f.section, 0, f), CountrySlot, country),
                                     ReplaceAll(ReplaceLater(f.division, 1, f), CountrySlot, country),
                                     ReplaceAll(ReplaceLater(f.group, 2, f), CountrySlot, country),
                                     ReplaceAll(ReplaceLater(f.includes, 3, f), CountrySlot, country),
                                     ReplaceAll(f.excludes, CountrySlot, country), country, country)
  {
    var f := ReadGroup(g);
    var template := if useCountry && country != "" then GroupsCountryTemplate else GroupsTemplate;
    var p := ReplaceGroupSlots(template, f);
    if useCountry && country != "" then
      GroupsCountryFilled(f, country);
      ReplaceAll(p, CountrySlot, country)
    else
      GroupsSlots(f);
      p
  }

  /** Values without braces land verbatim in their slots, and a record that lacks a
      field leaves that slot empty. */
  lemma GroupsPromptVerbatim(g: map<string, string>, country: string, useCountry: bool)
    requires forall k :: k in g ==> '{' !in g[k]
    ensures var f := ReadGroup(g);
            !UsesCountry(country, useCountry) ==>
              BuildGroupsPrompt(g, country, useCountry) == GroupsText(f.section, f.division, f.group, f.includes, f.excludes)
    ensures var f := ReadGroup(g);
            UsesCountry(country, useCountry) ==>
              BuildGroupsPrompt(g, country, useCountry) ==
              GroupsCountryText(f.section, f.division, f.group, f.includes, f.excludes, country, country)
  {
    var f := ReadGroup(g);
    FieldBraceFree(g, "section_name"); FieldBraceFree(g, "division_name"); FieldBraceFree(g, "group_name");
    FieldBraceFree(g, "includes"); FieldBraceFree(g, "excludes");
    ReplaceLaterBraceFree(f.section, 0, f);
    ReplaceLaterBraceFree(f.division, 1, f);
    ReplaceLaterBraceFree(f.group, 2, f);
    ReplaceLaterBraceFree(f.includes, 3, f);
    if UsesCountry(country, useCountry) {
      SlotNames();
      SlotShape("country");
      ReplaceAbsent(f.section, CountrySlot, country);
      ReplaceAbsent(f.division, CountrySlot, country);
      ReplaceAbsent(f.group, CountrySlot, country);
      ReplaceAbsent(f.includes, CountrySlot, country);
      ReplaceAbsent(f.excludes, CountrySlot, country);
    }
  }

  lemma FieldBraceFree(g: map<string, string>, k: string)
    requires forall k :: k in g ==> '{' !in g[k]
    ensures '{' !in Field(g, k)
  {
  }

  lemma ReplaceLaterBraceFree(x: string, k: nat, f: GroupFields)
    requires '{' !in x
    ensures ReplaceLater(x, k, f) == x
  {
    SlotNames();
    SlotShape("division_name"); SlotShape("group_name"); SlotShape("includes"); SlotShape("excludes");
    ReplaceAbsent(x, DivisionNameSlot, f.division);
    ReplaceAbsent(x, GroupNameSlot, f.group);
    ReplaceAbsent(x, IncludesSlot, f.includes);
    ReplaceAbsent(x, ExcludesSlot, f.excludes);
  }

  /** The shared head of the group templates with their five slots still in place. */
  function SlotsHead(rest: string): string {
    GroupsHead(SectionNameSlot, DivisionNameSlot, GroupNameSlot, IncludesSlot, ExcludesSlot, rest)
  }

  /** A tail that follows the group slots: it starts at a seam and the replacement
      leaves it alone. */
  predicate InertTail(rest: string, slot: string, v: string)
    requires |slot| > 0
  {
    rest != [] && Seam(rest[0]) && ReplaceAll(rest, slot, v) == rest
  }

  /** Replacing `{section_name}` in the head. */
  lemma HeadPass1(rest: string, v: string)
    requires InertTail(rest, SectionNameSlot, v)
    ensures ReplaceAll(SlotsHead(rest), SectionNameSlot, v) ==
            GroupsHead(v, DivisionNameSlot, GroupNameSlot, IncludesSlot, ExcludesSlot, rest)
  {
    SlotNames();
    GroupSlotNamesDistinct();
    GroupsHeadReplace(SectionNameSlot, DivisionNameSlot, GroupNameSlot, IncludesSlot, ExcludesSlot, rest,
                      "section_name", v);
    SlotSelf("section_name", v);
    SlotOther("division_name", "section_name", v);
    SlotOther("group_name", "section_name", v);
    SlotOther("includes", "section_name", v);
    SlotOther("excludes", "section_name", v);
  }

  /** Replacing `{division_name}` once the slot before it holds a value. */
  lemma HeadPass2(x0: string, rest: string, v: string)
    requires InertTail(rest, DivisionNameSlot, v)
    ensures ReplaceAll(GroupsHead(x0, DivisionNameSlot, GroupNameSlot, IncludesSlot, ExcludesSlot, rest), DivisionNameSlot, v) ==
            GroupsHead(ReplaceAll(x0, DivisionNameSlot, v), v, GroupNameSlot, IncludesSlot, ExcludesSlot, rest)
  {
    SlotNames();
    GroupSlotNamesDistinct();
    GroupsHeadReplace(x0, DivisionNameSlot, GroupNameSlot, IncludesSlot, ExcludesSlot, rest, "division_name", v);
    SlotSelf("division_name", v);
    SlotOther("group_name", "division_name", v);
    SlotOther("includes", "division_name", v);
    SlotOther("excludes", "division_name", v);
  }

  /** Replacing `{group_name}` once the slots before it hold values. */
  lemma HeadPass3(x0: string, x1: string, rest: string, v: string)
    requires InertTail(rest, GroupNameSlot, v)
    ensures ReplaceAll(GroupsHead(x0, x1, GroupNameSlot, IncludesSlot, ExcludesSlot, rest), GroupNameSlot, v) ==
            GroupsHead(ReplaceAll(x0, GroupNameSlot, v), ReplaceAll(x1, GroupNameSlot, v), v, IncludesSlot, ExcludesSlot, rest)
  {
    SlotNames();
    GroupSlotNamesDistinct();
    GroupsHeadReplace(x0, x1, GroupNameSlot, IncludesSlot, ExcludesSlot, rest, "group_name", v);
    SlotSelf("group_name", v);
    SlotOther("includes", "group_name", v);
    SlotOther("excludes", "group_name", v);
  }

  /** Replacing `{includes}` once the slots before it hold values. */
  lemma HeadPass4(x0: string, x1: string, x2: string, rest: string, v: string)
    requires InertTail(rest, IncludesSlot, v)
    ensures ReplaceAll(GroupsHead(x0, x1, x2, IncludesSlot, ExcludesSlot, rest), IncludesSlot, v) ==
            GroupsHead(ReplaceAll(x0, IncludesSlot, v), ReplaceAll(x1, IncludesSlot, v), ReplaceAll(x2, IncludesSlot, v),
                       v, ExcludesSlot, rest)
  {
    SlotNames();
    GroupSlotNamesDistinct();
    GroupsHeadReplace(x0, x1, x2, IncludesSlot, ExcludesSlot, rest, "includes", v);
    SlotSelf("includes", v);
    SlotOther("excludes", "includes", v);
  }

  /** Replacing `{excludes}` once the slots before it hold values. */
  lemma HeadPass5(x0: string, x1: string, x2: string, x3: string, rest: string, v: string)
    requires InertTail(rest, ExcludesSlot, v)
    ensures ReplaceAll(GroupsHead(x0, x1, x2, x3, ExcludesSlot, rest), ExcludesSlot, v) ==
            GroupsHead(ReplaceAll(x0, ExcludesSlot, v), ReplaceAll(x1, ExcludesSlot, v), ReplaceAll(x2, ExcludesSlot, v),
                       ReplaceAll(x3, ExcludesSlot, v), v, rest)
  {
    SlotNames();
    GroupsHeadReplace(x0, x1, x2, x3, ExcludesSlot, rest, "excludes", v);
    SlotSelf("excludes", v);
  }

  /** The five group replacements on the head of either template: each slot ends up
      holding its value after the later replacements were applied to it. */
  lemma HeadSlots(f: GroupFields, rest: string)
    requires InertTail(rest, SectionNameSlot, f.section) && InertTail(rest, DivisionNameSlot, f.division)
    requires InertTail(rest, GroupNameSlot, f.group) && InertTail(rest, IncludesSlot, f.includes)
    requires InertTail(rest, ExcludesSlot, f.excludes)
    ensures ReplaceGroupSlots(SlotsHead(rest), f) ==
            GroupsHead(ReplaceLater(f.section, 0, f), ReplaceLater(f.division, 1, f),
                       ReplaceLater(f.group, 2, f), ReplaceLater(f.includes, 3, f), f.excludes, rest)
  {
    var s2 := ReplaceAll(f.section, DivisionNameSlot, f.division);
    var s3, d3 := ReplaceAll(s2, GroupNameSlot, f.group), ReplaceAll(f.division, GroupNameSlot, f.group);
    var s4, d4, g4 := ReplaceAll(s3, IncludesSlot, f.includes), ReplaceAll(d3, IncludesSlot, f.includes),
                      ReplaceAll(f.group, IncludesSlot, f.includes);
    ReplaceLaterSteps(f);
    HeadPass1(rest, f.section);
    HeadPass2(f.section, rest, f.division);
    HeadPass3(s2, f.division, rest, f.group);
    HeadPass4(s3, d3, f.group, rest, f.includes);
    HeadPass5(s4, d4, g4, f.includes, rest, f.excludes);
  }

  /** The tail of the global group template is left alone by every slot replacement. */
  lemma GroupsTailInert(n: string, v: string)
    requires SlotName(n)
    ensures InertTail(GroupsScope + FieldsTail, Slot(n), v)
  {
    GroupsScopeBraceFree();
    SlotShape(n);
    FieldsTailInert(n, v);
    ReplaceSkip(GroupsScope, FieldsTail, Slot(n), v);
    assert (GroupsScope + FieldsTail)[0] == '\n';
  }

  /** A tail made of brace-free pieces that start at seams, two `{country}` slots and
      an inert end is left alone by the replacement of any slot but `{country}`. */
  lemma CountryTailInert(scope: string, mid: string, close: string, tail: string, n: string, v: string)
    requires SlotName(n) && n != "country"
    requires '{' !in scope && '{' !in mid && '{' !in close && ReplaceAll(tail, Slot(n), v) == tail
    requires scope != [] && Seam(scope[0]) && mid != [] && Seam(mid[0]) && close != [] && Seam(close[0])
    ensures InertTail(scope + (CountrySlot + (mid + (CountrySlot + (close + tail)))), Slot(n), v)
  {
    SlotNames();
    SlotShape(n);
    var pat := Slot(n);
    SlotOther("country", n, v);
    var r3 := close + tail;
    ReplaceSkip(close, tail, pat, v);
    AtSeam(CountrySlot, r3, n, v);
    var r2 := mid + (CountrySlot + r3);
    ReplaceSkip(mid, CountrySlot + r3, pat, v);
    AtSeam(CountrySlot, r2, n, v);
    ReplaceSkip(scope, CountrySlot + r2, pat, v);
  }

  /** The pieces of the country group template's tail start at seams. */
  lemma CountryTailSeams()
    ensures GroupsCountryScope != [] && Seam(GroupsCountryScope[0])
    ensures GroupsCountryMid != [] && Seam(GroupsCountryMid[0])
    ensures CountryClose != [] && Seam(CountryClose[0])
  {
  }

  /** The tail of the country group template, with its two `{country}` slots, is left
      alone by the replacement of any other slot. */
  lemma GroupsCountryTailInert(n: string, v: string)
    requires SlotName(n) && n != "country"
    ensures InertTail(GroupsCountryScope + (CountrySlot + (GroupsCountryMid + (CountrySlot + (CountryClose + FieldsTail)))),
                      Slot(n), v)
  {
    GroupsCountryScopeBraceFree(); GroupsCountryMidBraceFree(); CountryCloseBraceFree();
    FieldsTailInert(n, v);
    CountryTailSeams();
    CountryTailInert(GroupsCountryScope, GroupsCountryMid, CountryClose, FieldsTail, n, v);
  }

  /** The five group replacements on the global group template. */
  lemma GroupsSlots(f: GroupFields)
    ensures ReplaceGroupSlots(GroupsTemplate, f) ==
            GroupsText(ReplaceLater(f.section, 0, f), ReplaceLater(f.division, 1, f),
                       ReplaceLater(f.group, 2, f), ReplaceLater(f.includes, 3, f), f.excludes)
  {
    SlotNames();
    var rest := GroupsScope + FieldsTail;
    GroupsTailInert("section_name", f.section);
    GroupsTailInert("division_name", f.division);
    GroupsTailInert("group_name", f.group);
    GroupsTailInert("includes", f.includes);
    GroupsTailInert("excludes", f.excludes);
    HeadSlots(f, rest);
    assert GroupsTemplate == SlotsHead(rest);
  }

  /** The five group replacements on the country group template, which leave its two
      `{country}` slots in place. */
  lemma GroupsCountrySlots(f: GroupFields)
    ensures ReplaceGroupSlots(GroupsCountryTemplate, f) ==
            GroupsCountryText(ReplaceLater(f.section, 0, f), ReplaceLater(f.division, 1, f),
                              ReplaceLater(f.group, 2, f), ReplaceLater(f.includes, 3, f), f.excludes,
                              CountrySlot, CountrySlot)
  {
    SlotNames();
    GroupSlotNamesDistinct();
    var rest := GroupsCountryScope + (CountrySlot + (GroupsCountryMid + (CountrySlot + (CountryClose + FieldsTail))));
    GroupsCountryTailInert("section_name", f.section);
    GroupsCountryTailInert("division_name", f.division);
    GroupsCountryTailInert("group_name", f.group);
    GroupsCountryTailInert("includes", f.includes);
    GroupsCountryTailInert("excludes", f.excludes);
    HeadSlots(f, rest);
    assert GroupsCountryTemplate == SlotsHead(rest);
  }

  /** Filling `{country}` after the group slots of the country template. */
  lemma GroupsCountryFilled(f: GroupFields, country: string)
    ensures ReplaceAll(ReplaceGroupSlots(GroupsCountryTemplate, f), CountrySlot, country) ==
            GroupsCountryText(ReplaceAll(ReplaceLater(f.section, 0, f), CountrySlot, country),
                              ReplaceAll(ReplaceLater(f.division, 1, f), CountrySlot, country),
                              ReplaceAll(ReplaceLater(f.group, 2, f), CountrySlot, country),
                              ReplaceAll(ReplaceLater(f.includes, 3, f), CountrySlot, country),
                              ReplaceAll(f.excludes, CountrySlot, country), country, country)
  {
    GroupsCountrySlots(f);
    SlotNames();
    GroupsCountryReplace(ReplaceLater(f.section, 0, f), ReplaceLater(f.division, 1, f),
                         ReplaceLater(f.group, 2, f), ReplaceLater(f.includes, 3, f), f.excludes,
                         CountrySlot, CountrySlot, "country", country);
    SlotSelf("country", country);
  }
}
