/**
 * The prompt templates of the generator. Each template is written as its fixed
 * text pieces around its placeholder slots (`{section}`, `{country}`, ...), so
 * that a replacement of one slot can be computed piece by piece: the pieces
 * hold no opening brace except the two JSON examples, whose braces are each
 * followed by a line break, and every slot is followed by a piece that starts
 * with a character no slot contains.
 */
module Prompt {
  import opened Text

  // ---------------------------------------------------------------- slots

  predicate SlotChar(c: char) {
    ('a' <= c <= 'z') || c == '_'
  }

  /** A placeholder name: lower-case letters and underscores. */
  predicate SlotName(n: string) {
    |n| > 0 && forall k :: 0 <= k < |n| ==> SlotChar(n[k])
  }

  /** The placeholder token `{name}` that the builder replaces. */
  function Slot(name: string): string {
    "{" + name + "}"
  }

  /** A character that can follow a slot without being part of any token. */
  predicate Seam(c: char) {
    !SlotChar(c) && c != '{' && c != '}'
  }

  const SectionSlot: string := Slot("section")
  const CountrySlot: string := Slot("country")
  const CompanySlot: string := Slot("company")
  const SectionNameSlot: string := Slot("section_name")
  const DivisionNameSlot: string := Slot("division_name")
  const GroupNameSlot: string := Slot("group_name")
  const IncludesSlot: string := Slot("includes")
  const ExcludesSlot: string := Slot("excludes")

  lemma SlotShape(n: string)
    requires SlotName(n)
    ensures |Slot(n)| == |n| + 2 && Slot(n)[0] == '{' && Slot(n)[1] == n[0]
    ensures Slot(n)[|n| + 1] == '}' && Slot(n)[1..] == n + "}"
    ensures forall k :: 0 <= k < |n| ==> Slot(n)[k + 1] == n[k]
  {
  }

  /** The names of the slots the templates use. */
  lemma SlotNames()
    ensures SlotName("section") && SlotName("company") && SlotName("country")
    ensures SlotName("section_name") && SlotName("division_name") && SlotName("group_name")
    ensures SlotName("includes") && SlotName("excludes")
    ensures "country" != "section" && "country" != "company"
  {
  }

  /** A seam character occurs in no slot. */
  lemma SeamNotInSlot(c: char, n: string)
    requires SlotName(n) && Seam(c)
    ensures c !in Slot(n)
  {
    var s := Slot(n);
    SlotShape(n);
    forall k | 0 <= k < |s| ensures s[k] != c {
      if 0 < k <= |n| {
        assert s[k] == n[k - 1];
      }
    }
  }

  /** Replacing a slot by a value, where the slot stands in the template. */
  lemma SlotSelf(n: string, rep: string)
    requires SlotName(n)
    ensures ReplaceAll(Slot(n), Slot(n), rep) == rep
    ensures CountOccurrences(Slot(n), Slot(n)) == 1
  {
    ReplaceHit([], Slot(n), rep);
    assert Slot(n) + [] == Slot(n);
  }

  /** Replacing one slot leaves a different slot as it is. */
  lemma SlotOther(m: string, n: string, rep: string)
    requires SlotName(m) && SlotName(n) && m != n
    ensures ReplaceAll(Slot(m), Slot(n), rep) == Slot(m)
    ensures CountOccurrences(Slot(m), Slot(n)) == 0
  {
    var t, pat := Slot(m), Slot(n);
    SlotShape(m);
    SlotShape(n);
    assert '{' !in t[1..] by {
      forall k | 0 <= k < |t[1..]| ensures t[1..][k] != '{' {
        if k < |m| { assert t[1..][k] == m[k]; }
      }
    }
    var i: nat;
    if exists j :: 0 <= j < |m| && j < |n| && m[j] != n[j] {
      var j :| 0 <= j < |m| && j < |n| && m[j] != n[j];
      i := j + 1;
    } else if |m| < |n| {
      i := |m| + 1;
      assert pat[i] == n[|m|];
    } else {
      assert |m| == |n| ==> m == n;
      i := |n| + 1;
      assert t[i] == m[|n|];
    }
    ReplaceOther(t, [], pat, rep, i);
    assert t + [] == t;
  }

  // ---------------------------------------------------------------- literal pieces

  /** `BASE_PROMPT_TEMPLATE`: the system instructions placed before every question. */
  const Base: string :=
    "You are a disciplined data extraction en" +
    "gine. Return ONLY valid JSON matching th" +
    "e provided schema instructions—no code f" +
    "ences, no prose, no markdown, no explana" +
    "tions. If uncertain about a field, use a" +
    "n empty string. Never hallucinate extra " +
    "keys."

  /** Opening of the Rev.4 companies templates, up to the `{section}` slot. */
  const CompaniesLead: string :=
    "You are an industry research assistant. " +
    "Using ISIC Rev.4 Section "

  /** What follows `{section}` in the global companies template. */
  const CompaniesScope: string :=
    " as the scope, identify the top 10 globa" +
    "l companies operating in this section ba" +
    "sed on market share. "

  /** The line that introduces the company JSON example. */
  const FieldsLine: string :=
    "For each company, provide the following " +
    "fields in JSON format:\n\n"

  /** The company JSON example after its opening brace. */
  const CompanyJsonFields: string :=
    "  \"company_name\": \"\",\n  \"headquarters_co" +
    "untry\": \"\",\n  \"main_industry_activities\"" +
    ": \"\"\n}\n"

  /** Last sentence of every companies template. */
  const Closing: string :=
    "Return only valid JSON (no explanations," +
    " text, or formatting outside the JSON ar" +
    "ray)."

  /** What follows `{section}` in the country-specific companies template. */
  const CountryScope: string :=
    " as the scope, identify the top 10 compa" +
    "nies headquartered in "

  /** Between the two `{country}` slots of a country-specific companies template. */
  const CountryMid: string :=
    " operating in this section (or strongly " +
    "associated with "

  /** What follows the second `{country}` slot. */
  const CountryClose: string := "). "

  /** Opening of both brands templates, up to the `{company}` slot. */
  const BrandsLead: string :=
    "You are a business classification assist" +
    "ant. Focus strictly on the company named" +
    ": "

  /** What follows the last slot of a brands template. */
  const BrandsNext: string := ". "

  /** Between `{company}` and `{country}` in the country-specific brands template. */
  const BrandsCountryMid: string :=
    ". Only consider brands / products / serv" +
    "ices originating from or primarily marke" +
    "ted in "

  /** The request of the brands templates, ending before their JSON example. */
  const ListLine: string :=
    "List the top 10 distinct brands / produc" +
    "ts / services likely to appear as indivi" +
    "dual invoice line items. Return ONLY a s" +
    "ingle JSON object with this exact shape " +
    "(no code fences, no extra commentary):\n"

  /** The brands JSON example between its outer and inner opening braces. */
  const BrandJsonItems: string := "  \"items\": [\n    "

  /** The brands JSON example after its inner opening brace. */
  const BrandJsonFields: string :=
    "      \"name\": \"\",\n      \"type\": \"\",\n    " +
    "  \"invoice_example\": \"\",\n      \"gpc_segm" +
    "ent\": \"\",\n      \"gpc_family\": \"\",\n      " +
    "\"gpc_class\": \"\",\n      \"gpc_brick\": \"\"\n " +
    "   }\n  ]\n}\n"

  /** Last line of both brands templates. */
  const Rules: string :=
    "Rules: (1) No markdown. (2) Do not inclu" +
    "de more than 10 items. (3) Each field mu" +
    "st be a concise string."

  /** Opening of both ISIC Rev.5 group templates, up to the `{section_name}` slot. */
  const GroupsLead: string :=
    "You are an industry research assistant. " +
    "Using ISIC Rev.5 classification, focus o" +
    "n this specific industry group:\n- Sectio" +
    "n: "

  /** Label before `{division_name}`. */
  const DivisionLine: string := "\n- Division: "

  /** Label before `{group_name}`. */
  const GroupLine: string := "\n- Group: "

  /** Label before `{includes}`. */
  const IncludesLine: string := "\n- Includes: "

  /** Label before `{excludes}`. */
  const ExcludesLine: string := "\n- Excludes: "

  /** What follows `{excludes}` in the global group template. */
  const GroupsScope: string :=
    "\n\nIdentify the top 10 global companies o" +
    "perating specifically in this group base" +
    "d on market share. "

  /** What follows `{excludes}` in the country-specific group template. */
  const GroupsCountryScope: string :=
    "\n\nIdentify the top 10 companies headquar" +
    "tered in "

  /** Between the two `{country}` slots of the country-specific group template. */
  const GroupsCountryMid: string :=
    " operating specifically in this group (o" +
    "r strongly associated with "

  lemma BaseBraceFree0()
    ensures '{' !in "You are a disciplined data extraction en" && '}' !in "You are a disciplined data extraction en"
  {
  }

  lemma BaseBraceFree1()
    ensures '{' !in "gine. Return ONLY valid JSON matching th" && '}' !in "gine. Return ONLY valid JSON matching th"
  {
  }

  lemma BaseBraceFree2()
    ensures '{' !in "e provided schema instructions—no code f" && '}' !in "e provided schema instructions—no code f"
  {
  }

  lemma BaseBraceFree3()
    ensures '{' !in "ences, no prose, no markdown, no explana" && '}' !in "ences, no prose, no markdown, no explana"
  {
  }

  lemma BaseBraceFree4()
    ensures '{' !in "tions. If uncertain about a field, use a" && '}' !in "tions. If uncertain about a field, use a"
  {
  }

  lemma BaseBraceFree5()
    ensures '{' !in "n empty string. Never hallucinate extra " && '}' !in "n empty string. Never hallucinate extra "
  {
  }

  lemma BaseBraceFree6()
    ensures '{' !in "keys." && '}' !in "keys."
  {
  }

  lemma BaseBraceFree()
    ensures '{' !in Base
    ensures '}' !in Base
  {
    BaseBraceFree0();
    BaseBraceFree1();
    BaseBraceFree2();
    BaseBraceFree3();
    BaseBraceFree4();
    BaseBraceFree5();
    BaseBraceFree6();
  }

  lemma CompaniesLeadBraceFree0()
    ensures '{' !in "You are an industry research assistant. "
  {
  }

  lemma CompaniesLeadBraceFree1()
    ensures '{' !in "Using ISIC Rev.4 Section "
  {
  }

  lemma CompaniesLeadBraceFree()
    ensures '{' !in CompaniesLead
  {
    CompaniesLeadBraceFree0();
    CompaniesLeadBraceFree1();
  }

  lemma CompaniesScopeBraceFree0()
    ensures '{' !in " as the scope, identify the top 10 globa"
  {
  }

  lemma CompaniesScopeBraceFree1()
    ensures '{' !in "l companies operating in this section ba"
  {
  }

  lemma CompaniesScopeBraceFree2()
    ensures '{' !in "sed on market share. "
  {
  }

  lemma CompaniesScopeBraceFree()
    ensures '{' !in CompaniesScope
  {
    CompaniesScopeBraceFree0();
    CompaniesScopeBraceFree1();
    CompaniesScopeBraceFree2();
  }

  lemma FieldsLineBraceFree0()
    ensures '{' !in "For each company, provide the following "
  {
  }

  lemma FieldsLineBraceFree1()
    ensures '{' !in "fields in JSON format:\n\n"
  {
  }

  lemma FieldsLineBraceFree()
    ensures '{' !in FieldsLine
  {
    FieldsLineBraceFree0();
    FieldsLineBraceFree1();
  }

  lemma CompanyJsonFieldsBraceFree0()
    ensures '{' !in "  \"company_name\": \"\",\n  \"headquarters_co"
  {
  }

  lemma CompanyJsonFieldsBraceFree1()
    ensures '{' !in "untry\": \"\",\n  \"main_industry_activities\""
  {
  }

  lemma CompanyJsonFieldsBraceFree2()
    ensures '{' !in ": \"\"\n}\n"
  {
  }

  lemma CompanyJsonFieldsBraceFree()
    ensures '{' !in CompanyJsonFields
  {
    CompanyJsonFieldsBraceFree0();
    CompanyJsonFieldsBraceFree1();
    CompanyJsonFieldsBraceFree2();
  }

  lemma ClosingBraceFree0()
    ensures '{' !in "Return only valid JSON (no explanations,"
  {
  }

  lemma ClosingBraceFree1()
    ensures '{' !in " text, or formatting outside the JSON ar"
  {
  }

  lemma ClosingBraceFree2()
    ensures '{' !in "ray)."
  {
  }

  lemma ClosingBraceFree()
    ensures '{' !in Closing
  {
    ClosingBraceFree0();
    ClosingBraceFree1();
    ClosingBraceFree2();
  }

  lemma CountryScopeBraceFree0()
    ensures '{' !in " as the scope, identify the top 10 compa"
  {
  }

  lemma CountryScopeBraceFree1()
    ensures '{' !in "nies headquartered in "
  {
  }

  lemma CountryScopeBraceFree()
    ensures '{' !in CountryScope
  {
    CountryScopeBraceFree0();
    CountryScopeBraceFree1();
  }

  lemma CountryMidBraceFree0()
    ensures '{' !in " operating in this section (or strongly "
  {
  }

  lemma CountryMidBraceFree1()
    ensures '{' !in "associated with "
  {
  }

  lemma CountryMidBraceFree()
    ensures '{' !in CountryMid
  {
    CountryMidBraceFree0();
    CountryMidBraceFree1();
  }

  lemma CountryCloseBraceFree()
    ensures '{' !in CountryClose
  {
  }

  lemma BrandsLeadBraceFree0()
    ensures '{' !in "You are a business classification assist"
  {
  }

  lemma BrandsLeadBraceFree1()
    ensures '{' !in "ant. Focus strictly on the company named"
  {
  }

  lemma BrandsLeadBraceFree2()
    ensures '{' !in ": "
  {
  }

  lemma BrandsLeadBraceFree()
    ensures '{' !in BrandsLead
  {
    BrandsLeadBraceFree0();
    BrandsLeadBraceFree1();
    BrandsLeadBraceFree2();
  }

  lemma BrandsNextBraceFree()
    ensures '{' !in BrandsNext
  {
  }

  lemma BrandsCountryMidBraceFree0()
    ensures '{' !in ". Only consider brands / products / serv"
  {
  }

  lemma BrandsCountryMidBraceFree1()
    ensures '{' !in "ices originating from or primarily marke"
  {
  }

  lemma BrandsCountryMidBraceFree2()
    ensures '{' !in "ted in "
  {
  }

  lemma BrandsCountryMidBraceFree()
    ensures '{' !in BrandsCountryMid
  {
    BrandsCountryMidBraceFree0();
    BrandsCountryMidBraceFree1();
    BrandsCountryMidBraceFree2();
  }

  lemma ListLineBraceFree0()
    ensures '{' !in "List the top 10 distinct brands / produc"
  {
  }

  lemma ListLineBraceFree1()
    ensures '{' !in "ts / services likely to appear as indivi"
  {
  }

  lemma ListLineBraceFree2()
    ensures '{' !in "dual invoice line items. Return ONLY a s"
  {
  }

  lemma ListLineBraceFree3()
    ensures '{' !in "ingle JSON object with this exact shape "
  {
  }

  lemma ListLineBraceFree4()
    ensures '{' !in "(no code fences, no extra commentary):\n"
  {
  }

  lemma ListLineBraceFree()
    ensures '{' !in ListLine
  {
    ListLineBraceFree0();
    ListLineBraceFree1();
    ListLineBraceFree2();
    ListLineBraceFree3();
    ListLineBraceFree4();
  }

  lemma BrandJsonItemsBraceFree()
    ensures '{' !in BrandJsonItems
  {
  }

  lemma BrandJsonFieldsBraceFree0()
    ensures '{' !in "      \"name\": \"\",\n      \"type\": \"\",\n    "
  {
  }

  lemma BrandJsonFieldsBraceFree1()
    ensures '{' !in "  \"invoice_example\": \"\",\n      \"gpc_segm"
  {
  }

  lemma BrandJsonFieldsBraceFree2()
    ensures '{' !in "ent\": \"\",\n      \"gpc_family\": \"\",\n      "
  {
  }

  lemma BrandJsonFieldsBraceFree3()
    ensures '{' !in "\"gpc_class\": \"\",\n      \"gpc_brick\": \"\"\n "
  {
  }

  lemma BrandJsonFieldsBraceFree4()
    ensures '{' !in "   }\n  ]\n}\n"
  {
  }

  lemma BrandJsonFieldsBraceFree()
    ensures '{' !in BrandJsonFields
  {
    BrandJsonFieldsBraceFree0();
    BrandJsonFieldsBraceFree1();
    BrandJsonFieldsBraceFree2();
    BrandJsonFieldsBraceFree3();
    BrandJsonFieldsBraceFree4();
  }

  lemma RulesBraceFree0()
    ensures '{' !in "Rules: (1) No markdown. (2) Do not inclu"
  {
  }

  lemma RulesBraceFree1()
    ensures '{' !in "de more than 10 items. (3) Each field mu"
  {
  }

  lemma RulesBraceFree2()
    ensures '{' !in "st be a concise string."
  {
  }

  lemma RulesBraceFree()
    ensures '{' !in Rules
  {
    RulesBraceFree0();
    RulesBraceFree1();
    RulesBraceFree2();
  }

  lemma GroupsLeadBraceFree0()
    ensures '{' !in "You are an industry research assistant. "
  {
  }

  lemma GroupsLeadBraceFree1()
    ensures '{' !in "Using ISIC Rev.5 classification, focus o"
  {
  }

  lemma GroupsLeadBraceFree2()
    ensures '{' !in "n this specific industry group:\n- Sectio"
  {
  }

  lemma GroupsLeadBraceFree3()
    ensures '{' !in "n: "
  {
  }

  lemma GroupsLeadBraceFree()
    ensures '{' !in GroupsLead
  {
    GroupsLeadBraceFree0();
    GroupsLeadBraceFree1();
    GroupsLeadBraceFree2();
    GroupsLeadBraceFree3();
  }

  lemma DivisionLineBraceFree()
    ensures '{' !in DivisionLine
  {
  }

  lemma GroupLineBraceFree()
    ensures '{' !in GroupLine
  {
  }

  lemma IncludesLineBraceFree()
    ensures '{' !in IncludesLine
  {
  }

  lemma ExcludesLineBraceFree()
    ensures '{' !in ExcludesLine
  {
  }

  lemma GroupsScopeBraceFree0()
    ensures '{' !in "\n\nIdentify the top 10 global companies o"
  {
  }

  lemma GroupsScopeBraceFree1()
    ensures '{' !in "perating specifically in this group base"
  {
  }

  lemma GroupsScopeBraceFree2()
    ensures '{' !in "d on market share. "
  {
  }

  lemma GroupsScopeBraceFree()
    ensures '{' !in GroupsScope
  {
    GroupsScopeBraceFree0();
    GroupsScopeBraceFree1();
    GroupsScopeBraceFree2();
  }

  lemma GroupsCountryScopeBraceFree0()
    ensures '{' !in "\n\nIdentify the top 10 companies headquar"
  {
  }

  lemma GroupsCountryScopeBraceFree1()
    ensures '{' !in "tered in "
  {
  }

  lemma GroupsCountryScopeBraceFree()
    ensures '{' !in GroupsCountryScope
  {
    GroupsCountryScopeBraceFree0();
    GroupsCountryScopeBraceFree1();
  }

  lemma GroupsCountryMidBraceFree0()
    ensures '{' !in " operating specifically in this group (o"
  {
  }

  lemma GroupsCountryMidBraceFree1()
    ensures '{' !in "r strongly associated with "
  {
  }

  lemma GroupsCountryMidBraceFree()
    ensures '{' !in GroupsCountryMid
  {
    GroupsCountryMidBraceFree0();
    GroupsCountryMidBraceFree1();
  }

  // ---------------------------------------------------------------- JSON examples

  /** The company JSON example: one object with the three company fields. */
  const CompanyJson: string := "{\n" + CompanyJsonFields

  /** The brands JSON example: an object holding a list with one brand object. */
  const BrandJson: string := "{\n" + (BrandJsonItems + ("{\n" + BrandJsonFields))

  /** Everything after the last slot of the companies and group templates. */
  const FieldsTail: string := FieldsLine + (CompanyJson + Closing)

  /** Everything after the last slot of the brands templates. */
  const BrandsTail: string := BrandsNext + (ListLine + (BrandJson + Rules))

  /** An opening brace followed by a line break starts no slot. */
  lemma BraceLineInert(b: string, n: string, rep: string)
    requires SlotName(n)
    ensures ReplaceAll("{\n" + b, Slot(n), rep) == "{\n" + ReplaceAll(b, Slot(n), rep)
    ensures CountOccurrences("{\n" + b, Slot(n)) == CountOccurrences(b, Slot(n))
  {
    SlotShape(n);
    ReplaceOther("{\n", b, Slot(n), rep, 1);
  }

  /** The company JSON example, and the text around it, hold no slot. */
  lemma FieldsTailInert(n: string, rep: string)
    requires SlotName(n)
    ensures ReplaceAll(FieldsTail, Slot(n), rep) == FieldsTail
    ensures CountOccurrences(FieldsTail, Slot(n)) == 0
  {
    FieldsLineBraceFree(); CompanyJsonFieldsBraceFree(); ClosingBraceFree();
    SlotShape(n);
    var pat := Slot(n);
    ReplaceAbsent(CompanyJsonFields, pat, rep);
    BraceLineInert(CompanyJsonFields, n, rep);
    ReplaceAbsent(Closing, pat, rep);
    AtSeam(CompanyJson, Closing, n, rep);
    ReplaceSkip(FieldsLine, CompanyJson + Closing, pat, rep);
  }

  /** The brands JSON example, and the text around it, hold no slot. */
  lemma BrandsTailInert(n: string, rep: string)
    requires SlotName(n)
    ensures ReplaceAll(BrandsTail, Slot(n), rep) == BrandsTail
    ensures CountOccurrences(BrandsTail, Slot(n)) == 0
  {
    BrandsNextBraceFree(); ListLineBraceFree(); BrandJsonItemsBraceFree(); BrandJsonFieldsBraceFree();
    RulesBraceFree();
    SlotShape(n);
    var pat := Slot(n);
    ReplaceAbsent(BrandJsonFields, pat, rep);
    BraceLineInert(BrandJsonFields, n, rep);
    ReplaceSkip(BrandJsonItems, "{\n" + BrandJsonFields, pat, rep);
    BraceLineInert(BrandJsonItems + ("{\n" + BrandJsonFields), n, rep);
    ReplaceAbsent(Rules, pat, rep);
    AtSeam(BrandJson, Rules, n, rep);
    ReplaceSkip(ListLine, BrandJson + Rules, pat, rep);
    ReplaceSkip(BrandsNext, ListLine + (BrandJson + Rules), pat, rep);
  }

  /** The value in a slot is followed by a piece starting with a seam character,
      so a replacement treats the value and the rest separately. */
  lemma AtSeam(x: string, b: string, n: string, rep: string)
    requires SlotName(n) && b != [] && Seam(b[0])
    ensures ReplaceAll(x + b, Slot(n), rep) == ReplaceAll(x, Slot(n), rep) + ReplaceAll(b, Slot(n), rep)
    ensures CountOccurrences(x + b, Slot(n)) == CountOccurrences(x, Slot(n)) + CountOccurrences(b, Slot(n))
  {
    SlotShape(n);
    SeamNotInSlot(b[0], n);
    ReplaceSplit(x, b, Slot(n), rep);
  }

  // ---------------------------------------------------------------- template shapes

  /** `companies_prompt_template` with `section` in its one slot. */
  function CompaniesText(section: string): string {
    CompaniesLead + (section + (CompaniesScope + FieldsTail))
  }

  /** `companies_country_prompt_template` with its three slots filled. */
  function CompaniesCountryText(section: string, country1: string, country2: string): string {
    CompaniesLead + (section + (CountryScope + (country1 + (CountryMid + (country2 + (CountryClose + FieldsTail))))))
  }

  /** `brands_prompt_template` with `company` in its one slot. */
  function BrandsText(company: string): string {
    BrandsLead + (company + BrandsTail)
  }

  /** `brands_country_prompt_template` with its two slots filled. */
  function BrandsCountryText(company: string, country: string): string {
    BrandsLead + (company + (BrandsCountryMid + (country + BrandsTail)))
  }

  /** The part the two group templates share: the five group slots and what follows. */
  function GroupsHead(section: string, division: string, group: string, includes: string, excludes: string,
                      rest: string): string {
    GroupsLead + (section + (DivisionLine + (division + (GroupLine + (group + (IncludesLine +
      (includes + (ExcludesLine + (excludes + rest)))))))))
  }

  /** `companies_groups_prompt_template` with its five slots filled. */
  function GroupsText(section: string, division: string, group: string, includes: string, excludes: string): string {
    GroupsHead(section, division, group, includes, excludes, GroupsScope + FieldsTail)
  }

  /** `companies_groups_country_prompt_template` with its seven slots filled. */
  function GroupsCountryText(section: string, division: string, group: string, includes: string, excludes: string,
                             country1: string, country2: string): string {
    GroupsHead(section, division, group, includes, excludes,
      GroupsCountryScope + (country1 + (GroupsCountryMid + (country2 + (CountryClose + FieldsTail)))))
  }

  const CompaniesTemplate: string := CompaniesText(SectionSlot)
  const CompaniesCountryTemplate: string := CompaniesCountryText(SectionSlot, CountrySlot, CountrySlot)
  const BrandsTemplate: string := BrandsText(CompanySlot)
  const BrandsCountryTemplate: string := BrandsCountryText(CompanySlot, CountrySlot)
  const GroupsTemplate: string :=
    GroupsText(SectionNameSlot, DivisionNameSlot, GroupNameSlot, IncludesSlot, ExcludesSlot)
  const GroupsCountryTemplate: string :=
    GroupsCountryText(SectionNameSlot, DivisionNameSlot, GroupNameSlot, IncludesSlot, ExcludesSlot,
                      CountrySlot, CountrySlot)

  // ---------------------------------------------------------------- replacement over a shape

  /** Replacing a slot in the companies template replaces it inside the filled value
      and nowhere else. */
  lemma CompaniesReplace(s: string, n: string, rep: string)
    requires SlotName(n)
    ensures ReplaceAll(CompaniesText(s), Slot(n), rep) == CompaniesText(ReplaceAll(s, Slot(n), rep))
    ensures CountOccurrences(CompaniesText(s), Slot(n)) == CountOccurrences(s, Slot(n))
  {
    CompaniesLeadBraceFree(); CompaniesScopeBraceFree();
    SlotShape(n);
    var pat := Slot(n);
    FieldsTailInert(n, rep);
    ReplaceSkip(CompaniesScope, FieldsTail, pat, rep);
    AtSeam(s, CompaniesScope + FieldsTail, n, rep);
    ReplaceSkip(CompaniesLead, s + (CompaniesScope + FieldsTail), pat, rep);
  }

  /** The same for the country-specific companies template and its three slots. */
  lemma CompaniesCountryReplace(s: string, c1: string, c2: string, n: string, rep: string)
    requires SlotName(n)
    ensures ReplaceAll(CompaniesCountryText(s, c1, c2), Slot(n), rep) ==
            CompaniesCountryText(ReplaceAll(s, Slot(n), rep), ReplaceAll(c1, Slot(n), rep), ReplaceAll(c2, Slot(n), rep))
    ensures CountOccurrences(CompaniesCountryText(s, c1, c2), Slot(n)) ==
            CountOccurrences(s, Slot(n)) + CountOccurrences(c1, Slot(n)) + CountOccurrences(c2, Slot(n))
  {
    CompaniesLeadBraceFree(); CountryScopeBraceFree(); CountryMidBraceFree(); CountryCloseBraceFree();
    SlotShape(n);
    var pat := Slot(n);
    FieldsTailInert(n, rep);
    var r3 := CountryClose + FieldsTail;
    ReplaceSkip(CountryClose, FieldsTail, pat, rep);
    AtSeam(c2, r3, n, rep);
    var r2 := CountryMid + (c2 + r3);
    ReplaceSkip(CountryMid, c2 + r3, pat, rep);
    AtSeam(c1, r2, n, rep);
    var r1 := CountryScope + (c1 + r2);
    ReplaceSkip(CountryScope, c1 + r2, pat, rep);
    AtSeam(s, r1, n, rep);
    ReplaceSkip(CompaniesLead, s + r1, pat, rep);
  }

  lemma BrandsReplace(c: string, n: string, rep: string)
    requires SlotName(n)
    ensures ReplaceAll(BrandsText(c), Slot(n), rep) == BrandsText(ReplaceAll(c, Slot(n), rep))
    ensures CountOccurrences(BrandsText(c), Slot(n)) == CountOccurrences(c, Slot(n))
  {
    BrandsLeadBraceFree();
    SlotShape(n);
    BrandsTailInert(n, rep);
    AtSeam(c, BrandsTail, n, rep);
    ReplaceSkip(BrandsLead, c + BrandsTail, Slot(n), rep);
  }

  lemma BrandsCountryReplace(c: string, k: string, n: string, rep: string)
    requires SlotName(n)
    ensures ReplaceAll(BrandsCountryText(c, k), Slot(n), rep) ==
            BrandsCountryText(ReplaceAll(c, Slot(n), rep), ReplaceAll(k, Slot(n), rep))
    ensures CountOccurrences(BrandsCountryText(c, k), Slot(n)) ==
            CountOccurrences(c, Slot(n)) + CountOccurrences(k, Slot(n))
  {
    BrandsLeadBraceFree(); BrandsCountryMidBraceFree();
    SlotShape(n);
    var pat := Slot(n);
    BrandsTailInert(n, rep);
    AtSeam(k, BrandsTail, n, rep);
    var r1 := BrandsCountryMid + (k + BrandsTail);
    ReplaceSkip(BrandsCountryMid, k + BrandsTail, pat, rep);
    AtSeam(c, r1, n, rep);
    ReplaceSkip(BrandsLead, c + r1, pat, rep);
  }

  lemma GroupsHeadReplace(a: string, b: string, c: string, d: string, e: string, rest: string,
                          n: string, rep: string)
    requires SlotName(n) && rest != [] && Seam(rest[0])
    ensures ReplaceAll(GroupsHead(a, b, c, d, e, rest), Slot(n), rep) ==
            GroupsHead(ReplaceAll(a, Slot(n), rep), ReplaceAll(b, Slot(n), rep), ReplaceAll(c, Slot(n), rep),
                       ReplaceAll(d, Slot(n), rep), ReplaceAll(e, Slot(n), rep), ReplaceAll(rest, Slot(n), rep))
    ensures CountOccurrences(GroupsHead(a, b, c, d, e, rest), Slot(n)) ==
            CountOccurrences(a, Slot(n)) + CountOccurrences(b, Slot(n)) + CountOccurrences(c, Slot(n)) +
            CountOccurrences(d, Slot(n)) + CountOccurrences(e, Slot(n)) + CountOccurrences(rest, Slot(n))
  {
    GroupsLeadBraceFree(); DivisionLineBraceFree(); GroupLineBraceFree(); IncludesLineBraceFree(); ExcludesLineBraceFree();
    SlotShape(n);
    var pat := Slot(n);
    AtSeam(e, rest, n, rep);
    var r4 := ExcludesLine + (e + rest);
    ReplaceSkip(ExcludesLine, e + rest, pat, rep);
    AtSeam(d, r4, n, rep);
    var r3 := IncludesLine + (d + r4);
    ReplaceSkip(IncludesLine, d + r4, pat, rep);
    AtSeam(c, r3, n, rep);
    var r2 := GroupLine + (c + r3);
    ReplaceSkip(GroupLine, c + r3, pat, rep);
    AtSeam(b, r2, n, rep);
    var r1 := DivisionLine + (b + r2);
    ReplaceSkip(DivisionLine, b + r2, pat, rep);
    AtSeam(a, r1, n, rep);
    ReplaceSkip(GroupsLead, a + r1, pat, rep);
  }

  lemma GroupsReplace(a: string, b: string, c: string, d: string, e: string, n: string, rep: string)
    requires SlotName(n)
    ensures ReplaceAll(GroupsText(a, b, c, d, e), Slot(n), rep) ==
            GroupsText(ReplaceAll(a, Slot(n), rep), ReplaceAll(b, Slot(n), rep), ReplaceAll(c, Slot(n), rep),
                       ReplaceAll(d, Slot(n), rep), ReplaceAll(e, Slot(n), rep))
    ensures CountOccurrences(GroupsText(a, b, c, d, e), Slot(n)) ==
            CountOccurrences(a, Slot(n)) + CountOccurrences(b, Slot(n)) + CountOccurrences(c, Slot(n)) +
            CountOccurrences(d, Slot(n)) + CountOccurrences(e, Slot(n))
  {
    GroupsScopeBraceFree();
    SlotShape(n);
    FieldsTailInert(n, rep);
    ReplaceSkip(GroupsScope, FieldsTail, Slot(n), rep);
    GroupsHeadReplace(a, b, c, d, e, GroupsScope + FieldsTail, n, rep);
  }

  lemma GroupsCountryReplace(a: string, b: string, c: string, d: string, e: string, c1: string, c2: string,
                             n: string, rep: string)
    requires SlotName(n)
    ensures ReplaceAll(GroupsCountryText(a, b, c, d, e, c1, c2), Slot(n), rep) ==
            GroupsCountryText(ReplaceAll(a, Slot(n), rep), ReplaceAll(b, Slot(n), rep), ReplaceAll(c, Slot(n), rep),
                              ReplaceAll(d, Slot(n), rep), ReplaceAll(e, Slot(n), rep),
                              ReplaceAll(c1, Slot(n), rep), ReplaceAll(c2, Slot(n), rep))
    ensures CountOccurrences(GroupsCountryText(a, b, c, d, e, c1, c2), Slot(n)) ==
            CountOccurrences(a, Slot(n)) + CountOccurrences(b, Slot(n)) + CountOccurrences(c, Slot(n)) +
            CountOccurrences(d, Slot(n)) + CountOccurrences(e, Slot(n)) +
            CountOccurrences(c1, Slot(n)) + CountOccurrences(c2, Slot(n))
  {
    GroupsCountryScopeBraceFree(); GroupsCountryMidBraceFree(); CountryCloseBraceFree();
    SlotShape(n);
    var pat := Slot(n);
    FieldsTailInert(n, rep);
    var r3 := CountryClose + FieldsTail;
    ReplaceSkip(CountryClose, FieldsTail, pat, rep);
    AtSeam(c2, r3, n, rep);
    var r2 := GroupsCountryMid + (c2 + r3);
    ReplaceSkip(GroupsCountryMid, c2 + r3, pat, rep);
    AtSeam(c1, r2, n, rep);
    var r1 := GroupsCountryScope + (c1 + r2);
    ReplaceSkip(GroupsCountryScope, c1 + r2, pat, rep);
    GroupsHeadReplace(a, b, c, d, e, r1, n, rep);
  }

  // ---------------------------------------------------------------- slots of each template

  /** The base instructions hold no brace, so no slot: replacing any slot leaves them as
      they are. */
  lemma BaseHasNoSlot(n: string, rep: string)
    requires SlotName(n)
    ensures '{' !in Base && '}' !in Base
    ensures ReplaceAll(Base, Slot(n), rep) == Base && CountOccurrences(Base, Slot(n)) == 0
  {
    BaseBraceFree();
    SlotShape(n);
    ReplaceAbsent(Base, Slot(n), rep);
  }

  /** `{section}` occurs once in the global companies template, and no other slot
      (`{country}` included) occurs in it. */
  lemma CompaniesTemplateSlots(n: string)
    requires SlotName(n)
    ensures CountOccurrences(CompaniesTemplate, Slot(n)) == if n == "section" then 1 else 0
  {
    SlotNames();
    CompaniesReplace(SectionSlot, n, "");
    SlotCount("section", n);
  }

  /** `{section}` occurs once in the country companies template, `{country}` twice,
      and no other slot at all. */
  lemma CompaniesCountryTemplateSlots(n: string)
    requires SlotName(n)
    ensures CountOccurrences(CompaniesCountryTemplate, Slot(n)) ==
            (if n == "section" then 1 else 0) + (if n == "country" then 2 else 0)
  {
    SlotNames();
    CompaniesCountryReplace(SectionSlot, CountrySlot, CountrySlot, n, "");
    SlotCount("section", n);
    SlotCount("country", n);
  }

  /** `{company}` occurs once in the global brands template, and no other slot. */
  lemma BrandsTemplateSlots(n: string)
    requires SlotName(n)
    ensures CountOccurrences(BrandsTemplate, Slot(n)) == if n == "company" then 1 else 0
  {
    SlotNames();
    BrandsReplace(CompanySlot, n, "");
    SlotCount("company", n);
  }

  /** `{company}` and `{country}` occur once each in the country brands template, and
      no other slot. */
  lemma BrandsCountryTemplateSlots(n: string)
    requires SlotName(n)
    ensures CountOccurrences(BrandsCountryTemplate, Slot(n)) ==
            (if n == "company" then 1 else 0) + (if n == "country" then 1 else 0)
  {
    SlotNames();
    BrandsCountryReplace(CompanySlot, CountrySlot, n, "");
    SlotCount("company", n);
    SlotCount("country", n);
  }

  /** A slot occurs once in itself and never in another slot. */
  lemma SlotCount(m: string, n: string)
    requires SlotName(m) && SlotName(n)
    ensures CountOccurrences(Slot(m), Slot(n)) == if m == n then 1 else 0
  {
    if m == n {
      SlotSelf(n, "");
    } else {
      SlotOther(m, n, "");
    }
  }

  /** The five slots of the group templates, in the order the builder replaces them. */
  const GroupSlotNames: seq<string> := ["section_name", "division_name", "group_name", "includes", "excludes"]

  /** Membership in the five group slot names. */
  lemma GroupSlotNameMember(n: string)
    ensures n in GroupSlotNames <==>
              n == "section_name" || n == "division_name" || n == "group_name" || n == "includes" || n == "excludes"
  {
  }

  /** The group slot names are pairwise distinct, and distinct from `country`. */
  lemma GroupSlotNamesDistinct()
    ensures "section_name" != "division_name" && "section_name" != "group_name" && "section_name" != "includes"
    ensures "section_name" != "excludes" && "division_name" != "group_name" && "division_name" != "includes"
    ensures "division_name" != "excludes" && "group_name" != "includes" && "group_name" != "excludes"
    ensures "includes" != "excludes"
    ensures !("country" in GroupSlotNames)
  {
  }

  /** The occurrences of a slot in a filled group template are those in its values. */
  lemma GroupsCount(a: string, b: string, c: string, d: string, e: string, n: string)
    requires SlotName(n)
    ensures CountOccurrences(GroupsText(a, b, c, d, e), Slot(n)) ==
            CountOccurrences(a, Slot(n)) + CountOccurrences(b, Slot(n)) + CountOccurrences(c, Slot(n)) +
            CountOccurrences(d, Slot(n)) + CountOccurrences(e, Slot(n))
  {
    GroupsReplace(a, b, c, d, e, n, "");
  }

  /** The same for the country group template. */
  lemma GroupsCountryCount(a: string, b: string, c: string, d: string, e: string, k: string, n: string)
    requires SlotName(n)
    ensures CountOccurrences(GroupsCountryText(a, b, c, d, e, k, k), Slot(n)) ==
            CountOccurrences(a, Slot(n)) + CountOccurrences(b, Slot(n)) + CountOccurrences(c, Slot(n)) +
            CountOccurrences(d, Slot(n)) + CountOccurrences(e, Slot(n)) + 2 * CountOccurrences(k, Slot(n))
  {
    GroupsCountryReplace(a, b, c, d, e, k, k, n, "");
  }

  /** Each of the five group slots occurs once in the global group template, and no
      other slot (`{country}` included) occurs in it. */
  lemma GroupsTemplateSlots(n: string)
    requires SlotName(n)
    ensures CountOccurrences(GroupsTemplate, Slot(n)) == if n in GroupSlotNames then 1 else 0
  {
    SlotNames();
    GroupSlotNameMember(n);
    GroupSlotNamesDistinct();
    GroupsCount(SectionNameSlot, DivisionNameSlot, GroupNameSlot, IncludesSlot, ExcludesSlot, n);
    SlotCount("section_name", n);
    SlotCount("division_name", n);
    SlotCount("group_name", n);
    SlotCount("includes", n);
    SlotCount("excludes", n);
  }

  /** Each of the five group slots occurs once in the country group template,
      `{country}` twice, and no other slot at all. */
  lemma GroupsCountryTemplateSlots(n: string)
    requires SlotName(n)
    ensures CountOccurrences(GroupsCountryTemplate, Slot(n)) ==
            (if n in GroupSlotNames then 1 else 0) + (if n == "country" then 2 else 0)
  {
    SlotNames();
    GroupSlotNameMember(n);
    GroupSlotNamesDistinct();
    GroupsCountryCount(SectionNameSlot, DivisionNameSlot, GroupNameSlot, IncludesSlot, ExcludesSlot, CountrySlot, n);
    SlotCount("section_name", n);
    SlotCount("division_name", n);
    SlotCount("group_name", n);
    SlotCount("includes", n);
    SlotCount("excludes", n);
    SlotCount("country", n);
  }
}
