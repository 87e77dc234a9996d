/**
 * The tabular export: every company of every industry section joined with its
 * brands, one row per brand and a blank-brand row for a company without any.
 * The rows are what the CSV writer receives, in order; the header is the fixed
 * list of eleven column names.
 */
module Flatten {
  import opened Wrappers
  import opened JsonData
  import Text

  /** One CSV row, a field per column. */
  datatype Row = Row(industrySection: string, companyName: string, headquartersCountry: string,
                     mainIndustryActivities: string, brandName: string, brandType: string,
                     invoiceExample: string, gpcSegment: string, gpcFamily: string, gpcClass: string,
                     gpcBrick: string)

  /** The column names, in the order they are written. */
  const Header: seq<string> :=
    ["industry_section", "company_name", "headquarters_country", "main_industry_activities",
     "brand_name", "brand_type", "invoice_example", "gpc_segment", "gpc_family", "gpc_class",
     "gpc_brick"]

  /** A row's fields in column order. */
  function Cells(r: Row): seq<string> {
    [r.industrySection, r.companyName, r.headquartersCountry, r.mainIndustryActivities,
     r.brandName, r.brandType, r.invoiceExample, r.gpcSegment, r.gpcFamily, r.gpcClass, r.gpcBrick]
  }

  /** The lines of the CSV file: the header once, then each row. */
  function Table(rows: seq<Row>): (t: seq<seq<string>>)
    ensures |t| == |rows| + 1 && t[0] == Header
    ensures forall i :: 0 <= i < |rows| ==> t[i + 1] == Cells(rows[i])
  {
    [Header] + seq(|rows|, i requires 0 <= i < |rows| => Cells(rows[i]))
  }

  /** The record key each brand column is read from: the column's own name, except
      `brand_name` from `name` and `brand_type` from `type`. */
  function BrandKey(column: string): string {
    if column == "brand_name" then "name" else if column == "brand_type" then "type" else column
  }

  /** The row for one brand of a company. */
  function BrandRow(section: string, company: map<string, string>, brand: map<string, string>): Row {
    Row(section, Field(company, "company_name"), Field(company, "headquarters_country"),
        Field(company, "main_industry_activities"), Field(brand, "name"), Field(brand, "type"),
        Field(brand, "invoice_example"), Field(brand, "gpc_segment"), Field(brand, "gpc_family"),
        Field(brand, "gpc_class"), Field(brand, "gpc_brick"))
  }

  /** The row for a company that has no brands. */
  function PlaceholderRow(section: string, company: map<string, string>): Row {
    BrandRow(section, company, map[])
  }

  /** The rows for a company's brand list: one per object, none for anything else. */
  function BrandRows(section: string, company: map<string, string>, brands: seq<Entry>): seq<Row>
    decreases |brands|
  {
    if brands == [] then []
    else
      var last := brands[|brands| - 1];
      BrandRows(section, company, brands[..|brands| - 1]) +
      (if last.Obj? then [BrandRow(section, company, last.fields)] else [])
  }

  /** The brand list stored under a company's name, or the empty list. */
  function BrandsOf(company: map<string, string>, brands: Dict<seq<Entry>>): seq<Entry> {
    Get(brands, Field(company, "company_name")).GetOr([])
  }

  /** The rows for one entry of a section's company list. */
  function CompanyRows(section: string, company: Entry, brands: Dict<seq<Entry>>): seq<Row> {
    match company
    case NonObj => []
    case Obj(fields) =>
      var own := BrandsOf(fields, brands);
      if own == [] then [PlaceholderRow(section, fields)] else BrandRows(section, fields, own)
  }

  /** The rows for a section's company list, in list order. */
  function SectionRows(section: string, companies: seq<Entry>, brands: Dict<seq<Entry>>): seq<Row>
    decreases |companies|
  {
    if companies == [] then []
    else
      SectionRows(section, companies[..|companies| - 1], brands) +
      CompanyRows(section, companies[|companies| - 1], brands)
  }

  /** The rows for all the sections, in the map's insertion order. */
  function Rows(sections: Dict<seq<Entry>>, brands: Dict<seq<Entry>>): seq<Row>
    decreases |sections|
  {
    if sections == [] then []
    else
      var last := sections[|sections| - 1];
      Rows(sections[..|sections| - 1], brands) + SectionRows(last.key, last.value, brands)
  }

  /** `flatten_to_csv`: the header, then the rows, in the order the nested loops
      over sections, companies and brands write them. */
  method FlattenToCsv(sections: Dict<seq<Entry>>, brands: Dict<seq<Entry>>) returns (table: seq<seq<string>>)
    ensures table == Table(Rows(sections, brands))
  {
    var rows: seq<Row> := [];
    for s := 0 to |sections|
      invariant rows == Rows(sections[..s], brands)
    {
      var sectionRows := WriteSectionRows(sections[s].key, sections[s].value, brands);
      rows := rows + sectionRows;
      assert sections[..s + 1][..s] == sections[..s] && sections[..s + 1][s] == sections[s];
    }
    assert sections[..|sections|] == sections;
    table := Table(rows);
  }

  /** The loop over one section's company list: an entry that is not an object is
      skipped, a company without brands gets the blank-brand row, any other company
      its brand rows. */
  method WriteSectionRows(section: string, companies: seq<Entry>, brands: Dict<seq<Entry>>) returns (rows: seq<Row>)
    ensures rows == SectionRows(section, companies, brands)
  {
    rows := [];
    for c := 0 to |companies|
      invariant rows == SectionRows(section, companies[..c], brands)
    {
      var company := companies[c];
      assert companies[..c + 1][..c] == companies[..c] && companies[..c + 1][c] == company;
      if company.NonObj? {
        continue;
      }
      var own := BrandsOf(company.fields, brands);
      if |own| == 0 {
        rows := rows + [PlaceholderRow(section, company.fields)];
        continue;
      }
      var brandRows := WriteBrandRows(section, company.fields, own);
      rows := rows + brandRows;
    }
    assert companies[..|companies|] == companies;
  }

  /** The innermost loop of `flatten_to_csv`: a row for each brand that is an object,
      in list order. */
  method WriteBrandRows(section: string, company: map<string, string>, own: seq<Entry>) returns (rows: seq<Row>)
    ensures rows == BrandRows(section, company, own)
  {
    rows := [];
    for b := 0 to |own|
      invariant rows == BrandRows(section, company, own[..b])
    {
      assert own[..b + 1][..b] == own[..b] && own[..b + 1][b] == own[b];
      if own[b].Obj? {
        rows := rows + [BrandRow(section, company, own[b].fields)];
      }
    }
    assert own[..|own|] == own;
  }

  // ---------------------------------------------------------------- column mapping

  /** The eleven column names are distinct. */
  lemma HeaderDistinct()
    ensures |Header| == 11 && Distinct(Header)
  {
  }

  /** Each column of a brand row holds the field the column is named after: the
      section key first, the company columns from the company record and the brand
      columns from the brand record under `BrandKey`; a missing key gives "". */
  lemma BrandRowColumns(section: string, company: map<string, string>, brand: map<string, string>)
    ensures |Cells(BrandRow(section, company, brand))| == |Header|
    ensures Cells(BrandRow(section, company, brand))[0] == section
    ensures forall k :: 1 <= k < 4 ==> Cells(BrandRow(section, company, brand))[k] == Field(company, Header[k])
    ensures forall k :: 4 <= k < |Header| ==> Cells(BrandRow(section, company, brand))[k] == Field(brand, BrandKey(Header[k]))
  {
    BrandKeysOfHeader();
    var c := Cells(BrandRow(section, company, brand));
    assert c[1] == Field(company, Header[1]) && c[2] == Field(company, Header[2]) && c[3] == Field(company, Header[3]);
    assert c[4] == Field(brand, BrandKey(Header[4])) && c[5] == Field(brand, BrandKey(Header[5]));
    assert c[6] == Field(brand, BrandKey(Header[6])) && c[7] == Field(brand, BrandKey(Header[7]));
    assert c[8] == Field(brand, BrandKey(Header[8])) && c[9] == Field(brand, BrandKey(Header[9]));
    assert c[10] == Field(brand, BrandKey(Header[10]));
  }

  /** The company columns, and the brand columns with the record keys they are read
      from. */
  lemma BrandKeysOfHeader()
    ensures Header[1] == "company_name" && Header[2] == "headquarters_country"
    ensures Header[3] == "main_industry_activities"
    ensures BrandKey(Header[4]) == "name" && BrandKey(Header[5]) == "type"
    ensures BrandKey(Header[6]) == "invoice_example" && BrandKey(Header[7]) == "gpc_segment"
    ensures BrandKey(Header[8]) == "gpc_family" && BrandKey(Header[9]) == "gpc_class"
    ensures BrandKey(Header[10]) == "gpc_brick"
  {
    assert Header[6][0] == 'i' && Header[7][0] == 'g' && Header[8][0] == 'g';
    assert Header[9][0] == 'g' && Header[10][0] == 'g';
  }

  /** The blank-brand row keeps the section and the three company columns and leaves
      all seven brand columns empty. */
  lemma PlaceholderColumns(section: string, company: map<string, string>)
    ensures |Cells(PlaceholderRow(section, company))| == |Header|
    ensures Cells(PlaceholderRow(section, company))[0] == section
    ensures forall k :: 1 <= k < 4 ==> Cells(PlaceholderRow(section, company))[k] == Field(company, Header[k])
    ensures forall k :: 4 <= k < |Header| ==> Cells(PlaceholderRow(section, company))[k] == ""
  {
    BrandRowColumns(section, company, map[]);
  }

  // ---------------------------------------------------------------- order

  /** Brand rows follow the brand list's order. */
  lemma {:induction false} BrandRowsAppend(section: string, company: map<string, string>, a: seq<Entry>, b: seq<Entry>)
    ensures BrandRows(section, company, a + b) == BrandRows(section, company, a) + BrandRows(section, company, b)
    decreases |b|
  {
    if b == [] {
      assert a + b == a;
    } else {
      var n := |b| - 1;
      assert (a + b)[..|a + b| - 1] == a + b[..n];
      BrandRowsAppend(section, company, a, b[..n]);
    }
  }

  lemma SectionRowsSnoc(section: string, s: seq<Entry>, brands: Dict<seq<Entry>>)
    requires s != []
    ensures SectionRows(section, s, brands) ==
            SectionRows(section, s[..|s| - 1], brands) + CompanyRows(section, s[|s| - 1], brands)
  {
  }

  lemma RowsSnoc(s: Dict<seq<Entry>>, brands: Dict<seq<Entry>>)
    requires s != []
    ensures Rows(s, brands) == Rows(s[..|s| - 1], brands) + SectionRows(s[|s| - 1].key, s[|s| - 1].value, brands)
  {
  }

  /** Company rows follow the company list's order. */
  lemma {:induction false} SectionRowsAppend(section: string, a: seq<Entry>, b: seq<Entry>, brands: Dict<seq<Entry>>)
    ensures SectionRows(section, a + b, brands) == SectionRows(section, a, brands) + SectionRows(section, b, brands)
    decreases |b|
  {
    if b == [] {
      assert a + b == a;
    } else {
      var n := |b| - 1;
      var ab := a + b;
      var tail := CompanyRows(section, b[n], brands);
      assert ab[..|ab| - 1] == a + b[..n] && ab[|ab| - 1] == b[n];
      SectionRowsSnoc(section, ab, brands);
      SectionRowsSnoc(section, b, brands);
      SectionRowsAppend(section, a, b[..n], brands);
      Text.ConcatAssoc(SectionRows(section, a, brands), SectionRows(section, b[..n], brands), tail);
    }
  }

  /** Section rows follow the sections' insertion order. */
  lemma {:induction false} RowsAppend(a: Dict<seq<Entry>>, b: Dict<seq<Entry>>, brands: Dict<seq<Entry>>)
    ensures Rows(a + b, brands) == Rows(a, brands) + Rows(b, brands)
    decreases |b|
  {
    if b == [] {
      assert a + b == a;
    } else {
      var n := |b| - 1;
      var ab := a + b;
      var tail := SectionRows(b[n].key, b[n].value, brands);
      assert ab[..|ab| - 1] == a + b[..n] && ab[|ab| - 1] == b[n];
      RowsSnoc(ab, brands);
      RowsSnoc(b, brands);
      RowsAppend(a, b[..n], brands);
      Text.ConcatAssoc(Rows(a, brands), Rows(b[..n], brands), tail);
    }
  }

  /** A section contributes exactly its company entries' rows, one entry after the
      other. */
  lemma SectionRowsCons(section: string, company: Entry, rest: seq<Entry>, brands: Dict<seq<Entry>>)
    ensures SectionRows(section, [company] + rest, brands) ==
            CompanyRows(section, company, brands) + SectionRows(section, rest, brands)
  {
    assert SectionRows(section, [company], brands) == CompanyRows(section, company, brands) by {
      assert [company][..0] == [];
    }
    SectionRowsAppend(section, [company], rest, brands);
  }

  // ---------------------------------------------------------------- counts

  /** The number of objects in a list. */
  function Objects(entries: seq<Entry>): nat
    decreases |entries|
  {
    if entries == [] then 0
    else Objects(entries[..|entries| - 1]) + (if entries[|entries| - 1].Obj? then 1 else 0)
  }

  /** One brand row per object of a brand list, each a brand row of that company in
      that section; entries that are not objects give none. */
  lemma {:induction false} BrandRowsCount(section: string, company: map<string, string>, brands: seq<Entry>)
    ensures |BrandRows(section, company, brands)| == Objects(brands)
    ensures forall r :: r in BrandRows(section, company, brands) ==>
              exists b :: Obj(b) in brands && r == BrandRow(section, company, b)
    decreases |brands|
  {
    if brands != [] {
      var n := |brands| - 1;
      BrandRowsCount(section, company, brands[..n]);
      forall r | r in BrandRows(section, company, brands)
        ensures exists b :: Obj(b) in brands && r == BrandRow(section, company, b)
      {
        if r in BrandRows(section, company, brands[..n]) {
          var b :| Obj(b) in brands[..n] && r == BrandRow(section, company, b);
          assert Obj(b) in brands;
        } else {
          assert brands[n] == Obj(brands[n].fields);
        }
      }
    }
  }

  /** A brand list holding no object gives no rows at all. */
  lemma {:induction false} NoObjectsNoRows(section: string, company: map<string, string>, brands: seq<Entry>)
    requires forall k :: 0 <= k < |brands| ==> brands[k].NonObj?
    ensures BrandRows(section, company, brands) == []
    decreases |brands|
  {
    if brands != [] {
      NoObjectsNoRows(section, company, brands[..|brands| - 1]);
    }
  }

  /** A company entry that is not an object gives no rows. */
  lemma NonObjectCompanySkipped(section: string, a: seq<Entry>, b: seq<Entry>, brands: Dict<seq<Entry>>)
    ensures SectionRows(section, a + [NonObj] + b, brands) == SectionRows(section, a + b, brands)
  {
    var t := a + [NonObj];
    assert t[..|t| - 1] == a && t[|t| - 1] == NonObj;
    assert SectionRows(section, t, brands) == SectionRows(section, a, brands) + [];
    SectionRowsAppend(section, t, b, brands);
    SectionRowsAppend(section, a, b, brands);
  }

  /** A company whose name is not a key of the brands map, or whose list there is
      empty, gives exactly the blank-brand row. */
  lemma CompanyWithoutBrands(section: string, company: map<string, string>, brands: Dict<seq<Entry>>)
    requires Field(company, "company_name") !in Keys(brands) ||
             Get(brands, Field(company, "company_name")) == Some([])
    ensures CompanyRows(section, Obj(company), brands) == [PlaceholderRow(section, company)]
  {
  }

  /** A company whose brand list is not empty gives one row per object in it, and no
      blank-brand row. */
  lemma CompanyWithBrands(section: string, company: map<string, string>, brands: Dict<seq<Entry>>, own: seq<Entry>)
    requires Get(brands, Field(company, "company_name")) == Some(own) && own != []
    ensures |CompanyRows(section, Obj(company), brands)| == Objects(own)
    ensures CompanyRows(section, Obj(company), brands) == BrandRows(section, company, own)
  {
    BrandRowsCount(section, company, own);
  }

  // ---------------------------------------------------------------- relabelling

  /** The rows with their section column replaced. */
  function Relabel(rows: seq<Row>, section: string): (r: seq<Row>)
    ensures |r| == |rows|
  {
    seq(|rows|, i requires 0 <= i < |rows| => rows[i].(industrySection := section))
  }

  /** The brand lookup uses only the company's name, so the same company listed in two
      sections gets the same rows in both, differing only in the section column. */
  lemma {:induction false} BrandRowsRelabel(s1: string, s2: string, company: map<string, string>, brands: seq<Entry>)
    ensures BrandRows(s2, company, brands) == Relabel(BrandRows(s1, company, brands), s2)
    decreases |brands|
  {
    if brands != [] {
      BrandRowsRelabel(s1, s2, company, brands[..|brands| - 1]);
    }
  }

  lemma CompanyRowsRelabel(s1: string, s2: string, company: Entry, brands: Dict<seq<Entry>>)
    ensures CompanyRows(s2, company, brands) == Relabel(CompanyRows(s1, company, brands), s2)
  {
    if company.Obj? && BrandsOf(company.fields, brands) != [] {
      BrandRowsRelabel(s1, s2, company.fields, BrandsOf(company.fields, brands));
    }
  }
}
