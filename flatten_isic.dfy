/**
 * The ISIC hierarchy flattener: a pass over the rows of the classification
 * sheet that keeps the current section, division and group, and emits one
 * record per four-digit class. Each row is a sequence of cells, a missing
 * (NaN) cell being `None`; cells are taken as already converted to text.
 */
module FlattenIsic {
  import opened Wrappers
  import opened Text

  type Cell = Option<string>

  /** One flattened class with its place in the hierarchy. */
  datatype Record = Record(sectionName: string, divisionName: string, groupName: string,
                           className: string, includes: string, excludes: string)

  /** The labels in force while the rows are read. */
  datatype Context = Context(section: string, division: string, group: string)

  const Start: Context := Context("", "", "")

  /** The text of cell `k`, or `""` when the row is too short or the cell is missing. */
  function CellText(row: seq<Cell>, k: nat): string {
    if k < |row| && row[k].Some? then row[k].value else ""
  }

  /** The code of a row whose first cell is present: that cell, stripped. */
  function Code(row: seq<Cell>): string
    requires |row| > 0 && row[0].Some?
  {
    Strip(row[0].value)
  }

  predicate IsSectionCode(code: string) {
    |code| == 1 && IsAlpha(code)
  }

  predicate IsDivisionCode(code: string) {
    |code| == 2 && IsDigits(code)
  }

  predicate IsGroupCode(code: string) {
    |code| == 3 && IsDigits(code)
  }

  predicate IsClassCode(code: string) {
    |code| == 4 && IsDigits(code)
  }

  predicate IsSectionRow(row: seq<Cell>) {
    |row| > 0 && row[0].Some? && IsSectionCode(Code(row))
  }

  predicate IsDivisionRow(row: seq<Cell>) {
    |row| > 0 && row[0].Some? && IsDivisionCode(Code(row))
  }

  predicate IsGroupRow(row: seq<Cell>) {
    |row| > 0 && row[0].Some? && IsGroupCode(Code(row))
  }

  predicate IsClassRow(row: seq<Cell>) {
    |row| > 0 && row[0].Some? && IsClassCode(Code(row))
  }

  /** A row the pass passes over: no first cell, or a code of none of the four
      levels. */
  predicate IsInert(row: seq<Cell>) {
    |row| > 0 && !IsSectionRow(row) && !IsDivisionRow(row) && !IsGroupRow(row) && !IsClassRow(row)
  }

  /** Every row has a first cell to look at. */
  predicate WellFormed(rows: seq<seq<Cell>>) {
    forall i :: 0 <= i < |rows| ==> |rows[i]| > 0
  }

  /** What one row does: the context after it and the record it emits, if any. */
  datatype Outcome = Outcome(context: Context, record: Option<Record>)

  /** One iteration of the loop body. */
  function Step(ctx: Context, row: seq<Cell>): Outcome
    requires |row| > 0
  {
    if row[0].None? then Outcome(ctx, None)
    else
      var code := Strip(row[0].value);
      if |code| == 1 && IsAlpha(code) then Outcome(Context(CellText(row, 1), "", ""), None)
      else if |code| == 2 && IsDigits(code) then Outcome(Context(ctx.section, CellText(row, 1), ""), None)
      else if |code| == 3 && IsDigits(code) then Outcome(ctx.(group := CellText(row, 1)), None)
      else if |code| == 4 && IsDigits(code) then
        Outcome(ctx, Some(Record(ctx.section, ctx.division, ctx.group,
                                 CellText(row, 1), CellText(row, 2), CellText(row, 3))))
      else Outcome(ctx, None)
  }

  function Emitted(o: Outcome): seq<Record> {
    if o.record.Some? then [o.record.value] else []
  }

  /** The context after a run of rows and the records they emitted, in order. */
  datatype Flat = Flat(context: Context, records: seq<Record>)

  /** The loop over `rows` started in `ctx`. */
  function Fold(ctx: Context, rows: seq<seq<Cell>>): Flat
    requires WellFormed(rows)
    decreases |rows|
  {
    if rows == [] then Flat(ctx, [])
    else
      var o := Step(ctx, rows[0]);
      assert WellFormed(rows[1..]) by {
        forall i | 0 <= i < |rows[1..]| ensures |rows[1..][i]| > 0 {
          assert rows[1..][i] == rows[i + 1];
        }
      }
      var rest := Fold(o.context, rows[1..]);
      Flat(rest.context, Emitted(o) + rest.records)
  }

  /** `flattened_rows` at the end of the loop. */
  function Flattened(rows: seq<seq<Cell>>): seq<Record>
    requires WellFormed(rows)
  {
    Fold(Start, rows).records
  }

  lemma WellFormedAppend(a: seq<seq<Cell>>, b: seq<seq<Cell>>)
    requires WellFormed(a) && WellFormed(b)
    ensures WellFormed(a + b)
  {
    forall i | 0 <= i < |a + b| ensures |(a + b)[i]| > 0 {
      if i < |a| {
        assert (a + b)[i] == a[i];
      } else {
        assert (a + b)[i] == b[i - |a|];
      }
    }
  }

  /** Reading `a` and then `b` is reading `b` from where `a` left off: the records
      of `a` come first, in order, followed by those of `b`. */
  lemma {:induction false} FoldAppend(ctx: Context, a: seq<seq<Cell>>, b: seq<seq<Cell>>)
    requires WellFormed(a) && WellFormed(b)
    ensures WellFormed(a + b)
    ensures var mid := Fold(ctx, a);
            var rest := Fold(mid.context, b);
            Fold(ctx, a + b) == Flat(rest.context, mid.records + rest.records)
    decreases |a|
  {
    WellFormedAppend(a, b);
    if a == [] {
      assert a + b == b;
    } else {
      var o := Step(ctx, a[0]);
      assert (a + b)[0] == a[0];
      assert (a + b)[1..] == a[1..] + b;
      assert WellFormed(a[1..]) by {
        forall i | 0 <= i < |a[1..]| ensures |a[1..][i]| > 0 {
          assert a[1..][i] == a[i + 1];
        }
      }
      FoldAppend(o.context, a[1..], b);
    }
  }

  /** One more row after `a`. */
  lemma FoldSnoc(ctx: Context, a: seq<seq<Cell>>, r: seq<Cell>)
    requires WellFormed(a) && |r| > 0
    ensures WellFormed(a + [r])
    ensures var mid := Fold(ctx, a);
            var o := Step(mid.context, r);
            Fold(ctx, a + [r]) == Flat(o.context, mid.records + Emitted(o))
  {
    FoldAppend(ctx, a, [r]);
    var o := Step(Fold(ctx, a).context, r);
    assert Fold(o.context, []) == Flat(o.context, []);
    assert [r][1..] == [];
  }

  /** `flatten_isic_excel`'s row loop: the three labels are kept in variables and
      each class row appends one record. */
  method FlattenRows(rows: seq<seq<Cell>>) returns (records: seq<Record>)
    requires WellFormed(rows)
    ensures records == Flattened(rows)
  {
    var currentSection, currentDivision, currentGroup := "", "", "";
    records := [];
    for i := 0 to |rows|
      invariant Fold(Start, rows[..i]) == Flat(Context(currentSection, currentDivision, currentGroup), records)
    {
      var row := rows[i];
      assert rows[..i + 1] == rows[..i] + [row];
      FoldSnoc(Start, rows[..i], row);
      if row[0].None? {
        continue;
      }
      var firstCol := Strip(row[0].value);
      if |firstCol| == 1 && IsAlpha(firstCol) {
        currentSection := if |row| > 1 && row[1].Some? then row[1].value else "";
        currentDivision := "";
        currentGroup := "";
      } else if |firstCol| == 2 && IsDigits(firstCol) {
        currentDivision := if |row| > 1 && row[1].Some? then row[1].value else "";
        currentGroup := "";
      } else if |firstCol| == 3 && IsDigits(firstCol) {
        currentGroup := if |row| > 1 && row[1].Some? then row[1].value else "";
      } else if |firstCol| == 4 && IsDigits(firstCol) {
        var className := if |row| > 1 && row[1].Some? then row[1].value else "";
        var includes := if |row| > 2 && row[2].Some? then row[2].value else "";
        var excludes := if |row| > 3 && row[3].Some? then row[3].value else "";
        records := records + [Record(currentSection, currentDivision, currentGroup, className, includes, excludes)];
      }
    }
    assert rows[..|rows|] == rows;
  }

  // ---------------------------------------------------------------- what each row does

  /** A row with no first cell, or whose code has none of the four shapes, changes
      nothing: dropping it leaves the result as it was. */
  lemma InertRowIgnored(ctx: Context, a: seq<seq<Cell>>, r: seq<Cell>, b: seq<seq<Cell>>)
    requires WellFormed(a) && IsInert(r) && WellFormed(b)
    ensures WellFormed(a + [r] + b) && WellFormed(a + b)
    ensures Fold(ctx, a + [r] + b) == Fold(ctx, a + b)
  {
    FoldSnoc(ctx, a, r);
    FoldAppend(ctx, a + [r], b);
    FoldAppend(ctx, a, b);
    assert Fold(ctx, a + [r]) == Fold(ctx, a) by {
      assert Fold(ctx, a).records + [] == Fold(ctx, a).records;
    }
  }

  /** A section row names the new section and clears the division and group; it
      emits nothing. */
  lemma SectionRowResets(ctx: Context, a: seq<seq<Cell>>, r: seq<Cell>)
    requires WellFormed(a) && IsSectionRow(r)
    ensures WellFormed(a + [r])
    ensures Fold(ctx, a + [r]) == Flat(Context(CellText(r, 1), "", ""), Fold(ctx, a).records)
  {
    FoldSnoc(ctx, a, r);
  }

  /** A division row names the new division and clears the group; the section
      stays. */
  lemma DivisionRowResets(ctx: Context, a: seq<seq<Cell>>, r: seq<Cell>)
    requires WellFormed(a) && IsDivisionRow(r)
    ensures WellFormed(a + [r])
    ensures var before := Fold(ctx, a);
            Fold(ctx, a + [r]) == Flat(Context(before.context.section, CellText(r, 1), ""), before.records)
  {
    FoldSnoc(ctx, a, r);
  }

  /** A group row names the new group only. */
  lemma GroupRowSets(ctx: Context, a: seq<seq<Cell>>, r: seq<Cell>)
    requires WellFormed(a) && IsGroupRow(r)
    ensures WellFormed(a + [r])
    ensures var before := Fold(ctx, a);
            Fold(ctx, a + [r]) ==
              Flat(Context(before.context.section, before.context.division, CellText(r, 1)), before.records)
  {
    FoldSnoc(ctx, a, r);
  }

  /** A class row appends exactly one record: the labels in force, then its own
      cells 1 to 3 (each `""` when missing); the labels stay. */
  lemma ClassRowEmits(ctx: Context, a: seq<seq<Cell>>, r: seq<Cell>)
    requires WellFormed(a) && IsClassRow(r)
    ensures WellFormed(a + [r])
    ensures var before := Fold(ctx, a);
            var c := before.context;
            Fold(ctx, a + [r]) ==
              Flat(c, before.records + [Record(c.section, c.division, c.group,
                                               CellText(r, 1), CellText(r, 2), CellText(r, 3))])
  {
    FoldSnoc(ctx, a, r);
  }

  /** The number of class rows. */
  function ClassRows(rows: seq<seq<Cell>>): nat {
    if rows == [] then 0 else (if IsClassRow(rows[0]) then 1 else 0) + ClassRows(rows[1..])
  }

  /** One record per class row, whatever the other rows are. */
  lemma {:induction false} RecordCount(ctx: Context, rows: seq<seq<Cell>>)
    requires WellFormed(rows)
    ensures |Fold(ctx, rows).records| == ClassRows(rows)
    decreases |rows|
  {
    if rows != [] {
      assert WellFormed(rows[1..]) by {
        forall i | 0 <= i < |rows[1..]| ensures |rows[1..][i]| > 0 {
          assert rows[1..][i] == rows[i + 1];
        }
      }
      RecordCount(Step(ctx, rows[0]).context, rows[1..]);
    }
  }

  /** The records of the first rows are the start of the records of all rows, so the
      output keeps the order of the input. */
  lemma RecordsInInputOrder(rows: seq<seq<Cell>>, i: nat)
    requires WellFormed(rows) && i <= |rows|
    ensures WellFormed(rows[..i])
    ensures var head := Flattened(rows[..i]);
            |head| <= |Flattened(rows)| && Flattened(rows)[..|head|] == head
  {
    assert rows == rows[..i] + rows[i..];
    assert WellFormed(rows[..i]) by {
      forall k | 0 <= k < i ensures |rows[..i][k]| > 0 {
        assert rows[..i][k] == rows[k];
      }
    }
    assert WellFormed(rows[i..]) by {
      forall k | 0 <= k < |rows| - i ensures |rows[i..][k]| > 0 {
        assert rows[i..][k] == rows[i + k];
      }
    }
    FoldAppend(Start, rows[..i], rows[i..]);
  }

  // ---------------------------------------------------------------- output path

  /** The CSV path: the one given, or the input path with every ".xlsx" replaced by
      "_flattened.csv". */
  function OutputPath(inputPath: string, outputPath: Option<string>): string {
    if outputPath.Some? then outputPath.value else ReplaceAll(inputPath, ".xlsx", "_flattened.csv")
  }

  /** A workbook path whose base holds no dot gets the suffix in place of its
      extension. */
  lemma DefaultPathOfWorkbook(stem: string)
    requires '.' !in stem
    ensures OutputPath(stem + ".xlsx", None) == stem + "_flattened.csv"
  {
    ReplaceSkip(stem, ".xlsx", ".xlsx", "_flattened.csv");
    ReplaceHit([], ".xlsx", "_flattened.csv");
    assert ".xlsx" + [] == ".xlsx";
  }

  /** Every occurrence is rewritten, not only the extension. */
  lemma DefaultPathRewritesEveryOccurrence(a: string, b: string)
    requires '.' !in a && '.' !in b
    ensures OutputPath(a + ".xlsx" + b + ".xlsx", None) == a + "_flattened.csv" + b + "_flattened.csv"
  {
    var pat := ".xlsx";
    var rep := "_flattened.csv";
    ReplaceHit([], pat, rep);
    assert pat + [] == pat;
    assert ReplaceAll(pat, pat, rep) == rep;
    ReplaceSkip(b, pat, pat, rep);
    assert ReplaceAll(b + pat, pat, rep) == b + rep;
    ReplaceHit(b + pat, pat, rep);
    ReplaceSkip(a, pat + (b + pat), pat, rep);
    assert a + pat + b + pat == a + (pat + (b + pat));
    assert a + rep + b + rep == a + (rep + (b + rep));
  }

  /** A path without ".xlsx" is used unchanged, so the CSV would overwrite it. */
  lemma DefaultPathWithoutExtension(inputPath: string)
    requires forall i: nat :: !OccursAt(inputPath, ".xlsx", i)
    ensures OutputPath(inputPath, None) == inputPath
  {
    ReplaceNoOccurrence(inputPath, ".xlsx", "_flattened.csv");
  }

  /** With any other extension the default is the input path itself, so the CSV is
      written over the workbook it was read from. */
  lemma OutputPathOverwritesInput()
    ensures OutputPath("isic.xls", None) == "isic.xls"
  {
    ReplaceSkip("isic", ".xls", ".xlsx", "_flattened.csv");
    assert "isic" + ".xls" == "isic.xls";
  }

  /** The default path as evidently intended: the extension rewritten when the path
      has one, and the suffix appended otherwise. */
  function SafeOutputPath(inputPath: string, outputPath: Option<string>): string {
    if outputPath.Some? then outputPath.value
    else if CountOccurrences(inputPath, ".xlsx") > 0 then ReplaceAll(inputPath, ".xlsx", "_flattened.csv")
    else inputPath + "_flattened.csv"
  }

  /** The corrected default never names the input file, and agrees with the
      original whenever the input has the extension. */
  lemma SafeOutputPathDiffers(inputPath: string)
    ensures SafeOutputPath(inputPath, None) != inputPath
    ensures CountOccurrences(inputPath, ".xlsx") > 0 ==> SafeOutputPath(inputPath, None) == OutputPath(inputPath, None)
  {
    ReplaceAllLength(inputPath, ".xlsx", "_flattened.csv");
  }
}
