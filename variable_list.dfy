/** The variable-list script (dictionary_scraper.py): it reads the variable
    list table of every data type, stacks the tables, drops the rows of
    skipped files, comment codes and SAMPLEID, keeps three columns and
    indexes the result by variable name. */
module VariableList {
  import opened Common
  import opened Text
  import opened Seqs
  import opened Folds

  const DataTypes: seq<string> := ["demographics", "dietary", "examination", "laboratory", "questionnaire"]

  /** Files whose variables are dropped from the dictionary. */
  const SkipFiles: seq<string> := ["DR1IFF", "DR2IFF", "DSII", "AUXAR", "PAXHR", "PAXMIN", "DRXFCD", "DSBI", "DSPI"]

  const FileColumn := "Data File Name"
  const NameColumn := "Variable Name"

  /** The columns deleted before the table is saved, in the order deleted. */
  const UselessColumns: seq<string> := ["Data File Name", "Data File Description", "Begin Year", "EndYear", "Use Constraints"]

  /** One `tr` of a listing table: the texts of its `th` and of its `td` cells. */
  datatype TableRow = TableRow(th: seq<string>, td: seq<string>)

  /** A dataframe row: a cell per column name; a missing key is NaN. */
  type Row = map<string, string>

  /** A dataframe with a default (renumbered) index: its column labels and
      its rows in order. */
  datatype Frame = Frame(columns: seq<string>, rows: seq<Row>)

  /** The saved table: the "Variable Name" of every row as its index, and
      the other columns. */
  datatype Indexed = Indexed(index: seq<Option<string>>, columns: seq<string>, rows: seq<Row>)

  // ---------------------------------------------------------------------
  // Reading one listing page

  /** `[c.text.strip() for c in cells]`. */
  function StripAll(cells: seq<string>): (r: seq<string>)
    ensures |r| == |cells|
  {
    seq(|cells|, i requires 0 <= i < |cells| => PyStrip(cells[i]))
  }

  /** The text cells of each data row. */
  function Cells(rows: seq<TableRow>): (r: seq<seq<string>>)
    ensures |r| == |rows|
  {
    seq(|rows|, i requires 0 <= i < |rows| => StripAll(rows[i].td))
  }

  /** The number of columns pandas infers from a list of rows: the widest row. */
  function Width(data: seq<seq<string>>): (w: nat)
    ensures forall i :: 0 <= i < |data| ==> |data[i]| <= w
    ensures data != [] ==> exists i :: 0 <= i < |data| && |data[i]| == w
    ensures data == [] ==> w == 0
  {
    if data == [] then 0
    else
      var w := Width(data[..|data| - 1]);
      assert forall i :: 0 <= i < |data| - 1 ==> data[..|data| - 1][i] == data[i];
      if |data[|data| - 1]| > w then |data[|data| - 1]| else w
  }

  /** The row pandas builds from the cells of a row no wider than the header. */
  function RowOf(header: seq<string>, cells: seq<string>): Row
    requires |cells| <= |header|
  {
    if cells == [] then map[]
    else RowOf(header, cells[..|cells| - 1])[header[|cells| - 1] := cells[|cells| - 1]]
  }

  /** Cell `j` lands under column `header[j]` and the columns past the
      row's end are NaN. */
  lemma {:induction false} RowOfSpec(header: seq<string>, cells: seq<string>)
    requires |cells| <= |header|
    ensures RowOf(header, cells).Keys == set j | 0 <= j < |cells| :: header[j]
    ensures !HasDuplicates(header) ==> forall j :: 0 <= j < |cells| ==> RowOf(header, cells)[header[j]] == cells[j]
  {
    if cells != [] {
      var n := |cells| - 1;
      RowOfSpec(header, cells[..n]);
      assert forall j :: 0 <= j < n ==> cells[..n][j] == cells[j];
    }
  }

  /** `pd.DataFrame(data, columns=header)`: when there are rows, the widest
      must match the header, and shorter rows are padded with NaN. */
  function MakeFrame(header: seq<string>, data: seq<seq<string>>): (r: Result<Frame>)
    ensures r.Err? ==> r.error == ValueError
    ensures r.Ok? ==> r.value.columns == header && |r.value.rows| == |data|
  {
    if data != [] && Width(data) != |header| then Err(ValueError)
    else Ok(Frame(header, seq(|data|, i requires 0 <= i < |data| => RowOf(header, data[i]))))
  }

  /** A frame is built exactly when no row is wider than the header and,
      if there are rows, one is exactly as wide; row `i` holds the cells of
      `data[i]`. */
  lemma MakeFrameSpec(header: seq<string>, data: seq<seq<string>>)
    ensures MakeFrame(header, data).Ok? <==>
      && (forall i :: 0 <= i < |data| ==> |data[i]| <= |header|)
      && (data == [] || exists i :: 0 <= i < |data| && |data[i]| == |header|)
    ensures MakeFrame(header, data).Ok? ==> forall i :: 0 <= i < |data| ==>
      |data[i]| <= |header| && MakeFrame(header, data).value.rows[i] == RowOf(header, data[i])
  {
  }

  /** The frame of one listing page: the `th` texts of the first `tr` are
      the header and every later `tr` is a data row; a table without rows
      raises IndexError. */
  function PageFrame(rows: seq<TableRow>): Result<Frame> {
    if rows == [] then Err(IndexError)
    else MakeFrame(StripAll(rows[0].th), Cells(rows[1..]))
  }

  /** The header row is never a data row: a page of `n` rows gives `n - 1`
      rows, the `i`-th from the `td` cells of row `i + 1`. */
  lemma PageFrameRows(rows: seq<TableRow>, i: int)
    requires PageFrame(rows).Ok? && 1 <= i < |rows|
    ensures |PageFrame(rows).value.rows| == |rows| - 1
    ensures |StripAll(rows[i].td)| <= |StripAll(rows[0].th)|
    ensures PageFrame(rows).value.rows[i - 1] == RowOf(StripAll(rows[0].th), StripAll(rows[i].td))
  {
    var header := StripAll(rows[0].th);
    var data := Cells(rows[1..]);
    MakeFrameRow(header, data, i - 1);
    assert data[i - 1] == StripAll(rows[1..][i - 1].td);
    assert rows[1..][i - 1] == rows[i];
  }

  /** Helper: one row of a frame that was built. */
  lemma MakeFrameRow(header: seq<string>, data: seq<seq<string>>, j: int)
    requires MakeFrame(header, data).Ok? && 0 <= j < |data|
    ensures |data[j]| <= |header| && MakeFrame(header, data).value.rows[j] == RowOf(header, data[j])
  {
  }

  /** The page-reading loop: the header texts, then one list of cell texts
      appended per data row. */
  method ReadPage(rows: seq<TableRow>) returns (r: Result<Frame>)
    ensures r == PageFrame(rows)
  {
    if |rows| == 0 {
      return Err(IndexError);
    }
    var header := StripAll(rows[0].th);
    var body := rows[1..];
    var data: seq<seq<string>> := [];
    var i := 0;
    while i < |body|
      invariant 0 <= i <= |body|
      invariant |data| == i
      invariant forall k :: 0 <= k < i ==> data[k] == StripAll(body[k].td)
    {
      var cols := StripAll(body[i].td);
      data := data + [cols];
      i := i + 1;
    }
    assert data == Cells(body);
    r := MakeFrame(header, data);
  }

  // ---------------------------------------------------------------------
  // Stacking the pages

  /** `y` is not one of `xs`. */
  function Absent(xs: seq<string>): string -> bool {
    y => y !in xs
  }

  /** The columns of `pd.concat([a, b])`: those of `a`, then those of `b`
      that `a` lacks, in order of appearance. */
  function Union(xs: seq<string>, ys: seq<string>): (r: seq<string>)
    ensures forall c :: c in r <==> c in xs || c in ys
    ensures |xs| <= |r| && r[..|xs|] == xs
  {
    xs + Filter(ys, Absent(xs))
  }

  /** `pd.concat([df, add], ignore_index=True)`: the rows of `add` after
      those of `df`, renumbered; cells of columns a frame lacks are NaN. */
  function Concat(df: Frame, add: Frame): (r: Frame)
    ensures r.rows == df.rows + add.rows
    ensures forall c :: c in r.columns <==> c in df.columns || c in add.columns
    ensures |df.columns| <= |r.columns| && r.columns[..|df.columns|] == df.columns
  {
    Frame(Union(df.columns, add.columns), df.rows + add.rows)
  }

  /** One pass of the data-type loop; `listing` gives the table of a data
      type's variable list page. */
  function ScrapeStep(df: Frame, dataType: string, listing: string -> seq<TableRow>): Result<Frame> {
    var add :- PageFrame(listing(dataType));
    Ok(Concat(df, add))
  }

  function ScrapeStepOf(listing: string -> seq<TableRow>): (Frame, string) -> Result<Frame> {
    (df, d) => ScrapeStep(df, d, listing)
  }

  /** The data-type loop from the frame `df`. */
  function Scrape(df: Frame, dataTypes: seq<string>, listing: string -> seq<TableRow>): Result<Frame> {
    Fold(df, dataTypes, ScrapeStepOf(listing))
  }

  /** The rows of every page in the order of the data types, or the first
      page that cannot be read. */
  function PageRows(dataTypes: seq<string>, listing: string -> seq<TableRow>): Result<seq<Row>> {
    if dataTypes == [] then Ok([])
    else
      var rows :- PageRows(dataTypes[..|dataTypes| - 1], listing);
      var add :- PageFrame(listing(dataTypes[|dataTypes| - 1]));
      Ok(rows + add.rows)
  }

  /** One page appended: the step fails exactly when the page does, and
      otherwise adds the page's rows after the earlier ones and keeps the
      earlier columns first. */
  lemma ScrapeStepAppends(f: Frame, d: string, listing: string -> seq<TableRow>)
    ensures ScrapeStep(f, d, listing).Ok? <==> PageFrame(listing(d)).Ok?
    ensures ScrapeStep(f, d, listing).Ok? ==>
      var r := ScrapeStep(f, d, listing).value;
      && r.rows == f.rows + PageFrame(listing(d)).value.rows
      && |f.columns| <= |r.columns| && r.columns[..|f.columns|] == f.columns
  {
  }

  /** `s` is the frame `df` with the rows `p` stacked under it: either both
      failed, or `s` holds the rows of `df` then `p` and keeps the columns of
      `df` first. */
  predicate Stacked(df: Frame, s: Result<Frame>, p: Result<seq<Row>>) {
    && (s.Ok? <==> p.Ok?)
    && (s.Ok? ==>
          && s.value.rows == df.rows + p.value
          && |df.columns| <= |s.value.columns| && s.value.columns[..|df.columns|] == df.columns)
  }

  /** Helper: stacking one more page keeps `Stacked`. */
  lemma StackedStep(df: Frame, s: Result<Frame>, p: Result<seq<Row>>, d: string, listing: string -> seq<TableRow>)
    requires Stacked(df, s, p)
    ensures Stacked(df, if s.Err? then s else ScrapeStep(s.value, d, listing),
                        if p.Err? then p else var add :- PageFrame(listing(d)); Ok(p.value + add.rows))
  {
    if s.Ok? {
      ScrapeStepAppends(s.value, d, listing);
      ColumnsPrefix(df.columns, s.value.columns, ScrapeStep(s.value, d, listing));
    }
  }

  /** The stacked table fails exactly when some page cannot be read; it
      holds the earlier rows followed by every page's rows in the order of
      the data types, and its first columns are the earlier ones. */
  lemma {:induction false} ScrapeAppends(df: Frame, dataTypes: seq<string>, listing: string -> seq<TableRow>)
    ensures Stacked(df, Scrape(df, dataTypes, listing), PageRows(dataTypes, listing))
  {
    if dataTypes != [] {
      var n := |dataTypes| - 1;
      ScrapeAppends(df, dataTypes[..n], listing);
      ScrapeLast(df, dataTypes, listing);
      StackedStep(df, Scrape(df, dataTypes[..n], listing), PageRows(dataTypes[..n], listing), dataTypes[n], listing);
    }
  }

  /** Helper: the last pass of the data-type loop and of the page list. */
  lemma ScrapeLast(df: Frame, dataTypes: seq<string>, listing: string -> seq<TableRow>)
    requires dataTypes != []
    ensures var n := |dataTypes| - 1;
      var s, p := Scrape(df, dataTypes[..n], listing), PageRows(dataTypes[..n], listing);
      && Scrape(df, dataTypes, listing) == (if s.Err? then s else ScrapeStep(s.value, dataTypes[n], listing))
      && PageRows(dataTypes, listing) == (if p.Err? then p else
           var add :- PageFrame(listing(dataTypes[n])); Ok(p.value + add.rows))
  {
  }

  /** Helper: a prefix of a prefix. */
  lemma ColumnsPrefix(a: seq<string>, b: seq<string>, r: Result<Frame>)
    requires |a| <= |b| && b[..|a|] == a
    requires r.Ok? ==> |b| <= |r.value.columns| && r.value.columns[..|b|] == b
    ensures r.Ok? ==> |a| <= |r.value.columns| && r.value.columns[..|a|] == a
  {
    if r.Ok? {
      assert r.value.columns[..|a|] == r.value.columns[..|b|][..|a|];
    }
  }

  // ---------------------------------------------------------------------
  // Removing unwanted variables

  /** The tests of the cleaning step: `.str.startswith`, `.str.endswith`
      and `==`. */
  datatype Test = Prefix(prefix: string) | Suffix(suffix: string) | Equals(value: string)

  predicate Hits(t: Test, cell: string) {
    match t
    case Prefix(p) => StartsWith(cell, p)
    case Suffix(x) => EndsWith(cell, x)
    case Equals(v) => cell == v
  }

  /** The row is kept by `df[~(test on df[col])]`; a NaN cell never hits. */
  function Survives(col: string, t: Test): Row -> bool {
    row => !(col in row && Hits(t, row[col]))
  }

  /** `df = df[~df[col].str.startswith(p)]` and its kin. A missing column
      raises KeyError; `.str.startswith` and `.str.endswith` give NaN for a
      missing cell, on which `~` raises TypeError; `==` is false on NaN. */
  function Drop(df: Frame, col: string, t: Test): (r: Result<Frame>)
    ensures r.Ok? <==> col in df.columns && (t.Equals? || forall i :: 0 <= i < |df.rows| ==> col in df.rows[i])
    ensures r.Err? ==> r.error == (if col !in df.columns then KeyError else TypeError)
    ensures r.Ok? ==> r.value == Frame(df.columns, Filter(df.rows, Survives(col, t)))
  {
    if col !in df.columns then Err(KeyError)
    else if !t.Equals? && exists i :: 0 <= i < |df.rows| && col !in df.rows[i] then Err(TypeError)
    else Ok(Frame(df.columns, Filter(df.rows, Survives(col, t))))
  }

  function DropPrefixOf(): (Frame, string) -> Result<Frame> {
    (df, p) => Drop(df, FileColumn, Prefix(p))
  }

  /** `for l in lst: df = df[~df["Data File Name"].str.startswith(l)]`. */
  function DropSkipped(df: Frame, prefixes: seq<string>): Result<Frame> {
    Fold(df, prefixes, DropPrefixOf())
  }

  /** The row does not come from a file starting with one of `prefixes`. */
  function NoPrefix(prefixes: seq<string>): Row -> bool {
    row => !(FileColumn in row && StartsWithAny(row[FileColumn], prefixes))
  }

  lemma StartsWithAnySnoc(s: string, init: seq<string>, p: string)
    ensures StartsWithAny(s, init + [p]) <==> StartsWithAny(s, init) || StartsWith(s, p)
  {
    var ps := init + [p];
    if StartsWithAny(s, ps) {
      var i :| 0 <= i < |ps| && StartsWith(s, ps[i]);
      if i < |init| {
        assert ps[i] == init[i];
      }
    }
    if StartsWithAny(s, init) {
      var i :| 0 <= i < |init| && StartsWith(s, init[i]);
      assert ps[i] == init[i];
    }
    if StartsWith(s, p) {
      assert ps[|init|] == p;
    }
  }

  /** The rows of every frame that `rows` filters to still have a cell in `col`. */
  lemma FilterKeepsColumn(rows: seq<Row>, p: Row -> bool, col: string)
    requires forall i :: 0 <= i < |rows| ==> col in rows[i]
    ensures forall i :: 0 <= i < |Filter(rows, p)| ==> col in Filter(rows, p)[i]
  {
    var f := Filter(rows, p);
    forall i | 0 <= i < |f|
      ensures col in f[i]
    {
      assert f[i] in rows;
    }
  }

  /** The prefix loop fails exactly when the file column or one of its
      cells is missing, and otherwise drops the rows of files starting
      with any of the prefixes, keeping the order of the rest. */
  lemma {:induction false} DropSkippedSpec(df: Frame, prefixes: seq<string>)
    requires prefixes != []
    ensures DropSkipped(df, prefixes).Ok? <==>
      FileColumn in df.columns && forall i :: 0 <= i < |df.rows| ==> FileColumn in df.rows[i]
    ensures DropSkipped(df, prefixes).Ok? ==>
      DropSkipped(df, prefixes).value == Frame(df.columns, Filter(df.rows, NoPrefix(prefixes)))
  {
    var n := |prefixes| - 1;
    var init, p := prefixes[..n], prefixes[n];
    assert prefixes == init + [p];
    forall row ensures NoPrefix(prefixes)(row) == (NoPrefix(init)(row) && Survives(FileColumn, Prefix(p))(row)) {
      if FileColumn in row {
        StartsWithAnySnoc(row[FileColumn], init, p);
      }
    }
    if init == [] {
      FoldNext(df, prefixes, 0, DropPrefixOf(), df);
      assert prefixes[..1] == prefixes;
      FilterSame(df.rows, NoPrefix(prefixes), Survives(FileColumn, Prefix(p)));
    } else {
      DropSkippedSpec(df, init);
      FoldSnoc(df, init, p, DropPrefixOf());
      if DropSkipped(df, init).Ok? {
        var f := DropSkipped(df, init).value;
        FilterKeepsColumn(df.rows, NoPrefix(init), FileColumn);
        assert DropSkipped(df, prefixes) == Drop(f, FileColumn, Prefix(p));
        FilterTwice(df.rows, NoPrefix(init), Survives(FileColumn, Prefix(p)), NoPrefix(prefixes));
      }
    }
  }

  /** The reference rule: a row is unwanted iff its file starts with a
      skipped prefix, or its variable is a comment code or SAMPLEID. */
  predicate Unwanted(row: Row) {
    || (FileColumn in row && StartsWithAny(row[FileColumn], SkipFiles))
    || (NameColumn in row && (EndsWith(row[NameColumn], "LC") || row[NameColumn] == "SAMPLEID"))
  }

  function Wanted(): Row -> bool {
    row => !Unwanted(row)
  }

  /** What survives the prefix loop and the "LC" suffix test. */
  function NotSkippedNorComment(): Row -> bool {
    row => NoPrefix(SkipFiles)(row) && Survives(NameColumn, Suffix("LC"))(row)
  }

  /** The cleaning block of the script: the prefix loop, then the "LC"
      suffix, then SAMPLEID. */
  function RemoveUnwanted(df: Frame): Result<Frame> {
    var f :- DropSkipped(df, SkipFiles);
    var g :- Drop(f, NameColumn, Suffix("LC"));
    Drop(g, NameColumn, Equals("SAMPLEID"))
  }

  /** Cleaning fails exactly when a column it reads is missing, a file
      name is missing, or a variable name is missing from a row the prefix
      loop keeps; otherwise it keeps exactly the wanted rows, in order. */
  lemma {:induction false} RemoveUnwantedSpec(df: Frame)
    ensures RemoveUnwanted(df).Ok? <==>
      && FileColumn in df.columns && NameColumn in df.columns
      && forall i :: 0 <= i < |df.rows| ==>
           FileColumn in df.rows[i] && (NameColumn in df.rows[i] || StartsWithAny(df.rows[i][FileColumn], SkipFiles))
    ensures RemoveUnwanted(df).Ok? ==> RemoveUnwanted(df).value == Frame(df.columns, Filter(df.rows, Wanted()))
  {
    RemoveUnwantedOk(df);
    RemoveUnwantedValue(df);
  }

  /** Helper: when cleaning fails. */
  lemma RemoveUnwantedOk(df: Frame)
    ensures RemoveUnwanted(df).Ok? <==>
      && FileColumn in df.columns && NameColumn in df.columns
      && forall i :: 0 <= i < |df.rows| ==>
           FileColumn in df.rows[i] && (NameColumn in df.rows[i] || StartsWithAny(df.rows[i][FileColumn], SkipFiles))
  {
    DropSkippedSpec(df, SkipFiles);
    if DropSkipped(df, SkipFiles).Ok? {
      KeptHaveNames(df.rows, NoPrefix(SkipFiles));
    }
  }

  /** Helper: what cleaning keeps. */
  lemma RemoveUnwantedValue(df: Frame)
    ensures RemoveUnwanted(df).Ok? ==> RemoveUnwanted(df).value == Frame(df.columns, Filter(df.rows, Wanted()))
  {
    DropSkippedSpec(df, SkipFiles);
    WantedFilter(df.rows);
  }

  /** Helper: the rows a filter keeps all have a variable name exactly when
      every row has one or is filtered out. */
  lemma KeptHaveNames(rows: seq<Row>, keep: Row -> bool)
    ensures (forall i :: 0 <= i < |Filter(rows, keep)| ==> NameColumn in Filter(rows, keep)[i]) <==>
      forall i :: 0 <= i < |rows| ==> NameColumn in rows[i] || !keep(rows[i])
  {
    var kept := Filter(rows, keep);
    if forall i :: 0 <= i < |rows| ==> NameColumn in rows[i] || !keep(rows[i]) {
      forall i | 0 <= i < |kept| ensures NameColumn in kept[i] {
        assert kept[i] in rows;
      }
    } else {
      var i :| 0 <= i < |rows| && NameColumn !in rows[i] && keep(rows[i]);
      assert rows[i] in kept;
    }
  }

  /** Helper: the three filters of the cleaning block keep the wanted rows. */
  lemma WantedFilter(rows: seq<Row>)
    ensures Filter(Filter(Filter(rows, NoPrefix(SkipFiles)), Survives(NameColumn, Suffix("LC"))), Survives(NameColumn, Equals("SAMPLEID")))
      == Filter(rows, Wanted())
  {
    var suffix, same := Survives(NameColumn, Suffix("LC")), Survives(NameColumn, Equals("SAMPLEID"));
    var both := NotSkippedNorComment();
    forall row ensures both(row) == (NoPrefix(SkipFiles)(row) && suffix(row)) { }
    forall row ensures Wanted()(row) == (both(row) && same(row)) { }
    FilterTwice(rows, NoPrefix(SkipFiles), suffix, both);
    FilterTwice(rows, both, same, Wanted());
  }

  /** Cleaning a cleaned table changes nothing. */
  lemma {:induction false} RemoveUnwantedIdempotent(df: Frame)
    requires RemoveUnwanted(df).Ok?
    ensures RemoveUnwanted(RemoveUnwanted(df).value) == RemoveUnwanted(df)
  {
    RemoveUnwantedSpec(df);
    var f := RemoveUnwanted(df).value;
    forall i | 0 <= i < |f.rows|
      ensures FileColumn in f.rows[i] && NameColumn in f.rows[i]
    {
      assert f.rows[i] in df.rows;
    }
    RemoveUnwantedSpec(f);
    FilterIdempotent(df.rows, Wanted());
  }

  /** A surviving row is wanted, and a wanted row survives. */
  lemma RemoveUnwantedKeeps(df: Frame, row: Row)
    requires RemoveUnwanted(df).Ok? && row in df.rows
    ensures row in RemoveUnwanted(df).value.rows <==> !Unwanted(row)
  {
    RemoveUnwantedSpec(df);
  }

  // ---------------------------------------------------------------------
  // Keeping the useful columns

  function Other(c: string): string -> bool {
    x => x != c
  }

  /** `del df[c]`: KeyError unless `c` is a column. */
  function DeleteColumn(df: Frame, c: string): (r: Result<Frame>)
    ensures r.Ok? <==> c in df.columns
    ensures r.Err? ==> r.error == KeyError
    ensures r.Ok? ==> r.value.columns == Filter(df.columns, Other(c)) && |r.value.rows| == |df.rows|
    ensures r.Ok? ==> forall i :: 0 <= i < |df.rows| ==> r.value.rows[i] == df.rows[i] - {c}
  {
    if c !in df.columns then Err(KeyError)
    else Ok(Frame(Filter(df.columns, Other(c)), seq(|df.rows|, i requires 0 <= i < |df.rows| => df.rows[i] - {c})))
  }

  function DeleteColumnOf(): (Frame, string) -> Result<Frame> {
    (df, c) => DeleteColumn(df, c)
  }

  /** A run of `del df[c]` statements. */
  function DeleteColumns(df: Frame, cs: seq<string>): Result<Frame> {
    Fold(df, cs, DeleteColumnOf())
  }

  /** The elements of `cs`. */
  function Gone(cs: seq<string>): set<string> {
    set c | c in cs
  }

  /** `c` is not one of `cs`. */
  function NotIn(cs: seq<string>): string -> bool {
    x => x !in cs
  }

  /** Deleting distinct columns fails exactly when one is missing, and
      otherwise leaves the other columns in order and removes those
      cells from every row. */
  lemma {:induction false} DeleteColumnsSpec(df: Frame, cs: seq<string>)
    requires !HasDuplicates(cs)
    ensures DeleteColumns(df, cs).Ok? <==> forall j :: 0 <= j < |cs| ==> cs[j] in df.columns
    ensures DeleteColumns(df, cs).Err? ==> DeleteColumns(df, cs).error == KeyError
    ensures DeleteColumns(df, cs).Ok? ==>
      var r := DeleteColumns(df, cs).value;
      && r.columns == Filter(df.columns, NotIn(cs))
      && |r.rows| == |df.rows|
      && forall i :: 0 <= i < |df.rows| ==> r.rows[i] == df.rows[i] - Gone(cs)
  {
    if cs == [] {
      FilterAll(df.columns, NotIn(cs));
    } else {
      var n := |cs| - 1;
      var init, c := cs[..n], cs[n];
      assert cs == init + [c];
      DistinctSnoc(init, c);
      DeleteColumnsSpec(df, init);
      FoldSnoc(df, init, c, DeleteColumnOf());
      if DeleteColumns(df, init).Ok? {
        DeleteOneMore(df, DeleteColumns(df, init).value, init, c);
      }
    }
  }

  lemma DistinctSnoc(init: seq<string>, c: string)
    requires !HasDuplicates(init + [c])
    ensures !HasDuplicates(init) && c !in init
  {
    var cs := init + [c];
    forall i, j | 0 <= i < j < |init| ensures init[i] != init[j] {
      assert init[i] == cs[i] && init[j] == cs[j];
    }
    forall j | 0 <= j < |init| ensures init[j] != c {
      assert init[j] == cs[j] && c == cs[|init|];
    }
  }

  /** One more `del` after the columns `init` are gone. */
  lemma DeleteOneMore(df: Frame, f: Frame, init: seq<string>, c: string)
    requires c !in init
    requires f.columns == Filter(df.columns, NotIn(init)) && |f.rows| == |df.rows|
    requires forall i :: 0 <= i < |df.rows| ==> f.rows[i] == df.rows[i] - Gone(init)
    ensures DeleteColumn(f, c).Ok? <==> c in df.columns
    ensures DeleteColumn(f, c).Ok? ==>
      var r := DeleteColumn(f, c).value;
      && r.columns == Filter(df.columns, NotIn(init + [c]))
      && |r.rows| == |df.rows|
      && forall i :: 0 <= i < |df.rows| ==> r.rows[i] == df.rows[i] - Gone(init + [c])
  {
    var cs := init + [c];
    assert c in f.columns <==> c in df.columns;
    if c in df.columns {
      var r := DeleteColumn(f, c).value;
      forall x ensures NotIn(cs)(x) == (NotIn(init)(x) && Other(c)(x)) { }
      FilterTwice(df.columns, NotIn(init), Other(c), NotIn(cs));
      var gone := Gone(cs);
      assert gone == Gone(init) + {c};
      forall i | 0 <= i < |df.rows| ensures r.rows[i] == df.rows[i] - gone {
        assert r.rows[i] == f.rows[i] - {c};
      }
    }
  }

  /** The five `del` statements as a run over the useless columns. */
  function DeleteUseless(df: Frame): Result<Frame> {
    DeleteColumns(df, UselessColumns)
  }

  /** The same five statements written one after the other. */
  function UselessDels(df: Frame): Result<Frame> {
    var u := UselessColumns;
    var a :- DeleteColumn(df, u[0]);
    var b :- DeleteColumn(a, u[1]);
    var c :- DeleteColumn(b, u[2]);
    var d :- DeleteColumn(c, u[3]);
    DeleteColumn(d, u[4])
  }

  /** The statements one by one do what the run does. */
  lemma UselessDelsIsRun(df: Frame)
    ensures UselessDels(df) == DeleteUseless(df)
  {
    var u, step := UselessColumns, DeleteColumnOf();
    assert u[..0] == [];
    FoldPrefix(df, u, 0, step);
    FoldPrefix(df, u, 1, step);
    FoldPrefix(df, u, 2, step);
    FoldPrefix(df, u, 3, step);
    FoldPrefix(df, u, 4, step);
    assert u[..5] == u;
  }

  /** `cols = df.columns.tolist(); df = df[[cols[0], cols[2], cols[1]]]`:
      IndexError when there are fewer than three columns; the third column
      moves before the second, and any later columns are dropped. */
  function MoveComponent(df: Frame): (r: Result<Frame>)
    ensures r.Ok? <==> |df.columns| >= 3
    ensures r.Err? ==> r.error == IndexError
    ensures r.Ok? ==> |r.value.rows| == |df.rows|
  {
    if |df.columns| < 3 then Err(IndexError)
    else Ok(Select(df, [df.columns[0], df.columns[2], df.columns[1]]))
  }

  /** `df[cols]` for columns of `df`: the rows keep only those cells. */
  function Select(df: Frame, cols: seq<string>): (r: Frame)
    ensures r.columns == cols && |r.rows| == |df.rows|
    ensures forall i, c :: 0 <= i < |df.rows| && c in cols && c in df.rows[i] ==> c in r.rows[i] && r.rows[i][c] == df.rows[i][c]
    ensures forall i, c :: 0 <= i < |df.rows| && c in r.rows[i] ==> c in cols
  {
    Frame(cols, seq(|df.rows|, i requires 0 <= i < |df.rows| => map c | c in df.rows[i] && c in cols :: df.rows[i][c]))
  }

  /** A cell, or NaN. */
  function Cell(row: Row, c: string): Option<string> {
    if c in row then Some(row[c]) else None
  }

  /** `df.set_index("Variable Name")`: KeyError unless it is a column; the
      index takes its cells in row order, and the column leaves the table. */
  function SetIndex(df: Frame): (r: Result<Indexed>)
    ensures r.Ok? <==> NameColumn in df.columns
    ensures r.Err? ==> r.error == KeyError
    ensures r.Ok? ==> |r.value.index| == |r.value.rows| == |df.rows|
    ensures r.Ok? ==> forall i :: 0 <= i < |df.rows| ==> r.value.index[i] == Cell(df.rows[i], NameColumn)
    ensures r.Ok? ==> NameColumn !in r.value.columns
  {
    if NameColumn !in df.columns then Err(KeyError)
    else Ok(Indexed(
      seq(|df.rows|, i requires 0 <= i < |df.rows| => Cell(df.rows[i], NameColumn)),
      Filter(df.columns, Other(NameColumn)),
      seq(|df.rows|, i requires 0 <= i < |df.rows| => df.rows[i] - {NameColumn})))
  }

  /** Everything after the data-type loop. */
  function Clean(df: Frame): Result<Indexed> {
    var f :- RemoveUnwanted(df);
    Reshape(f)
  }

  /** The column deletion, the column move and the index. */
  function Reshape(f: Frame): Result<Indexed> {
    var g :- DeleteUseless(f);
    MoveAndIndex(g)
  }

  /** The column move and the index. */
  function MoveAndIndex(g: Frame): Result<Indexed> {
    var h :- MoveComponent(g);
    SetIndex(h)
  }

  /** The whole script on the variable list pages `listing` gives. */
  function Run(listing: string -> seq<TableRow>): Result<Indexed> {
    var df :- Scrape(Frame([], []), DataTypes, listing);
    Clean(df)
  }

  /** The five deleted columns are distinct, and "Variable Name" is not
      one of them. */
  lemma UselessColumnsFacts()
    ensures !HasDuplicates(UselessColumns)
    ensures NameColumn !in Gone(UselessColumns)
  {
    var u := UselessColumns;
    assert u[0][5] == 'F' && u[1][5] == 'F' && u[2][0] == 'B' && u[3][0] == 'E' && u[4][0] == 'U';
    assert u[0][10] == 'N' && u[1][10] == 'D';
    assert NameColumn[0] == 'V';
  }

  /** The rows the cleaning keeps all have a variable name. */
  lemma WantedHaveNames(df: Frame)
    requires RemoveUnwanted(df).Ok?
    ensures forall i :: 0 <= i < |Filter(df.rows, Wanted())| ==> NameColumn in Filter(df.rows, Wanted())[i]
  {
    RemoveUnwantedSpec(df);
    var kept := Filter(df.rows, Wanted());
    forall i | 0 <= i < |kept| ensures NameColumn in kept[i] {
      assert kept[i] in df.rows;
    }
  }

  /** Reshaping a table whose rows all have a variable name works exactly
      when the five columns are there and "Variable Name" is among the
      first three that remain; the index then lists the variable names in
      row order (never sorted), and the columns are the other two of those
      three, the third first. */
  lemma {:induction false} ReshapeSpec(f: Frame)
    requires forall i :: 0 <= i < |f.rows| ==> NameColumn in f.rows[i]
    ensures Reshape(f).Ok? <==>
      && (forall j :: 0 <= j < |UselessColumns| ==> UselessColumns[j] in f.columns)
      && var rest := Filter(f.columns, NotIn(UselessColumns));
         |rest| >= 3 && NameColumn in rest[..3]
    ensures Reshape(f).Ok? ==>
      var out := Reshape(f).value;
      var rest := Filter(f.columns, NotIn(UselessColumns));
      && |out.index| == |f.rows|
      && (forall i :: 0 <= i < |f.rows| ==> out.index[i] == Some(f.rows[i][NameColumn]))
      && out.columns == Filter([rest[0], rest[2], rest[1]], Other(NameColumn))
  {
    UselessColumnsFacts();
    DeleteColumnsSpec(f, UselessColumns);
    if DeleteUseless(f).Ok? {
      var g := DeleteUseless(f).value;
      forall i | 0 <= i < |g.rows|
        ensures NameColumn in g.rows[i] && g.rows[i][NameColumn] == f.rows[i][NameColumn]
      {
        assert g.rows[i] == f.rows[i] - Gone(UselessColumns);
      }
      MoveAndIndexSpec(g);
    }
  }

  /** Helper: the column move and the index on a table whose rows all have
      a variable name. */
  lemma MoveAndIndexSpec(g: Frame)
    requires forall i :: 0 <= i < |g.rows| ==> NameColumn in g.rows[i]
    ensures MoveAndIndex(g).Ok? <==> |g.columns| >= 3 && NameColumn in g.columns[..3]
    ensures MoveAndIndex(g).Ok? ==>
      var out := MoveAndIndex(g).value;
      var rest := g.columns;
      && |out.index| == |g.rows|
      && (forall i :: 0 <= i < |g.rows| ==> out.index[i] == Some(g.rows[i][NameColumn]))
      && out.columns == Filter([rest[0], rest[2], rest[1]], Other(NameColumn))
  {
    var rest := g.columns;
    if |rest| >= 3 {
      var cols := [rest[0], rest[2], rest[1]];
      var h := Select(g, cols);
      assert MoveComponent(g) == Ok(h);
      assert NameColumn in cols <==> NameColumn in rest[..3];
      if NameColumn in cols {
        forall i | 0 <= i < |g.rows|
          ensures Cell(h.rows[i], NameColumn) == Some(g.rows[i][NameColumn])
        {
          assert NameColumn in g.rows[i];
        }
      }
    }
  }

  /** The saved table: when cleaning succeeds, its index is the variable
      names of the wanted rows in their original order. */
  lemma CleanSpec(df: Frame)
    ensures Clean(df).Ok? <==>
      && RemoveUnwanted(df).Ok?
      && (forall j :: 0 <= j < |UselessColumns| ==> UselessColumns[j] in df.columns)
      && var rest := Filter(df.columns, NotIn(UselessColumns));
         |rest| >= 3 && NameColumn in rest[..3]
    ensures Clean(df).Ok? ==>
      var out, kept := Clean(df).value, Filter(df.rows, Wanted());
      && |out.index| == |kept|
      && (forall i :: 0 <= i < |kept| ==> NameColumn in kept[i] && out.index[i] == Some(kept[i][NameColumn]))
  {
    RemoveUnwantedSpec(df);
    if RemoveUnwanted(df).Ok? {
      WantedHaveNames(df);
      ReshapeSpec(RemoveUnwanted(df).value);
    }
  }

  /** No index entry of the saved table is a comment code or SAMPLEID. */
  lemma CleanDropsCommentsAndSampleId(df: Frame, i: int)
    requires Clean(df).Ok? && 0 <= i < |Clean(df).value.index|
    ensures Clean(df).value.index[i].Some?
    ensures !EndsWith(Clean(df).value.index[i].value, "LC") && Clean(df).value.index[i].value != "SAMPLEID"
  {
    CleanSpec(df);
    var kept := Filter(df.rows, Wanted());
    assert kept[i] in kept;
  }

  // ---------------------------------------------------------------------
  // The script

  /** The script's global table `df`, rebuilt statement by statement. */
  class DictionaryScript {
    var df: Frame

    /** `df = pd.DataFrame()`. */
    constructor ()
      ensures df == Frame([], [])
    {
      df := Frame([], []);
    }

    /** `for datatype in datatypes:` read the page's table and append it. */
    method ScrapeDataTypes(dataTypes: seq<string>, listing: string -> seq<TableRow>) returns (r: Result<()>)
      modifies this
      ensures var s := Scrape(old(df), dataTypes, listing);
        && (r.Ok? <==> s.Ok?)
        && (s.Err? ==> r.error == s.error)
        && (s.Ok? ==> df == s.value)
    {
      ghost var df0 := df;
      ghost var step := ScrapeStepOf(listing);
      var i := 0;
      while i < |dataTypes|
        invariant 0 <= i <= |dataTypes|
        invariant Fold(df0, dataTypes[..i], step) == Ok(df)
      {
        FoldNext(df0, dataTypes, i, step, df);
        var dfadd := ReadPage(listing(dataTypes[i]));
        if dfadd.Err? {
          FoldStops(df0, dataTypes, i + 1, step);
          return Err(dfadd.error);
        }
        df := Concat(df, dfadd.value);
        i := i + 1;
      }
      assert dataTypes[..i] == dataTypes;
      return Ok(());
    }

    /** The "Remove unwanted variables" block: the loop over the skipped
        file prefixes, then the "LC" suffix, then SAMPLEID. */
    method RemoveUnwantedRows() returns (r: Result<()>)
      modifies this
      ensures var s := RemoveUnwanted(old(df));
        && (r.Ok? <==> s.Ok?)
        && (s.Err? ==> r.error == s.error)
        && (s.Ok? ==> df == s.value)
    {
      ghost var df0 := df;
      ghost var step := DropPrefixOf();
      var i := 0;
      while i < |SkipFiles|
        invariant 0 <= i <= |SkipFiles|
        invariant Fold(df0, SkipFiles[..i], step) == Ok(df)
      {
        FoldNext(df0, SkipFiles, i, step, df);
        var d := Drop(df, FileColumn, Prefix(SkipFiles[i]));
        if d.Err? {
          FoldStops(df0, SkipFiles, i + 1, step);
          return Err(d.error);
        }
        df := d.value;
        i := i + 1;
      }
      assert SkipFiles[..i] == SkipFiles;
      var d := Drop(df, NameColumn, Suffix("LC"));
      if d.Err? {
        return Err(d.error);
      }
      df := d.value;
      df := Drop(df, NameColumn, Equals("SAMPLEID")).value;
      return Ok(());
    }

    /** `del df[c]`. */
    method Del(c: string) returns (r: Result<()>)
      modifies this
      ensures var s := DeleteColumn(old(df), c);
        && (r.Ok? <==> s.Ok?)
        && (s.Err? ==> r.error == s.error)
        && (s.Ok? ==> df == s.value)
    {
      var d := DeleteColumn(df, c);
      if d.Err? {
        return Err(d.error);
      }
      df := d.value;
      return Ok(());
    }

    /** The "Keep only useful columns" block: five `del` statements. */
    method KeepUsefulColumns() returns (r: Result<()>)
      modifies this
      ensures DeleteUseless(old(df)) == if r.Ok? then Ok(df) else Err(r.error)
    {
      UselessDelsIsRun(df);
      var u := UselessColumns;
      r := Del(u[0]);
      if r.Err? {
        return;
      }
      r := Del(u[1]);
      if r.Err? {
        return;
      }
      r := Del(u[2]);
      if r.Err? {
        return;
      }
      r := Del(u[3]);
      if r.Err? {
        return;
      }
      r := Del(u[4]);
    }

    /** The "Move component" block. */
    method MoveComponentColumn() returns (r: Result<()>)
      modifies this
      ensures var s := MoveComponent(old(df));
        && (r.Ok? <==> s.Ok?)
        && (s.Err? ==> r.error == s.error)
        && (s.Ok? ==> df == s.value)
    {
      var cols := df.columns;
      if |cols| < 3 {
        return Err(IndexError);
      }
      cols := [cols[0], cols[2], cols[1]];
      df := Select(df, cols);
      return Ok(());
    }

    /** The whole script, from `df = pd.DataFrame()` to the table it saves. */
    method Script(listing: string -> seq<TableRow>) returns (r: Result<Indexed>)
      modifies this
      ensures r == Run(listing)
    {
      df := Frame([], []);
      var ok := ScrapeDataTypes(DataTypes, listing);
      if ok.Err? {
        return Err(ok.error);
      }
      ok := RemoveUnwantedRows();
      if ok.Err? {
        return Err(ok.error);
      }
      ok := KeepUsefulColumns();
      if ok.Err? {
        return Err(ok.error);
      }
      ok := MoveComponentColumn();
      if ok.Err? {
        return Err(ok.error);
      }
      r := SetIndex(df);
    }
  }
}
