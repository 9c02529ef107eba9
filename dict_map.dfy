/** The description and mapping scraper of dict_map_scraper.py. It walks the
    documentation files of every data type, writes a description row per
    variable and the variable's code table into one wide mapping table (a row
    per variable, a column per code string), and finally orders the mapping
    columns numerically with "." last. Pages arrive already parsed. */
module DictMap {
  import opened Common
  import opened Text
  import opened Seqs
  import opened Ordered
  import opened Folds
  import DictEncoding

  type Block = DictEncoding.Block
  type FileEntry = DictEncoding.FileEntry

  /** Documentation files whose names start with one of these are skipped. */
  const SkipFiles: seq<string> := ["DR1IFF", "DR2IFF", "DSII", "AUXAR", "PAXHR", "PAXMIN", "DRXFCD", "DSBI", "DSPI"]

  /** The data types walked, in order. */
  const DataTypes: seq<string> := ["demographics", "dietary", "examination", "laboratory", "questionnaire"]

  /** A row of the descriptions table (this variant has no data type column). */
  datatype Description = Description(varLabel: Option<string>, plain: string, target: string)

  /** The mapping table: its row labels (variable names) and column labels
      (code strings), each in order of first write, and its non-empty cells. */
  datatype MapTable = MapTable(rows: seq<string>, cols: seq<string>, cells: map<(string, string), string>)

  /** The table is well formed: labels are unique and every cell lies in a
      labelled row and column. */
  ghost predicate WellFormed(t: MapTable) {
    && !HasDuplicates(t.rows) && !HasDuplicates(t.cols)
    && forall key :: key in t.cells ==> key.0 in t.rows && key.1 in t.cols
  }

  /** `df.loc[row, col] = v`: adds the row and the column when they are new. */
  function SetCell(t: MapTable, row: string, col: string, v: string): (r: MapTable)
    ensures r.cells == t.cells[(row, col) := v]
    ensures r.rows == if row in t.rows then t.rows else t.rows + [row]
    ensures r.cols == if col in t.cols then t.cols else t.cols + [col]
  {
    MapTable(if row in t.rows then t.rows else t.rows + [row],
             if col in t.cols then t.cols else t.cols + [col],
             t.cells[(row, col) := v])
  }

  /** Writing a cell keeps a table well formed. */
  lemma SetCellWellFormed(t: MapTable, row: string, col: string, v: string)
    requires WellFormed(t)
    ensures WellFormed(SetCell(t, row, col, v))
  {
    var r := SetCell(t, row, col, v);
    if row !in t.rows {
      forall i, j | 0 <= i < j < |r.rows| ensures r.rows[i] != r.rows[j] {
        if j == |t.rows| { assert r.rows[i] == t.rows[i]; }
      }
    }
    if col !in t.cols {
      forall i, j | 0 <= i < j < |r.cols| ensures r.cols[i] != r.cols[j] {
        if j == |t.cols| { assert r.cols[i] == t.cols[i]; }
      }
    }
  }

  /** The state of the script: the two tables and the global SEQN flag. */
  datatype State = State(desc: Assoc<string, Description>, mapping: MapTable, seqnFlag: bool)

  const Initial: State := State([], MapTable([], [], map[]), true)

  // ---------------------------------------------------------------------
  // grab_description

  /** `grab_description`: exactly four fields give the last as target, exactly
      five give the fifth as target and ignore the fourth; any other count of
      at least three has no label. Fewer than three fields raise. */
  function DescribeExactly45(fields: seq<string>): Result<(string, Description)> {
    if |fields| < 3 then Err(IndexError)
    else
      var name := Strip(fields[0]);
      if |fields| == 4 then Ok((name, Description(Some(Strip(fields[1])), Strip(fields[2]), Strip(fields[3]))))
      else if |fields| == 5 then Ok((name, Description(Some(Strip(fields[1])), Strip(fields[2]), Strip(fields[4]))))
      else Ok((name, Description(None, Strip(fields[1]), Strip(fields[2]))))
  }

  // ---------------------------------------------------------------------
  // grab_mapping

  /** A code `grab_mapping` stores: digits only, or ".". */
  predicate StorableCode(code: string) {
    IsDigits(code) || code == "."
  }

  /** One pass of the row loop of `grab_mapping` for variable `name`: a row
      with no cell, or a storable code and no second cell, raises; a row with
      any other code ends the loop. */
  function MapRow(t: MapTable, name: string, cells: seq<string>): (f: Flow<MapTable>)
    ensures f.Stop? <==> |cells| > 0 && !StorableCode(Strip(cells[0]))
    ensures f.Fail? <==> |cells| == 0 || (StorableCode(Strip(cells[0])) && |cells| == 1)
    ensures f.Go? ==> f.state == SetCell(t, name, Strip(cells[0]), Strip(cells[1]))
  {
    var cols := DictEncoding.FirstTwo(cells);
    if |cols| == 0 then Fail(IndexError)
    else
      var code := Strip(cols[0]);
      if StorableCode(code) then
        if |cols| < 2 then Fail(IndexError) else Go(SetCell(t, name, code, Strip(cols[1])))
      else Stop
  }

  function MapRowOf(name: string): (MapTable, seq<string>) -> Flow<MapTable> {
    (t, cells) => MapRow(t, name, cells)
  }

  /** The rows of a block's table after the header, until the first bad code. */
  function MapRows(t: MapTable, name: string, rows: seq<seq<string>>): Result<MapTable> {
    Scan(t, Tail(rows), MapRowOf(name))
  }

  /** The first row with a code that is neither digits nor "." ends the
      mapping: rows after it are never read, rows before it are kept. */
  lemma MapRowsStopAt(t: MapTable, name: string, rows: seq<seq<string>>, k: int)
    requires 1 <= k < |rows| && |rows[k]| > 0 && !StorableCode(Strip(rows[k][0]))
    ensures MapRows(t, name, rows) == Scan(t, rows[1..k], MapRowOf(name))
  {
    var data := Tail(rows);
    assert data[k - 1] == rows[k] && data[..k - 1] == rows[1..k];
    ScanStopsAt(t, data, k - 1, MapRowOf(name));
  }

  /** Every column the mapping writes is labelled by a storable code. */
  predicate CodeColumns(t: MapTable) {
    forall i :: 0 <= i < |t.cols| ==> StorableCode(t.cols[i])
  }

  /** Mapping rows keeps the table well formed and its columns storable. */
  lemma {:induction false} ScanMapRowsKeeps(t: MapTable, name: string, rows: seq<seq<string>>)
    requires WellFormed(t) && CodeColumns(t)
    requires Scan(t, rows, MapRowOf(name)).Ok?
    ensures WellFormed(Scan(t, rows, MapRowOf(name)).value)
    ensures CodeColumns(Scan(t, rows, MapRowOf(name)).value)
    decreases |rows|
  {
    if rows != [] {
      var f := MapRowOf(name)(t, rows[0]);
      assert Scan(t, rows, MapRowOf(name)) == Then(t, f, rows[1..], MapRowOf(name));
      MapRowKeeps(t, name, rows[0]);
      if f.Go? {
        ScanMapRowsKeeps(f.state, name, rows[1..]);
      }
    }
  }

  /** Helper: one row of the mapping. */
  lemma MapRowKeeps(t: MapTable, name: string, cells: seq<string>)
    requires WellFormed(t) && CodeColumns(t)
    ensures var f := MapRow(t, name, cells);
      f.Go? ==> WellFormed(f.state) && CodeColumns(f.state)
  {
    if MapRow(t, name, cells).Go? {
      SetCellWellFormed(t, name, Strip(cells[0]), Strip(cells[1]));
    }
  }

  // ---------------------------------------------------------------------
  // grab_info

  /** A variable `grab_info` describes and maps: not a comment code and not
      SAMPLEID. */
  predicate Described(name: string) {
    !EndsWith(name, "LC") && name != "SAMPLEID"
  }

  /** One block of a page: the SEQN check that breaks the loop, then the
      variable filter, `grab_description` and `grab_mapping`. */
  function BlockFlow(st: State, b: Block): Flow<State> {
    if b.id == "SEQN" && !st.seqnFlag then Stop
    else match BlockStep(st, b)
      case Err(e) => Fail(e)
      case Ok(s) => Go(s)
  }

  /** A block of a page once the break has been passed. */
  function BlockStep(st: State, b: Block): Result<State> {
    if !Described(b.id) then Ok(st)
    else
      var entry :- DescribeExactly45(b.fields);
      var desc := Upsert(st.desc, entry.0, entry.1);
      match b.table
      case None => Ok(st.(desc := desc))
      case Some(rows) =>
        var t :- MapRows(st.mapping, b.id, rows);
        Ok(st.(desc := desc, mapping := t))
  }

  function BlockStepOf(): (State, Block) -> Result<State> {
    (st, b) => BlockStep(st, b)
  }

  function BlockFlowOf(): (State, Block) -> Flow<State> {
    (st, b) => BlockFlow(st, b)
  }

  /** `grab_info` on one page. */
  function Info(st: State, blocks: seq<Block>): Result<State> {
    Scan(st, blocks, BlockFlowOf())
  }

  /** A listing row: a file whose name starts with none of the skip prefixes
      is read. */
  function EntryStep(st: State, e: FileEntry): Result<State> {
    if !StartsWithAny(e.name, SkipFiles) then Info(st, e.blocks) else Ok(st)
  }

  function EntryStepOf(): (State, FileEntry) -> Result<State> {
    (st, e) => EntryStep(st, e)
  }

  /** The listing of one data type. */
  function Entries(st: State, entries: seq<FileEntry>): Result<State> {
    Fold(st, entries, EntryStepOf())
  }

  function RunStepOf(listing: string -> seq<FileEntry>): (State, string) -> Result<State> {
    (st, d) => Entries(st, listing(d))
  }

  /** The whole run over the listings of `dataTypes`; unlike the encoding
      scraper the flag is never reset. */
  function Run(st: State, dataTypes: seq<string>, listing: string -> seq<FileEntry>): Result<State> {
    Fold(st, dataTypes, RunStepOf(listing))
  }

  /** Blocks never touch the global flag: `grab_mapping`'s `SEQNflag = False`
      binds a local of its own. */
  lemma BlockStepKeepsFlag(st: State, b: Block)
    requires BlockStep(st, b).Ok?
    ensures BlockStep(st, b).value.seqnFlag == st.seqnFlag
  {
  }

  /** While the global flag is up the break never fires: every block of every
      page, SEQN included, is described and mapped. */
  lemma InfoNeverBreaks(st: State, blocks: seq<Block>)
    requires st.seqnFlag
    ensures Info(st, blocks) == Fold(st, blocks, BlockStepOf())
  {
    var flow := BlockFlowOf();
    var inv := (s: State) => s.seqnFlag;
    forall s, b | inv(s)
      ensures BlockStep(s, b).Err? ==> flow(s, b) == Fail(BlockStep(s, b).error)
      ensures BlockStep(s, b).Ok? ==> flow(s, b) == Go(BlockStep(s, b).value) && inv(BlockStep(s, b).value)
    {
      if BlockStep(s, b).Ok? {
        BlockStepKeepsFlag(s, b);
      }
    }
    ScanAsFold(st, blocks, flow, BlockStepOf(), inv);
  }

  /** The mapping table the script builds is well formed, and each of its
      columns is labelled by a storable code. */
  ghost predicate GoodMapping(st: State) {
    WellFormed(st.mapping) && CodeColumns(st.mapping)
  }

  lemma BlockStepGood(st: State, b: Block)
    requires GoodMapping(st) && BlockStep(st, b).Ok?
    ensures GoodMapping(BlockStep(st, b).value)
  {
    if Described(b.id) && b.table.Some? && DescribeExactly45(b.fields).Ok? {
      ScanMapRowsKeeps(st.mapping, b.id, Tail(b.table.value));
    }
  }

  /** Every run keeps the mapping table good. */
  lemma RunGood(st: State, dataTypes: seq<string>, listing: string -> seq<FileEntry>)
    requires GoodMapping(st) && Run(st, dataTypes, listing).Ok?
    ensures GoodMapping(Run(st, dataTypes, listing).value)
  {
    var good := (s: State) => GoodMapping(s);
    forall s, b | good(s) && BlockFlow(s, b).Go? ensures good(BlockFlow(s, b).state) {
      BlockStepGood(s, b);
    }
    forall s, e | good(s) && EntryStep(s, e).Ok? ensures good(EntryStep(s, e).value) {
      if !StartsWithAny(e.name, SkipFiles) {
        ScanKeeps(s, e.blocks, BlockFlowOf(), good);
      }
    }
    forall s, d | good(s) && Entries(s, listing(d)).Ok? ensures good(Entries(s, listing(d)).value) {
      FoldKeeps(s, listing(d), EntryStepOf(), good);
    }
    FoldKeeps(st, dataTypes, RunStepOf(listing), good);
  }

  /** After a run from the empty tables, the final sort fails exactly when no
      variable mapped a "." code, and otherwise yields every mapping column:
      the integer codes ascending, "." last. */
  lemma RunThenSort(dataTypes: seq<string>, listing: string -> seq<FileEntry>)
    requires Run(Initial, dataTypes, listing).Ok?
    ensures var cols := Run(Initial, dataTypes, listing).value.mapping.cols;
      && (FinalColumns(cols).Err? <==> "." !in cols)
      && (FinalColumns(cols).Ok? ==> SortedLabels(cols, FinalColumns(cols).value))
  {
    RunGood(Initial, dataTypes, listing);
    FinalColumnsSpec(Run(Initial, dataTypes, listing).value.mapping.cols);
  }

  // ---------------------------------------------------------------------
  // The final column sort

  /** A label of the saved mapping table: an integer code, or ".". */
  datatype Column = IntCol(n: nat) | DotCol

  /** `[int(col) for col in mapDf.columns]` once "." is popped. */
  function IntColumns(cols: seq<string>): Result<seq<nat>> {
    if cols == [] then Ok([])
    else
      var rest :- IntColumns(cols[1..]);
      if IsDigits(cols[0]) then Ok([DigitsValue(cols[0])] + rest) else Err(ValueError)
  }

  predicate SortedNats(s: seq<nat>) {
    forall i, j :: 0 <= i < j < |s| ==> s[i] <= s[j]
  }

  /** Inserts `x` into a sorted sequence. */
  function Insert(x: nat, s: seq<nat>): (r: seq<nat>)
    requires SortedNats(s)
    ensures |r| == |s| + 1 && multiset(r) == multiset(s) + multiset{x}
    ensures SortedNats(r)
  {
    if s == [] then [x]
    else if x <= s[0] then
      InsertFront(x, s);
      [x] + s
    else
      var t := Insert(x, s[1..]);
      InsertBehind(x, s, t);
      [s[0]] + t
  }

  lemma InsertFront(x: nat, s: seq<nat>)
    requires SortedNats(s) && s != [] && x <= s[0]
    ensures SortedNats([x] + s)
  {
    assert forall i :: 0 <= i < |s| ==> s[0] <= s[i];
    SortedCons(x, s);
  }

  lemma InsertBehind(x: nat, s: seq<nat>, t: seq<nat>)
    requires SortedNats(s) && s != [] && s[0] < x
    requires SortedNats(t) && multiset(t) == multiset(s[1..]) + multiset{x}
    ensures SortedNats([s[0]] + t) && multiset([s[0]] + t) == multiset(s) + multiset{x}
  {
    assert s == [s[0]] + s[1..];
    LowerBound(s[0], x, s[1..], t);
    SortedCons(s[0], t);
  }

  /** A bound below a sorted sequence can go in front of it. */
  lemma SortedCons(b: nat, t: seq<nat>)
    requires SortedNats(t) && forall i :: 0 <= i < |t| ==> b <= t[i]
    ensures SortedNats([b] + t)
  {
    var r := [b] + t;
    forall i, j | 0 <= i < j < |r|
      ensures r[i] <= r[j]
    {
      assert r[j] == t[j - 1];
      if i > 0 {
        assert r[i] == t[i - 1];
      }
    }
  }

  /** A bound below `x` and below a sorted tail stays below the tail with `x`
      inserted. */
  lemma LowerBound(b: nat, x: nat, s: seq<nat>, t: seq<nat>)
    requires b <= x && forall i :: 0 <= i < |s| ==> b <= s[i]
    requires multiset(t) == multiset(s) + multiset{x}
    ensures forall i :: 0 <= i < |t| ==> b <= t[i]
  {
    forall i | 0 <= i < |t| ensures b <= t[i] {
      assert t[i] in multiset(t);
      if t[i] != x {
        assert t[i] in multiset(s);
        var j :| 0 <= j < |s| && s[j] == t[i];
      }
    }
  }

  /** `sort_index(axis=1)` on integer labels: ascending order, as a
      permutation of the labels. */
  function SortNats(s: seq<nat>): (r: seq<nat>)
    ensures |r| == |s| && multiset(r) == multiset(s)
    ensures SortedNats(r)
  {
    if s == [] then []
    else
      assert s == [s[0]] + s[1..];
      Insert(s[0], SortNats(s[1..]))
  }

  /** The final labels of the mapping table: popping "." raises when there is
      no "." column; otherwise the other labels as integers in ascending
      order, then "." last. */
  function FinalColumns(cols: seq<string>): Result<seq<Column>> {
    if "." !in cols then Err(KeyError)
    else
      var ints :- IntColumns(Filter(cols, NotDot));
      Ok(Labels(SortNats(ints)))
  }

  /** The integer labels in the given order, then ".". */
  function Labels(sorted: seq<nat>): (r: seq<Column>)
    ensures |r| == |sorted| + 1 && r[|sorted|] == DotCol
    ensures forall i :: 0 <= i < |sorted| ==> r[i] == IntCol(sorted[i])
  {
    seq(|sorted|, i requires 0 <= i < |sorted| => IntCol(sorted[i])) + [DotCol]
  }

  /** The integer values among a list of labels, with multiplicity. */
  function ColumnCodes(r: seq<Column>): multiset<nat> {
    if r == [] then multiset{}
    else (if r[0].IntCol? then multiset{r[0].n} else multiset{}) + ColumnCodes(r[1..])
  }

  /** The labels carry exactly the integers they were built from. */
  lemma {:induction false} LabelsCodes(s: seq<nat>)
    ensures ColumnCodes(Labels(s)) == multiset(s)
  {
    if s == [] {
      assert Labels(s) == [DotCol];
      assert Labels(s)[1..] == [];
    } else {
      LabelsCodes(s[1..]);
      assert Labels(s)[1..] == Labels(s[1..]);
      assert s == [s[0]] + s[1..];
    }
  }

  /** `r` relabels the columns `cols`: one label per column, "." last, and
      before it the integer values of the other columns, ascending. */
  predicate SortedLabels(cols: seq<string>, r: seq<Column>) {
    && |r| == |cols|
    && r != [] && r[|r| - 1] == DotCol
    && (forall i, j :: 0 <= i < j < |r| - 1 ==> r[i].IntCol? && r[j].IntCol? && r[i].n <= r[j].n)
    && IntColumns(Filter(cols, NotDot)).Ok?
    && ColumnCodes(r) == multiset(IntColumns(Filter(cols, NotDot)).value)
  }

  predicate NotDot(c: string) {
    c != "."
  }

  predicate IsDot(c: string) {
    c == "."
  }

  /** On a table whose columns are storable codes the conversion to integers
      cannot raise, and the labels are each column's integer value. */
  lemma {:induction false} IntColumnsOfCodes(cols: seq<string>)
    requires forall i :: 0 <= i < |cols| ==> IsDigits(cols[i])
    ensures IntColumns(cols).Ok?
    ensures IntColumns(cols).value == seq(|cols|, i requires 0 <= i < |cols| && IsDigits(cols[i]) => DigitsValue(cols[i]))
  {
    if cols != [] {
      IntColumnsOfCodes(cols[1..]);
    }
  }

  /** The final sort fails only for a missing "." column: the labels are the
      integer values of the other columns in ascending order, "." last. */
  lemma FinalColumnsSpec(cols: seq<string>)
    requires !HasDuplicates(cols) && forall i :: 0 <= i < |cols| ==> StorableCode(cols[i])
    ensures FinalColumns(cols).Err? <==> "." !in cols
    ensures FinalColumns(cols).Ok? ==> SortedLabels(cols, FinalColumns(cols).value)
  {
    var others := Filter(cols, NotDot);
    forall i | 0 <= i < |others| ensures IsDigits(others[i]) {
      assert others[i] in cols;
    }
    IntColumnsOfCodes(others);
    if "." in cols {
      CountComplement(cols, IsDot, NotDot);
      var k :| 0 <= k < |cols| && cols[k] == ".";
      CountOnce(cols, IsDot, k);
      LabelsOfInts(cols, IntColumns(others).value);
    }
  }

  /** The labels built from the integer values of the other columns. */
  lemma LabelsOfInts(cols: seq<string>, ints: seq<nat>)
    requires "." in cols && IntColumns(Filter(cols, NotDot)) == Ok(ints)
    requires |ints| + 1 == |cols|
    ensures FinalColumns(cols) == Ok(Labels(SortNats(ints)))
    ensures SortedLabels(cols, Labels(SortNats(ints)))
  {
    LabelsCodes(SortNats(ints));
  }

  /** Columns written in the order "3", "1", ".", "2" are saved as 1, 2, 3,
      ".". */
  lemma FinalColumnsExample()
    ensures FinalColumns(["3", "1", ".", "2"]) == Ok([IntCol(1), IntCol(2), IntCol(3), DotCol])
  {
    var cols: seq<string> := ["3", "1", ".", "2"];
    var ints: seq<nat> := [3, 1, 2];
    assert cols[2] == ".";
    ExampleFilter();
    ExampleInts();
    ExampleSort();
    ExampleLabels();
    FinalColumnsOf(cols, ints, [1, 2, 3], [IntCol(1), IntCol(2), IntCol(3), DotCol]);
  }

  lemma ExampleLabels()
    ensures Labels([1, 2, 3]) == [IntCol(1), IntCol(2), IntCol(3), DotCol]
  {
    var sorted: seq<nat> := [1, 2, 3];
    assert sorted[0] == 1 && sorted[1] == 2 && sorted[2] == 3;
  }

  lemma FinalColumnsOf(cols: seq<string>, ints: seq<nat>, sorted: seq<nat>, expected: seq<Column>)
    requires "." in cols && IntColumns(Filter(cols, NotDot)) == Ok(ints) && SortNats(ints) == sorted
    requires Labels(sorted) == expected
    ensures FinalColumns(cols) == Ok(expected)
  {
  }

  lemma ExampleFilter()
    ensures Filter(["3", "1", ".", "2"], NotDot) == ["3", "1", "2"]
  {
    var cols := ["3", "1", ".", "2"];
    assert cols[1..] == ["1", ".", "2"] && cols[1..][1..] == [".", "2"];
    assert [".", "2"][1..] == ["2"] && ["2"][1..] == [];
  }

  lemma ExampleInts()
    ensures IntColumns(["3", "1", "2"]) == Ok([3, 1, 2])
  {
    assert DigitsValue("3") == 3 && DigitsValue("1") == 1 && DigitsValue("2") == 2 by {
      assert "3"[..0] == "" && "1"[..0] == "" && "2"[..0] == "";
    }
    assert IsDigits("3") && IsDigits("1") && IsDigits("2");
    var two: seq<string> := ["2"];
    assert two[0] == "2" && two[1..] == [];
    assert IntColumns(two).value == [DigitsValue("2")];
    var oneTwo: seq<string> := ["1", "2"];
    assert oneTwo[0] == "1" && oneTwo[1..] == two;
    assert IntColumns(oneTwo).value == [DigitsValue("1"), DigitsValue("2")];
    var others: seq<string> := ["3", "1", "2"];
    assert others[0] == "3" && others[1..] == oneTwo;
    assert IntColumns(others).value == [DigitsValue("3"), DigitsValue("1"), DigitsValue("2")];
  }

  lemma ExampleSort()
    ensures SortNats([3, 1, 2]) == [1, 2, 3]
  {
    var all: seq<nat> := [3, 1, 2];
    assert all[1..] == [1, 2];
    ExampleSortTail();
    ExampleInsertLast();
  }

  lemma ExampleSortTail()
    ensures SortNats([1, 2]) == [1, 2]
  {
    var two: seq<nat> := [2];
    var oneTwo: seq<nat> := [1, 2];
    assert two[1..] == [];
    assert SortNats(two) == two;
    assert oneTwo[1..] == two;
  }

  lemma ExampleInsertLast()
    ensures Insert(3, [1, 2]) == [1, 2, 3]
  {
    var two: seq<nat> := [2];
    var oneTwo: seq<nat> := [1, 2];
    assert oneTwo[1..] == two;
    assert two[1..] == [];
    assert Insert(3, two) == [2, 3];
  }

  // ---------------------------------------------------------------------
  // The script's global state, updated in place

  /** The module-level tables and flag of the script. */
  class MapScraper {
    var desc: Assoc<string, Description>
    var mapping: MapTable
    var seqnFlag: bool

    function Snapshot(): State
      reads this
    {
      State(desc, mapping, seqnFlag)
    }

    constructor ()
      ensures Snapshot() == Initial
    {
      desc := [];
      mapping := MapTable([], [], map[]);
      seqnFlag := true;
    }

    /** `grab_description`: writes the description row of a block. */
    method GrabDescription(b: Block) returns (ok: bool)
      modifies this`desc
      ensures var r := DescribeExactly45(b.fields);
        && ok == r.Ok?
        && (ok ==> desc == Upsert(old(desc), r.value.0, r.value.1))
    {
      var r := DescribeExactly45(b.fields);
      if r.Err? {
        return false;
      }
      desc := Upsert(desc, r.value.0, r.value.1);
      return true;
    }

    /** `grab_mapping`: writes a block's codes into its row of the mapping
        table until the first bad code. */
    method GrabMapping(b: Block) returns (ok: bool)
      modifies this`mapping
      ensures b.table.None? ==> ok && mapping == old(mapping)
      ensures b.table.Some? ==>
        var r := MapRows(old(mapping), b.id, b.table.value);
        ok == r.Ok? && (ok ==> mapping == r.value)
    {
      var name := b.id;
      var seqnFlagLocal := true;
      if name == "SEQN" {
        seqnFlagLocal := false;
      }
      if b.table.None? {
        return true;
      }
      var data := Tail(b.table.value);
      ghost var step := MapRowOf(name);
      ghost var goal := Scan(mapping, data, step);
      var i := 0;
      while i < |data|
        invariant 0 <= i <= |data|
        invariant goal == Scan(mapping, data[i..], step)
      {
        ScanNext(mapping, data, i, step);
        var cols := DictEncoding.FirstTwo(data[i]);
        if |cols| == 0 {
          return false;
        }
        var code := Strip(cols[0]);
        if IsDigits(code) || code == "." {
          if |cols| < 2 {
            return false;
          }
          var codeDesc := Strip(cols[1]);
          mapping := SetCell(mapping, name, code, codeDesc);
        } else {
          return true;
        }
        i := i + 1;
      }
      return true;
    }

    /** `grab_info` on a fetched page. */
    method GrabInfo(blocks: seq<Block>) returns (ok: bool)
      modifies this`desc, this`mapping
      ensures var r := Info(old(Snapshot()), blocks);
        ok == r.Ok? && (ok ==> Snapshot() == r.value)
    {
      ghost var flow := BlockFlowOf();
      ghost var goal := Scan(Snapshot(), blocks, flow);
      var i := 0;
      while i < |blocks|
        invariant 0 <= i <= |blocks|
        invariant goal == Scan(Snapshot(), blocks[i..], flow)
      {
        ScanNext(Snapshot(), blocks, i, flow);
        var name := blocks[i].id;
        if name == "SEQN" && !seqnFlag {
          break;
        }
        if !EndsWith(name, "LC") && name != "SAMPLEID" {
          ok := GrabDescription(blocks[i]);
          if !ok {
            return false;
          }
          ok := GrabMapping(blocks[i]);
          if !ok {
            return false;
          }
        }
        i := i + 1;
      }
      return true;
    }

    /** The loop over one data type's listing. */
    method ScrapeDataType(entries: seq<FileEntry>) returns (ok: bool)
      modifies this`desc, this`mapping
      ensures var r := Entries(old(Snapshot()), entries);
        ok == r.Ok? && (ok ==> Snapshot() == r.value)
    {
      ghost var st0 := Snapshot();
      ghost var step := EntryStepOf();
      var i := 0;
      while i < |entries|
        invariant 0 <= i <= |entries|
        invariant Fold(st0, entries[..i], step) == Ok(Snapshot())
      {
        FoldNext(st0, entries, i, step, Snapshot());
        if !StartsWithAny(entries[i].name, SkipFiles) {
          ok := GrabInfo(entries[i].blocks);
          if !ok {
            FoldStops(st0, entries, i + 1, step);
            return false;
          }
        }
        i := i + 1;
      }
      assert entries[..i] == entries;
      return true;
    }

    /** The loop over the data types; `listing` gives the files of a data
        type's listing page. */
    method ScrapeDataTypes(dataTypes: seq<string>, listing: string -> seq<FileEntry>) returns (ok: bool)
      modifies this`desc, this`mapping
      ensures var r := Run(old(Snapshot()), dataTypes, listing);
        ok == r.Ok? && (ok ==> Snapshot() == r.value)
    {
      ghost var st0 := Snapshot();
      ghost var step := RunStepOf(listing);
      var i := 0;
      while i < |dataTypes|
        invariant 0 <= i <= |dataTypes|
        invariant Fold(st0, dataTypes[..i], step) == Ok(Snapshot())
      {
        FoldNext(st0, dataTypes, i, step, Snapshot());
        ok := ScrapeDataType(listing(dataTypes[i]));
        if !ok {
          FoldStops(st0, dataTypes, i + 1, step);
          return false;
        }
        i := i + 1;
      }
      assert dataTypes[..i] == dataTypes;
      return true;
    }

    /** The final reordering of the mapping columns: pop ".", convert the
        other labels to integers, sort them, and put "." back last. */
    method SortMappingColumns() returns (r: Result<seq<Column>>)
      ensures r == FinalColumns(mapping.cols)
      ensures GoodMapping(Snapshot()) ==> (r.Err? <==> "." !in mapping.cols)
      ensures GoodMapping(Snapshot()) && r.Ok? ==> SortedLabels(mapping.cols, r.value)
    {
      if GoodMapping(Snapshot()) {
        FinalColumnsSpec(mapping.cols);
      }
      if "." !in mapping.cols {
        return Err(KeyError);
      }
      var others := Filter(mapping.cols, NotDot);
      var ints := IntColumns(others);
      if ints.Err? {
        return Err(ints.error);
      }
      var sorted := SortNats(ints.value);
      return Ok(Labels(sorted));
    }

    /** The script: every data type, then the column sort. */
    method ScrapeAll(listing: string -> seq<FileEntry>) returns (r: Result<seq<Column>>)
      modifies this`desc, this`mapping
      ensures var run := Run(old(Snapshot()), DataTypes, listing);
        && (run.Err? ==> r == Err(run.error))
        && (run.Ok? ==> Snapshot() == run.value && r == FinalColumns(run.value.mapping.cols))
    {
      var st0 := Snapshot();
      var ok := ScrapeDataTypes(DataTypes, listing);
      if !ok {
        return Err(Run(st0, DataTypes, listing).error);
      }
      r := SortMappingColumns();
    }
  }
}
