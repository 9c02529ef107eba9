/** The description and encoding scraper of
    Dictionary_scraper/dict_encoding_scraper.py. For every data type it walks
    the documentation files of the listing page, and for every variable block
    of a page that passes the filters it records a description row (keyed by
    the block's first field) and, when the block has a code table, an encoding
    dict (keyed by the block's h3 id). Pages arrive already parsed. */
module DictEncoding {
  import opened Common
  import opened Text
  import opened Seqs
  import opened Ordered
  import opened Folds

  /** The data types walked, in order. */
  const DataTypes: seq<string> := ["demographics", "dietary", "examination", "laboratory", "questionnaire"]

  /** Documentation files whose names start with one of these are skipped. */
  const SkipFiles: seq<string> :=
    ["DR1IFF", "DR2IFF", "DSII", "AUXAR", "PAXHR", "PAXMIN", "DRXFCD", "DSBI", "DSPI",
     "DS1IDS", "DS2IDS", "DSQIDS", "AUXTYM", "AUXWBR", "RXQ_RX"]

  /** Variables whose names start with one of these are sensor data. */
  const SensorPrefixes: seq<string> := ["WBX", "TYX"]

  /** One variable block (a `div.pagebreak`) of a documentation page: the id of
      its h3, the texts of its dd elements in order, and, when it has a table,
      the td texts of each of the table's rows (the header row first). */
  datatype Block = Block(id: string, fields: seq<string>, table: Option<seq<seq<string>>>)

  /** A listing row: the documentation file's name and the blocks of its page. */
  datatype FileEntry = FileEntry(name: string, blocks: seq<Block>)

  /** A row of the descriptions table. */
  datatype Description = Description(dataType: string, varLabel: Option<string>, plain: string, target: string)

  /** A key of an encoding dict: the integer value of a digit code, or ".". */
  datatype Code = Num(n: nat) | Dot

  type Encoding = Assoc<Code, string>

  /** Everything the script accumulates: the two tables, the two skip counters
      and the flag that lets SEQN through once per data type. */
  datatype State = State(
    desc: Assoc<string, Description>,
    enc: Assoc<string, Encoding>,
    lcCount: nat,
    auxCount: nat,
    seqnFlag: bool)

  const Initial: State := State([], [], 0, 0, true)

  // ---------------------------------------------------------------------
  // file_filter and var_filter

  /** `file_filter`: a documentation file is read iff its name starts with
      none of the fifteen skip prefixes. */
  function FileFilter(name: string): (keep: bool)
    ensures keep <==> forall i :: 0 <= i < |SkipFiles| ==> !StartsWith(name, SkipFiles[i])
  {
    !StartsWithAny(name, SkipFiles)
  }

  /** Why `var_filter` rejects a name, or that it keeps it. */
  datatype Verdict = Keep | SeqnSeen | CommentCode | SensorData | PooledId

  /** The checks of `var_filter`, in its order. */
  function Classify(name: string, seqnFlag: bool): (v: Verdict)
    ensures v == SeqnSeen <==> name == "SEQN" && !seqnFlag
    ensures v == CommentCode <==> EndsWith(name, "LC")
    ensures v == SensorData <==> StartsWithAny(name, SensorPrefixes) && !EndsWith(name, "LC")
    ensures v == PooledId <==> name == "SAMPLEID"
    ensures v == Keep <==>
      !(name == "SEQN" && !seqnFlag) && !EndsWith(name, "LC") && !StartsWithAny(name, SensorPrefixes) && name != "SAMPLEID"
  {
    SpecialNames();
    if name == "SEQN" && !seqnFlag then SeqnSeen
    else if EndsWith(name, "LC") then CommentCode
    else if StartsWithAny(name, SensorPrefixes) then SensorData
    else if name == "SAMPLEID" then PooledId
    else Keep
  }

  /** The counters after `var_filter` has seen a name. */
  function Counted(st: State, v: Verdict): State {
    st.(lcCount := st.lcCount + (if v == CommentCode then 1 else 0),
        auxCount := st.auxCount + (if v == SensorData then 1 else 0))
  }

  // ---------------------------------------------------------------------
  // grab_description

  /** `grab_description`: the row key (the first field) and the description.
      With at least four fields the label is the second field and the target
      the last; with exactly three there is no label. Fewer than three fields
      raise. */
  function DescribeAtLeast4(fields: seq<string>, dataType: string): Result<(string, Description)> {
    if |fields| < 3 then Err(IndexError)
    else
      var name := Strip(fields[0]);
      if |fields| >= 4 then
        Ok((name, Description(dataType, Some(Strip(fields[1])), Strip(fields[2]), Strip(fields[|fields| - 1]))))
      else
        Ok((name, Description(dataType, None, Strip(fields[1]), Strip(fields[2]))))
  }

  // ---------------------------------------------------------------------
  // grab_encoding

  /** The key a code cell is stored under: a digit string by its integer
      value, "." as itself; any other code has none. */
  function CodeOf(code: string): Option<Code> {
    if IsDigits(code) then Some(Num(DigitsValue(code)))
    else if code == "." then Some(Dot)
    else None
  }

  /** "01" and "1" are stored under the same key. */
  lemma LeadingZeroCollides(code: string)
    requires IsDigits(code)
    ensures CodeOf("0" + code) == CodeOf(code)
  {
    var z := "0" + code;
    assert IsDigits(z) by {
      forall i | 0 <= i < |z| ensures IsDigit(z[i]) {
        if i > 0 { assert z[i] == code[i - 1]; }
      }
    }
    DigitsValueLeadingZero(code);
  }

  /** `row.find_all(['td'])[:2]`. */
  function FirstTwo(cells: seq<string>): (r: seq<string>)
    ensures |r| == if |cells| < 2 then |cells| else 2
    ensures r == cells[..|r|]
  {
    if |cells| <= 2 then cells else cells[..2]
  }

  /** One pass of the loop of `grab_encoding` over a row's td texts. */
  function RowEntry(cells: seq<string>): (e: Entry<Code, string>)
    ensures e.Raise? <==> |cells| == 0 || (CodeOf(Strip(cells[0])).Some? && |cells| == 1)
    ensures e.Skip? <==> |cells| > 0 && CodeOf(Strip(cells[0])).None?
    ensures e.Store? ==> |cells| >= 2 && Some(e.key) == CodeOf(Strip(cells[0])) && e.value == Strip(cells[1])
  {
    var cols := FirstTwo(cells);
    if |cols| == 0 then Raise(IndexError)
    else match CodeOf(Strip(cols[0]))
      case None => Skip
      case Some(key) => if |cols| < 2 then Raise(IndexError) else Store(key, Strip(cols[1]))
  }

  /** The encoding dict of a block's table; the header row (`rows[1:]`) is
      never read as a code. */
  function EncodeTable(rows: seq<seq<string>>): Result<Encoding> {
    Build(Tail(rows), RowEntry)
  }

  /** Reading a table raises iff some row after the header has no cell, or
      has a storable code and no second cell. */
  lemma EncodeTableRaises(rows: seq<seq<string>>)
    ensures EncodeTable(rows).Err? <==> exists i :: 1 <= i < |rows| && RowEntry(rows[i]).Raise?
  {
    BuildTailRaises(rows, RowEntry);
  }

  /** The meaning stored under a code is that of the last row that stores
      under it. */
  lemma EncodeLastWins(rows: seq<seq<string>>, i: int)
    requires EncodeTable(rows).Ok?
    requires 1 <= i < |rows| && RowEntry(rows[i]).Store?
    requires forall j :: i < j < |rows| && RowEntry(rows[j]).Store? ==> RowEntry(rows[j]).key != RowEntry(rows[i]).key
    ensures Get(EncodeTable(rows).value, RowEntry(rows[i]).key) == Some(RowEntry(rows[i]).value)
  {
    BuildTailLastWins(rows, RowEntry, RowEntry(rows[i]).key, i);
  }

  /** A code that no row after the header stores is absent from the dict. */
  lemma EncodeAbsent(rows: seq<seq<string>>, k: Code)
    requires EncodeTable(rows).Ok?
    requires forall j :: 1 <= j < |rows| && RowEntry(rows[j]).Store? ==> RowEntry(rows[j]).key != k
    ensures Get(EncodeTable(rows).value, k) == None
  {
    BuildTailAbsent(rows, RowEntry, k);
  }

  /** A data row whose code is neither digits nor "." is skipped: the rows
      around it are read as if it were not there. */
  lemma EncodeSkipsOtherCode(a: seq<seq<string>>, bad: seq<string>, b: seq<seq<string>>)
    requires |bad| > 0 && CodeOf(Strip(bad[0])).None?
    ensures Build(a + [bad] + b, RowEntry) == Build(a + b, RowEntry)
  {
    BuildSkips(a, bad, b, RowEntry);
  }

  // ---------------------------------------------------------------------
  // grab_info, as a function of the state

  /** One block of a page that passed the SEQN gate: filter, then describe and
      encode. */
  function BlockStep(st: State, b: Block, dataType: string): Result<State> {
    var v := Classify(b.id, st.seqnFlag);
    if v != Keep then Ok(Counted(st, v)) else Kept(st, b, dataType)
  }

  /** A block `var_filter` kept: `grab_description`, then `grab_encoding`. */
  function Kept(st: State, b: Block, dataType: string): Result<State> {
    var entry :- DescribeAtLeast4(b.fields, dataType);
    var st1 := st.(desc := Upsert(st.desc, entry.0, entry.1),
                   seqnFlag := st.seqnFlag && b.id != "SEQN");
    match b.table
    case None => Ok(st1)
    case Some(rows) =>
      var m :- EncodeTable(rows);
      Ok(st1.(enc := Upsert(st1.enc, b.id, m)))
  }

  /** A kept block touches no counter, and lowers the flag iff it is SEQN. */
  lemma KeptCounts(st: State, b: Block, dataType: string)
    requires Kept(st, b, dataType).Ok?
    ensures var st' := Kept(st, b, dataType).value;
      st'.seqnFlag == (st.seqnFlag && b.id != "SEQN") && st'.lcCount == st.lcCount && st'.auxCount == st.auxCount
  {
  }

  function BlockStepOf(dataType: string): (State, Block) -> Result<State> {
    (st, b) => BlockStep(st, b, dataType)
  }

  /** The blocks of a page, in order. */
  function Blocks(st: State, blocks: seq<Block>, dataType: string): Result<State> {
    Fold(st, blocks, BlockStepOf(dataType))
  }

  /** A page is read only if its first block is SEQN. */
  predicate PassesGate(blocks: seq<Block>) {
    |blocks| > 0 && blocks[0].id == "SEQN"
  }

  /** `grab_info` on one page. */
  function Info(st: State, blocks: seq<Block>, dataType: string): Result<State> {
    if PassesGate(blocks) then Blocks(st, blocks, dataType) else Ok(st)
  }

  /** One row of a data type's listing: a file `file_filter` admits is read. */
  function EntryStep(st: State, e: FileEntry, dataType: string): Result<State> {
    if FileFilter(e.name) then Info(st, e.blocks, dataType) else Ok(st)
  }

  function EntryStepOf(dataType: string): (State, FileEntry) -> Result<State> {
    (st, e) => EntryStep(st, e, dataType)
  }

  /** The listing of one data type, SEQN let through afresh. */
  function Entries(st: State, entries: seq<FileEntry>, dataType: string): Result<State> {
    Fold(st.(seqnFlag := true), entries, EntryStepOf(dataType))
  }

  function RunStepOf(listing: string -> seq<FileEntry>): (State, string) -> Result<State> {
    (st, d) => Entries(st, listing(d), d)
  }

  /** The whole run over `dataTypes`; `listing` gives the files of a data
      type's listing page. */
  function Run(st: State, dataTypes: seq<string>, listing: string -> seq<FileEntry>): Result<State> {
    Fold(st, dataTypes, RunStepOf(listing))
  }

  // ---------------------------------------------------------------------
  // Properties of grab_info

  /** The names `var_filter` singles out are none of each other. */
  lemma SpecialNames()
    ensures !EndsWith("SEQN", "LC") && !StartsWithAny("SEQN", SensorPrefixes)
    ensures !EndsWith("SAMPLEID", "LC") && !StartsWithAny("SAMPLEID", SensorPrefixes)
  {
    assert "SEQN"[2] == 'Q';
    assert "SAMPLEID"[7] == 'D';
    forall i | 0 <= i < |SensorPrefixes| ensures !StartsWith("SEQN", SensorPrefixes[i]) && !StartsWith("SAMPLEID", SensorPrefixes[i]) {
      assert SensorPrefixes[i][0] != 'S';
      assert "SEQN"[..3][0] == 'S' && "SAMPLEID"[..3][0] == 'S';
    }
  }

  /** What one block does to the flag and the two counters. */
  lemma BlockStepCounts(st: State, b: Block, dataType: string)
    requires BlockStep(st, b, dataType).Ok?
    ensures var st' := BlockStep(st, b, dataType).value;
      && st'.seqnFlag == (st.seqnFlag && b.id != "SEQN")
      && st'.lcCount == st.lcCount + (if CommentCoded(b) then 1 else 0)
      && st'.auxCount == st.auxCount + (if SensorBlock(b) then 1 else 0)
  {
    SpecialNames();
    if Classify(b.id, st.seqnFlag) == Keep {
      KeptCounts(st, b, dataType);
    }
  }

  predicate CommentCoded(b: Block) {
    EndsWith(b.id, "LC")
  }

  predicate SensorBlock(b: Block) {
    StartsWithAny(b.id, SensorPrefixes) && !EndsWith(b.id, "LC")
  }

  /** Once SEQN has been taken, a later SEQN block is rejected without
      touching anything. */
  lemma SeqnRejectedOnceTaken(st: State, b: Block, dataType: string)
    requires !st.seqnFlag && b.id == "SEQN"
    ensures BlockStep(st, b, dataType) == Ok(st)
  {
  }

  /** After a page the flag is up iff it was up before and no block of the
      page is SEQN: within a page SEQN is let through at most once. */
  lemma {:induction false} BlocksFlag(st: State, blocks: seq<Block>, dataType: string)
    requires Blocks(st, blocks, dataType).Ok?
    ensures Blocks(st, blocks, dataType).value.seqnFlag
        <==> st.seqnFlag && forall i :: 0 <= i < |blocks| ==> blocks[i].id != "SEQN"
  {
    if blocks != [] {
      var n := |blocks|;
      var init := blocks[..n - 1];
      BlocksFlag(st, init, dataType);
      var mid := Blocks(st, init, dataType).value;
      BlockStepCounts(mid, blocks[n - 1], dataType);
      assert forall i :: 0 <= i < n - 1 ==> init[i] == blocks[i];
    }
  }

  /** A listing row whose page is read: `file_filter` admits the file and
      its first block is SEQN. */
  predicate ReadPage(e: FileEntry) {
    FileFilter(e.name) && PassesGate(e.blocks)
  }

  /** A read page lowers the flag; any other row leaves it as it was. */
  lemma EntryStepFlag(st: State, e: FileEntry, dataType: string)
    requires EntryStep(st, e, dataType).Ok?
    ensures EntryStep(st, e, dataType).value.seqnFlag <==> st.seqnFlag && !ReadPage(e)
  {
    if ReadPage(e) {
      BlocksFlag(st, e.blocks, dataType);
    }
  }

  /** After some rows of a listing the flag is up iff it was up before and
      none of those rows' pages was read. */
  lemma {:induction false} EntryRowsFlag(st: State, es: seq<FileEntry>, dataType: string)
    requires Fold(st, es, EntryStepOf(dataType)).Ok?
    ensures Fold(st, es, EntryStepOf(dataType)).value.seqnFlag
        <==> st.seqnFlag && forall k :: 0 <= k < |es| ==> !ReadPage(es[k])
  {
    if es != [] {
      var n := |es|;
      var init := es[..n - 1];
      assert es == init + [es[n - 1]];
      FoldSnoc(st, init, es[n - 1], EntryStepOf(dataType));
      EntryRowsFlag(st, init, dataType);
      EntryStepFlag(Fold(st, init, EntryStepOf(dataType)).value, es[n - 1], dataType);
      assert forall k :: 0 <= k < n - 1 ==> init[k] == es[k];
    }
  }

  /** Within a data type's listing the flag is up until the first page that
      is read, and down from then on. */
  lemma EntriesFlag(st: State, es: seq<FileEntry>, dataType: string)
    requires Entries(st, es, dataType).Ok?
    ensures Entries(st, es, dataType).value.seqnFlag <==> forall k :: 0 <= k < |es| ==> !ReadPage(es[k])
  {
    EntryRowsFlag(st.(seqnFlag := true), es, dataType);
  }

  /** Block `i` of row `k` of a data type's listing is a SEQN block that
      `var_filter` keeps: the page is read, and the state the rows before it
      and the blocks before it leave lets SEQN through. */
  predicate SeqnTaken(st: State, es: seq<FileEntry>, dataType: string, k: int, i: int) {
    && 0 <= k < |es| && ReadPage(es[k])
    && 0 <= i < |es[k].blocks| && es[k].blocks[i].id == "SEQN"
    && Entries(st, es[..k], dataType).Ok?
    && var s := Blocks(Entries(st, es[..k], dataType).value, es[k].blocks[..i], dataType);
       s.Ok? && Classify("SEQN", s.value.seqnFlag) == Keep
  }

  /** SEQN is kept at most once per data type: once a SEQN block has been
      kept, no later SEQN block of the same listing is, whether on the same
      page or on a later one. */
  lemma SeqnTakenOnce(st: State, es: seq<FileEntry>, dataType: string, k1: int, i1: int, k2: int, i2: int)
    requires SeqnTaken(st, es, dataType, k1, i1)
    requires k1 < k2 || (k1 == k2 && i1 < i2)
    ensures !SeqnTaken(st, es, dataType, k2, i2)
  {
    if 0 <= k2 < |es| && 0 <= i2 < |es[k2].blocks| && Entries(st, es[..k2], dataType).Ok? {
      var s := Entries(st, es[..k2], dataType).value;
      var page := es[k2].blocks[..i2];
      if Blocks(s, page, dataType).Ok? {
        BlocksFlag(s, page, dataType);
        if k1 < k2 {
          EntriesFlag(st, es[..k2], dataType);
          assert es[..k2][k1] == es[k1];
        } else {
          assert page[i1] == es[k1].blocks[i1];
        }
      }
    }
  }

  /** Every comment-code variable of a page bumps the LC counter once, and
      every other sensor variable the AUX counter once. */
  lemma BlocksCounters(st: State, blocks: seq<Block>, dataType: string)
    requires Blocks(st, blocks, dataType).Ok?
    ensures Blocks(st, blocks, dataType).value.lcCount == st.lcCount + Count(blocks, CommentCoded)
    ensures Blocks(st, blocks, dataType).value.auxCount == st.auxCount + Count(blocks, SensorBlock)
  {
    var step := BlockStepOf(dataType);
    forall s, b | step(s, b).Ok?
      ensures step(s, b).value.lcCount == s.lcCount + (if CommentCoded(b) then 1 else 0)
      ensures step(s, b).value.auxCount == s.auxCount + (if SensorBlock(b) then 1 else 0)
    {
      BlockStepCounts(s, b, dataType);
    }
    FoldCounts(st, blocks, step, (s: State) => s.lcCount, CommentCoded);
    FoldCounts(st, blocks, step, (s: State) => s.auxCount, SensorBlock);
  }

  // ---------------------------------------------------------------------
  // The script's global state, updated in place

  /** The module-level accumulators of the script. */
  class EncodingScraper {
    var desc: Assoc<string, Description>
    var enc: Assoc<string, Encoding>
    var lcCount: nat
    var auxCount: nat
    var seqnFlag: bool

    function Snapshot(): State
      reads this
    {
      State(desc, enc, lcCount, auxCount, seqnFlag)
    }

    constructor ()
      ensures Snapshot() == Initial
    {
      desc, enc := [], [];
      lcCount, auxCount := 0, 0;
      seqnFlag := true;
    }

    /** `var_filter`: bumps the counter of the reason it rejects a name for. */
    method VarFilter(name: string) returns (keep: bool)
      modifies this`lcCount, this`auxCount
      ensures keep <==> Classify(name, seqnFlag) == Keep
      ensures Snapshot() == Counted(old(Snapshot()), Classify(name, seqnFlag))
    {
      if name == "SEQN" && !seqnFlag {
        return false;
      }
      if EndsWith(name, "LC") {
        lcCount := lcCount + 1;
        return false;
      }
      if StartsWithAny(name, SensorPrefixes) {
        auxCount := auxCount + 1;
        return false;
      }
      if name == "SAMPLEID" {
        return false;
      }
      return true;
    }

    /** `grab_description`: writes the description row of a block. */
    method GrabDescription(b: Block, dataType: string) returns (ok: bool)
      modifies this`desc
      ensures var r := DescribeAtLeast4(b.fields, dataType);
        && ok == r.Ok?
        && (ok ==> desc == Upsert(old(desc), r.value.0, r.value.1))
    {
      var r := DescribeAtLeast4(b.fields, dataType);
      if r.Err? {
        return false;
      }
      desc := Upsert(desc, r.value.0, r.value.1);
      return true;
    }

    /** `grab_encoding`: takes SEQN, then writes the encoding dict of a block
        that has a table. */
    method GrabEncoding(b: Block) returns (ok: bool)
      modifies this`enc, this`seqnFlag
      ensures seqnFlag == (old(seqnFlag) && b.id != "SEQN")
      ensures ok <==> b.table.None? || EncodeTable(b.table.value).Ok?
      ensures ok ==> enc == if b.table.None? then old(enc) else Upsert(old(enc), b.id, EncodeTable(b.table.value).value)
    {
      if b.id == "SEQN" {
        seqnFlag := false;
      }
      if b.table.Some? {
        var m := ReadEncoding(b.table.value);
        if m.Err? {
          return false;
        }
        enc := Upsert(enc, b.id, m.value);
      }
      return true;
    }

    /** A block `var_filter` kept: `grab_description`, then `grab_encoding`. */
    method GrabKept(b: Block, dataType: string) returns (ok: bool)
      modifies this
      ensures var r := Kept(old(Snapshot()), b, dataType);
        ok == r.Ok? && (ok ==> Snapshot() == r.value)
    {
      ok := GrabDescription(b, dataType);
      if !ok {
        return;
      }
      ok := GrabEncoding(b);
    }

    /** `grab_info` on a fetched page. */
    method GrabInfo(blocks: seq<Block>, dataType: string) returns (ok: bool)
      modifies this
      ensures var r := Info(old(Snapshot()), blocks, dataType);
        ok == r.Ok? && (ok ==> Snapshot() == r.value)
      ensures !PassesGate(blocks) ==> ok && Snapshot() == old(Snapshot())
    {
      if !PassesGate(blocks) {
        return true;
      }
      ghost var st0 := Snapshot();
      ghost var step := BlockStepOf(dataType);
      var i := 0;
      while i < |blocks|
        invariant 0 <= i <= |blocks|
        invariant Fold(st0, blocks[..i], step) == Ok(Snapshot())
      {
        var b := blocks[i];
        FoldNext(st0, blocks, i, step, Snapshot());
        var keep := VarFilter(b.id);
        if keep {
          ok := GrabKept(b, dataType);
          if !ok {
            FoldStops(st0, blocks, i + 1, step);
            return false;
          }
        }
        i := i + 1;
      }
      assert blocks[..i] == blocks;
      return true;
    }

    /** The loop over one data type's listing. */
    method ScrapeDataType(entries: seq<FileEntry>, dataType: string) returns (ok: bool)
      modifies this
      ensures var r := Entries(old(Snapshot()), entries, dataType);
        ok == r.Ok? && (ok ==> Snapshot() == r.value)
    {
      seqnFlag := true;
      ghost var st0 := Snapshot();
      ghost var step := EntryStepOf(dataType);
      var i := 0;
      while i < |entries|
        invariant 0 <= i <= |entries|
        invariant Fold(st0, entries[..i], step) == Ok(Snapshot())
      {
        FoldNext(st0, entries, i, step, Snapshot());
        if FileFilter(entries[i].name) {
          ok := GrabInfo(entries[i].blocks, dataType);
          if !ok {
            FoldStops(st0, entries, i + 1, step);
            return false;
          }
        }
        i := i + 1;
      }
      assert entries[..i] == entries;
      return true;
    }

    /** The loop over the data types; `listing` gives the files of a data
        type's listing page. */
    method ScrapeDataTypes(dataTypes: seq<string>, listing: string -> seq<FileEntry>) returns (ok: bool)
      modifies this
      ensures var r := Run(old(Snapshot()), dataTypes, listing);
        ok == r.Ok? && (ok ==> Snapshot() == r.value)
    {
      ghost var st0 := Snapshot();
      ghost var step := RunStepOf(listing);
      var i := 0;
      while i < |dataTypes|
        invariant 0 <= i <= |dataTypes|
        invariant Fold(st0, dataTypes[..i], step) == Ok(Snapshot())
      {
        FoldNext(st0, dataTypes, i, step, Snapshot());
        ok := ScrapeDataType(listing(dataTypes[i]), dataTypes[i]);
        if !ok {
          FoldStops(st0, dataTypes, i + 1, step);
          return false;
        }
        i := i + 1;
      }
      assert dataTypes[..i] == dataTypes;
      return true;
    }

    /** The script, from a fresh start: the five data types in turn. */
    method ScrapeAll(listing: string -> seq<FileEntry>) returns (ok: bool)
      modifies this
      ensures var r := Run(old(Snapshot()), DataTypes, listing);
        ok == r.Ok? && (ok ==> Snapshot() == r.value)
    {
      ok := ScrapeDataTypes(DataTypes, listing);
    }
  }

  /** The loop of `grab_encoding` over the rows of a table. */
  method ReadEncoding(rows: seq<seq<string>>) returns (r: Result<Encoding>)
    ensures r == EncodeTable(rows)
  {
    var data := Tail(rows);
    var m: Encoding := [];
    var i := 0;
    while i < |data|
      invariant 0 <= i <= |data|
      invariant Build(data[..i], RowEntry) == Ok(m)
    {
      BuildNext(data, i, RowEntry, m);
      var cols := FirstTwo(data[i]);
      if |cols| == 0 {
        assert RowEntry(data[i]) == Raise(IndexError);
        BuildStops(data, i + 1, RowEntry);
        return Err(IndexError);
      }
      var code := Strip(cols[0]);
      assert cols[0] == data[i][0];
      if IsDigits(code) || code == "." {
        if |cols| < 2 {
          assert RowEntry(data[i]) == Raise(IndexError);
          BuildStops(data, i + 1, RowEntry);
          return Err(IndexError);
        }
        var codeDesc := Strip(cols[1]);
        if IsDigits(code) {
          assert RowEntry(data[i]) == Store(Num(DigitsValue(code)), codeDesc);
          m := Upsert(m, Num(DigitsValue(code)), codeDesc);
        } else {
          assert RowEntry(data[i]) == Store(Dot, codeDesc);
          m := Upsert(m, Dot, codeDesc);
        }
      } else {
        assert RowEntry(data[i]) == Skip;
      }
      i := i + 1;
    }
    assert data[..i] == data;
    return Ok(m);
  }
}
