/** The XPT downloader of Data_scraper/scraper.py: it reads the NHANES
    home page of one survey cycle, maps every data type to its listing page,
    picks the XPT files a listing links to, and keeps each file only if it is
    indexed by a unique participant id. Pages arrive already parsed, and the
    XPT files already decoded. */
module DataScraper {
  import opened Common
  import opened Text
  import opened Seqs
  import opened Ordered

  /** An `<a>` element that carries an href: the href and the element's text. */
  datatype Link = Link(href: string, text: string)

  /** A fetched page: the text of its first h1 that has no href attribute
      (None when there is none), and its links in document order. */
  datatype Page = Page(h1: Option<string>, links: seq<Link>)

  /** A decoded XPT file: its column names in order, and the values it holds
      in the downloader's id column (meaningful only when that column exists). */
  datatype XptFile = XptFile(columns: seq<string>, idValues: seq<real>)

  /** The dataframe `read_and_process_xpt` hands back: empty, or the file's
      remaining columns indexed by the id values. */
  datatype Frame = Empty | Indexed(index: seq<real>, columns: seq<string>)

  /** Files the downloader never fetches: too large, or not per participant. */
  const UnimportantFiles: seq<string> := ["DR1IFF", "DR2IFF", "DSII", "AUXAR", "PAXHR", "PAXMIN"]

  /** Links to a data type's listing page start with this. */
  const SearchPrefix: string := "../search"

  /** The data type the downloader drops from its map. */
  const Limited: string := "limited"

  // ---------------------------------------------------------------------
  // find_data_urls

  /** The folder name taken from the page heading: stripped, and every space
      replaced by an underscore. */
  function Title(h1: string): string {
    var s := PyStrip(h1);
    seq(|s|, i requires 0 <= i < |s| => if s[i] == ' ' then '_' else s[i])
  }

  /** The title holds no space, has no whitespace at either end, and differs
      from the stripped heading only where the heading had a space. */
  lemma TitleSpec(h1: string)
    ensures var t, s := Title(h1), PyStrip(h1);
      && |t| == |s|
      && (forall i :: 0 <= i < |t| ==> t[i] != ' ')
      && (forall i :: 0 <= i < |t| ==> t[i] == s[i] || (s[i] == ' ' && t[i] == '_'))
      && (t != [] ==> !IsSpace(t[0]) && !IsSpace(t[|t| - 1]))
  {
    PyStripSpec(h1);
  }

  /** `re.split(r'\n|\t', s)[-1]`: the text after the last newline or tab. */
  function LastSegment(s: string): (r: string)
    ensures |r| <= |s| && r == s[|s| - |r|..]
    ensures forall i :: 0 <= i < |r| ==> r[i] != '\n' && r[i] != '\t'
    ensures |r| < |s| ==> s[|s| - |r| - 1] == '\n' || s[|s| - |r| - 1] == '\t'
  {
    if s == [] then []
    else if s[|s| - 1] == '\n' || s[|s| - 1] == '\t' then []
    else LastSegment(s[..|s| - 1]) + [s[|s| - 1]]
  }

  /** `s.split(" ")[0]`: the text before the first space. */
  function FirstWord(s: string): (r: string)
    ensures |r| <= |s| && r == s[..|r|]
    ensures forall i :: 0 <= i < |r| ==> r[i] != ' '
    ensures |r| < |s| ==> s[|r|] == ' '
  {
    if s == [] || s[0] == ' ' then [] else [s[0]] + FirstWord(s[1..])
  }

  /** The data type a listing link names: the first word of the last line of
      its stripped text, lower-cased. */
  function DataTypeOf(text: string): string {
    ToLower(FirstWord(LastSegment(PyStrip(text))))
  }

  /** A data type name holds no space, newline, tab or upper-case letter. */
  lemma DataTypeOfSpec(text: string)
    ensures var d := DataTypeOf(text);
      forall i :: 0 <= i < |d| ==> d[i] !in " \n\t" && !('A' <= d[i] <= 'Z')
  {
    var w := FirstWord(LastSegment(PyStrip(text)));
    var d := ToLower(w);
    forall i | 0 <= i < |d| ensures d[i] !in " \n\t" {
      assert w[i] == LastSegment(PyStrip(text))[i];
    }
  }

  predicate IsSearchLink(l: Link) {
    StartsWith(l.href, SearchPrefix)
  }

  /** The (data type, href) pair a listing link contributes; other links
      contribute none. */
  function SearchPair(l: Link): Option<(string, string)> {
    if IsSearchLink(l) then Some((DataTypeOf(l.text), l.href)) else None
  }

  /** The data type -> listing URL map: the two comprehensions of
      `find_data_urls` zipped into a dict, without "limited". */
  function DataUrls(links: seq<Link>): Assoc<string, string> {
    Remove(FromPairs(CollectPairs(links, SearchPair)), Limited)
  }

  /** The URL of a data type is the href of its LAST listing link: a later
      link with the same data type overwrites an earlier one. */
  lemma DataUrlsLastWins(links: seq<Link>, k: string, i: int)
    requires k != Limited
    requires 0 <= i < |links| && IsSearchLink(links[i]) && DataTypeOf(links[i].text) == k
    requires forall j :: i < j < |links| && IsSearchLink(links[j]) ==> DataTypeOf(links[j].text) != k
    ensures Get(DataUrls(links), k) == Some(links[i].href)
  {
    RemoveGet(FromPairs(CollectPairs(links, SearchPair)), Limited, k);
    CollectLastWins(links, SearchPair, k, i);
  }

  /** "limited", and a data type no listing link names, have no URL. */
  lemma DataUrlsAbsent(links: seq<Link>, k: string)
    requires k == Limited || forall j :: 0 <= j < |links| && IsSearchLink(links[j]) ==> DataTypeOf(links[j].text) != k
    ensures Get(DataUrls(links), k) == None
  {
    RemoveGet(FromPairs(CollectPairs(links, SearchPair)), Limited, k);
    if k != Limited {
      CollectAbsent(links, SearchPair, k);
    }
  }

  // ---------------------------------------------------------------------
  // extract_and_convert_xpt and read_and_process_xpt

  /** `href.lower().endswith('.xpt')`. */
  predicate IsXptName(href: string) {
    EndsWith(ToLower(href), ".xpt")
  }

  /** The suffix test ignores case: it accepts exactly the hrefs whose last
      four characters are "." and then x, p, t in either case. */
  lemma IsXptNameSpec(href: string)
    ensures IsXptName(href) <==>
      var n := |href|;
      && n >= 4 && href[n - 4] == '.'
      && (href[n - 3] == 'x' || href[n - 3] == 'X')
      && (href[n - 2] == 'p' || href[n - 2] == 'P')
      && (href[n - 1] == 't' || href[n - 1] == 'T')
  {
    var n := |href|;
    if n >= 4 {
      var tail := ToLower(href)[n - 4..];
      assert tail == [LowerChar(href[n - 4]), LowerChar(href[n - 3]), LowerChar(href[n - 2]), LowerChar(href[n - 1])];
    }
  }

  /** The hrefs of a listing page's XPT links, in document order. */
  function XptFiles(links: seq<Link>): seq<string> {
    Filter(seq(|links|, i requires 0 <= i < |links| => links[i].href), IsXptName)
  }

  /** What `is_unimportant_file` decides: one of the six names occurs in the
      href. */
  predicate Unimportant(href: string) {
    exists i :: 0 <= i < |UnimportantFiles| && Contains(href, UnimportantFiles[i])
  }

  predicate IsCommentCode(column: string) {
    EndsWith(column, "LC")
  }

  predicate IsSensorColumn(column: string) {
    StartsWithAny(column, ["WBX", "TYX"])
  }

  /** The laboratory mask: not a comment code. */
  predicate LabKeeps(column: string) {
    !IsCommentCode(column)
  }

  /** The examination mask: not sensor data. */
  predicate ExamKeeps(column: string) {
    !IsSensorColumn(column)
  }

  /** Whether a column survives the data-type specific drop. */
  predicate KeepColumn(dataType: string, column: string) {
    && (dataType == "laboratory" ==> LabKeeps(column))
    && (dataType == "examination" ==> ExamKeeps(column))
  }

  function Keeps(dataType: string): string -> bool {
    c => KeepColumn(dataType, c)
  }

  function Other(id: string): string -> bool {
    c => c != id
  }

  function KeepsOther(dataType: string, id: string): string -> bool {
    c => KeepColumn(dataType, c) && c != id
  }

  /** The columns left after the laboratory drop and then the examination
      drop. */
  function KeptColumns(columns: seq<string>, dataType: string): seq<string> {
    var afterLab := if dataType == "laboratory" then Filter(columns, LabKeeps) else columns;
    if dataType == "examination" then Filter(afterLab, ExamKeeps) else afterLab
  }

  /** The number of columns the log line reports as skipped. */
  function DroppedCount(columns: seq<string>, dataType: string): nat {
    if dataType == "laboratory" then Count(columns, IsCommentCode)
    else if dataType == "examination" then Count(columns, IsSensorColumn)
    else 0
  }

  /** The drops keep exactly the columns `KeepColumn` admits, in order, and the
      reported count is the number of columns dropped. */
  lemma KeptColumnsSpec(columns: seq<string>, dataType: string)
    ensures KeptColumns(columns, dataType) == Filter(columns, Keeps(dataType))
    ensures |KeptColumns(columns, dataType)| + DroppedCount(columns, dataType) == |columns|
  {
    if dataType == "laboratory" {
      FilterSame(columns, LabKeeps, Keeps(dataType));
      CountComplement(columns, IsCommentCode, LabKeeps);
    } else if dataType == "examination" {
      FilterSame(columns, ExamKeeps, Keeps(dataType));
      CountComplement(columns, IsSensorColumn, ExamKeeps);
    } else {
      FilterAll(columns, Keeps(dataType));
    }
  }

  /** `read_and_process_xpt` after the file is decoded. */
  function ProcessXpt(file: XptFile, dataType: string, id: string): Frame {
    var columns := KeptColumns(file.columns, dataType);
    if id !in columns then Empty
    else if HasDuplicates(file.idValues) then Empty
    else Indexed(file.idValues, Filter(columns, Other(id)))
  }

  /** A file is kept iff its id column survives the drops and holds no
      duplicate; a kept file is indexed by the id values, and its columns are
      the surviving non-id columns in file order. */
  lemma ProcessXptSpec(file: XptFile, dataType: string, id: string)
    ensures var r := ProcessXpt(file, dataType, id);
      && (r.Indexed? <==> id in file.columns && KeepColumn(dataType, id) && !HasDuplicates(file.idValues))
      && (r.Indexed? ==> r.index == file.idValues && r.columns == Filter(file.columns, KeepsOther(dataType, id)))
  {
    var columns := KeptColumns(file.columns, dataType);
    KeptColumnsSpec(file.columns, dataType);
    assert id in columns <==> id in file.columns && KeepColumn(dataType, id) by {
      assert Keeps(dataType)(id) == KeepColumn(dataType, id);
    }
    FilterTwice(file.columns, Keeps(dataType), Other(id), KeepsOther(dataType, id));
  }

  /** The "SAMPLEID" drop after the concatenation discards its result, so a
      SAMPLEID column of a kept file stays in the output. */
  lemma SampleIdKept(file: XptFile, dataType: string, id: string)
    requires "SAMPLEID" in file.columns && id != "SAMPLEID"
    requires ProcessXpt(file, dataType, id).Indexed?
    ensures "SAMPLEID" in ProcessXpt(file, dataType, id).columns
  {
    ProcessXptSpec(file, dataType, id);
    assert "SAMPLEID"[7] == 'D';
    assert !IsSensorColumn("SAMPLEID") by {
      var prefixes := ["WBX", "TYX"];
      forall i | 0 <= i < |prefixes| ensures !StartsWith("SAMPLEID", prefixes[i]) {
        assert "SAMPLEID"[..3][0] == 'S' != prefixes[i][0];
      }
    }
    assert KeepsOther(dataType, id)("SAMPLEID");
  }

  /** The dataframes the download loop collects from `xpts`: an unimportant
      file or one that fails to download adds nothing, any other file adds what
      `read_and_process_xpt` returns, empty or not. */
  function Frames(xpts: seq<string>, dataType: string, id: string, files: map<string, XptFile>): (fs: seq<Frame>)
    ensures |fs| <= |xpts|
  {
    if xpts == [] then []
    else
      var x := xpts[|xpts| - 1];
      var init := Frames(xpts[..|xpts| - 1], dataType, id, files);
      if Unimportant(x) || x !in files then init else init + [ProcessXpt(files[x], dataType, id)]
  }

  /** A skipped or failing file does not stop the loop: the frames of a list of
      files are the frames of its parts, one after the other. */
  lemma {:induction false} FramesConcat(a: seq<string>, b: seq<string>, dataType: string, id: string, files: map<string, XptFile>)
    ensures Frames(a + b, dataType, id, files) == Frames(a, dataType, id, files) + Frames(b, dataType, id, files)
  {
    if b != [] {
      var n := |b|;
      assert (a + b)[..|a + b| - 1] == a + b[..n - 1];
      FramesConcat(a, b[..n - 1], dataType, id, files);
    } else {
      assert a + b == a;
    }
  }

  /** One more pass of the download loop. */
  lemma FramesNext(xpts: seq<string>, i: int, dataType: string, id: string, files: map<string, XptFile>)
    requires 0 <= i < |xpts|
    ensures Frames(xpts[..i + 1], dataType, id, files) ==
      Frames(xpts[..i], dataType, id, files)
        + (if Unimportant(xpts[i]) || xpts[i] !in files then [] else [ProcessXpt(files[xpts[i]], dataType, id)])
  {
    assert xpts[..i + 1][..i] == xpts[..i];
  }

  /** A file the downloader never reads contributes nothing. */
  lemma FramesOfSkipped(x: string, dataType: string, id: string, files: map<string, XptFile>)
    requires Unimportant(x) || x !in files
    ensures Frames([x], dataType, id, files) == []
  {
    assert [x][..0] == [];
  }

  /** The downloader: its home page URL, the name of its id column, and the
      title it reads from the home page. */
  class Downloader {
    const baseUrl: string
    const id: string
    var title: Option<string>

    constructor (baseUrl: string, id: string)
      ensures this.baseUrl == baseUrl && this.id == id && title == None
    {
      this.baseUrl := baseUrl;
      this.id := id;
      title := None;
    }

    /** `find_data_urls` on the fetched home page: records the title and
        returns the data type -> URL map; a page without an h1 raises. */
    method FindDataUrls(home: Page) returns (r: Result<Assoc<string, string>>)
      modifies this`title
      ensures home.h1.None? ==> r == Err(AttributeError) && title == old(title)
      ensures home.h1.Some? ==> r == Ok(DataUrls(home.links)) && title == Some(Title(home.h1.value))
    {
      if home.h1.None? {
        return Err(AttributeError);
      }
      title := Some(Title(home.h1.value));
      r := Ok(DataUrls(home.links));
    }

    /** `is_unimportant_file`: tries the six names in turn and answers true at
        the first that occurs in the href. */
    method IsUnimportantFile(xpt: string) returns (b: bool)
      ensures b <==> Unimportant(xpt)
    {
      for i := 0 to |UnimportantFiles|
        invariant forall j :: 0 <= j < i ==> !Contains(xpt, UnimportantFiles[j])
      {
        if Contains(xpt, UnimportantFiles[i]) {
          return true;
        }
      }
      return false;
    }

    /** The download loop of `extract_and_convert_xpt` on a fetched listing
        page; `files` holds the files that download and decode, keyed by href.
        `pd.concat` of no dataframe at all raises. */
    method ExtractAndConvertXpt(listing: Page, dataType: string, files: map<string, XptFile>)
      returns (r: Result<seq<Frame>>)
      ensures var fs := Frames(XptFiles(listing.links), dataType, id, files);
        r == if fs == [] then Err(ValueError) else Ok(fs)
    {
      var xpts := XptFiles(listing.links);
      var dframes: seq<Frame> := [];
      var i := 0;
      while i < |xpts|
        invariant 0 <= i <= |xpts|
        invariant dframes == Frames(xpts[..i], dataType, id, files)
      {
        var xpt := xpts[i];
        FramesNext(xpts, i, dataType, id, files);
        var skip := IsUnimportantFile(xpt);
        if !skip && xpt in files {
          var frame := ProcessXpt(files[xpt], dataType, id);
          dframes := dframes + [frame];
        }
        i := i + 1;
      }
      assert xpts[..i] == xpts;
      if dframes == [] {
        return Err(ValueError);
      }
      r := Ok(dframes);
    }
  }
}
