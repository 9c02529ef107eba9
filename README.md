# NHANES scrapers: the decision rules, in Dafny

The scripts scrape the NHANES (National Health and Nutrition Examination Survey)
web site of the Centers for Disease Control and Prevention. This project models
the deterministic rules that sit between the page fetches and the CSV writes.

- **`Data_scraper/scraper.py`** is the XPT downloader (module `DataScraper`).
  - It builds the data type → listing URL map from the links of the home page, and a folder title from its heading.
  - It picks the `.xpt` links of a listing page and skips six large or unimportant files.
  - From every decoded file it drops comment-code columns (laboratory) and sensor columns (examination).
  - It keeps a file only when its `SEQN` id column survives and holds no duplicate.
- **`Dictionary_scraper/dict_encoding_scraper.py`** is the description and encoding scraper (module `DictEncoding`).
  - It walks the listing of each data type and skips 15 file prefixes.
  - It reads a documentation page only when its first variable block is `SEQN`.
  - It filters variables with `var_filter`, which keeps the `LC_count` and `AUX_count` counters and lets `SEQN` through once per data type.
  - It parses each description positionally ("at least 4 fields").
  - It reads each code table into a dict keyed by the integer value of a digit code, or by `"."`. A row with any other code is skipped.
- **`dict_map_scraper.py`** is the description and mapping scraper (module `DictMap`).
  - It skips 9 file prefixes.
  - Its description parser is the "exactly 4 or 5 fields" variant.
  - It writes every digit or `"."` code into the column of that name, and stops at the first row with any other code.
  - Finally it orders the columns: the integer codes ascending, then `"."`.
  - The assignment to `SEQNflag` in `grab_mapping` binds a local name. The global flag therefore stays true, and the `break` in `grab_info` never fires. The model keeps this behaviour (`DictMap.InfoNeverBreaks`).
- **`dictionary_scraper.py`** is the variable-list scraper (module `VariableList`).
  - It reads the variable list table of each data type and stacks the tables.
  - It removes the rows of 9 skipped files, of comment codes and of `SAMPLEID`.
  - It deletes five columns and moves the third column before the second.
  - It indexes the result by "Variable Name" in row order. The sorted copy `df_sorted` is never used.

Shared modules:

- `Common`: `Option`, and a `Result` whose error names the Python exception that would abort the script.
- `Text`: Python's `strip()`, the scripts' `strip` helper, `startswith`/`endswith`, `re.search` with a literal pattern, ASCII `isdigit()`, `int()` and `lower()`.
- `Seqs`: order-keeping filtering and counting.
- `Ordered`: a Python dict or a pandas row index as an association list, where a later write to a key overwrites in place.
- `Folds`: the three loop shapes of the scripts, with their generic lemmas.
  - A loop that threads a state and stops at the first exception.
  - A loop that builds a dict from table rows.
  - A loop that may `break` or `return` early.
- `Variants`: how the copies of the same rule in different scripts relate.

Inputs the scripts obtain through I/O are parameters of the model:

- A page is the sequence of its extracted link, field, row or cell texts.
- A decoded XPT file is its column list and the values of its id column.
- A listing is a function from a data type to its rows.

The scripts' global variables are the fields of one class per script. Each of its methods is proved against a function of the old state, and the properties are proved about those functions.

## Model

| member | source | states |
|---|---|---|
| Text.PyStripSpec | Dictionary_scraper/dict_encoding_scraper.py:49 | Python's `strip()` removes exactly the leading and trailing whitespace: the result is a slice of the input with no whitespace at either end |
| Text.StripNoBreaks | Dictionary_scraper/dict_encoding_scraper.py:48-49 | `strip` leaves no carriage return, newline or tab anywhere |
| Text.StripEnds | Dictionary_scraper/dict_encoding_scraper.py:48-49 | `strip` leaves no whitespace at either end |
| Text.StripIdempotent | Dictionary_scraper/dict_encoding_scraper.py:48-49 | stripping twice is stripping once |
| Text.Delete | Dictionary_scraper/dict_encoding_scraper.py:49 | `replace(c, '')` leaves no `c` and never lengthens the text |
| Text.DigitsValue | Dictionary_scraper/dict_encoding_scraper.py:80 | `int()` of a digit string is below 10 to the power of its length |
| Text.DigitsValueLeadingZero | Dictionary_scraper/dict_encoding_scraper.py:80 | a leading zero does not change `int()` |
| Text.DigitsValueShowNat | dict_map_scraper.py:109 | `int()` inverts the decimal rendering of a number |
| Text.ToLower | Data_scraper/scraper.py:56 | `lower()` keeps the length, maps each ASCII upper-case letter to its lower-case letter (code point plus 32), and leaves every other character unchanged |
| DataScraper.IsXptNameSpec | Data_scraper/scraper.py:56 | an href passes the lower-cased `.xpt` test if and only if it ends in "." and then x, p, t, each letter in either case |
| Ordered.UpsertGet | Dictionary_scraper/dict_encoding_scraper.py:63 | after `df.loc[k] = v`, `k` maps to `v` and every other key keeps its value |
| Ordered.UpsertKeys | Dictionary_scraper/dict_encoding_scraper.py:63 | `df.loc[k] = v` keeps the existing keys in place and appends `k` if it is new |
| Ordered.UpsertUnique | Dictionary_scraper/dict_encoding_scraper.py:63 | the index never holds a key twice |
| Ordered.RemoveGet | Data_scraper/scraper.py:44 | `pop(k, "")` removes `k` whether or not it was present, and keeps the other keys |
| Ordered.FromPairsLastWins | Data_scraper/scraper.py:42 | in `dict(zip(...))` the last pair with a key gives its value |
| Ordered.FromPairsAbsent | Data_scraper/scraper.py:42 | a key no pair names is absent from `dict(zip(...))` |
| DataScraper.TitleSpec | Data_scraper/scraper.py:35 | the title is the stripped heading with every space turned into `_`: the same length, no space, no whitespace at either end |
| DataScraper.LastSegment | Data_scraper/scraper.py:38 | the last segment of a split on newline or tab is a suffix with no newline or tab, preceded by one when it is not the whole text |
| DataScraper.FirstWord | Data_scraper/scraper.py:38 | `split(" ")[0]` is a prefix with no space, followed by a space when it is not the whole text |
| DataScraper.DataTypeOfSpec | Data_scraper/scraper.py:38 | a link's data type holds no space, newline, tab or upper-case letter |
| DataScraper.DataUrlsLastWins | Data_scraper/scraper.py:38-44 | a data type's URL is the href of the last `../search` link naming it |
| DataScraper.DataUrlsAbsent | Data_scraper/scraper.py:38-44 | "limited", and any data type no `../search` link names, have no URL |
| DataScraper.KeptColumnsSpec | Data_scraper/scraper.py:106-119 | laboratory drops exactly the `LC` columns and examination exactly the `WBX`/`TYX` ones, keeping order; the reported count is the number dropped |
| DataScraper.ProcessXptSpec | Data_scraper/scraper.py:121-129 | a file is kept iff its id column survives the drops and holds no duplicate value; a kept file is indexed by the id values, with the other surviving columns in file order |
| DataScraper.SampleIdKept | Data_scraper/scraper.py:80-84 | the `SAMPLEID` drop discards its result, so a kept file's `SAMPLEID` column stays |
| DataScraper.Frames | Data_scraper/scraper.py:59-72 | the loop adds at most one frame per XPT link |
| DataScraper.FramesConcat | Data_scraper/scraper.py:59-72 | the loop handles each file on its own: the frames of a list are the frames of its parts in order |
| DataScraper.FramesOfSkipped | Data_scraper/scraper.py:64-72 | an unimportant file, or one that fails, adds nothing and the loop goes on |
| DataScraper.Downloader.constructor | Data_scraper/scraper.py:19-22 | a downloader keeps its URL and id column and has no title yet |
| DataScraper.Downloader.FindDataUrls | Data_scraper/scraper.py:28-46 | returns the URL map and sets the title; a page without an `h1` raises AttributeError and leaves the title alone |
| DataScraper.Downloader.IsUnimportantFile | Data_scraper/scraper.py:94-99 | true iff one of the six names occurs anywhere in the href |
| DataScraper.Downloader.ExtractAndConvertXpt | Data_scraper/scraper.py:48-72 | collects the frames of the page's XPT links in document order |
| DictEncoding.FileFilter | Dictionary_scraper/dict_encoding_scraper.py:25-28 | a file is read iff its name starts with none of the 15 prefixes |
| DictEncoding.Classify | Dictionary_scraper/dict_encoding_scraper.py:33-46 | the checks of `var_filter` in order: SEQN when the flag is down, then an `LC` suffix, then a `WBX`/`TYX` prefix without `LC`, then `SAMPLEID`; a name is kept iff none applies |
| DictEncoding.EncodingScraper.VarFilter | Dictionary_scraper/dict_encoding_scraper.py:33-46 | answers as `Classify` does, raises `LC_count` only for an `LC` name and `AUX_count` only for a sensor name, and changes nothing else |
| DictEncoding.FirstTwo | Dictionary_scraper/dict_encoding_scraper.py:75 | `[:2]` keeps the first two cells, or all of them when there are fewer |
| DictEncoding.RowEntry | Dictionary_scraper/dict_encoding_scraper.py:75-82 | a row raises IndexError iff it has no cell, or a storable code and no second cell; it is skipped iff its code is neither digits nor "."; otherwise it stores the code's key with the stripped second cell |
| DictEncoding.LeadingZeroCollides | Dictionary_scraper/dict_encoding_scraper.py:79-80 | "01" and "1" are stored under the same integer key |
| DictEncoding.EncodeTableRaises | Dictionary_scraper/dict_encoding_scraper.py:73-82 | reading a table raises iff some row after the header raises |
| DictEncoding.EncodeLastWins | Dictionary_scraper/dict_encoding_scraper.py:73-82 | a key maps to the description of the last row that stores it |
| DictEncoding.EncodeAbsent | Dictionary_scraper/dict_encoding_scraper.py:73-82 | a code that no data row stores has no entry in the dict |
| DictEncoding.EncodeSkipsOtherCode | Dictionary_scraper/dict_encoding_scraper.py:77 | a row whose code is neither digits nor "." changes nothing |
| DictEncoding.ReadEncoding | Dictionary_scraper/dict_encoding_scraper.py:73-82 | the row loop computes the encoding the table defines |
| DictEncoding.KeptCounts | Dictionary_scraper/dict_encoding_scraper.py:94-96 | a kept block touches no counter and lowers the flag iff it is SEQN |
| DictEncoding.BlockStepCounts | Dictionary_scraper/dict_encoding_scraper.py:92-96 | one block raises `LC_count` iff it is a comment code, `AUX_count` iff it is other sensor data, and lowers the flag iff it is a SEQN that is taken |
| DictEncoding.SeqnRejectedOnceTaken | Dictionary_scraper/dict_encoding_scraper.py:35-36 | once SEQN is taken, a later SEQN block changes nothing |
| DictEncoding.BlocksFlag | Dictionary_scraper/dict_encoding_scraper.py:69-70 | after a page the flag is up iff it was up before and no block was SEQN |
| DictEncoding.EntryStepFlag | Dictionary_scraper/dict_encoding_scraper.py:86-99 | a listing row lowers the flag iff its page is read (admitted, first block SEQN), and otherwise leaves it |
| DictEncoding.EntryRowsFlag | Dictionary_scraper/dict_encoding_scraper.py:114-119 | after some listing rows the flag is up iff it was up before and none of their pages was read |
| DictEncoding.EntriesFlag | Dictionary_scraper/dict_encoding_scraper.py:110-119 | within a data type the flag, raised afresh, stays up exactly until the first page that is read |
| DictEncoding.SeqnTakenOnce | Dictionary_scraper/dict_encoding_scraper.py:33-111 | once `var_filter` has kept a SEQN block, it keeps no later SEQN block of the same data type, on the same page or a later one |
| DictEncoding.BlocksCounters | Dictionary_scraper/dict_encoding_scraper.py:37-43 | each counter grows by the number of blocks of its kind |
| DictEncoding.EncodingScraper.constructor | Dictionary_scraper/dict_encoding_scraper.py:16-32 | the tables start empty, the counters at zero, the flag up |
| DictEncoding.EncodingScraper.GrabDescription | Dictionary_scraper/dict_encoding_scraper.py:51-63 | writes the parsed description under its name, overwriting an earlier one; fewer than three fields raise |
| DictEncoding.EncodingScraper.GrabEncoding | Dictionary_scraper/dict_encoding_scraper.py:65-83 | lowers the flag for SEQN; writes an encoding only when the block has a table |
| DictEncoding.EncodingScraper.GrabInfo | Dictionary_scraper/dict_encoding_scraper.py:86-99 | a page whose first block is not SEQN changes nothing; otherwise the blocks are filtered, described and encoded in order |
| DictEncoding.EncodingScraper.GrabKept | Dictionary_scraper/dict_encoding_scraper.py:95-96 | a block `var_filter` keeps is described, then encoded; it fails iff either step raises |
| DictEncoding.EncodingScraper.ScrapeDataType | Dictionary_scraper/dict_encoding_scraper.py:110-119 | raises the flag, then reads every file the filter admits in listing order |
| DictEncoding.EncodingScraper.ScrapeDataTypes | Dictionary_scraper/dict_encoding_scraper.py:101-119 | walks the data types in order |
| DictEncoding.EncodingScraper.ScrapeAll | Dictionary_scraper/dict_encoding_scraper.py:101-119 | the whole run over the five data types |
| DictMap.SetCell | dict_map_scraper.py:66 | `df.loc[name, code] = v` sets that cell, adds the row and column if new, and keeps every other cell |
| DictMap.SetCellWellFormed | dict_map_scraper.py:66 | the table's cells stay within its rows and columns |
| DictMap.MapRow | dict_map_scraper.py:62-68 | a row with a digit or "." code stores its cell, a row with any other code stops the loop, a row too short raises |
| DictMap.MapRowsStopAt | dict_map_scraper.py:61-68 | the first bad code ends the mapping: later rows are never read, earlier ones are kept |
| DictMap.ScanMapRowsKeeps | dict_map_scraper.py:61-68 | every column the mapping writes is a digit or "." code |
| DictMap.BlockStepKeepsFlag | dict_map_scraper.py:53-55 | describing and mapping a block leaves the module's flag unchanged |
| DictMap.InfoNeverBreaks | dict_map_scraper.py:76-79 | with the flag up, the `break` never fires and every block is processed |
| DictMap.BlockStepGood | dict_map_scraper.py:81-83 | a block keeps every mapping column a digit or "." code |
| DictMap.RunGood | dict_map_scraper.py:87-105 | after the whole run every mapping column is a digit or "." code |
| DictMap.RunThenSort | dict_map_scraper.py:107-111 | after a run, the column sort fails iff no "." column exists, and otherwise gives one label per column: "." last, and before it the integer values of the other columns, ascending and as a permutation of them |
| DictMap.Insert | dict_map_scraper.py:110 | inserting into a sorted list keeps it sorted and adds exactly the element |
| DictMap.SortNats | dict_map_scraper.py:110 | the sorted labels are a sorted permutation of the input |
| DictMap.Labels | dict_map_scraper.py:109-111 | the integer labels in order, then "." last |
| DictMap.LabelsCodes | dict_map_scraper.py:109-111 | the labels hold exactly the integers they were built from, with multiplicity |
| DictMap.LabelsOfInts | dict_map_scraper.py:107-111 | with "." present once and the other columns converted, the final labels are one per column, "." last, the integers ascending and a permutation of the converted columns |
| DictMap.IntColumnsOfCodes | dict_map_scraper.py:109 | `int(col)` succeeds on digit labels and gives their values in order |
| DictMap.FinalColumnsSpec | dict_map_scraper.py:107-111 | with distinct code labels, a missing "." raises KeyError; otherwise there is one label per column, "." last, and before it the integer values of the other columns in ascending order, as a permutation of them |
| DictMap.FinalColumnsExample | dict_map_scraper.py:107-111 | columns "3", "1", ".", "2" become 1, 2, 3, "." |
| DictMap.MapScraper.constructor | dict_map_scraper.py:16-28 | the tables start empty and the flag up |
| DictMap.MapScraper.GrabDescription | dict_map_scraper.py:34-47 | writes the 4-or-5 field description under its name; fewer than three fields raise |
| DictMap.MapScraper.GrabMapping | dict_map_scraper.py:51-68 | writes the block's codes until the first bad one |
| DictMap.MapScraper.GrabInfo | dict_map_scraper.py:71-83 | processes the blocks in order, skipping `LC` names and SAMPLEID, and stops at a SEQN block when the flag is down |
| DictMap.MapScraper.ScrapeDataType | dict_map_scraper.py:99-105 | reads every file whose name starts with none of the 9 prefixes |
| DictMap.MapScraper.ScrapeDataTypes | dict_map_scraper.py:87-105 | walks the data types in order |
| DictMap.MapScraper.SortMappingColumns | dict_map_scraper.py:107-111 | pops ".", converts, sorts and re-appends it; on a well-formed mapping table it raises iff there is no "." column, and otherwise yields "." last after the other columns' integer values, ascending and as a permutation of them |
| DictMap.MapScraper.ScrapeAll | dict_map_scraper.py:87-111 | the whole run, then the column sort |
| VariableList.Width | dictionary_scraper.py:30 | pandas infers the width of the widest row |
| VariableList.RowOfSpec | dictionary_scraper.py:30 | cell `j` lands under header `j`, and the columns past the row's end are NaN |
| VariableList.MakeFrameSpec | dictionary_scraper.py:30 | a frame is built iff no row is wider than the header and, when there are rows, one is exactly as wide; otherwise ValueError |
| VariableList.PageFrameRows | dictionary_scraper.py:19-27 | the header row is never a data row: row `i` of the frame comes from table row `i + 1` |
| VariableList.ReadPage | dictionary_scraper.py:17-30 | the page loop computes the page's frame; a table without rows raises IndexError |
| VariableList.Union | dictionary_scraper.py:31 | the stacked columns are those of either frame, the first frame's first |
| VariableList.Concat | dictionary_scraper.py:31 | the rows of the new table follow the old ones |
| VariableList.ScrapeAppends | dictionary_scraper.py:8-31 | the stacked table fails iff some page does; it holds every page's rows in data-type order, and earlier columns keep their places |
| VariableList.Drop | dictionary_scraper.py:39-41 | a row filter raises KeyError for a missing column and TypeError for a NaN cell under `.str`; otherwise it keeps the rows that fail the test, in order |
| VariableList.DropSkippedSpec | dictionary_scraper.py:38-39 | the prefix loop drops exactly the rows of files starting with any of the prefixes |
| VariableList.RemoveUnwantedSpec | dictionary_scraper.py:35-41 | a row is removed iff its file starts with one of the 9 prefixes, or its variable ends in `LC` or is SAMPLEID; the rest keep their order; the error cases are exactly the missing columns and cells |
| VariableList.RemoveUnwantedIdempotent | dictionary_scraper.py:38-41 | cleaning twice is cleaning once |
| VariableList.RemoveUnwantedKeeps | dictionary_scraper.py:38-41 | a row survives iff it is not unwanted |
| VariableList.DeleteColumn | dictionary_scraper.py:44 | `del df[c]` raises KeyError unless `c` is a column; otherwise it removes that column and its cells |
| VariableList.DeleteColumnsSpec | dictionary_scraper.py:44-48 | deleting distinct columns fails iff one is missing, and otherwise keeps the other columns in order |
| VariableList.UselessDelsIsRun | dictionary_scraper.py:43-48 | the five `del` statements one after another do exactly what deleting the five names as a run does, error included |
| VariableList.MoveComponent | dictionary_scraper.py:51-53 | fewer than three columns raise IndexError |
| VariableList.Select | dictionary_scraper.py:53 | `df[cols]` keeps exactly the cells of the chosen columns |
| VariableList.SetIndex | dictionary_scraper.py:56 | the index lists the "Variable Name" cells in row order, and the column leaves the table; KeyError if it is missing |
| VariableList.ReshapeSpec | dictionary_scraper.py:43-56 | the reshaped table succeeds iff the five columns exist and "Variable Name" is among the first three left; its columns are the other two, the third first |
| VariableList.MoveAndIndexSpec | dictionary_scraper.py:50-56 | after the deletions, the move and the index succeed iff there are at least three columns and "Variable Name" is among the first three; the index is the names in row order and the columns are the other two, the third first |
| VariableList.CleanSpec | dictionary_scraper.py:35-56 | the saved index is the variable names of the wanted rows in their original order, not sorted |
| VariableList.CleanDropsCommentsAndSampleId | dictionary_scraper.py:40-41 | no index entry ends in `LC` or is SAMPLEID |
| VariableList.DictionaryScript.constructor | dictionary_scraper.py:7 | the table starts empty |
| VariableList.DictionaryScript.ScrapeDataTypes | dictionary_scraper.py:8-31 | the data-type loop computes the stacked table or the first exception |
| VariableList.DictionaryScript.RemoveUnwantedRows | dictionary_scraper.py:35-41 | the prefix loop and the two name filters compute the cleaned table |
| VariableList.DictionaryScript.Del | dictionary_scraper.py:44 | one `del` statement |
| VariableList.DictionaryScript.KeepUsefulColumns | dictionary_scraper.py:43-48 | the five `del` statements stop at the first missing column with its KeyError, and otherwise leave the table the run of deletions gives |
| VariableList.DictionaryScript.MoveComponentColumn | dictionary_scraper.py:50-53 | the column move |
| VariableList.DictionaryScript.Script | dictionary_scraper.py:6-60 | the whole script computes the table it saves, or the exception that stops it |
| Variants.DescribeNeedsThreeFields | Dictionary_scraper/dict_encoding_scraper.py:52-55 | both parsers raise IndexError on fewer than three fields and key the record by the first field |
| Variants.DescribeAtLeast4Fields | Dictionary_scraper/dict_encoding_scraper.py:51-63 | four or more fields give label 1, description 2 and the last field as target; three give no label, description 1, target 2 |
| Variants.DescribeExactly45Fields | dict_map_scraper.py:34-47 | four fields give target 3, five give target 4, any other count gives no label, description 1 and target 2 |
| Variants.DescribeVariantsAgree | dict_map_scraper.py:39-46 | the two parsers agree on three, four and five fields |
| Variants.DescribeVariantsDiffer | Dictionary_scraper/dict_encoding_scraper.py:57-62 | from six fields on the parsers differ in label, description and target |
| Variants.SkipListsNested | Dictionary_scraper/dict_encoding_scraper.py:27 | the 9 prefixes are the first of the 15, so every file the encoding scraper reads the mapping scraper reads too; the variable list skips the same 9, and the six unimportant files open the list |

## Left out

- HTTP fetches and HTML parsing (`requests.get`, BeautifulSoup): pages are given as their extracted texts. A missing element (`soup.find('table')` returning None, a row without a second `td`, a block without an `h3`) is not modelled, except the missing `h1` of the home page.
- `urljoin`: the URL map holds the href itself, and the XPT file is looked up by its href.
- `pd.read_sas`: a decoded file is given as its column names and id values.
- `combine_dupes` and the column-wise `pd.concat` of the downloaded frames: their merge rules are not visible.
- The numeric clamp at scraper.py lines 77-78 is floating point and is not modelled.
- `download_data`'s loop over the URL map is not modelled. Each call of `extract_and_convert_xpt` is modelled on its own.
- CSV writing, `os.makedirs`, output paths and logging are not modelled. `set_index(inplace=True)` is modelled as returning the indexed table.
- The archived one-off download script is not part of this model.
- Python's `isdigit()` and `lower()` are modelled on ASCII only.
- DictMap.SortNats: the order pandas gives two labels with the same integer value ("01" and "1") is not modelled. `FinalColumnsSpec` assumes distinct labels.
- DictMap.FinalColumnsSpec: states the final column labels only. pandas moves each column's cells with its label, and the model does not carry the cells through the sort.
- VariableList.RowOfSpec: a header that names a column twice is not modelled. pandas keeps both columns, while the model keeps the later cell.
- VariableList.Drop: a column with no string at all makes pandas raise AttributeError at `.str`. The model reports the TypeError of a NaN cell instead.
- pandas dtypes are not modelled. Every cell is a string or NaN.
