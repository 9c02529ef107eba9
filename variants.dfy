/** How the scripts' copies of the same rule relate: the two positional
    description parsers, and the skip lists each script keeps. */
module Variants {
  import opened Common
  import opened Text
  import DictEncoding
  import DictMap
  import VariableList
  import DataScraper

  /** Both parsers raise IndexError on fewer than three fields, and both
      key the record by the first field. */
  lemma DescribeNeedsThreeFields(fields: seq<string>, dataType: string)
    ensures DictEncoding.DescribeAtLeast4(fields, dataType).Err? <==> |fields| < 3
    ensures DictMap.DescribeExactly45(fields).Err? <==> |fields| < 3
    ensures |fields| < 3 ==>
      DictEncoding.DescribeAtLeast4(fields, dataType).error == IndexError == DictMap.DescribeExactly45(fields).error
    ensures |fields| >= 3 ==>
      DictEncoding.DescribeAtLeast4(fields, dataType).value.0 == Strip(fields[0]) == DictMap.DescribeExactly45(fields).value.0
  {
  }

  /** The at-least-4 parser: with four or more fields the label is field 1,
      the description field 2 and the target the last field; with exactly
      three there is no label, the description is field 1 and the target
      field 2. */
  lemma DescribeAtLeast4Fields(fields: seq<string>, dataType: string)
    requires |fields| >= 3
    ensures var d := DictEncoding.DescribeAtLeast4(fields, dataType).value.1;
      && d.dataType == dataType
      && (|fields| >= 4 ==>
            d.varLabel == Some(Strip(fields[1])) && d.plain == Strip(fields[2]) && d.target == Strip(fields[|fields| - 1]))
      && (|fields| == 3 ==>
            d.varLabel == None && d.plain == Strip(fields[1]) && d.target == Strip(fields[2]))
  {
  }

  /** The 4-or-5 parser: four fields give the target field 3, five fields
      give the target field 4 (field 3 is ignored), and any other count
      gives no label, the description field 1 and the target field 2. */
  lemma DescribeExactly45Fields(fields: seq<string>)
    requires |fields| >= 3
    ensures var d := DictMap.DescribeExactly45(fields).value.1;
      && (|fields| == 4 ==> d == DictMap.Description(Some(Strip(fields[1])), Strip(fields[2]), Strip(fields[3])))
      && (|fields| == 5 ==> d == DictMap.Description(Some(Strip(fields[1])), Strip(fields[2]), Strip(fields[4])))
      && (|fields| != 4 && |fields| != 5 ==> d == DictMap.Description(None, Strip(fields[1]), Strip(fields[2])))
  {
  }

  /** The two parsers read the same label, description and target from
      three, four or five fields. */
  lemma DescribeVariantsAgree(fields: seq<string>, dataType: string)
    requires 3 <= |fields| <= 5
    ensures var a, b := DictEncoding.DescribeAtLeast4(fields, dataType).value.1, DictMap.DescribeExactly45(fields).value.1;
      a.varLabel == b.varLabel && a.plain == b.plain && a.target == b.target
  {
    DescribeAtLeast4Fields(fields, dataType);
    DescribeExactly45Fields(fields);
  }

  /** From six fields on they diverge: the at-least-4 parser keeps field 1
      as the label and takes the last field as the target, the 4-or-5 parser
      drops the label and reads the description from field 1. */
  lemma DescribeVariantsDiffer(fields: seq<string>, dataType: string)
    requires |fields| >= 6
    ensures var a, b := DictEncoding.DescribeAtLeast4(fields, dataType).value.1, DictMap.DescribeExactly45(fields).value.1;
      && a.varLabel == Some(Strip(fields[1])) && b.varLabel == None
      && a.plain == Strip(fields[2]) && b.plain == Strip(fields[1])
      && a.target == Strip(fields[|fields| - 1]) && b.target == Strip(fields[2])
  {
    DescribeAtLeast4Fields(fields, dataType);
    DescribeExactly45Fields(fields);
  }

  /** A prefix of a skip list skips no more than the whole list. */
  lemma StartsWithAnyPrefix(name: string, short: seq<string>, long: seq<string>)
    requires |short| <= |long| && long[..|short|] == short
    ensures StartsWithAny(name, short) ==> StartsWithAny(name, long)
  {
    if StartsWithAny(name, short) {
      var i :| 0 <= i < |short| && StartsWith(name, short[i]);
      assert long[i] == short[i];
    }
  }

  /** The mapping script's nine skipped prefixes open the encoding script's
      fifteen, so every file the encoding script reads the mapping script
      reads too; the variable-list script skips the same nine, and the six
      unimportant data files open the list. */
  lemma SkipListsNested(name: string)
    ensures DictEncoding.FileFilter(name) ==> !StartsWithAny(name, DictMap.SkipFiles)
    ensures StartsWithAny(name, VariableList.SkipFiles) <==> StartsWithAny(name, DictMap.SkipFiles)
    ensures DataScraper.UnimportantFiles == DictMap.SkipFiles[..6]
  {
    assert DictEncoding.SkipFiles[..9] == DictMap.SkipFiles;
    StartsWithAnyPrefix(name, DictMap.SkipFiles, DictEncoding.SkipFiles);
  }
}
