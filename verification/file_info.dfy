/** JavaFileInfo: the record kept for one input file, its path and the
    descriptor lines extracted from it, in the order they were added. */
module FileInfo {

  datatype JavaFileInfo = JavaFileInfo(filePath: string, details: seq<string>)

  /** The constructor: a fresh record has no details yet. */
  function NewFileInfo(filePath: string): (r: JavaFileInfo)
    ensures r.filePath == filePath
    ensures r.details == []
  {
    JavaFileInfo(filePath, [])
  }

  /** addDetail: append one line at the end; earlier lines and the path stay. */
  function AddDetail(info: JavaFileInfo, detail: string): (r: JavaFileInfo)
    ensures r.filePath == info.filePath
    ensures |r.details| == |info.details| + 1
    ensures r.details[..|info.details|] == info.details
    ensures r.details[|info.details|] == detail
  {
    JavaFileInfo(info.filePath, info.details + [detail])
  }

  lemma AddDetailIsAppend(info: JavaFileInfo, detail: string)
    ensures AddDetail(info, detail).details == info.details + [detail]
  {
  }

  /** A run of addDetail calls, one per line, in order. */
  function AddDetails(info: JavaFileInfo, lines: seq<string>): (r: JavaFileInfo)
    decreases |lines|
  {
    if |lines| == 0 then info
    else AddDetail(AddDetails(info, lines[..|lines| - 1]), lines[|lines| - 1])
  }

  /** Adding lines one at a time appends them all, in order, and changes
      nothing else. */
  lemma {:induction false} AddDetailsAppends(info: JavaFileInfo, lines: seq<string>)
    ensures AddDetails(info, lines).filePath == info.filePath
    ensures AddDetails(info, lines).details == info.details + lines
    decreases |lines|
  {
    if |lines| > 0 {
      var init := lines[..|lines| - 1];
      AddDetailsAppends(info, init);
      var mid := AddDetails(info, init);
      var r := AddDetail(mid, lines[|lines| - 1]);
      assert r.details == mid.details + [lines[|lines| - 1]];
      assert init + [lines[|lines| - 1]] == lines;
    }
  }
}
