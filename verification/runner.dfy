/** The run over the configured file paths: for each path, in order, a
    record is made, the file is parsed and its descriptor lines are added.
    Reading the configuration and parsing a file are outside the model: the
    path list is given, and the parser is a function from a path to a
    compilation unit, or to nothing when the file cannot be parsed. Any
    failure ends the whole run with no records. */
module Runner {
  import opened Opt
  import opened Ast
  import opened FileInfo
  import opened Extractor

  datatype RunError = ParseError(filePath: string)

  datatype Result<T> = Ok(value: T) | Err(error: RunError)

  /** The record a successfully parsed file yields: a fresh record for the
      path, then one addDetail per extracted line. */
  function Record(filePath: string, cu: CompilationUnit): (r: JavaFileInfo)
    ensures r.filePath == filePath
    ensures r.details == Extract(cu)
  {
    AddDetailsAppends(NewFileInfo(filePath), Extract(cu));
    AddDetails(NewFileInfo(filePath), Extract(cu))
  }

  predicate AllParse(paths: seq<string>, parse: string -> Option<CompilationUnit>) {
    forall i :: 0 <= i < |paths| ==> parse(paths[i]).Some?
  }

  /** Path `i` is the first one the parser rejects. */
  predicate FirstFailure(paths: seq<string>, parse: string -> Option<CompilationUnit>, i: int) {
    && 0 <= i < |paths|
    && parse(paths[i]).None?
    && forall j :: 0 <= j < i ==> parse(paths[j]).Some?
  }

  /** The whole run. */
  function Run(paths: seq<string>, parse: string -> Option<CompilationUnit>): (r: Result<seq<JavaFileInfo>>)
    ensures r.Ok? <==> AllParse(paths, parse)
    ensures r.Ok? ==> |r.value| == |paths|
    ensures r.Ok? ==> forall i :: 0 <= i < |paths| ==>
              parse(paths[i]).Some? && r.value[i] == Record(paths[i], parse(paths[i]).value)
    ensures r.Err? ==> exists i :: FirstFailure(paths, parse, i) && r.error == ParseError(paths[i])
    decreases |paths|
  {
    if |paths| == 0 then Ok([])
    else
      match parse(paths[0])
      case None => Err(ParseError(paths[0]))
      case Some(cu) =>
        match Run(paths[1..], parse)
        case Err(e) =>
          ShiftFailure(paths, parse, e);
          Err(e)
        case Ok(rest) =>
          ShiftRecords(paths, parse, rest);
          Ok([Record(paths[0], cu)] + rest)
  }

  /** The records of the tail, after the record of the first path, are the
      records of the whole list. */
  lemma ShiftRecords(paths: seq<string>, parse: string -> Option<CompilationUnit>, rest: seq<JavaFileInfo>)
    requires |paths| > 0 && parse(paths[0]).Some?
    requires |rest| == |paths| - 1
    requires forall i :: 0 <= i < |paths[1..]| ==>
               parse(paths[1..][i]).Some? && rest[i] == Record(paths[1..][i], parse(paths[1..][i]).value)
    ensures AllParse(paths, parse)
    ensures forall i :: 0 <= i < |paths| ==>
              parse(paths[i]).Some?
              && ([Record(paths[0], parse(paths[0]).value)] + rest)[i] == Record(paths[i], parse(paths[i]).value)
  {
    assert forall i :: 1 <= i < |paths| ==> paths[i] == paths[1..][i - 1];
  }

  /** A failure in the tail is a failure of the whole list, one place on. */
  lemma ShiftFailure(paths: seq<string>, parse: string -> Option<CompilationUnit>, e: RunError)
    requires |paths| > 0 && parse(paths[0]).Some?
    requires exists i :: FirstFailure(paths[1..], parse, i) && e == ParseError(paths[1..][i])
    ensures exists i :: FirstFailure(paths, parse, i) && e == ParseError(paths[i])
  {
    var i :| FirstFailure(paths[1..], parse, i) && e == ParseError(paths[1..][i]);
    assert FirstFailure(paths, parse, i + 1);
  }

  /** At most one path is the first failure. */
  lemma FirstFailureUnique(paths: seq<string>, parse: string -> Option<CompilationUnit>, i: int, j: int)
    requires FirstFailure(paths, parse, i) && FirstFailure(paths, parse, j)
    ensures i == j
  {
  }

  /** The same path listed twice is processed twice, into equal records. */
  lemma DuplicatePaths(paths: seq<string>, parse: string -> Option<CompilationUnit>, i: int, j: int)
    requires 0 <= i < |paths| && 0 <= j < |paths| && paths[i] == paths[j]
    requires Run(paths, parse).Ok?
    ensures Run(paths, parse).value[i] == Run(paths, parse).value[j]
  {
  }

  /** The run fails exactly at its first unparsable path. */
  lemma RunFailsAt(paths: seq<string>, parse: string -> Option<CompilationUnit>, i: int)
    requires FirstFailure(paths, parse, i)
    ensures Run(paths, parse) == Err(ParseError(paths[i]))
  {
    var r := Run(paths, parse);
    assert !AllParse(paths, parse);
    var k :| FirstFailure(paths, parse, k) && r.error == ParseError(paths[k]);
    FirstFailureUnique(paths, parse, i, k);
  }

  /** A run that parses everything yields exactly the records of the paths. */
  lemma RunSucceeds(paths: seq<string>, parse: string -> Option<CompilationUnit>, infos: seq<JavaFileInfo>)
    requires |infos| == |paths|
    requires forall k :: 0 <= k < |paths| ==>
               parse(paths[k]).Some? && infos[k] == Record(paths[k], parse(paths[k]).value)
    ensures Run(paths, parse) == Ok(infos)
  {
    assert AllParse(paths, parse);
    var r := Run(paths, parse);
    assert |r.value| == |infos|;
    assert forall k :: 0 <= k < |infos| ==> r.value[k] == infos[k];
    assert r.value == infos;
  }

  /** The loop of the entry point: records are collected in path order; the
      first file that does not parse ends the run. */
  method RunAll(paths: seq<string>, parse: string -> Option<CompilationUnit>)
    returns (r: Result<seq<JavaFileInfo>>)
    ensures r == Run(paths, parse)
  {
    var infos: seq<JavaFileInfo> := [];
    for i := 0 to |paths|
      invariant |infos| == i
      invariant forall k :: 0 <= k < i ==>
                  parse(paths[k]).Some? && infos[k] == Record(paths[k], parse(paths[k]).value)
    {
      var info := NewFileInfo(paths[i]);
      var parsed := parse(paths[i]);
      if parsed.None? {
        RunFailsAt(paths, parse, i);
        return Err(ParseError(paths[i]));
      }
      info := ExtractAndPrintInfo(parsed.value, info);
      assert [] + Extract(parsed.value) == Extract(parsed.value);
      infos := infos + [info];
    }
    RunSucceeds(paths, parse, infos);
    r := Ok(infos);
  }

}
