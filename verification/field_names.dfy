/** The text of a field descriptor: the variable names of one field
    statement reduced left to right with `a + ", " + b`, or the placeholder
    "Unnamed" when the statement has no variables. */
module FieldNames {

  const Separator: string := ", "
  const Placeholder: string := "Unnamed"

  /** The stream reduction `(a, b) -> a + ", " + b`, a left fold. */
  function JoinNames(names: seq<string>): (r: string)
    requires |names| > 0
    decreases |names|
  {
    if |names| == 1 then names[0]
    else JoinNames(names[..|names| - 1]) + Separator + names[|names| - 1]
  }

  /** The reduction's result, or "Unnamed" when it is empty. */
  function FieldText(names: seq<string>): (r: string)
    ensures |names| == 0 ==> r == Placeholder
    ensures |names| == 1 ==> r == names[0]
  {
    if |names| == 0 then Placeholder else JoinNames(names)
  }

  /** Read from the front, the text is the first name, ", ", and the text
      of the remaining names. */
  lemma FieldTextCons(names: seq<string>)
    requires |names| >= 2
    ensures FieldText(names) == names[0] + Separator + FieldText(names[1..])
  {
    JoinFront(names);
  }

  /** The left fold can also be read from the front. */
  lemma {:induction false} JoinFront(names: seq<string>)
    requires |names| > 0
    ensures |names| >= 2 ==> JoinNames(names) == names[0] + Separator + JoinNames(names[1..])
    decreases |names|
  {
    if |names| > 2 {
      var init := names[..|names| - 1];
      JoinFront(init);
      assert init[1..] == names[1..][..|names[1..]| - 1];
      assert init[0] == names[0];
    } else if |names| == 2 {
      assert names[..1] == [names[0]];
    }
  }

  /** A Java identifier contains neither a comma nor a space. */
  predicate PlainName(n: string) {
    forall i :: 0 <= i < |n| ==> n[i] != ',' && n[i] != ' '
  }

  /** Index of the first comma, or |s|. */
  function FirstComma(s: string): (j: nat)
    ensures j <= |s|
    ensures forall i :: 0 <= i < j ==> s[i] != ','
    ensures j < |s| ==> s[j] == ','
    decreases |s|
  {
    if |s| == 0 then 0
    else if s[0] == ',' then 0
    else 1 + FirstComma(s[1..])
  }

  function DropSpace(s: string): (r: string)
    ensures |r| <= |s|
  {
    if |s| > 0 && s[0] == ' ' then s[1..] else s
  }

  /** Cut a field text back into names at each ", ". */
  function SplitNames(s: string): (r: seq<string>)
    ensures |r| > 0
    decreases |s|
  {
    var j := FirstComma(s);
    if j == |s| then [s]
    else [s[..j]] + SplitNames(DropSpace(s[j + 1..]))
  }

  /** One name, then the rest: the split takes the name off the front. */
  lemma SplitCons(n: string, rest: string)
    requires PlainName(n)
    ensures SplitNames(n + Separator + rest) == [n] + SplitNames(rest)
  {
    var s := n + Separator + rest;
    assert s[|n|] == ',';
    assert FirstComma(s) == |n|;
    assert s[..|n|] == n;
    assert s[|n| + 1..] == " " + rest;
    assert DropSpace(" " + rest) == rest;
  }

  lemma SplitPlain(n: string)
    requires PlainName(n)
    ensures SplitNames(n) == [n]
  {
  }

  /** Splitting a joined list of plain names gives back the names: the
      field text loses no name and adds none. */
  lemma {:induction false} SplitJoin(names: seq<string>)
    requires |names| > 0
    requires forall i :: 0 <= i < |names| ==> PlainName(names[i])
    ensures SplitNames(FieldText(names)) == names
    decreases |names|
  {
    if |names| == 1 {
      SplitPlain(names[0]);
    } else {
      FieldTextCons(names);
      SplitCons(names[0], FieldText(names[1..]));
      SplitJoin(names[1..]);
      assert names == [names[0]] + names[1..];
    }
  }

  /** The single placeholder is the only text an empty statement gives. */
  lemma UnnamedOnlyForEmpty(names: seq<string>)
    requires forall i :: 0 <= i < |names| ==> PlainName(names[i])
    requires FieldText(names) == Placeholder
    ensures names == [] || names == [Placeholder]
  {
    if |names| > 0 {
      SplitJoin(names);
      SplitPlain(Placeholder);
    }
  }
}
