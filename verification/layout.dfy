/** The layout of one descriptor line, `String.format("%-10s %-20s %s", …)`:
    the visibility word left-justified in 10 columns, a space, the kind word
    left-justified in 20 columns, a space, then the signature or name. */
module Layout {
  import opened Opt
  import opened Classifier

  /** The kind column of a descriptor line. */
  datatype Kind = ClassLine | MethodLine | VariableLine | ConstructorLine | InnerClassLine

  function KindWord(k: Kind): (w: string)
    ensures 0 < |w| < 20 && w[|w| - 1] != ' '
  {
    match k
    case ClassLine => "Class"
    case MethodLine => "Method"
    case VariableLine => "Variable"
    case ConstructorLine => "Constructor"
    case InnerClassLine => "Inner Class"
  }

  /** Position of a kind in the output order of one type declaration. */
  function Rank(k: Kind): (n: nat) {
    match k
    case ClassLine => 0
    case MethodLine => 1
    case VariableLine => 2
    case ConstructorLine => 3
    case InnerClassLine => 4
  }

  /** A descriptor before it is rendered: (visibility, kind, text). */
  datatype Descriptor = Descriptor(visibility: Visibility, kind: Kind, text: string)

  const VisibilityWidth: nat := 10
  const KindWidth: nat := 20

  /** Column where the signature or name starts. */
  const TextColumn: nat := VisibilityWidth + 1 + KindWidth + 1

  function Spaces(n: nat): (s: string)
    ensures |s| == n
    ensures forall i :: 0 <= i < n ==> s[i] == ' '
  {
    seq(n, _ => ' ')
  }

  /** `%-Ns`: append spaces up to `width` characters; never truncate. */
  function PadRight(s: string, width: nat): (r: string)
    ensures |r| == if |s| < width then width else |s|
    ensures r[..|s|] == s
    ensures forall i :: |s| <= i < |r| ==> r[i] == ' '
  {
    if |s| < width then s + Spaces(width - |s|) else s
  }

  /** Drop trailing spaces. */
  function TrimRight(s: string): (r: string)
    ensures |r| <= |s| && r == s[..|r|]
    ensures |r| == 0 || r[|r| - 1] != ' '
    decreases |s|
  {
    if |s| > 0 && s[|s| - 1] == ' ' then TrimRight(s[..|s| - 1]) else s
  }

  lemma {:induction false} TrimSpaces(s: string, n: nat)
    requires |s| == 0 || s[|s| - 1] != ' '
    ensures TrimRight(s + Spaces(n)) == s
    decreases n
  {
    if n > 0 {
      assert (s + Spaces(n))[..|s| + n - 1] == s + Spaces(n - 1);
      TrimSpaces(s, n - 1);
    } else {
      assert s + Spaces(n) == s;
    }
  }

  /** Padding is undone by trimming, for a word that does not end in a space. */
  lemma TrimPad(s: string, width: nat)
    requires |s| == 0 || s[|s| - 1] != ' '
    ensures TrimRight(PadRight(s, width)) == s
  {
    if |s| < width {
      TrimSpaces(s, width - |s|);
    }
  }

  /** The rendered line. */
  function FormatLine(d: Descriptor): (line: string) {
    PadRight(VisibilityWord(d.visibility), VisibilityWidth) + " "
      + PadRight(KindWord(d.kind), KindWidth) + " "
      + d.text
  }

  /** The columns of a rendered line: every visibility and kind word is
      shorter than its column, so the two padded columns are exactly 10 and
      20 characters wide, each followed by one space, and the text follows
      unchanged. */
  lemma LineLayout(d: Descriptor)
    ensures |FormatLine(d)| == TextColumn + |d.text|
    ensures FormatLine(d)[..VisibilityWidth] == PadRight(VisibilityWord(d.visibility), VisibilityWidth)
    ensures FormatLine(d)[VisibilityWidth] == ' '
    ensures FormatLine(d)[VisibilityWidth + 1..TextColumn - 1] == PadRight(KindWord(d.kind), KindWidth)
    ensures FormatLine(d)[TextColumn - 1] == ' '
    ensures FormatLine(d)[TextColumn..] == d.text
  {
    var vis := PadRight(VisibilityWord(d.visibility), VisibilityWidth);
    var kind := PadRight(KindWord(d.kind), KindWidth);
    var line := FormatLine(d);
    assert |vis| == VisibilityWidth && |kind| == KindWidth;
    assert line == vis + " " + kind + " " + d.text;
    assert line[..VisibilityWidth] == vis;
    assert line[VisibilityWidth + 1..TextColumn - 1] == kind;
    assert line[TextColumn..] == d.text;
  }

  function VisibilityOfWord(w: string): (v: Option<Visibility>) {
    if w == "public" then Some(Public)
    else if w == "private" then Some(Private)
    else if w == "other" then Some(Other)
    else None
  }

  function KindOfWord(w: string): (k: Option<Kind>) {
    if w == "Class" then Some(ClassLine)
    else if w == "Method" then Some(MethodLine)
    else if w == "Variable" then Some(VariableLine)
    else if w == "Constructor" then Some(ConstructorLine)
    else if w == "Inner Class" then Some(InnerClassLine)
    else None
  }

  /** Read a descriptor line back into its three fields. */
  function ParseLine(line: string): (d: Option<Descriptor>) {
    if |line| < TextColumn || line[VisibilityWidth] != ' ' || line[TextColumn - 1] != ' ' then None
    else
      match (VisibilityOfWord(TrimRight(line[..VisibilityWidth])),
             KindOfWord(TrimRight(line[VisibilityWidth + 1..TextColumn - 1])))
      case (Some(v), Some(k)) => Some(Descriptor(v, k, line[TextColumn..]))
      case _ => None
  }

  /** Every rendered line reads back as the descriptor it came from. */
  lemma ParseFormat(d: Descriptor)
    ensures ParseLine(FormatLine(d)) == Some(d)
  {
    var line := FormatLine(d);
    LineLayout(d);
    TrimPad(VisibilityWord(d.visibility), VisibilityWidth);
    TrimPad(KindWord(d.kind), KindWidth);
    assert VisibilityOfWord(VisibilityWord(d.visibility)) == Some(d.visibility);
    assert KindOfWord(KindWord(d.kind)) == Some(d.kind);
  }

  /** Hence distinct descriptors render as distinct lines. */
  lemma FormatInjective(d: Descriptor, e: Descriptor)
    requires FormatLine(d) == FormatLine(e)
    ensures d == e
  {
    ParseFormat(d);
    ParseFormat(e);
  }
}
