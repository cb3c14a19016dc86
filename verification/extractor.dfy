/** extractAndPrintInfo: for each type declaration of a compilation unit, in
    order, one Class line, then its Method lines, Variable lines,
    Constructor lines and Inner Class lines, each group in declaration
    order. The walk is one level deep: a nested class contributes its own
    line and nothing from its body. */
module Extractor {
  import opened Ast
  import opened Classifier
  import opened Layout
  import opened FieldNames
  import opened FileInfo

  /** Members for which a descriptor line is written. */
  predicate Reported(k: MemberKind) {
    k != OtherTypeMember && k != OtherKindMember
  }

  predicate Describable(m: Member) {
    Reported(KindOf(m))
  }

  predicate AllDescribable(ms: seq<Member>) {
    forall i :: 0 <= i < |ms| ==> Describable(ms[i])
  }

  /** The descriptor of a top-level type: its visibility and its name. */
  function ClassDescriptor(t: TypeDecl): (d: Descriptor) {
    Descriptor(ExtractVisibility(t.modifiers), ClassLine, t.name)
  }

  /** The descriptor of a nested class or interface: its visibility and its name. */
  function InnerClassDescriptor(t: TypeDecl): (d: Descriptor) {
    Descriptor(ExtractVisibility(t.modifiers), InnerClassLine, t.name)
  }

  /** The descriptor of one member. */
  function Describe(m: Member): (d: Descriptor)
    requires Describable(m)
  {
    match m
    case Method(sig, mods) => Descriptor(ExtractVisibility(mods), MethodLine, sig)
    case Field(names, mods) => Descriptor(ExtractVisibility(mods), VariableLine, FieldText(names))
    case Constructor(sig, mods) => Descriptor(ExtractVisibility(mods), ConstructorLine, sig)
    case NestedClassOrInterface(d) => InnerClassDescriptor(d)
  }

  /** The line kind each member kind is reported under. */
  function LineKind(k: MemberKind): (kind: Kind)
    requires Reported(k)
  {
    match k
    case MethodMember => MethodLine
    case FieldMember => VariableLine
    case ConstructorMember => ConstructorLine
    case ClassOrInterfaceMember => InnerClassLine
  }

  /** The descriptors of a list of members, one per member, in order. */
  function DescribeAll(ms: seq<Member>): (ds: seq<Descriptor>)
    requires AllDescribable(ms)
    ensures |ds| == |ms|
    decreases |ms|
  {
    if |ms| == 0 then [] else DescribeAll(ms[..|ms| - 1]) + [Describe(ms[|ms| - 1])]
  }

  /** Descriptor `i` describes member `i`. */
  lemma {:induction false} DescribeAt(ms: seq<Member>, i: int)
    requires AllDescribable(ms) && 0 <= i < |ms|
    ensures DescribeAll(ms)[i] == Describe(ms[i])
    decreases |ms|
  {
    if i < |ms| - 1 {
      DescribeAt(ms[..|ms| - 1], i);
    }
  }

  lemma DescribeAllSnoc(ms: seq<Member>, m: Member)
    requires AllDescribable(ms) && Describable(m)
    ensures AllDescribable(ms + [m])
    ensures DescribeAll(ms + [m]) == DescribeAll(ms) + [Describe(m)]
  {
    assert (ms + [m])[..|ms|] == ms;
  }

  /** The lines for the members of one describable kind, in declaration order. */
  function LinesOfKind(ms: seq<Member>, k: MemberKind): (ds: seq<Descriptor>)
    requires Reported(k)
  {
    DescribeAll(OfKind(ms, k))
  }


  /** The descriptors written for one top-level type declaration. */
  function ExtractType(t: TypeDecl): (ds: seq<Descriptor>) {
    [ClassDescriptor(t)]
      + DescribeAll(Methods(t))
      + DescribeAll(Fields(t))
      + DescribeAll(Constructors(t))
      + DescribeAll(InnerClasses(t))
  }

  /** One block of lines per type declaration, in order. */
  function Blocks(types: seq<TypeDecl>): (bs: seq<seq<Descriptor>>)
    ensures |bs| == |types|
    ensures forall i :: 0 <= i < |types| ==> bs[i] == ExtractType(types[i])
    decreases |types|
  {
    if |types| == 0 then [] else Blocks(types[..|types| - 1]) + [ExtractType(types[|types| - 1])]
  }

  function Flatten(bs: seq<seq<Descriptor>>): (ds: seq<Descriptor>)
    decreases |bs|
  {
    if |bs| == 0 then [] else bs[0] + Flatten(bs[1..])
  }

  lemma {:induction false} FlattenSnoc(bs: seq<seq<Descriptor>>, b: seq<Descriptor>)
    ensures Flatten(bs + [b]) == Flatten(bs) + b
    decreases |bs|
  {
    if |bs| == 0 {
      assert Flatten([b]) == b + Flatten([]);
    } else {
      assert (bs + [b])[1..] == bs[1..] + [b];
      FlattenSnoc(bs[1..], b);
    }
  }

  /** The descriptors of a whole compilation unit, type after type. */
  function ExtractDescriptors(cu: CompilationUnit): (ds: seq<Descriptor>) {
    Flatten(Blocks(cu.types))
  }

  /** The rendered lines, one per descriptor, in order. */
  function Render(ds: seq<Descriptor>): (lines: seq<string>)
    ensures |lines| == |ds|
    decreases |ds|
  {
    if |ds| == 0 then [] else Render(ds[..|ds| - 1]) + [FormatLine(ds[|ds| - 1])]
  }

  /** Line `i` is the rendering of descriptor `i`. */
  lemma {:induction false} RenderAt(ds: seq<Descriptor>, i: int)
    requires 0 <= i < |ds|
    ensures Render(ds)[i] == FormatLine(ds[i])
    decreases |ds|
  {
    if i < |ds| - 1 {
      RenderAt(ds[..|ds| - 1], i);
    }
  }

  lemma {:induction false} RenderAppend(a: seq<Descriptor>, b: seq<Descriptor>)
    ensures Render(a + b) == Render(a) + Render(b)
    decreases |b|
  {
    if |b| == 0 {
      assert a + b == a;
    } else {
      var b' := b[..|b| - 1];
      assert (a + b)[..|a + b| - 1] == a + b';
      RenderAppend(a, b');
    }
  }

  lemma RenderSnoc(ds: seq<Descriptor>, d: Descriptor)
    ensures Render(ds + [d]) == Render(ds) + [FormatLine(d)]
  {
    assert (ds + [d])[..|ds|] == ds;
  }

  /** The lines extractAndPrintInfo adds to a file's record. */
  function Extract(cu: CompilationUnit): (lines: seq<string>) {
    Render(ExtractDescriptors(cu))
  }

  /** Every line of a unit has the columns of its descriptor: the padded
      visibility word, a space, the padded kind word, a space, the text. */
  lemma ExtractLaidOut(cu: CompilationUnit, i: int)
    requires 0 <= i < |Extract(cu)|
    ensures var d := ExtractDescriptors(cu)[i];
            var line := Extract(cu)[i];
            && |line| == TextColumn + |d.text|
            && line[..VisibilityWidth] == PadRight(VisibilityWord(d.visibility), VisibilityWidth)
            && line[VisibilityWidth] == ' '
            && line[VisibilityWidth + 1..TextColumn - 1] == PadRight(KindWord(d.kind), KindWidth)
            && line[TextColumn - 1] == ' '
            && line[TextColumn..] == d.text
  {
    var ds := ExtractDescriptors(cu);
    RenderAt(ds, i);
    LineLayout(ds[i]);
  }

  // ---------------------------------------------------------------------
  // Counting

  /** A type contributes one line for itself and one per method, field
      statement, constructor and nested class or interface; other members,
      nested enums, records and annotation types included, contribute none. */
  lemma LineCount(t: TypeDecl)
    ensures |ExtractType(t)|
         == 1 + |Methods(t)| + |Fields(t)| + |Constructors(t)| + |InnerClasses(t)|
    ensures |ExtractType(t)|
         == 1 + |t.members| - |OfKind(t.members, OtherTypeMember)| - |OfKind(t.members, OtherKindMember)|
  {
    KindsPartition(t.members);
  }

  // ---------------------------------------------------------------------
  // Ordering

  /** A block opens with its Class line and holds no other Class line. */
  predicate WellFormedBlock(b: seq<Descriptor>) {
    |b| > 0 && b[0].kind == ClassLine
    && forall i :: 1 <= i < |b| ==> b[i].kind != ClassLine
  }

  /** Kinds never decrease along the sequence. */
  predicate SortedByKind(ds: seq<Descriptor>) {
    forall i, j :: 0 <= i < j < |ds| ==> Rank(ds[i].kind) <= Rank(ds[j].kind)
  }

  predicate Uniform(ds: seq<Descriptor>, kind: Kind) {
    forall i :: 0 <= i < |ds| ==> ds[i].kind == kind
  }

  predicate RanksAtMost(ds: seq<Descriptor>, r: nat) {
    forall i :: 0 <= i < |ds| ==> Rank(ds[i].kind) <= r
  }

  lemma {:induction false} DescribeAllUniform(ms: seq<Member>, k: MemberKind)
    requires Reported(k)
    requires forall i :: 0 <= i < |ms| ==> KindOf(ms[i]) == k
    ensures Uniform(DescribeAll(ms), LineKind(k))
    decreases |ms|
  {
    if |ms| > 0 {
      DescribeAllUniform(ms[..|ms| - 1], k);
    }
  }

  /** Every line written for members of kind `k` carries that kind's word. */
  lemma LinesOfKindUniform(ms: seq<Member>, k: MemberKind)
    requires Reported(k)
    ensures Uniform(LinesOfKind(ms, k), LineKind(k))
  {
    DescribeAllUniform(OfKind(ms, k), k);
  }

  /** Appending a group of one kind, of rank at least every rank so far. */
  lemma SortedAppendGroup(a: seq<Descriptor>, b: seq<Descriptor>, kind: Kind)
    requires SortedByKind(a) && RanksAtMost(a, Rank(kind)) && Uniform(b, kind)
    ensures SortedByKind(a + b) && RanksAtMost(a + b, Rank(kind))
  {
  }

  /** Five groups of the five kinds, in rank order, with one Class line. */
  lemma GroupsOrdered(c: Descriptor, m: seq<Descriptor>, f: seq<Descriptor>,
                      k: seq<Descriptor>, n: seq<Descriptor>)
    requires c.kind == ClassLine
    requires Uniform(m, MethodLine) && Uniform(f, VariableLine)
    requires Uniform(k, ConstructorLine) && Uniform(n, InnerClassLine)
    ensures WellFormedBlock([c] + m + f + k + n)
    ensures SortedByKind([c] + m + f + k + n)
  {
    SortedAppendGroup([c], m, MethodLine);
    SortedAppendGroup([c] + m, f, VariableLine);
    SortedAppendGroup([c] + m + f, k, ConstructorLine);
    SortedAppendGroup([c] + m + f + k, n, InnerClassLine);
    var ds := [c] + m + f + k + n;
    assert forall i :: 1 <= i < |ds| ==> Rank(ds[0].kind) <= Rank(ds[i].kind);
    assert forall i :: 1 <= i < |ds| ==> ds[i] == (m + f + k + n)[i - 1];
  }

  /** The lines of one type come in the order Class, Methods, Variables,
      Constructors, Inner Classes, with the Class line first and alone. */
  lemma KindsOrdered(t: TypeDecl)
    ensures WellFormedBlock(ExtractType(t))
    ensures SortedByKind(ExtractType(t))
  {
    LinesOfKindUniform(t.members, MethodMember);
    LinesOfKindUniform(t.members, FieldMember);
    LinesOfKindUniform(t.members, ConstructorMember);
    LinesOfKindUniform(t.members, ClassOrInterfaceMember);
    GroupsOrdered(ClassDescriptor(t), DescribeAll(Methods(t)), DescribeAll(Fields(t)),
      DescribeAll(Constructors(t)), DescribeAll(InnerClasses(t)));
  }

  /** The lines of kind `k`, in order. */
  function Select(ds: seq<Descriptor>, k: Kind): (r: seq<Descriptor>)
    decreases |ds|
  {
    if |ds| == 0 then []
    else Select(ds[..|ds| - 1], k) + (if ds[|ds| - 1].kind == k then [ds[|ds| - 1]] else [])
  }

  lemma {:induction false} SelectAppend(a: seq<Descriptor>, b: seq<Descriptor>, k: Kind)
    ensures Select(a + b, k) == Select(a, k) + Select(b, k)
    decreases |b|
  {
    if |b| == 0 {
      assert a + b == a;
    } else {
      var b' := b[..|b| - 1];
      assert (a + b)[..|a + b| - 1] == a + b';
      SelectAppend(a, b', k);
    }
  }

  /** On lines of a single kind, selection keeps all or nothing. */
  lemma {:induction false} SelectUniform(ds: seq<Descriptor>, j: Kind, k: Kind)
    requires Uniform(ds, j)
    ensures Select(ds, k) == if j == k then ds else []
    decreases |ds|
  {
    if |ds| > 0 {
      SelectUniform(ds[..|ds| - 1], j, k);
    }
  }

  /** Selecting one kind out of five uniform groups. */
  lemma SelectGroups(c: Descriptor, m: seq<Descriptor>, f: seq<Descriptor>,
                     k: seq<Descriptor>, n: seq<Descriptor>, kind: Kind)
    requires c.kind == ClassLine
    requires Uniform(m, MethodLine) && Uniform(f, VariableLine)
    requires Uniform(k, ConstructorLine) && Uniform(n, InnerClassLine)
    ensures Select([c] + m + f + k + n, kind)
         == (if kind == ClassLine then [c] else [])
          + (if kind == MethodLine then m else [])
          + (if kind == VariableLine then f else [])
          + (if kind == ConstructorLine then k else [])
          + (if kind == InnerClassLine then n else [])
  {
    SelectAppend([c], m, kind);
    SelectAppend([c] + m, f, kind);
    SelectAppend([c] + m + f, k, kind);
    SelectAppend([c] + m + f + k, n, kind);
    SelectUniform([c], ClassLine, kind);
    SelectUniform(m, MethodLine, kind);
    SelectUniform(f, VariableLine, kind);
    SelectUniform(k, ConstructorLine, kind);
    SelectUniform(n, InnerClassLine, kind);
  }

  /** Taken kind by kind, the lines of a type are exactly its class line and
      the descriptors of its methods, fields, constructors and nested
      classes, each in declaration order. Together with KindsOrdered this
      fixes the whole sequence. */
  lemma SelectByKind(t: TypeDecl)
    ensures Select(ExtractType(t), ClassLine) == [ClassDescriptor(t)]
    ensures Select(ExtractType(t), MethodLine) == DescribeAll(Methods(t))
    ensures Select(ExtractType(t), VariableLine) == DescribeAll(Fields(t))
    ensures Select(ExtractType(t), ConstructorLine) == DescribeAll(Constructors(t))
    ensures Select(ExtractType(t), InnerClassLine) == DescribeAll(InnerClasses(t))
  {
    SelectOfType(t, ClassLine);
    SelectOfType(t, MethodLine);
    SelectOfType(t, VariableLine);
    SelectOfType(t, ConstructorLine);
    SelectOfType(t, InnerClassLine);
  }

  /** The group of a type's lines that has the given kind. */
  function KindGroup(t: TypeDecl, kind: Kind): (ds: seq<Descriptor>) {
    match kind
    case ClassLine => [ClassDescriptor(t)]
    case MethodLine => DescribeAll(Methods(t))
    case VariableLine => DescribeAll(Fields(t))
    case ConstructorLine => DescribeAll(Constructors(t))
    case InnerClassLine => DescribeAll(InnerClasses(t))
  }

  lemma SelectOfType(t: TypeDecl, kind: Kind)
    ensures Select(ExtractType(t), kind) == KindGroup(t, kind)
  {
    var c := ClassDescriptor(t);
    var m := DescribeAll(Methods(t));
    var f := DescribeAll(Fields(t));
    var k := DescribeAll(Constructors(t));
    var n := DescribeAll(InnerClasses(t));
    LinesOfKindUniform(t.members, MethodMember);
    LinesOfKindUniform(t.members, FieldMember);
    LinesOfKindUniform(t.members, ConstructorMember);
    LinesOfKindUniform(t.members, ClassOrInterfaceMember);
    assert ExtractType(t) == [c] + m + f + k + n;
    SelectGroups(c, m, f, k, n, kind);
    match kind {
      case ClassLine => assert [c] + [] + [] + [] + [] == [c];
      case MethodLine => assert [] + m + [] + [] + [] == m;
      case VariableLine => assert [] + [] + f + [] + [] == f;
      case ConstructorLine => assert [] + [] + [] + k + [] == k;
      case InnerClassLine => assert [] + [] + [] + [] + n == n;
    }
  }

  /** Within a type, the `i`-th line of a reported member kind describes the
      `i`-th member of that kind in declaration order. */
  lemma KindLineAt(t: TypeDecl, k: MemberKind, i: int)
    requires Reported(k) && 0 <= i < |OfKind(t.members, k)|
    ensures i < |Select(ExtractType(t), LineKind(k))|
    ensures Select(ExtractType(t), LineKind(k))[i] == Describe(OfKind(t.members, k)[i])
  {
    SelectOfType(t, LineKind(k));
    assert KindGroup(t, LineKind(k)) == LinesOfKind(t.members, k);
    DescribeAt(OfKind(t.members, k), i);
  }

  // ---------------------------------------------------------------------
  // One level deep

  /** Two members that look alike from outside: equal, or nested classes
      with the same name and modifiers (whatever their bodies), or nested
      types of another kind. */
  predicate SameSurface(a: Member, b: Member) {
    if a.NestedClassOrInterface? then
      b.NestedClassOrInterface? && a.decl.name == b.decl.name && a.decl.modifiers == b.decl.modifiers
    else if a.NestedOtherType? then b.NestedOtherType?
    else a == b
  }

  predicate SameSurfaceAll(ms: seq<Member>, ns: seq<Member>) {
    |ms| == |ns| && forall i :: 0 <= i < |ms| ==> SameSurface(ms[i], ns[i])
  }

  lemma SurfaceDescribe(m: Member, n: Member)
    requires SameSurface(m, n)
    ensures KindOf(m) == KindOf(n)
    ensures Describable(m) ==> Describable(n) && Describe(m) == Describe(n)
  {
  }

  lemma {:induction false} SurfaceLines(ms: seq<Member>, ns: seq<Member>, k: MemberKind)
    requires Reported(k)
    requires SameSurfaceAll(ms, ns)
    ensures LinesOfKind(ms, k) == LinesOfKind(ns, k)
    decreases |ms|
  {
    if |ms| > 0 {
      var ms', ns' := ms[..|ms| - 1], ns[..|ns| - 1];
      var m, n := ms[|ms| - 1], ns[|ns| - 1];
      assert SameSurfaceAll(ms', ns');
      SurfaceLines(ms', ns', k);
      SurfaceDescribe(m, n);
      if KindOf(m) == k {
        assert OfKind(ms, k) == OfKind(ms', k) + [m];
        assert OfKind(ns, k) == OfKind(ns', k) + [n];
        DescribeAllSnoc(OfKind(ms', k), m);
        DescribeAllSnoc(OfKind(ns', k), n);
      } else {
        assert OfKind(ms, k) == OfKind(ms', k);
        assert OfKind(ns, k) == OfKind(ns', k);
      }
    }
  }

  /** The extractor never looks inside a nested type: changing the body of
      any nested class, or anything about a nested enum, record or
      annotation type, leaves the output unchanged. */
  lemma NotRecursive(t: TypeDecl, u: TypeDecl)
    requires t.name == u.name && t.modifiers == u.modifiers
    requires SameSurfaceAll(t.members, u.members)
    ensures ExtractType(t) == ExtractType(u)
  {
    SurfaceLines(t.members, u.members, MethodMember);
    SurfaceLines(t.members, u.members, FieldMember);
    SurfaceLines(t.members, u.members, ConstructorMember);
    SurfaceLines(t.members, u.members, ClassOrInterfaceMember);
  }

  // ---------------------------------------------------------------------
  // Type after type

  /** Index of the first Class line at or after `from`, or |ds|. */
  function NextClass(ds: seq<Descriptor>, from: nat): (j: nat)
    requires from <= |ds|
    ensures from <= j <= |ds|
    ensures forall i :: from <= i < j ==> ds[i].kind != ClassLine
    ensures j < |ds| ==> ds[j].kind == ClassLine
    decreases |ds| - from
  {
    if from == |ds| || ds[from].kind == ClassLine then from else NextClass(ds, from + 1)
  }

  /** Cut a line sequence before every Class line after the first. */
  function Group(ds: seq<Descriptor>): (bs: seq<seq<Descriptor>>)
    decreases |ds|
  {
    if |ds| == 0 then []
    else
      var j := NextClass(ds, 1);
      [ds[..j]] + Group(ds[j..])
  }

  /** Cutting the flattened blocks at Class lines gives back the blocks:
      the lines of each type are contiguous and in type order. */
  lemma {:induction false} GroupFlatten(bs: seq<seq<Descriptor>>)
    requires forall i :: 0 <= i < |bs| ==> WellFormedBlock(bs[i])
    ensures Group(Flatten(bs)) == bs
    decreases |bs|
  {
    if |bs| > 0 {
      var b := bs[0];
      var rest := Flatten(bs[1..]);
      var ds := b + rest;
      assert Flatten(bs) == ds;
      assert |bs| > 1 ==> rest == bs[1] + Flatten(bs[2..]);
      assert forall i :: 1 <= i < |b| ==> ds[i] == b[i];
      assert |b| < |ds| ==> ds[|b|] == rest[0] == bs[1][0];
      var j := NextClass(ds, 1);
      assert j == |b|;
      assert ds[..j] == b;
      assert ds[j..] == rest;
      GroupFlatten(bs[1..]);
      assert bs == [b] + bs[1..];
    }
  }

  /** The output of a compilation unit splits back into one block per
      top-level type, in source order, each block being that type's lines. */
  lemma TypesInOrder(cu: CompilationUnit)
    ensures Group(ExtractDescriptors(cu)) == Blocks(cu.types)
  {
    var bs := Blocks(cu.types);
    forall i | 0 <= i < |bs|
      ensures WellFormedBlock(bs[i])
    {
      KindsOrdered(cu.types[i]);
    }
    GroupFlatten(bs);
  }

  /** Total count: the sum of the per-type counts. */
  function TotalLines(types: seq<TypeDecl>): (n: nat)
    decreases |types|
  {
    if |types| == 0 then 0 else |ExtractType(types[0])| + TotalLines(types[1..])
  }

  lemma {:induction false} ExtractLength(cu: CompilationUnit)
    ensures |Extract(cu)| == TotalLines(cu.types)
    ensures |Extract(cu)| >= |cu.types|
    decreases |cu.types|
  {
    if |cu.types| > 0 {
      var rest := CompilationUnit(cu.types[1..]);
      ExtractLength(rest);
      assert Blocks(cu.types)[1..] == Blocks(rest.types);
    }
  }

  // ---------------------------------------------------------------------
  // The loops of extractAndPrintInfo, adding lines to a file record

  lemma AppendAssoc<T>(a: seq<T>, b: seq<T>, c: seq<T>)
    ensures a + b + c == a + (b + c)
  {
  }

  lemma MemberStep(ms: seq<Member>, j: nat)
    requires j < |ms| && AllDescribable(ms)
    ensures AllDescribable(ms[..j]) && AllDescribable(ms[..j + 1])
    ensures Render(DescribeAll(ms[..j + 1])) == Render(DescribeAll(ms[..j])) + [FormatLine(Describe(ms[j]))]
  {
    assert ms[..j + 1] == ms[..j] + [ms[j]];
    DescribeAllSnoc(ms[..j], ms[j]);
    RenderSnoc(DescribeAll(ms[..j]), Describe(ms[j]));
  }

  /** One of the loops over getMethods, getFields or getConstructors. */
  method AddMemberLines(info: JavaFileInfo, ms: seq<Member>) returns (out: JavaFileInfo)
    requires AllDescribable(ms)
    ensures out.filePath == info.filePath
    ensures out.details == info.details + Render(DescribeAll(ms))
  {
    out := info;
    for j := 0 to |ms|
      invariant out.filePath == info.filePath
      invariant out.details == info.details + Render(DescribeAll(ms[..j]))
    {
      var line := FormatLine(Describe(ms[j]));
      AddDetailIsAppend(out, line);
      MemberStep(ms, j);
      AppendAssoc(info.details, Render(DescribeAll(ms[..j])), [line]);
      out := AddDetail(out, line);
    }
    assert ms[..|ms|] == ms;
  }

  /** A nested class or interface adds its line after those so far. */
  lemma InnerStepClass(before: seq<string>, members: seq<Member>, j: nat, line: string)
    requires j < |members| && members[j].NestedClassOrInterface?
    requires line == FormatLine(Describe(members[j]))
    ensures before + Render(LinesOfKind(members[..j + 1], ClassOrInterfaceMember))
         == before + Render(LinesOfKind(members[..j], ClassOrInterfaceMember)) + [line]
  {
    var prefix := members[..j + 1];
    var member := members[j];
    assert prefix[..|prefix| - 1] == members[..j];
    assert OfKind(prefix, ClassOrInterfaceMember) == OfKind(members[..j], ClassOrInterfaceMember) + [member];
    DescribeAllSnoc(OfKind(members[..j], ClassOrInterfaceMember), member);
    RenderSnoc(LinesOfKind(members[..j], ClassOrInterfaceMember), Describe(member));
    AppendAssoc(before, Render(LinesOfKind(members[..j], ClassOrInterfaceMember)), [line]);
  }

  /** Any other member adds no line. */
  lemma InnerStepOther(members: seq<Member>, j: nat)
    requires j < |members| && !members[j].NestedClassOrInterface?
    ensures LinesOfKind(members[..j + 1], ClassOrInterfaceMember) == LinesOfKind(members[..j], ClassOrInterfaceMember)
  {
    var prefix := members[..j + 1];
    assert prefix[..|prefix| - 1] == members[..j];
    assert OfKind(prefix, ClassOrInterfaceMember) == OfKind(members[..j], ClassOrInterfaceMember);
  }

  /** The loop over getMembers with its instanceof test. */
  method AddInnerClassLines(info: JavaFileInfo, members: seq<Member>) returns (out: JavaFileInfo)
    ensures out.filePath == info.filePath
    ensures out.details == info.details + Render(LinesOfKind(members, ClassOrInterfaceMember))
  {
    out := info;
    for j := 0 to |members|
      invariant out.filePath == info.filePath
      invariant out.details == info.details + Render(LinesOfKind(members[..j], ClassOrInterfaceMember))
    {
      var member := members[j];
      if member.NestedClassOrInterface? {
        var inner := member.decl;
        var line := FormatLine(InnerClassDescriptor(inner));
        InnerStepClass(info.details, members, j, line);
        AddDetailIsAppend(out, line);
        out := AddDetail(out, line);
      } else {
        // Any other member fails the instanceof test and adds no line.
        InnerStepOther(members, j);
      }
    }
    assert members[..|members|] == members;
  }

  /** One iteration of the outer loop: the lines of one type declaration. */
  method AddTypeLines(info: JavaFileInfo, t: TypeDecl) returns (out: JavaFileInfo)
    ensures out.filePath == info.filePath
    ensures out.details == info.details + Render(ExtractType(t))
  {
    ghost var c := [ClassDescriptor(t)];
    ghost var m := DescribeAll(Methods(t));
    ghost var f := DescribeAll(Fields(t));
    ghost var k := DescribeAll(Constructors(t));
    ghost var n := DescribeAll(InnerClasses(t));
    var line := FormatLine(ClassDescriptor(t));
    AddDetailIsAppend(info, line);
    out := AddDetail(info, line);
    assert Render(c) == [line];
    out := AddMemberLines(out, Methods(t));
    RenderAppend(c, m);
    AppendAssoc(info.details, Render(c), Render(m));
    out := AddMemberLines(out, Fields(t));
    RenderAppend(c + m, f);
    AppendAssoc(info.details, Render(c + m), Render(f));
    out := AddMemberLines(out, Constructors(t));
    RenderAppend(c + m + f, k);
    AppendAssoc(info.details, Render(c + m + f), Render(k));
    out := AddInnerClassLines(out, t.members);
    RenderAppend(c + m + f + k, n);
    AppendAssoc(info.details, Render(c + m + f + k), Render(n));
  }

  lemma TypeStep(before: seq<string>, types: seq<TypeDecl>, i: nat)
    requires i < |types|
    ensures before + Render(Flatten(Blocks(types[..i + 1])))
         == before + Render(Flatten(Blocks(types[..i]))) + Render(ExtractType(types[i]))
  {
    assert types[..i + 1][..i] == types[..i];
    FlattenSnoc(Blocks(types[..i]), ExtractType(types[i]));
    RenderAppend(Flatten(Blocks(types[..i])), ExtractType(types[i]));
    AppendAssoc(before, Render(Flatten(Blocks(types[..i]))), Render(ExtractType(types[i])));
  }

  /** extractAndPrintInfo: adds every line of the unit to the record, in
      order, and changes nothing else. */
  method ExtractAndPrintInfo(cu: CompilationUnit, info: JavaFileInfo) returns (out: JavaFileInfo)
    ensures out.filePath == info.filePath
    ensures out.details == info.details + Extract(cu)
  {
    out := info;
    var types := cu.types;
    for i := 0 to |types|
      invariant out.filePath == info.filePath
      invariant out.details == info.details + Render(Flatten(Blocks(types[..i])))
    {
      var t := types[i];
      TypeStep(info.details, types, i);
      out := AddTypeLines(out, t);
    }
    assert types[..|types|] == types;
  }
}
