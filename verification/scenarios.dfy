/** A worked example: `public class Foo { private int x; public void bar() {} }`. */
module Scenarios {
  import opened Ast
  import opened Classifier
  import opened Layout
  import opened Extractor

  const FooField: Member := Field(["x"], Keywords([PRIVATE]))
  const FooMethod: Member := Method("bar()", Keywords([PUBLIC]))
  const Foo: TypeDecl := TypeDecl("Foo", Keywords([PUBLIC]), [FooField, FooMethod])

  lemma FooFilters()
    ensures Methods(Foo) == [FooMethod]
    ensures Fields(Foo) == [FooField]
    ensures Constructors(Foo) == []
    ensures InnerClasses(Foo) == []
  {
    var ms := Foo.members;
    assert ms[..1] == [FooField];
    assert ms[..1][..0] == [];
    assert ms[1] == FooMethod;
    forall k: MemberKind
      ensures OfKind(ms, k)
           == (if KindOf(FooField) == k then [FooField] else [])
            + (if KindOf(FooMethod) == k then [FooMethod] else [])
    {
      assert OfKind(ms[..1], k) == OfKind([], k) + (if KindOf(FooField) == k then [FooField] else []);
    }
  }

  lemma FooDescriptors()
    ensures ExtractType(Foo)
         == [Descriptor(Public, ClassLine, "Foo"),
             Descriptor(Public, MethodLine, "bar()"),
             Descriptor(Private, VariableLine, "x")]
  {
    FooFilters();
    assert [FooMethod][..0] == [];
    assert DescribeAll([FooMethod]) == [Descriptor(Public, MethodLine, "bar()")];
    assert [FooField][..0] == [];
    assert DescribeAll([FooField]) == [Descriptor(Private, VariableLine, "x")];
  }

  lemma Rendered(v: Visibility, k: Kind, text: string, vis: string, kind: string)
    requires vis == PadRight(VisibilityWord(v), VisibilityWidth)
    requires kind == PadRight(KindWord(k), KindWidth)
    ensures FormatLine(Descriptor(v, k, text)) == vis + " " + kind + " " + text
  {
  }

  lemma PadPublic()
    ensures PadRight("public", VisibilityWidth) == "public    "
  {
  }

  lemma PadPrivate()
    ensures PadRight("private", VisibilityWidth) == "private   "
  {
  }

  lemma PadClass()
    ensures PadRight("Class", KindWidth) == "Class               "
  {
  }

  lemma PadMethod()
    ensures PadRight("Method", KindWidth) == "Method              "
  {
  }

  lemma PadVariable()
    ensures PadRight("Variable", KindWidth) == "Variable            "
  {
  }

  lemma ClassLineOfFoo()
    ensures FormatLine(Descriptor(Public, ClassLine, "Foo")) == "public     Class                Foo"
  {
    PadPublic();
    PadClass();
    Rendered(Public, ClassLine, "Foo", "public    ", "Class               ");
  }

  lemma MethodLineOfBar()
    ensures FormatLine(Descriptor(Public, MethodLine, "bar()")) == "public     Method               bar()"
  {
    PadPublic();
    PadMethod();
    Rendered(Public, MethodLine, "bar()", "public    ", "Method              ");
  }

  lemma VariableLineOfX()
    ensures FormatLine(Descriptor(Private, VariableLine, "x")) == "private    Variable             x"
  {
    PadPrivate();
    PadVariable();
    Rendered(Private, VariableLine, "x", "private   ", "Variable            ");
  }

  lemma RenderOne(a: Descriptor)
    ensures Render([a]) == [FormatLine(a)]
  {
    assert [a][..0] == [];
  }

  lemma RenderTwo(a: Descriptor, b: Descriptor)
    ensures Render([a, b]) == [FormatLine(a), FormatLine(b)]
  {
    RenderOne(a);
    assert [a, b][..1] == [a];
  }

  lemma RenderThree(a: Descriptor, b: Descriptor, c: Descriptor)
    ensures Render([a, b, c]) == [FormatLine(a), FormatLine(b), FormatLine(c)]
  {
    RenderTwo(a, b);
    assert [a, b, c][..2] == [a, b];
  }

  lemma FooUnitDescriptors()
    ensures ExtractDescriptors(CompilationUnit([Foo]))
         == [Descriptor(Public, ClassLine, "Foo"),
             Descriptor(Public, MethodLine, "bar()"),
             Descriptor(Private, VariableLine, "x")]
  {
    FooDescriptors();
    assert [Foo][..0] == [];
    assert Blocks([Foo]) == [ExtractType(Foo)];
    assert Flatten([ExtractType(Foo)]) == ExtractType(Foo) + Flatten([]);
  }

  /** The Method line comes before the Variable line although the field is
      declared first. */
  lemma FooExample()
    ensures Extract(CompilationUnit([Foo]))
         == ["public     Class                Foo",
             "public     Method               bar()",
             "private    Variable             x"]
  {
    FooUnitDescriptors();
    RenderThree(Descriptor(Public, ClassLine, "Foo"),
                Descriptor(Public, MethodLine, "bar()"),
                Descriptor(Private, VariableLine, "x"));
    ClassLineOfFoo();
    MethodLineOfBar();
    VariableLineOfX();
  }
}
