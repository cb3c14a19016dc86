/** The part of a JavaParser syntax tree that the declaration extractor
    reads: the type declarations of a compilation unit, their modifier
    keywords and their direct members. Text that the parser library renders
    (method and constructor signatures) is kept as an opaque string. */
module Ast {

  /** Modifier keywords, as JavaParser's Modifier.Keyword enumerates them. */
  datatype Keyword =
    | DEFAULT | PUBLIC | PROTECTED | PRIVATE | ABSTRACT | STATIC | FINAL
    | TRANSIENT | VOLATILE | SYNCHRONIZED | NATIVE | STRICTFP | TRANSITIVE
    | SEALED | NON_SEALED

  /** The modifiers of a body declaration. `Unmodifiable` stands for a kind
      of declaration that carries no modifier list at all (one that is not a
      NodeWithModifiers); `Keywords` lists the modifiers written in source. */
  datatype Modifiers = Unmodifiable | Keywords(keywords: seq<Keyword>)

  /** A type declaration: class, interface, enum, record or annotation type. */
  datatype TypeDecl = TypeDecl(name: string, modifiers: Modifiers, members: seq<Member>)

  /** A direct member of a type declaration. A field statement declares a
      list of variable names (`int a, b;`). A nested class or interface is
      told apart from every other nested type (enum, record, annotation),
      because only the former is reported. `OtherMember` covers initializer
      blocks, annotation members and record compact constructors, none of
      which any of the getters returns. */
  datatype Member =
    | Method(signature: string, modifiers: Modifiers)
    | Field(variables: seq<string>, modifiers: Modifiers)
    | Constructor(signature: string, modifiers: Modifiers)
    | NestedClassOrInterface(decl: TypeDecl)
    | NestedOtherType(decl: TypeDecl)
    | OtherMember

  /** One parsed source file. */
  datatype CompilationUnit = CompilationUnit(types: seq<TypeDecl>)

  /** The runtime class of a member, as an instanceof test sees it. */
  datatype MemberKind =
    | MethodMember | FieldMember | ConstructorMember
    | ClassOrInterfaceMember | OtherTypeMember | OtherKindMember

  function KindOf(m: Member): (k: MemberKind) {
    match m
    case Method(_, _) => MethodMember
    case Field(_, _) => FieldMember
    case Constructor(_, _) => ConstructorMember
    case NestedClassOrInterface(_) => ClassOrInterfaceMember
    case NestedOtherType(_) => OtherTypeMember
    case OtherMember => OtherKindMember
  }

  /** The members of kind `k`, in declaration order. */
  function OfKind(ms: seq<Member>, k: MemberKind): (r: seq<Member>)
    ensures |r| <= |ms|
    ensures forall i :: 0 <= i < |r| ==> KindOf(r[i]) == k
    decreases |ms|
  {
    if |ms| == 0 then []
    else OfKind(ms[..|ms| - 1], k) + (if KindOf(ms[|ms| - 1]) == k then [ms[|ms| - 1]] else [])
  }

  /** getMethods, getFields and getConstructors: order-preserving filters. */
  function Methods(t: TypeDecl): (r: seq<Member>) { OfKind(t.members, MethodMember) }
  function Fields(t: TypeDecl): (r: seq<Member>) { OfKind(t.members, FieldMember) }
  function Constructors(t: TypeDecl): (r: seq<Member>) { OfKind(t.members, ConstructorMember) }

  /** The members that pass the `instanceof ClassOrInterfaceDeclaration` test. */
  function InnerClasses(t: TypeDecl): (r: seq<Member>) { OfKind(t.members, ClassOrInterfaceMember) }

  /** The filter keeps declaration order: filtering a concatenation is the
      concatenation of the filtered parts. */
  lemma {:induction false} OfKindAppend(a: seq<Member>, b: seq<Member>, k: MemberKind)
    ensures OfKind(a + b, k) == OfKind(a, k) + OfKind(b, k)
    decreases |b|
  {
    if |b| == 0 {
      assert a + b == a;
    } else {
      var b' := b[..|b| - 1];
      assert (a + b)[..|a + b| - 1] == a + b';
      assert (a + b)[|a + b| - 1] == b[|b| - 1];
      OfKindAppend(a, b', k);
    }
  }

  /** The filter keeps every member of its kind and nothing else. */
  lemma {:induction false} OfKindMembers(ms: seq<Member>, k: MemberKind)
    ensures forall m :: m in OfKind(ms, k) <==> m in ms && KindOf(m) == k
    decreases |ms|
  {
    if |ms| > 0 {
      var init := ms[..|ms| - 1];
      OfKindMembers(init, k);
      assert ms == init + [ms[|ms| - 1]];
    }
  }

  /** The number of members of kind `k`, counted one by one. */
  function Count(ms: seq<Member>, k: MemberKind): (n: nat)
    decreases |ms|
  {
    if |ms| == 0 then 0 else (if KindOf(ms[0]) == k then 1 else 0) + Count(ms[1..], k)
  }

  /** The filter keeps exactly the members of its kind: its length is their count. */
  lemma {:induction false} OfKindCount(ms: seq<Member>, k: MemberKind)
    ensures |OfKind(ms, k)| == Count(ms, k)
    decreases |ms|
  {
    if |ms| > 0 {
      assert ms == [ms[0]] + ms[1..];
      OfKindAppend([ms[0]], ms[1..], k);
      assert [ms[0]][..0] == [];
      OfKindCount(ms[1..], k);
    }
  }

  /** The six filters split the members of a type: every member lands in
      exactly one of them. */
  lemma {:induction false} KindsPartition(ms: seq<Member>)
    ensures |OfKind(ms, MethodMember)| + |OfKind(ms, FieldMember)|
          + |OfKind(ms, ConstructorMember)| + |OfKind(ms, ClassOrInterfaceMember)|
          + |OfKind(ms, OtherTypeMember)| + |OfKind(ms, OtherKindMember)| == |ms|
    decreases |ms|
  {
    if |ms| > 0 {
      KindsPartition(ms[..|ms| - 1]);
    }
  }
}
