/** The three-way visibility classifier. Only the explicit `public` and
    `private` keywords are looked at, `public` first; `protected`, package
    access and declarations without a modifier list all fall into `other`. */
module Classifier {
  import opened Ast

  datatype Visibility = Public | Private | Other

  /** hasModifier: the keyword occurs in the declaration's modifier list. */
  predicate HasModifier(m: Modifiers, k: Keyword) {
    m.Keywords? && k in m.keywords
  }

  /** extractVisibility. */
  function ExtractVisibility(m: Modifiers): (v: Visibility)
    ensures v == Public <==> HasModifier(m, PUBLIC)
    ensures v == Private <==> !HasModifier(m, PUBLIC) && HasModifier(m, PRIVATE)
    ensures v == Other <==> !HasModifier(m, PUBLIC) && !HasModifier(m, PRIVATE)
  {
    if HasModifier(m, PUBLIC) then Public
    else if HasModifier(m, PRIVATE) then Private
    else Other
  }

  /** The word printed for a visibility. */
  function VisibilityWord(v: Visibility): (w: string)
    ensures w == "public" || w == "private" || w == "other"
    ensures 0 < |w| < 10 && w[|w| - 1] != ' '
  {
    match v
    case Public => "public"
    case Private => "private"
    case Other => "other"
  }

  /** Distinct visibilities print as distinct words. */
  lemma VisibilityWordInjective(v: Visibility, v': Visibility)
    ensures VisibilityWord(v) == VisibilityWord(v') ==> v == v'
  {
  }

  /** Only the set of keywords matters, not their order or repetition. */
  lemma VisibilityIgnoresOrder(a: seq<Keyword>, b: seq<Keyword>)
    requires forall k :: k in a <==> k in b
    ensures ExtractVisibility(Keywords(a)) == ExtractVisibility(Keywords(b))
  {
  }

  /** A declaration that carries both keywords is reported as public,
      because `public` is tested first. */
  lemma PublicWins(ks: seq<Keyword>)
    requires PUBLIC in ks && PRIVATE in ks
    ensures ExtractVisibility(Keywords(ks)) == Public
  {
  }

  /** `protected` and package access (no access keyword) are not told apart:
      both are `other`, whatever else the modifier list holds. */
  lemma ProtectedAndPackageAreOther(ks: seq<Keyword>)
    requires PUBLIC !in ks && PRIVATE !in ks
    ensures ExtractVisibility(Keywords(ks)) == Other
    ensures ExtractVisibility(Keywords([PROTECTED] + ks)) == Other
    ensures ExtractVisibility(Unmodifiable) == Other
  {
  }
}
