/**
 * Build numbers: dotted sequences of non-negative integer components
 * ("145.258", "162.11.10"), where the last component of a range's upper
 * bound may be the wildcard `*` ("145.*").  The product-code prefix
 * ("IU-") plays no part in comparison and is not represented.
 */
module BuildNumbers {

  /** One dotted component: a concrete value or the wildcard `*`. */
  datatype Component = Num(value: nat) | Wildcard

  datatype BuildNumber = BuildNumber(components: seq<Component>)

  /** No component is a wildcard. */
  predicate NoWildcard(cs: seq<Component>) {
    forall i :: 0 <= i < |cs| ==> cs[i].Num?
  }

  /** The number of an actual build: at least one component, no wildcard. */
  predicate Concrete(b: BuildNumber) {
    |b.components| > 0 && NoWildcard(b.components)
  }

  /** Both numbers have a leading component (the baseline) and it is the same. */
  predicate SameBaseline(a: BuildNumber, b: BuildNumber) {
    |a.components| > 0 && |b.components| > 0 && a.components[0] == b.components[0]
  }

  /**
   * Component-wise comparison, giving -1, 0 or 1.  Concrete components are
   * compared numerically; a wildcard is greater than any concrete value and
   * two wildcards at the same position make the numbers equal whatever
   * follows; when one sequence runs out first, it is the smaller.
   */
  function CompareComponents(a: seq<Component>, b: seq<Component>): (r: int)
    ensures -1 <= r <= 1
    ensures a == [] ==> r == (if b == [] then 0 else -1)
    decreases |a|
  {
    if a == [] && b == [] then 0
    else if a == [] then -1
    else if b == [] then 1
    else match (a[0], b[0])
      case (Wildcard, Wildcard) => 0
      case (Wildcard, Num(_)) => 1
      case (Num(_), Wildcard) => -1
      case (Num(x), Num(y)) =>
        if x < y then -1 else if x > y then 1 else CompareComponents(a[1..], b[1..])
  }

  function Compare(a: BuildNumber, b: BuildNumber): int {
    CompareComponents(a.components, b.components)
  }

  /** `a` is strictly newer than `b`. */
  predicate Newer(a: BuildNumber, b: BuildNumber) {
    Compare(a, b) > 0
  }

  /** `a` is at most `b` (`b` may be a wildcard bound). */
  predicate AtMost(a: BuildNumber, b: BuildNumber) {
    Compare(a, b) <= 0
  }

  lemma {:induction false} CompareAntisymmetric(a: seq<Component>, b: seq<Component>)
    ensures CompareComponents(a, b) == -CompareComponents(b, a)
    decreases |a|
  {
    if a != [] && b != [] && a[0].Num? && a[0] == b[0] {
      CompareAntisymmetric(a[1..], b[1..]);
    }
  }

  lemma CompareReflexive(a: seq<Component>)
    ensures CompareComponents(a, a) == 0
  {
    CompareAntisymmetric(a, a);
  }

  /** For numbers of actual builds, comparing equal means being equal. */
  lemma {:induction false} CompareZeroIsEquality(a: seq<Component>, b: seq<Component>)
    requires NoWildcard(a)
    ensures CompareComponents(a, b) == 0 <==> a == b
    decreases |a|
  {
    if a == b {
      CompareReflexive(a);
    } else if a != [] && b != [] && a[0] == b[0] {
      assert a[1..] != b[1..] by {
        assert a == [a[0]] + a[1..] && b == [b[0]] + b[1..];
      }
      CompareZeroIsEquality(a[1..], b[1..]);
    }
  }

  /** A wildcard-free number is strictly below each of its proper extensions. */
  lemma {:induction false} PrefixIsSmaller(p: seq<Component>, rest: seq<Component>)
    requires rest != [] && NoWildcard(p)
    ensures CompareComponents(p, p + rest) == -1
    decreases |p|
  {
    if p != [] {
      assert (p + rest)[0] == p[0] && (p + rest)[1..] == p[1..] + rest;
      PrefixIsSmaller(p[1..], rest);
    }
  }

  lemma {:induction false} CompareTransitive(a: seq<Component>, b: seq<Component>, c: seq<Component>)
    requires CompareComponents(a, b) <= 0 && CompareComponents(b, c) <= 0
    ensures CompareComponents(a, c) <= 0
    ensures CompareComponents(a, b) < 0 || CompareComponents(b, c) < 0 ==> CompareComponents(a, c) < 0
    decreases |a|
  {
    if a != [] && b != [] && c != [] && a[0].Num? && a[0] == b[0] && b[0] == c[0] {
      CompareTransitive(a[1..], b[1..], c[1..]);
    }
  }

  function Min(x: int, y: int): int { if x < y then x else y }

  /**
   * An upper bound `p.*` admits a concrete build exactly when the build's
   * first |p| components (all of them if it is shorter) are at most `p`:
   * the wildcard stands for every value of every further component.
   */
  lemma {:induction false} WildcardBound(c: seq<Component>, p: seq<Component>)
    requires NoWildcard(c) && NoWildcard(p)
    ensures CompareComponents(c, p + [Wildcard]) <= 0 <==> CompareComponents(c[..Min(|c|, |p|)], p) <= 0
    decreases |p|
  {
    if c != [] && p != [] {
      assert (p + [Wildcard])[1..] == p[1..] + [Wildcard];
      assert c[..Min(|c|, |p|)][1..] == c[1..][..Min(|c| - 1, |p| - 1)];
      WildcardBound(c[1..], p[1..]);
    } else if c != [] {
      assert p + [Wildcard] == [Wildcard];
    }
  }

  /** Every concrete extension of `p`, and `p` itself, lies within the bound `p.*`. */
  lemma WildcardCoversExtensions(p: seq<Component>, rest: seq<Component>)
    requires NoWildcard(p + rest)
    ensures CompareComponents(p + rest, p + [Wildcard]) < 0
  {
    var c := p + rest;
    assert NoWildcard(p) by {
      forall i | 0 <= i < |p| ensures p[i].Num? { assert p[i] == c[i]; }
    }
    WildcardBound(c, p);
    assert c[..Min(|c|, |p|)] == p;
    CompareReflexive(p);
    assert |c| != |p| + 1 || c[|p|] != (p + [Wildcard])[|p|];
    CompareZeroIsEquality(c, p + [Wildcard]);
  }
}
