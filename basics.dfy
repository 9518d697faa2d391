/** Shared vocabulary of the model: optional values, clock readings, money and
    the "first row of a table that matches" lookup that stands for Django's
    `.get()` / `.first()` on a filtered queryset. */
module Basics {

  datatype Option<T> = None | Some(value: T)

  /** A reading of `timezone.now()`, supplied by the caller. */
  type Time = int

  /** Primary keys of the tables the model keeps. */
  type UserId = nat
  type ProductId = nat

  /** A two-decimal money amount (Django `DecimalField(decimal_places=2)`) in cents. */
  type Cents = int

  /** Index of the first element of `s` satisfying `p`, if any. */
  function FirstMatch<T>(s: seq<T>, p: T -> bool): (r: Option<nat>)
    ensures r.Some? ==> r.value < |s| && p(s[r.value])
    ensures r.Some? ==> forall i :: 0 <= i < r.value ==> !p(s[i])
    ensures r.None? <==> forall i :: 0 <= i < |s| ==> !p(s[i])
  {
    if s == [] then None
    else if p(s[0]) then Some(0)
    else match FirstMatch(s[1..], p)
      case None => None
      case Some(k) => Some(k + 1)
  }

  /** A subset is no larger than its superset. */
  lemma SubsetCard<T>(a: set<T>, b: set<T>)
    requires a <= b
    ensures |a| <= |b|
  {
    assert b == a + (b - a);
  }

  /** A subset as large as its superset is the whole of it. */
  lemma SameCardSubset<T>(a: set<T>, b: set<T>)
    requires a <= b && |a| == |b|
    ensures a == b
  {
    assert b == a + (b - a);
    assert |b - a| == 0;
  }
}
