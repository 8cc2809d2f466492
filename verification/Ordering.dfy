/** The order of strings, and sorting by an order. */
module Ordering {

  /** Dictionary order by scalar value, which is also the order of the UTF-8 bytes. */
  predicate Leq(a: string, b: string) {
    a == "" || (b != "" && (a[0] < b[0] || (a[0] == b[0] && Leq(a[1..], b[1..]))))
  }

  predicate Less(a: string, b: string) {
    Leq(a, b) && a != b
  }

  /** The first character in which two texts differ decides, and a front part comes first. */
  lemma {:induction false} FirstCharacterDecides(a: string, b: string, i: nat)
    requires i <= |a| && i <= |b| && a[..i] == b[..i]
    ensures i == |a| ==> Leq(a, b)
    ensures i == |a| < |b| ==> Less(a, b) && !Leq(b, a)
    ensures i < |a| && i < |b| && a[i] != b[i] ==> (Less(a, b) <==> a[i] < b[i])
  {
    if i > 0 {
      assert a[..i][0] == b[..i][0];
      assert a[1..][..i - 1] == a[..i][1..] == b[1..][..i - 1];
      FirstCharacterDecides(a[1..], b[1..], i - 1);
    }
  }

  lemma {:induction false} LeqTotal(a: string, b: string)
    ensures Leq(a, b) || Leq(b, a)
  {
    if a != "" && b != "" && a[0] == b[0] {
      LeqTotal(a[1..], b[1..]);
    }
  }

  lemma {:induction false} LeqReflexive(a: string)
    ensures Leq(a, a)
  {
    if a != "" {
      LeqReflexive(a[1..]);
    }
  }

  lemma {:induction false} LeqAntisymmetric(a: string, b: string)
    requires Leq(a, b) && Leq(b, a)
    ensures a == b
  {
    if a != "" && b != "" {
      LeqAntisymmetric(a[1..], b[1..]);
      assert a == [a[0]] + a[1..] && b == [b[0]] + b[1..];
    }
  }

  lemma {:induction false} LeqTransitive(a: string, b: string, c: string)
    requires Leq(a, b) && Leq(b, c)
    ensures Leq(a, c)
  {
    if a != "" && b != "" && c != "" && a[0] == b[0] == c[0] {
      LeqTransitive(a[1..], b[1..], c[1..]);
    }
  }

  // ---------------------------------------------------------------- sorting

  ghost predicate IsTotalOrder<T(!new)>(leq: (T, T) -> bool) {
    && (forall x, y :: leq(x, y) || leq(y, x))
    && (forall x, y, z :: leq(x, y) && leq(y, z) ==> leq(x, z))
  }

  predicate SortedBy<T>(s: seq<T>, leq: (T, T) -> bool) {
    forall i, j :: 0 <= i < j < |s| ==> leq(s[i], s[j])
  }

  function Placed<T>(x: T, s: seq<T>, leq: (T, T) -> bool): (r: seq<T>)
    ensures multiset(r) == multiset{x} + multiset(s)
  {
    if s == [] then [x]
    else if leq(x, s[0]) then
      assert multiset([x] + s) == multiset{x} + multiset(s);
      [x] + s
    else
      assert s == [s[0]] + s[1..];
      [s[0]] + Placed(x, s[1..], leq)
  }

  lemma {:induction false} PlacedSorted<T(!new)>(x: T, s: seq<T>, leq: (T, T) -> bool)
    requires IsTotalOrder(leq) && SortedBy(s, leq)
    ensures SortedBy(Placed(x, s, leq), leq)
  {
    hide IsTotalOrder;
    if s != [] {
      OrderFacts(x, s[0], leq);
      if leq(x, s[0]) {
        forall i | 0 <= i < |s|
          ensures leq(x, s[i])
        {
          OrderSteps(x, s[0], s[i], leq);
        }
      } else {
        var rest := Placed(x, s[1..], leq);
        PlacedSorted(x, s[1..], leq);
        forall i | 0 <= i < |rest|
          ensures leq(s[0], rest[i])
        {
          assert rest[i] in multiset(rest);
          assert rest[i] == x || rest[i] in s[1..];
        }
      }
    }
  }

  lemma OrderFacts<T(!new)>(x: T, y: T, leq: (T, T) -> bool)
    requires IsTotalOrder(leq)
    ensures leq(x, y) || leq(y, x)
  {
  }

  lemma OrderSteps<T(!new)>(x: T, y: T, z: T, leq: (T, T) -> bool)
    requires IsTotalOrder(leq)
    ensures leq(x, y) && leq(y, z) ==> leq(x, z)
    ensures leq(y, y)
  {
  }

  /** A sorted permutation, which is all that is promised of an unstable sort. */
  function SortBy<T(!new)>(s: seq<T>, leq: (T, T) -> bool): (r: seq<T>)
    requires IsTotalOrder(leq)
    ensures SortedBy(r, leq) && multiset(r) == multiset(s)
  {
    if s == [] then []
    else
      assert s == [s[0]] + s[1..];
      PlacedSorted(s[0], SortBy(s[1..], leq), leq);
      Placed(s[0], SortBy(s[1..], leq), leq)
  }
}
