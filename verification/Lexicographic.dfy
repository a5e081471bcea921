/** Comparisons by sign, and the laws that make one an order: they carry over from elements to
    sequences and from parts to the whole. */
module Lexicographic {

  function CompareInt(a: int, b: int): int { if a < b then -1 else if a > b then 1 else 0 }

  /** A comparison that orders: the other way round it has the other sign, and it is transitive.
      Elements that compare equal need not be the same. */
  ghost predicate Lawful<T(!new)>(cmp: (T, T) -> int) {
    && (forall x, y :: -1 <= cmp(x, y) <= 1 && cmp(y, x) == -cmp(x, y))
    && (forall x, y, z :: cmp(x, y) <= 0 && cmp(y, z) <= 0 ==> cmp(x, z) <= 0)
  }

  /** A lawful comparison is a strict weak order. */
  lemma LawfulIsWeakOrder<T(!new)>(cmp: (T, T) -> int, x: T, y: T, z: T)
    requires Lawful(cmp)
    ensures cmp(x, x) == 0
    ensures cmp(x, y) < 0 && cmp(y, z) <= 0 ==> cmp(x, z) < 0
    ensures cmp(x, y) <= 0 && cmp(y, z) < 0 ==> cmp(x, z) < 0
    ensures cmp(x, y) == 0 && cmp(y, z) == 0 ==> cmp(x, z) == 0
  {
    assert cmp(x, x) == -cmp(x, x);
    assert cmp(y, z) <= 0 && cmp(z, x) <= 0 ==> cmp(y, x) <= 0;
    assert cmp(z, x) <= 0 && cmp(x, y) <= 0 ==> cmp(z, y) <= 0;
    assert cmp(z, y) <= 0 && cmp(y, x) <= 0 ==> cmp(z, x) <= 0;
  }

  /** Element by element, the shorter first when one is a prefix of the other. */
  function Lex<T>(a: seq<T>, b: seq<T>, cmp: (T, T) -> int): int {
    if a == [] && b == [] then 0
    else if a == [] then -1
    else if b == [] then 1
    else if cmp(a[0], b[0]) != 0 then cmp(a[0], b[0])
    else Lex(a[1..], b[1..], cmp)
  }

  lemma {:induction false} LexOrders<T(!new)>(a: seq<T>, b: seq<T>, c: seq<T>, cmp: (T, T) -> int)
    requires Lawful(cmp)
    ensures -1 <= Lex(a, b, cmp) <= 1 && Lex(b, a, cmp) == -Lex(a, b, cmp)
    ensures Lex(a, b, cmp) <= 0 && Lex(b, c, cmp) <= 0 ==> Lex(a, c, cmp) <= 0
    decreases |a| + |b| + |c|
  {
    if a != [] && b != [] {
      LexOrders(a[1..], b[1..], if c == [] then [] else c[1..], cmp);
      if c != [] { LawfulIsWeakOrder(cmp, a[0], b[0], c[0]); }
    }
  }

  lemma LexIsLawful<T(!new)>(cmp: (T, T) -> int)
    requires Lawful(cmp)
    ensures Lawful((a: seq<T>, b: seq<T>) => Lex(a, b, cmp))
  {
    var lex := (a: seq<T>, b: seq<T>) => Lex(a, b, cmp);
    forall a, b ensures -1 <= lex(a, b) <= 1 && lex(b, a) == -lex(a, b) { LexOrders(a, b, [], cmp); }
    forall a, b, c | lex(a, b) <= 0 && lex(b, c) <= 0 ensures lex(a, c) <= 0 { LexOrders(a, b, c, cmp); }
  }

  /** Equal prefixes do not matter. */
  lemma {:induction false} LexSkips<T(!new)>(p: seq<T>, a: seq<T>, b: seq<T>, cmp: (T, T) -> int)
    requires forall x :: cmp(x, x) == 0
    ensures Lex(p + a, p + b, cmp) == Lex(a, b, cmp)
  {
    if p == [] {
      assert p + a == a && p + b == b;
    } else {
      assert (p + a)[1..] == p[1..] + a && (p + b)[1..] == p[1..] + b;
      LexSkips(p[1..], a, b, cmp);
    }
  }
}
