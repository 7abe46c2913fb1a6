/** The order of strings by code points, Python's order, for any kind of characters. */
module Order {

  predicate Precedes<T(==)>(rank: T -> int, a: seq<T>, b: seq<T>) {
    b != [] && (a == [] || rank(a[0]) < rank(b[0]) || (a[0] == b[0] && Precedes(rank, a[1..], b[1..])))
  }

  /** Different characters have different ranks. */
  ghost predicate Ranks<T(!new)>(rank: T -> int) {
    forall x, y :: rank(x) == rank(y) ==> x == y
  }

  lemma {:induction false} PrecedesIsTotal<T(!new)>(rank: T -> int, a: seq<T>, b: seq<T>)
    requires Ranks(rank)
    ensures !Precedes(rank, a, a)
    ensures Precedes(rank, a, b) ==> !Precedes(rank, b, a)
    ensures a != b ==> Precedes(rank, a, b) || Precedes(rank, b, a)
  {
    if a != [] {
      PrecedesIsTotal(rank, a[1..], if b == [] then [] else b[1..]);
    }
    if a != [] && b != [] {
      assert a == [a[0]] + a[1..] && b == [b[0]] + b[1..];
    }
  }

  lemma {:induction false} PrecedesIsTransitive<T>(rank: T -> int, a: seq<T>, b: seq<T>, c: seq<T>)
    requires Precedes(rank, a, b) && Precedes(rank, b, c)
    ensures Precedes(rank, a, c)
  {
    if a != [] && a[0] == b[0] && b[0] == c[0] {
      PrecedesIsTransitive(rank, a[1..], b[1..], c[1..]);
    }
  }

  /** A first difference inside equally long prefixes decides the order. */
  lemma {:induction false} PrecedesByPrefix<T>(rank: T -> int, p: seq<T>, q: seq<T>, s: seq<T>, t: seq<T>)
    requires |p| == |q|
    ensures Precedes(rank, p + s, q + t) <==> Precedes(rank, p, q) || (p == q && Precedes(rank, s, t))
  {
    if p == [] {
      assert p + s == s && q + t == t;
    } else {
      PrecedesByPrefix(rank, p[1..], q[1..], s, t);
      assert (p + s)[1..] == p[1..] + s && (q + t)[1..] == q[1..] + t;
      assert p == [p[0]] + p[1..] && q == [q[0]] + q[1..];
    }
  }

  /** The code points of the decimal digits. */
  predicate IsDigit(code: int) {
    48 <= code <= 57
  }
}
