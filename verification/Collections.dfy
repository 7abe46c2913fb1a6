/** Option and Result values, and the facts about sequences the other modules share. */
module Collections {

  datatype Option<+T> = None | Some(value: T)

  datatype Result<+T, +E> = Success(value: T) | Failure(error: E)

  /** The elements of `q` that satisfy `keep`, in order. */
  function Filter<T>(q: seq<T>, keep: T -> bool): (r: seq<T>)
    ensures |r| <= |q|
    ensures forall x :: x in r ==> x in q && keep(x)
    ensures forall x :: x in q && keep(x) ==> x in r
  {
    if q == [] then []
    else if keep(q[0]) then [q[0]] + Filter(q[1..], keep)
    else Filter(q[1..], keep)
  }

  lemma FilterCons<T>(e: T, q: seq<T>, keep: T -> bool)
    ensures Filter([e] + q, keep) == (if keep(e) then [e] else []) + Filter(q, keep)
  {
    assert ([e] + q)[1..] == q;
  }

  lemma Associate<T>(a: seq<T>, b: seq<T>, c: seq<T>)
    ensures (a + b) + c == a + (b + c)
  {
  }

  lemma SplitAt<T>(q: seq<T>, i: nat)
    requires i < |q|
    ensures q == q[..i] + [q[i]] + q[i + 1..]
  {
  }

  lemma {:induction false} FilterConcat<T>(a: seq<T>, b: seq<T>, keep: T -> bool)
    ensures Filter(a + b, keep) == Filter(a, keep) + Filter(b, keep)
  {
    if a == [] {
      assert a + b == b;
    } else {
      var e, rest := a[0], a[1..];
      assert a == [e] + rest;
      Associate([e], rest, b);
      FilterCons(e, rest, keep);
      FilterCons(e, rest + b, keep);
      FilterConcat(rest, b, keep);
      Associate(if keep(e) then [e] else [], Filter(rest, keep), Filter(b, keep));
    }
  }

  lemma {:induction false} FilterAll<T>(q: seq<T>, keep: T -> bool)
    requires forall x :: x in q ==> keep(x)
    ensures Filter(q, keep) == q
  {
    if q != [] {
      FilterAll(q[1..], keep);
      assert q == [q[0]] + q[1..];
    }
  }

  /** `a` can be obtained from `b` by deleting elements. */
  ghost predicate Subsequence<T>(a: seq<T>, b: seq<T>) {
    a == [] || (b != [] && (if a[0] == b[0] then Subsequence(a[1..], b[1..]) else Subsequence(a, b[1..])))
  }

  lemma {:induction false} SubsequenceDrop<T>(a: seq<T>, b: seq<T>)
    requires a != [] && Subsequence(a, b)
    ensures Subsequence(a[1..], b)
  {
    if a[0] == b[0] {
      if |a| > 1 {
        if a[1] == b[0] {
          SubsequenceDrop(a[1..], b[1..]);
        }
      }
    } else {
      SubsequenceDrop(a, b[1..]);
      if |a| > 1 && a[1] == b[0] {
        SubsequenceDrop(a[1..], b[1..]);
      }
    }
  }

  lemma {:induction false} SubsequenceLater<T>(a: seq<T>, b: seq<T>, x: T)
    requires Subsequence(a, b)
    ensures Subsequence(a, [x] + b)
  {
    assert ([x] + b)[1..] == b;
    if a != [] && a[0] == x {
      SubsequenceDrop(a, b);
    }
  }

  lemma {:induction false} FilterSubsequence<T>(q: seq<T>, keep: T -> bool)
    ensures Subsequence(Filter(q, keep), q)
  {
    if q != [] {
      FilterSubsequence(q[1..], keep);
      if !keep(q[0]) {
        SubsequenceLater(Filter(q[1..], keep), q[1..], q[0]);
        assert [q[0]] + q[1..] == q;
      }
    }
  }

  lemma {:induction false} SubsequenceRefl<T>(a: seq<T>)
    ensures Subsequence(a, a)
  {
    if a != [] {
      SubsequenceRefl(a[1..]);
    }
  }

  /** Appending the same suffix to both sides keeps the relation. */
  lemma {:induction false} SubsequenceAppend<T>(a: seq<T>, b: seq<T>, c: seq<T>)
    requires Subsequence(a, b)
    ensures Subsequence(a + c, b + c)
  {
    if b == [] {
      assert a + c == c && b + c == c;
      SubsequenceRefl(c);
    } else {
      assert (b + c)[1..] == b[1..] + c;
      if a != [] && a[0] == b[0] {
        SubsequenceAppend(a[1..], b[1..], c);
        assert (a + c)[1..] == a[1..] + c;
      } else {
        SubsequenceAppend(a, b[1..], c);
        SubsequenceLater(a + c, b[1..] + c, b[0]);
        assert [b[0]] + (b[1..] + c) == b + c;
      }
    }
  }

  lemma {:induction false} SubsequenceTransitive<T>(a: seq<T>, b: seq<T>, c: seq<T>)
    requires Subsequence(a, b) && Subsequence(b, c)
    ensures Subsequence(a, c)
  {
    if a != [] && c != [] {
      if b[0] == c[0] {
        if a[0] == b[0] {
          SubsequenceTransitive(a[1..], b[1..], c[1..]);
        } else {
          SubsequenceTransitive(a, b[1..], c[1..]);
        }
      } else {
        SubsequenceTransitive(a, b, c[1..]);
        SubsequenceLater(a, c[1..], c[0]);
        assert [c[0]] + c[1..] == c;
      }
    }
  }

  /** Dropping elements from the tail part `b` of `a + b` gives a subsequence. */
  lemma {:induction false} SubsequencePrefix<T>(a: seq<T>, b: seq<T>, c: seq<T>)
    requires Subsequence(b, c)
    ensures Subsequence(a + b, a + c)
  {
    if a == [] {
      assert a + b == b && a + c == c;
    } else {
      SubsequencePrefix(a[1..], b, c);
      assert (a + b)[1..] == a[1..] + b;
      assert (a + c)[1..] == a[1..] + c;
    }
  }

  /** Every element of a subsequence occurs in the longer sequence, and a subsequence
      keeps any two elements of a duplicate-free sequence in their order. */
  lemma {:induction false} SubsequenceElement<T>(a: seq<T>, b: seq<T>, x: T)
    requires Subsequence(a, b) && x in a
    ensures x in b
  {
    if a[0] == b[0] {
      if x != a[0] {
        SubsequenceElement(a[1..], b[1..], x);
      }
    } else {
      SubsequenceElement(a, b[1..], x);
    }
  }

  ghost predicate NoDuplicates<T>(q: seq<T>) {
    forall i, j :: 0 <= i < j < |q| ==> q[i] != q[j]
  }

  lemma {:induction false} NoDuplicatesPart<T>(a: seq<T>, b: seq<T>)
    requires Subsequence(a, b) && NoDuplicates(b)
    ensures NoDuplicates(a)
    decreases |b|
  {
    if a != [] {
      if a[0] == b[0] {
        NoDuplicatesPart(a[1..], b[1..]);
        forall x | x in a[1..]
          ensures x in b[1..]
        {
          SubsequenceElement(a[1..], b[1..], x);
        }
        assert forall i :: 0 < i < |a| ==> a[i] in a[1..];
      } else {
        NoDuplicatesPart(a, b[1..]);
      }
    }
  }

  lemma {:induction false} SubsequenceOrder<T>(a: seq<T>, b: seq<T>, i: nat, j: nat, k: nat, l: nat)
    requires Subsequence(a, b) && NoDuplicates(b)
    requires i < j < |a| && k < |b| && l < |b|
    requires a[i] == b[k] && a[j] == b[l]
    ensures k < l
  {
    if a[0] == b[0] {
      assert i > 0 && k == 0 ==> a[i] == b[0];
      if i == 0 {
        assert k == 0;
        SubsequenceElement(a[1..], b[1..], a[1..][j - 1]);
      } else {
        SubsequenceElement(a[1..], b[1..], a[1..][i - 1]);
        SubsequenceElement(a[1..], b[1..], a[1..][j - 1]);
        SubsequenceOrder(a[1..], b[1..], i - 1, j - 1, k - 1, l - 1);
      }
    } else {
      SubsequenceElement(a, b[1..], a[i]);
      SubsequenceElement(a, b[1..], a[j]);
      SubsequenceOrder(a, b[1..], i, j, k - 1, l - 1);
    }
  }
}
