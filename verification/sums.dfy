/** Integer sums over a sequence. The storefront computes every aggregate as
    `reduce((acc, x) => acc + f(x), 0)`, a fold from the left starting at 0;
    `Sum` is that fold, and `SumRight` is an independent right-recursive
    reference the fold is proved equal to. */
module Sums {

  /** The left fold: the sum of the prefix, plus the last element. */
  function Sum<T>(s: seq<T>, f: T -> int): int {
    if |s| == 0 then 0 else Sum(s[..|s| - 1], f) + f(s[|s| - 1])
  }

  /** Reference definition: the first element plus the sum of the rest. */
  function SumRight<T>(s: seq<T>, f: T -> int): int {
    if |s| == 0 then 0 else f(s[0]) + SumRight(s[1..], f)
  }

  /** The fold is additive over concatenation. */
  lemma {:induction false} SumConcat<T>(a: seq<T>, b: seq<T>, f: T -> int)
    ensures Sum(a + b, f) == Sum(a, f) + Sum(b, f)
  {
    if |b| == 0 {
      assert a + b == a;
    } else {
      var ab := a + b;
      assert ab[..|ab| - 1] == a + b[..|b| - 1];
      assert ab[|ab| - 1] == b[|b| - 1];
      SumConcat(a, b[..|b| - 1], f);
    }
  }

  /** A one-element sum is that element's value. */
  lemma SumSingle<T>(x: T, f: T -> int)
    ensures Sum([x], f) == f(x)
  {
    assert [x][..0] == [];
  }

  /** Adding one element in front adds exactly its value. */
  lemma SumPrepend<T>(x: T, s: seq<T>, f: T -> int)
    ensures Sum([x] + s, f) == f(x) + Sum(s, f)
  {
    SumConcat([x], s, f);
    SumSingle(x, f);
  }

  /** The left fold agrees with the right-recursive reference. */
  lemma {:induction false} SumIsSumRight<T>(s: seq<T>, f: T -> int)
    ensures Sum(s, f) == SumRight(s, f)
  {
    if |s| > 0 {
      assert s == [s[0]] + s[1..];
      SumPrepend(s[0], s[1..], f);
      SumIsSumRight(s[1..], f);
    }
  }

  /** A sum of terms each at least 1 is at least the number of terms. */
  lemma {:induction false} SumAtLeastLength<T>(s: seq<T>, f: T -> int)
    requires forall i :: 0 <= i < |s| ==> f(s[i]) >= 1
    ensures Sum(s, f) >= |s|
  {
    if |s| > 0 {
      SumAtLeastLength(s[..|s| - 1], f);
    }
  }

  /** Replacing the element at `i` changes the sum by the difference. */
  lemma SumUpdate<T>(s: seq<T>, i: int, v: T, f: T -> int)
    requires 0 <= i < |s|
    ensures Sum(s[i := v], f) == Sum(s, f) - f(s[i]) + f(v)
  {
    assert s == s[..i] + [s[i]] + s[i + 1..];
    assert s[i := v] == s[..i] + [v] + s[i + 1..];
    SumConcat(s[..i] + [s[i]], s[i + 1..], f);
    SumConcat(s[..i] + [v], s[i + 1..], f);
    SumConcat(s[..i], [s[i]], f);
    SumConcat(s[..i], [v], f);
  }

  /** Splitting at position `i`: the sum before it, its value, the sum after. */
  lemma SumSplit<T>(s: seq<T>, i: int, f: T -> int)
    requires 0 <= i < |s|
    ensures Sum(s, f) == Sum(s[..i], f) + f(s[i]) + Sum(s[i + 1..], f)
  {
    var front, back := s[..i], s[i + 1..];
    assert s == (front + [s[i]]) + back;
    SumConcat(front + [s[i]], back, f);
    SumConcat(front, [s[i]], f);
    SumSingle(s[i], f);
  }

  /** Deleting the element at `i` removes exactly its value from the sum. */
  lemma SumRemoveAt<T>(s: seq<T>, i: int, f: T -> int)
    requires 0 <= i < |s|
    ensures Sum(s[..i] + s[i + 1..], f) == Sum(s, f) - f(s[i])
  {
    SumSplit(s, i, f);
    SumConcat(s[..i], s[i + 1..], f);
  }

  /** Two functions that agree on every element have the same sum. */
  lemma {:induction false} SumPointwise<T>(s: seq<T>, f: T -> int, g: T -> int)
    requires forall i :: 0 <= i < |s| ==> f(s[i]) == g(s[i])
    ensures Sum(s, f) == Sum(s, g)
  {
    if |s| > 0 {
      SumPointwise(s[..|s| - 1], f, g);
    }
  }
}
