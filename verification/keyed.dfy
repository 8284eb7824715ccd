/** Sequences of records identified by a string key, and the three
    copy-on-write transforms every store applies to them: find the first
    element with a key, drop every element with a key (an order-preserving
    filter), and rewrite every element with a key (a map that leaves the
    others alone). Products, basket lines and service categories all use
    these, each with its own key function. */
module Keyed {
  import opened Domain

  /** Some element carries key `k`. */
  predicate HasKey<T(==)>(s: seq<T>, key: T -> string, k: string) {
    exists i :: 0 <= i < |s| && key(s[i]) == k
  }

  /** No two elements share a key. */
  predicate DistinctKeys<T(==)>(s: seq<T>, key: T -> string) {
    forall i, j :: 0 <= i < j < |s| ==> key(s[i]) != key(s[j])
  }

  /** How many elements carry key `k`. */
  function CountKey<T(==)>(s: seq<T>, key: T -> string, k: string): nat {
    if |s| == 0 then 0
    else (if key(s[0]) == k then 1 else 0) + CountKey(s[1..], key, k)
  }

  /** The first element carrying key `k`, scanning from the front. */
  function Find<T(==)>(s: seq<T>, key: T -> string, k: string): (r: Option<T>)
    ensures r.None? <==> !HasKey(s, key, k)
    ensures r.Some? ==> exists i :: 0 <= i < |s| && s[i] == r.value && key(s[i]) == k
                                   && forall j :: 0 <= j < i ==> key(s[j]) != k
  {
    if |s| == 0 then None
    else if key(s[0]) == k then
      Some(s[0])
    else
      var r := Find(s[1..], key, k);
      if r.Some? then
        var i :| 0 <= i < |s[1..]| && s[1..][i] == r.value && key(s[1..][i]) == k
                 && forall j :: 0 <= j < i ==> key(s[1..][j]) != k;
        assert s[i + 1] == r.value && forall j :: 0 <= j < i + 1 ==> key(s[j]) != k;
        r
      else
        assert forall i :: 0 <= i < |s[1..]| ==> key(s[1..][i]) != k;
        r
  }

  /** `r` lists, in increasing order of position, exactly the elements of
      `s` whose key is not `k`: `idx` maps each position of `r` to the
      position of `s` it came from, strictly increasingly, and a position
      of `s` is hit exactly when its key differs from `k`. */
  ghost predicate FilteredAt<T>(r: seq<T>, s: seq<T>, key: T -> string, k: string, idx: seq<int>) {
    && |idx| == |r|
    && (forall j {:trigger idx[j]} :: 0 <= j < |idx| ==> 0 <= idx[j] < |s| && r[j] == s[idx[j]])
    && (forall i, j {:trigger idx[i], idx[j]} :: 0 <= i < j < |idx| ==> idx[i] < idx[j])
    && (forall p {:trigger p in idx} :: 0 <= p < |s| ==> (key(s[p]) != k <==> p in idx))
  }

  /** `r` is `s` filtered by key: some index map witnesses `FilteredAt`. */
  ghost predicate IsFiltered<T>(r: seq<T>, s: seq<T>, key: T -> string, k: string) {
    exists idx :: FilteredAt(r, s, key, k, idx)
  }

  /** Every element whose key is not `k`, in their original order. */
  function Without<T(==)>(s: seq<T>, key: T -> string, k: string): (r: seq<T>)
    ensures |r| <= |s|
    ensures forall i :: 0 <= i < |r| ==> r[i] in s && key(r[i]) != k
    ensures forall i :: 0 <= i < |s| && key(s[i]) != k ==> s[i] in r
    ensures !HasKey(s, key, k) ==> r == s
  {
    if |s| == 0 then []
    else
      var rest := Without(s[1..], key, k);
      if key(s[0]) == k then
        assert [] + rest == rest;
        rest
      else
        assert forall i :: 0 <= i < |s[1..]| ==> s[1..][i] == s[i + 1];
        assert s == [s[0]] + s[1..];
        [s[0]] + rest
  }

  /** The filter keeps the survivors in their original order, each once:
      an index map witnesses `FilteredAt`. */
  lemma {:induction false} WithoutIsFiltered<T>(s: seq<T>, key: T -> string, k: string)
    ensures IsFiltered(Without(s, key, k), s, key, k)
  {
    if |s| == 0 {
      assert FilteredAt([], s, key, k, []);
    } else {
      var rest := Without(s[1..], key, k);
      WithoutIsFiltered(s[1..], key, k);
      var idx' :| FilteredAt(rest, s[1..], key, k, idx');
      FilteredStep(s, key, k, rest, idx');
      WithoutCons(s, key, k);
    }
  }

  /** One step of the filter: if `rest` is `s[1..]` filtered, then `rest`
      with `s[0]` in front when its key is not `k` is `s` filtered. */
  lemma FilteredStep<T>(s: seq<T>, key: T -> string, k: string, rest: seq<T>, idx': seq<int>)
    requires |s| > 0
    requires FilteredAt(rest, s[1..], key, k, idx')
    ensures IsFiltered((if key(s[0]) == k then [] else [s[0]]) + rest, s, key, k)
  {
    if key(s[0]) == k {
      DropFirst(s, key, k, rest, idx');
      assert [] + rest == rest;
    } else {
      KeepFirst(s, key, k, rest, idx');
    }
  }

  /** Every position moved one place to the right. */
  ghost function Shift(idx: seq<int>): (sh: seq<int>)
    ensures |sh| == |idx|
    ensures forall j :: 0 <= j < |idx| ==> sh[j] == idx[j] + 1
  {
    seq(|idx|, j requires 0 <= j < |idx| => idx[j] + 1)
  }

  /** A position is in the shifted list exactly when the position before
      it is in the original. */
  lemma ShiftMembership(idx: seq<int>, p: int)
    ensures p in Shift(idx) <==> p - 1 in idx
  {
    var sh := Shift(idx);
    if p - 1 in idx {
      var j :| 0 <= j < |idx| && idx[j] == p - 1;
      assert sh[j] == p;
      assert p in sh;
    }
    if p in sh {
      var j :| 0 <= j < |sh| && sh[j] == p;
      assert idx[j] == p - 1;
      assert p - 1 in idx;
    }
  }

  /** The filter step for a first element that carries the key. */
  lemma DropFirst<T>(s: seq<T>, key: T -> string, k: string, rest: seq<T>, idx': seq<int>)
    requires |s| > 0 && key(s[0]) == k
    requires FilteredAt(rest, s[1..], key, k, idx')
    ensures FilteredAt(rest, s, key, k, Shift(idx'))
  {
    var sh := Shift(idx');
    forall j | 0 <= j < |sh|
      ensures 0 <= sh[j] < |s| && rest[j] == s[sh[j]]
    {
      assert s[1..][idx'[j]] == s[sh[j]];
    }
    forall p | 0 <= p < |s|
      ensures key(s[p]) != k <==> p in sh
    {
      ShiftMembership(idx', p);
      if p > 0 {
        assert s[1..][p - 1] == s[p];
      }
    }
  }

  /** The filter step for a first element that does not carry the key. */
  lemma KeepFirst<T>(s: seq<T>, key: T -> string, k: string, rest: seq<T>, idx': seq<int>)
    requires |s| > 0 && key(s[0]) != k
    requires FilteredAt(rest, s[1..], key, k, idx')
    ensures FilteredAt([s[0]] + rest, s, key, k, [0] + Shift(idx'))
  {
    var sh := Shift(idx');
    var idx := [0] + sh;
    var r := [s[0]] + rest;
    forall j | 0 <= j < |idx|
      ensures 0 <= idx[j] < |s| && r[j] == s[idx[j]]
    {
      if j > 0 {
        assert s[1..][idx'[j - 1]] == s[idx[j]];
      }
    }
    forall p | 0 <= p < |s|
      ensures key(s[p]) != k <==> p in idx
    {
      ShiftMembership(idx', p);
      if p > 0 {
        assert s[1..][p - 1] == s[p];
        assert p in idx <==> p in sh;
      }
    }
  }

  /** Every element whose key is `k` rewritten by `f`; the rest as they were. */
  function MapWhere<T(==)>(s: seq<T>, key: T -> string, k: string, f: T -> T): (r: seq<T>)
    ensures |r| == |s|
    ensures forall i :: 0 <= i < |s| ==> r[i] == (if key(s[i]) == k then f(s[i]) else s[i])
  {
    if |s| == 0 then []
    else [if key(s[0]) == k then f(s[0]) else s[0]] + MapWhere(s[1..], key, k, f)
  }

  // ------------------------------------------------------------------ lemmas

  /** Filtering distributes over concatenation: it keeps the survivors of
      each part in place, so the relative order of the kept elements is
      the order they had before. */
  lemma {:induction false} WithoutAppend<T>(a: seq<T>, b: seq<T>, key: T -> string, k: string)
    ensures Without(a + b, key, k) == Without(a, key, k) + Without(b, key, k)
  {
    if |a| == 0 {
      assert a + b == b;
    } else {
      assert (a + b)[0] == a[0] && (a + b)[1..] == a[1..] + b;
      WithoutCons(a + b, key, k);
      WithoutCons(a, key, k);
      WithoutAppend(a[1..], b, key, k);
      AppendAssoc(if key(a[0]) == k then [] else [a[0]], Without(a[1..], key, k), Without(b, key, k));
    }
  }

  lemma AppendAssoc<T>(x: seq<T>, y: seq<T>, z: seq<T>)
    ensures x + (y + z) == (x + y) + z
  {
  }

  /** The filter's first step: the head survives exactly when its key
      differs. */
  lemma WithoutCons<T>(s: seq<T>, key: T -> string, k: string)
    requires |s| > 0
    ensures Without(s, key, k) == (if key(s[0]) == k then [] else [s[0]]) + Without(s[1..], key, k)
  {
    if key(s[0]) == k {
      assert [] + Without(s[1..], key, k) == Without(s[1..], key, k);
    }
  }

  /** Filtering removes exactly the elements carrying the key. */
  lemma {:induction false} WithoutLength<T>(s: seq<T>, key: T -> string, k: string)
    ensures |Without(s, key, k)| == |s| - CountKey(s, key, k)
  {
    if |s| > 0 {
      WithoutLength(s[1..], key, k);
    }
  }

  /** Filtering by a key no element carries changes nothing. */
  lemma {:induction false} WithoutAbsent<T>(s: seq<T>, key: T -> string, k: string)
    requires forall j :: 0 <= j < |s| ==> key(s[j]) != k
    ensures Without(s, key, k) == s
  {
    if |s| > 0 {
      WithoutAbsent(s[1..], key, k);
      assert s == [s[0]] + s[1..];
    }
  }

  /** With distinct keys, no element before or after position `i` carries
      the key of element `i`, so filtering leaves both sides untouched. */
  lemma WithoutAroundUnique<T>(s: seq<T>, key: T -> string, i: int)
    requires DistinctKeys(s, key)
    requires 0 <= i < |s|
    ensures Without(s[..i], key, key(s[i])) == s[..i]
    ensures Without(s[i + 1..], key, key(s[i])) == s[i + 1..]
  {
    var front, back := s[..i], s[i + 1..];
    assert forall j :: 0 <= j < |front| ==> key(front[j]) != key(s[i]);
    WithoutAbsent(front, key, key(s[i]));
    assert forall j :: 0 <= j < |back| ==> back[j] == s[i + 1 + j];
    WithoutAbsent(back, key, key(s[i]));
  }

  /** With distinct keys, dropping the key of element `i` deletes exactly
      position `i`. */
  lemma WithoutUnique<T>(s: seq<T>, key: T -> string, i: int)
    requires DistinctKeys(s, key)
    requires 0 <= i < |s|
    ensures Without(s, key, key(s[i])) == s[..i] + s[i + 1..]
  {
    var k := key(s[i]);
    var front, back := s[..i], s[i + 1..];
    SplitAt(s, i);
    WithoutAppend(front, [s[i]] + back, key, k);
    WithoutAppend([s[i]], back, key, k);
    WithoutAroundUnique(s, key, i);
    assert Without([s[i]], key, k) == [];
  }

  /** A sequence is its part before `i`, its element at `i`, and its part
      after `i`. */
  lemma SplitAt<T>(s: seq<T>, i: int)
    requires 0 <= i < |s|
    ensures s == s[..i] + ([s[i]] + s[i + 1..])
  {
  }

  /** Filtering keeps keys distinct: the survivors sit at strictly
      increasing, hence different, positions of the original. */
  lemma WithoutKeepsDistinct<T>(s: seq<T>, key: T -> string, k: string)
    requires DistinctKeys(s, key)
    ensures DistinctKeys(Without(s, key, k), key)
  {
    var r := Without(s, key, k);
    WithoutIsFiltered(s, key, k);
    var idx :| FilteredAt(r, s, key, k, idx);
    forall i, j | 0 <= i < j < |r|
      ensures key(r[i]) != key(r[j])
    {
      assert idx[i] < idx[j];
      assert r[i] == s[idx[i]] && r[j] == s[idx[j]];
    }
  }

  /** With distinct keys, rewriting by key changes exactly position `i`. */
  lemma MapWhereUnique<T>(s: seq<T>, key: T -> string, f: T -> T, i: int)
    requires DistinctKeys(s, key)
    requires 0 <= i < |s|
    ensures MapWhere(s, key, key(s[i]), f) == s[i := f(s[i])]
  {
  }

  /** A rewrite that never changes an element's key keeps keys distinct. */
  lemma MapWhereKeepsDistinct<T>(s: seq<T>, key: T -> string, k: string, f: T -> T)
    requires DistinctKeys(s, key)
    requires forall x :: key(f(x)) == key(x)
    ensures DistinctKeys(MapWhere(s, key, k, f), key)
  {
  }

  /** Deleting a key after rewriting it (without moving it to another key)
      is the same as deleting it outright. */
  lemma {:induction false} WithoutAfterMapWhere<T>(s: seq<T>, key: T -> string, k: string, f: T -> T)
    requires forall x :: key(x) == k ==> key(f(x)) == k
    ensures Without(MapWhere(s, key, k, f), key, k) == Without(s, key, k)
  {
    if |s| > 0 {
      var m := MapWhere(s, key, k, f);
      assert m[1..] == MapWhere(s[1..], key, k, f);
      WithoutAfterMapWhere(s[1..], key, k, f);
    }
  }

  /** Filtering by a key twice is filtering once. */
  lemma WithoutIdempotent<T>(s: seq<T>, key: T -> string, k: string)
    ensures Without(Without(s, key, k), key, k) == Without(s, key, k)
  {
    var r := Without(s, key, k);
    assert forall i :: 0 <= i < |r| ==> key(r[i]) != k;
  }

  /** Counting a key is additive over concatenation. */
  lemma {:induction false} CountKeyConcat<T>(a: seq<T>, b: seq<T>, key: T -> string, k: string)
    ensures CountKey(a + b, key, k) == CountKey(a, key, k) + CountKey(b, key, k)
  {
    if |a| == 0 {
      assert a + b == b;
    } else {
      assert (a + b)[1..] == a[1..] + b;
      CountKeyConcat(a[1..], b, key, k);
    }
  }

  /** A key some element carries is counted at least once. */
  lemma {:induction false} CountKeyPositive<T>(s: seq<T>, key: T -> string, k: string)
    requires HasKey(s, key, k)
    ensures CountKey(s, key, k) >= 1
  {
    if key(s[0]) != k {
      var i :| 0 <= i < |s| && key(s[i]) == k;
      assert key(s[1..][i - 1]) == k;
      CountKeyPositive(s[1..], key, k);
    }
  }
}
